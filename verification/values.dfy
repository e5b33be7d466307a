/** JSON-like values as the pipeline passes them around, with Python's
    truthiness, membership and indexing on them, and the exceptions that
    escape a step uncaught. */
module Values {

  datatype Option<+T> = None | Some(value: T)

  /** A decoded JSON document (what `json.loads` yields). */
  datatype Value =
    | Null
    | Bool(b: bool)
    | Int(i: int)
    | Num(r: real)
    | Str(s: string)
    | Arr(items: seq<Value>)
    | Obj(fields: map<string, Value>)

  /** A dictionary with string keys: a candidate story record, a stored row. */
  type Record = map<string, Value>

  /** The exception kinds that can escape a pipeline step; `WaitTimeout` is
      Selenium's `TimeoutException`, raised by `WebDriverWait.until`. */
  datatype Exc = KeyError | TypeError | AttributeError | WaitTimeout | RequestException

  /** A value, or the exception raised while computing it. */
  datatype Result<+T> = Ok(value: T) | Raise(exc: Exc)

  /** How a loop that may be interrupted by an exception ended. */
  datatype Outcome = Completed | Aborted(exc: Exc)

  /** Python's `bool(v)`. */
  predicate Truthy(v: Value)
  {
    match v
    case Null => false
    case Bool(b) => b
    case Int(i) => i != 0
    case Num(r) => r != 0.0
    case Str(s) => s != ""
    case Arr(xs) => xs != []
    case Obj(m) => m != map[]
  }

  /** `d.get(key)`: the value under `key`, or None when absent. */
  function Get(d: Record, key: string): Value
  {
    if key in d then d[key] else Null
  }

  /** `v[key]` with a string key: only a dictionary holding the key answers. */
  function Index(v: Value, key: string): (r: Result<Value>)
    ensures r.Ok? <==> v.Obj? && key in v.fields
    ensures r.Ok? ==> r.value == v.fields[key]
    ensures r.Raise? && v.Obj? ==> r.exc == KeyError
    ensures r.Raise? && !v.Obj? ==> r.exc == TypeError
  {
    match v
    case Obj(m) => if key in m then Ok(m[key]) else Raise(KeyError)
    case _ => Raise(TypeError)
  }

  /** `part in s` on strings: `part` occurs as a contiguous piece of `s`. */
  predicate Contains(s: string, part: string)
    decreases |s|
  {
    if |part| > |s| then false
    else s[..|part|] == part || (s != [] && Contains(s[1..], part))
  }

  /** `sep.join(items)`. */
  function Join(items: seq<string>, sep: string): string
  {
    if items == [] then ""
    else if |items| == 1 then items[0]
    else items[0] + sep + Join(items[1..], sep)
  }

  /** `len(v)` is defined on strings, lists and dictionaries only. */
  predicate Sized(v: Value)
  {
    v.Str? || v.Arr? || v.Obj?
  }

  /** `len(v)` on a value that has one. */
  function Len(v: Value): nat
    requires Sized(v)
  {
    match v
    case Str(s) => |s|
    case Arr(xs) => |xs|
    case Obj(m) => |m.Keys|
  }

  /** `key in v` with a string key: a key of a dictionary, a piece of a
      string, an element of a list; any other value raises. */
  function Has(v: Value, key: string): (r: Result<bool>)
    ensures r.Raise? <==> !Sized(v)
    ensures r.Raise? ==> r.exc == TypeError
    ensures v.Obj? ==> r == Ok(key in v.fields)
  {
    match v
    case Obj(m) => Ok(key in m)
    case Str(s) => Ok(Contains(s, key))
    case Arr(xs) => Ok(Str(key) in xs)
    case _ => Raise(TypeError)
  }

  /** A substring found at a given position is contained. */
  lemma {:induction false} ContainsAt(s: string, part: string, i: nat)
    requires i + |part| <= |s| && s[i..i + |part|] == part
    ensures Contains(s, part)
    decreases i
  {
    if i > 0 {
      assert s[1..][i - 1..i - 1 + |part|] == part;
      ContainsAt(s[1..], part, i - 1);
    } else {
      assert s[..|part|] == part;
    }
  }
}
