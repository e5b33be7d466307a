/** The last gate before a candidate story is stored: a candidate whose
    required Story field is empty is refused as a whole; a date field whose
    value is not an ISO-8601 timestamp is cleared; a lone `updated` date is
    moved to `created`. */
module Sanitizer {
  import opened Values
  import opened Models

  /** A required field holding a falsy value refuses the candidate. Keys
      that are not Story fields never refuse, since every required field is
      a Story field. */
  predicate Rejects(k: string, v: Value)
  {
    k in REQUIRED_FIELDS && !Truthy(v)
  }

  /** A value `datetime.fromisoformat` accepts: an ISO-8601 string. */
  predicate IsDate(v: Value, isIso: string -> bool)
  {
    v.Str? && isIso(v.s)
  }

  /** A date field's value after the check: kept when it parses, None otherwise. */
  function CheckDate(k: string, v: Value, isIso: string -> bool): (r: Value)
    ensures k !in DATE_FIELDS ==> r == v
    ensures k in DATE_FIELDS ==> (r == v <==> IsDate(v, isIso) || v == Null)
    ensures k in DATE_FIELDS ==> (r == Null || IsDate(r, isIso))
  {
    if k in DATE_FIELDS && !IsDate(v, isIso) then Null else v
  }

  /** Every field of a candidate after the date check. */
  function Checked(data: Record, isIso: string -> bool): Record
  {
    map k | k in data :: CheckDate(k, data[k], isIso)
  }

  /** With no creation date but an update date, the update date becomes the creation date. */
  function Promote(r: Record): (p: Record)
    ensures Get(p, "created") == Null ==> Get(p, "updated") == Null
  {
    if Get(r, "created") == Null && Get(r, "updated") != Null
    then r["created" := r["updated"]]["updated" := Null]
    else r
  }

  /** What `sanitize_story_data` returns for a candidate. */
  function Sanitized(data: Record, isIso: string -> bool): Option<Record>
  {
    if exists k :: k in data && Rejects(k, data[k]) then None
    else Some(Promote(Checked(data, isIso)))
  }

  /** `sanitize_story_data`: one pass over the candidate's fields, then the
      promotion of a lone update date. */
  method SanitizeStoryData(data: Record, isIso: string -> bool) returns (r: Option<Record>)
    ensures r == Sanitized(data, isIso)
    ensures r.None? <==> exists k :: k in data && k in REQUIRED_FIELDS && !Truthy(data[k])
  {
    var storyData := data;
    var todo := data.Keys;
    while todo != {}
      invariant todo <= data.Keys
      invariant storyData.Keys == data.Keys
      invariant forall k :: k in data && k !in todo ==> !Rejects(k, data[k])
      invariant forall k :: k in storyData ==>
                  storyData[k] == if k in todo then data[k] else CheckDate(k, data[k], isIso)
      decreases |todo|
    {
      var fieldName :| fieldName in todo;
      todo := todo - {fieldName};
      var value := storyData[fieldName];
      if fieldName !in STORY_FIELDS {
        continue;
      }
      if !Truthy(value) && fieldName in REQUIRED_FIELDS {
        return None;
      }
      if fieldName in DATE_FIELDS && !IsDate(value, isIso) {
        storyData := storyData[fieldName := Null];
      }
    }
    assert storyData == Checked(data, isIso);
    if Get(storyData, "created") == Null && Get(storyData, "updated") != Null {
      storyData := storyData["created" := storyData["updated"]]["updated" := Null];
    }
    return Some(storyData);
  }

  /** What a sanitised candidate looks like: non-date fields are untouched,
      both dates are valid or None, an update date never stands without a
      creation date, and a creation date only appears by promotion. */
  lemma SanitizedShape(data: Record, isIso: string -> bool)
    requires Sanitized(data, isIso).Some?
    ensures var out := Sanitized(data, isIso).value;
            (forall k :: k in data && k !in DATE_FIELDS ==> k in out && out[k] == data[k])
            && (out.Keys == data.Keys || out.Keys == data.Keys + {"created"})
            && (Get(out, "created") == Null || IsDate(Get(out, "created"), isIso))
            && (Get(out, "updated") == Null || IsDate(Get(out, "updated"), isIso))
            && (Get(out, "created") == Null ==> Get(out, "updated") == Null)
            && (IsDate(Get(data, "created"), isIso) ==> Get(out, "created") == data["created"])
  {
  }

  /** A sanitised candidate passes sanitising again unchanged. */
  lemma SanitizedIdempotent(data: Record, isIso: string -> bool)
    requires Sanitized(data, isIso).Some?
    ensures Sanitized(Sanitized(data, isIso).value, isIso) == Sanitized(data, isIso)
  {
    var out := Sanitized(data, isIso).value;
    SanitizedShape(data, isIso);
    forall k | k in out
      ensures !Rejects(k, out[k])
    {
      if k !in DATE_FIELDS {
        assert out[k] == data[k];
      }
    }
    assert Checked(out, isIso) == out;
  }

  /** A candidate with an unparsable creation date and a valid update date:
      the update date is promoted and the update field cleared. */
  lemma SanitizeExample(isIso: string -> bool)
    requires !isIso("xxxx") && isIso("2022-01-01T00:00:00Z")
    ensures var data := map[
              "title" := Str("Test Title"), "created" := Str("xxxx"),
              "updated" := Str("2022-01-01T00:00:00Z"), "author" := Str("Test Author"),
              "story" := Str("Test Story"), "summary" := Str("Test Summary"),
              "image_url" := Str("http://example.com/image.jpg")];
            Sanitized(data, isIso) == Some(data["created" := Str("2022-01-01T00:00:00Z")]["updated" := Null])
  {
    var data := map[
      "title" := Str("Test Title"), "created" := Str("xxxx"),
      "updated" := Str("2022-01-01T00:00:00Z"), "author" := Str("Test Author"),
      "story" := Str("Test Story"), "summary" := Str("Test Summary"),
      "image_url" := Str("http://example.com/image.jpg")];
    forall k | k in data
      ensures !Rejects(k, data[k])
    {
      assert data[k].Str? && data[k].s != "";
    }
    var checked := Checked(data, isIso);
    assert checked == data["created" := Null];
    assert Get(checked, "created") == Null && Get(checked, "updated") == Str("2022-01-01T00:00:00Z");
    assert !exists k :: k in data && Rejects(k, data[k]);
    assert Sanitized(data, isIso) == Some(Promote(checked));
    assert Promote(checked) == checked["created" := Str("2022-01-01T00:00:00Z")]["updated" := Null];
    assert checked["created" := Str("2022-01-01T00:00:00Z")] == data["created" := Str("2022-01-01T00:00:00Z")];
  }
}
