/** The stories app's persistent entities: label types and their colours,
    labels, stories with their derived user-need fields, and the
    story-label link. */
module Models {
  import opened Values

  // ---------------------------------------------------------------- labels

  /** The four label kinds, in declaration order. */
  datatype LabelType = LOCATION | TOPIC | CATEGORY | AUDIENCE

  const LABEL_TYPES: seq<LabelType> := [LOCATION, TOPIC, CATEGORY, AUDIENCE]

  /** The value a label type is stored as. */
  function StoredValue(t: LabelType): string
  {
    match t
    case LOCATION => "LOCATION"
    case TOPIC => "TOPIC"
    case CATEGORY => "CATEGORY"
    case AUDIENCE => "AUDIENCE"
  }

  /** `LabelType.values`. */
  const LABEL_TYPE_VALUES: seq<string> := ["LOCATION", "TOPIC", "CATEGORY", "AUDIENCE"]

  /** Membership in `LabelType.values`, and the member a stored value names. */
  function ParseLabelType(s: string): (r: Option<LabelType>)
    ensures r.Some? <==> s in LABEL_TYPE_VALUES
    ensures r.Some? ==> StoredValue(r.value) == s
  {
    if s == "LOCATION" then Some(LOCATION)
    else if s == "TOPIC" then Some(TOPIC)
    else if s == "CATEGORY" then Some(CATEGORY)
    else if s == "AUDIENCE" then Some(AUDIENCE)
    else None
  }

  /** Every member's stored value parses back to that member. */
  lemma StoredValueRoundTrip(t: LabelType)
    ensures ParseLabelType(StoredValue(t)) == Some(t)
    ensures StoredValue(t) in LABEL_TYPE_VALUES
  {
  }

  /** Blue, green, cyan, yellow. */
  const COLORS: seq<string> := ["#007bff", "#28a745", "#17a2b8", "#ffc107"]

  /** `LABEL_COLORS`: the label types zipped with the colours, position by
      position (the dictionary the comprehension over `zip` builds). */
  const LABEL_COLORS: map<LabelType, string> :=
    map[LOCATION := COLORS[0], TOPIC := COLORS[1], CATEGORY := COLORS[2], AUDIENCE := COLORS[3]]

  /** `Label.label_color`: a lookup in `LABEL_COLORS`, defined for every type. */
  function LabelColor(t: LabelType): (c: string)
    ensures c == COLORS[Position(t)]
  {
    assert t == LOCATION || t == TOPIC || t == CATEGORY || t == AUDIENCE;
    LABEL_COLORS[t]
  }

  /** The position of a type in declaration order. */
  function Position(t: LabelType): (i: nat)
    ensures i < |LABEL_TYPES| && LABEL_TYPES[i] == t
  {
    match t
    case LOCATION => 0
    case TOPIC => 1
    case CATEGORY => 2
    case AUDIENCE => 3
  }

  /** The colour table, entry by entry. */
  lemma LabelColorTable()
    ensures LabelColor(LOCATION) == "#007bff"
    ensures LabelColor(TOPIC) == "#28a745"
    ensures LabelColor(CATEGORY) == "#17a2b8"
    ensures LabelColor(AUDIENCE) == "#ffc107"
  {
  }

  /** Distinct label types get distinct colours. */
  lemma LabelColorInjective(t: LabelType, u: LabelType)
    requires t != u
    ensures LabelColor(t) != LabelColor(u)
  {
  }

  /** A named, typed tag. */
  datatype Label = Label(name: string, kind: LabelType)

  /** `Label.__str__`: the name, a colon and a space, then the stored type. */
  function LabelString(l: Label): string
  {
    l.name + ": " + StoredValue(l.kind)
  }

  /** The name and the type can both be read back from a label's text. */
  lemma LabelStringParts(l: Label)
    ensures |LabelString(l)| == |l.name| + 2 + |StoredValue(l.kind)|
    ensures LabelString(l)[..|l.name|] == l.name
    ensures LabelString(l)[|l.name|..|l.name| + 2] == ": "
    ensures ParseLabelType(LabelString(l)[|l.name| + 2..]) == Some(l.kind)
  {
    var s := LabelString(l);
    assert s[|l.name| + 2..] == StoredValue(l.kind);
    StoredValueRoundTrip(l.kind);
  }

  /** A link from a story to a label, carrying the classifier's confidence.
      The declared model has no `confidence` field; the classifier writes one. */
  datatype StoryLabel = StoryLabel(storyId: nat, labelId: nat, confidence: Value)

  // ---------------------------------------------------------------- stories

  /** The keys of the user-needs dictionary `Story.save` builds, in order. */
  const NEED_KEYS: seq<string> := ["know", "understand", "feel", "do"]

  /** The names `needsPrimary` can take (see `CapitalizedKeys`). */
  const NEED_NAMES: seq<string> := ["Know", "Understand", "Feel", "Do"]

  /** ASCII upper and lower case, as `str.capitalize` applies them. */
  function Upper(c: char): char
  {
    if 'a' <= c <= 'z' then (c as int - 32) as char else c
  }

  function Lower(c: char): char
  {
    if 'A' <= c <= 'Z' then (c as int + 32) as char else c
  }

  function LowerAll(s: string): (r: string)
    ensures |r| == |s|
  {
    if s == [] then [] else [Lower(s[0])] + LowerAll(s[1..])
  }

  /** Lower-casing works character by character. */
  lemma {:induction false} LowerAllChars(s: string)
    ensures forall i :: 0 <= i < |s| ==> LowerAll(s)[i] == Lower(s[i])
  {
    if s != [] {
      LowerAllChars(s[1..]);
      assert forall i :: 1 <= i < |s| ==> LowerAll(s)[i] == LowerAll(s[1..])[i - 1];
    }
  }

  /** Lower-casing a text without upper-case letters leaves it unchanged. */
  lemma {:induction false} LowerAllUnchanged(s: string)
    requires forall i :: 0 <= i < |s| ==> !('A' <= s[i] <= 'Z')
    ensures LowerAll(s) == s
  {
    if s != [] {
      LowerAllUnchanged(s[1..]);
    }
  }

  /** `str.capitalize`: the first character upper case, the rest lower case. */
  function Capitalize(s: string): (r: string)
    ensures |r| == |s|
  {
    if s == [] then [] else [Upper(s[0])] + LowerAll(s[1..])
  }

  /** Character by character: the first one upper-cased, every later one
      lower-cased. */
  lemma CapitalizeChars(s: string)
    ensures s != [] ==> Capitalize(s)[0] == Upper(s[0])
    ensures forall i :: 1 <= i < |s| ==> Capitalize(s)[i] == Lower(s[i])
  {
    if s != [] {
      var r := Capitalize(s);
      LowerAllChars(s[1..]);
      forall i | 1 <= i < |s|
        ensures r[i] == Lower(s[i])
      {
        assert r[i] == LowerAll(s[1..])[i - 1];
      }
    }
  }

  /** A word whose later characters are not upper case capitalises to `c`
      when `c` is the word with its first character upper-cased. */
  lemma CapitalizeWord(w: string, c: string)
    requires |w| == |c| && w != []
    requires c[0] == Upper(w[0])
    requires forall i :: 1 <= i < |w| ==> c[i] == w[i] && !('A' <= w[i] <= 'Z')
    ensures Capitalize(w) == c
  {
    LowerAllUnchanged(w[1..]);
    assert c == [c[0]] + w[1..];
  }

  /** The short keys capitalised. */
  lemma CapitalizedWords()
    ensures Capitalize("know") == "Know" && Capitalize("feel") == "Feel" && Capitalize("do") == "Do"
  {
    CapitalizeWord("know", "Know");
    CapitalizeWord("feel", "Feel");
    CapitalizeWord("do", "Do");
  }

  /** The longest key capitalised. */
  lemma CapitalizedUnderstand()
    ensures Capitalize("understand") == "Understand"
  {
    CapitalizeWord("understand", "Understand");
  }

  /** Capitalising the need keys gives the need names. */
  lemma CapitalizedKeys()
    ensures forall i :: 0 <= i < |NEED_KEYS| ==> Capitalize(NEED_KEYS[i]) == NEED_NAMES[i]
  {
    forall i | 0 <= i < |NEED_KEYS|
      ensures Capitalize(NEED_KEYS[i]) == NEED_NAMES[i]
    {
      if i == 1 {
        CapitalizedUnderstand();
      } else {
        CapitalizedWords();
      }
    }
  }

  /** The position Python's `max` picks: it scans left to right and replaces
      its candidate only by a strictly larger score. */
  function FirstMax(scores: seq<int>): (i: nat)
    requires |scores| > 0
    ensures i < |scores|
  {
    if |scores| == 1 then 0
    else
      var j := FirstMax(scores[..|scores| - 1]);
      if scores[|scores| - 1] > scores[j] then |scores| - 1 else j
  }

  /** The position `FirstMax` picks holds a maximal score, and every earlier
      score is strictly smaller: the first of the ties. */
  lemma {:induction false} FirstMaxIsFirst(scores: seq<int>)
    requires |scores| > 0
    ensures forall k :: 0 <= k < |scores| ==> scores[k] <= scores[FirstMax(scores)]
    ensures forall k :: 0 <= k < FirstMax(scores) ==> scores[k] < scores[FirstMax(scores)]
  {
    if |scores| > 1 {
      FirstMaxIsFirst(scores[..|scores| - 1]);
    }
  }

  /** The name of the highest need, ties to the earliest: the capitalised
      key at `FirstMax` (see `CapitalizedKeys`). */
  function PrimaryNeed(needs: seq<int>): string
    requires |needs| == |NEED_KEYS|
  {
    NEED_NAMES[FirstMax(needs)]
  }

  /** `needsPrimary` is the name at the first maximal score. */
  lemma PrimaryNeedName(needs: seq<int>)
    requires |needs| == |NEED_KEYS|
    ensures exists i :: 0 <= i < |NEED_NAMES| && PrimaryNeed(needs) == NEED_NAMES[i]
              && (forall k :: 0 <= k < |needs| ==> needs[k] <= needs[i])
              && (forall k :: 0 <= k < i ==> needs[k] < needs[i])
  {
    FirstMaxIsFirst(needs);
    assert PrimaryNeed(needs) == NEED_NAMES[FirstMax(needs)];
  }

  /** A news item. Everything but the user-need scores and their derived
      fields is fixed once the row exists. */
  class Story {
    const id: nat
    const title: string
    const created: Option<string>
    const updated: Option<string>
    const author: string
    const story: string
    const summary: string
    const url: string
    const image: Option<string>
    const imageUrl: string
    const source: Option<nat>

    var needsKnow: int
    var needsUnderstand: int
    var needsFeel: int
    var needsDo: int
    var needsSum: int
    var needsPrimary: string

    /** A new, unsaved story: every score at its default of 0. */
    constructor (id: nat, title: string, created: Option<string>, updated: Option<string>,
                 author: string, story: string, summary: string, url: string,
                 image: Option<string>, imageUrl: string, source: Option<nat>)
      ensures this.id == id && this.title == title && this.created == created
      ensures this.updated == updated && this.author == author && this.story == story
      ensures this.summary == summary && this.url == url && this.image == image
      ensures this.imageUrl == imageUrl && this.source == source
      ensures Needs() == [0, 0, 0, 0] && needsSum == 0 && needsPrimary == ""
    {
      this.id, this.title, this.created, this.updated := id, title, created, updated;
      this.author, this.story, this.summary, this.url := author, story, summary, url;
      this.image, this.imageUrl, this.source := image, imageUrl, source;
      needsKnow, needsUnderstand, needsFeel, needsDo := 0, 0, 0, 0;
      needsSum, needsPrimary := 0, "";
    }

    /** The four scores in the order `save` lists them. */
    function Needs(): (s: seq<int>)
      reads this
      ensures |s| == |NEED_KEYS|
    {
      [needsKnow, needsUnderstand, needsFeel, needsDo]
    }

    /** The derived fields agree with the scores, as every save leaves them. */
    ghost predicate Derived()
      reads this
    {
      needsSum == needsKnow + needsUnderstand + needsFeel + needsDo
      && needsPrimary == PrimaryNeed(Needs())
    }

    /** `Story.save`: recompute the derived fields before writing the row. */
    method Save()
      modifies this`needsSum, this`needsPrimary
      ensures Derived()
      ensures needsSum == needsKnow + needsUnderstand + needsFeel + needsDo
      ensures Needs() == old(Needs())
    {
      var userNeeds := [needsKnow, needsUnderstand, needsFeel, needsDo];
      var maxScoreField := NEED_KEYS[FirstMax(userNeeds)];
      needsPrimary := Capitalize(maxScoreField);
      needsSum := needsKnow + needsUnderstand + needsFeel + needsDo;
      CapitalizedKeys();
    }
  }

  /** The primary need for the scores 20, 30, 40, 50 is Do. */
  lemma SaveExample()
    ensures PrimaryNeed([20, 30, 40, 50]) == "Do"
  {
    assert FirstMax([20, 30, 40, 50]) == 3;
  }

  /** With all scores equal the first key wins: a fresh story's primary need is Know. */
  lemma TiesGoToKnow(x: int)
    ensures PrimaryNeed([x, x, x, x]) == "Know"
  {
    var needs := [x, x, x, x];
    var i := FirstMax(needs);
    FirstMaxIsFirst(needs);
    assert needs[0] == x && needs[i] == x;
  }

  // ------------------------------------------------- the Story field table

  /** The names `Story._meta.get_fields()` yields: the reverse link from
      StoryLabel, the id, the declared fields and the many-to-many labels. */
  const STORY_FIELDS: set<string> := {
    "storylabel", "id", "title", "created", "updated", "author", "story",
    "summary", "url", "image", "image_url", "source", "needsKnow",
    "needsUnderstand", "needsFeel", "needsDo", "needsSum", "needsPrimary", "labels" }

  /** The fields declared with neither `null=True` nor `blank=True`. */
  const REQUIRED_FIELDS: set<string> := {
    "title", "summary", "url", "needsKnow", "needsUnderstand", "needsFeel", "needsDo", "needsSum" }

  /** The DateTimeField fields. */
  const DATE_FIELDS: set<string> := {"created", "updated"}
}
