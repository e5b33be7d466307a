/** Story classification: the text service proposes labels for a story,
    and each acceptable proposal is matched case-insensitively against the
    label table (or added to it) and linked to the story, at most once per
    story and label. Topics are saved before locations. */
module Labels {
  import opened Values
  import opened Models
  import opened Services

  // ------------------------------------------------- reading the proposals

  /** The keys the proposals may be filed under, tried in this order. */
  const LABEL_KEYS: seq<string> := ["items", "topics", "labels", "locations"]

  /** The first key of `keys` that a dictionary holds, or |keys| when it holds none. */
  function FirstKey(m: map<string, Value>, keys: seq<string>): (i: nat)
    ensures i <= |keys|
    ensures i < |keys| ==> keys[i] in m
    ensures forall j :: 0 <= j < i ==> keys[j] !in m
  {
    if keys == [] then 0
    else if keys[0] in m then 0
    else
      var i := FirstKey(m, keys[1..]);
      assert forall j :: 1 <= j < |keys| ==> keys[j] == keys[1..][j - 1];
      1 + i
  }

  /** The if/elif chain over the keys: the value under the first key the
      document holds, [] when it holds none. Testing membership in a value
      that is not a container, or indexing a string or a list by a key,
      raises. */
  function Unwrap(doc: Value, keys: seq<string>): (r: Result<Value>)
    ensures doc.Obj? ==> r == (var i := FirstKey(doc.fields, keys);
                              Ok(if i < |keys| then doc.fields[keys[i]] else Arr([])))
    ensures !doc.Obj? ==> r.Raise? || r == Ok(Arr([]))
  {
    if keys == [] then Ok(Arr([]))
    else
      match Has(doc, keys[0])
      case Raise(e) => Raise(e)
      case Ok(present) => if present then Index(doc, keys[0]) else Unwrap(doc, keys[1..])
  }

  /** The text `collect_labels_for_story` sends: title, summary and story on three lines. */
  function StoryContent(story: Story): string
  {
    "Title: " + story.title + "\nSummary: " + story.summary + "\nStory: " + story.story
  }

  /** The request for one kind of label; each kind has its own prompt. */
  function LabelRequest(story: Story, kind: LabelType): Request
  {
    Request(Labelling(kind), [Str(StoryContent(story))])
  }

  /** `collect_labels_for_story` once the service has answered: the
      proposals filed under the first label key of the decoded answer; a
      failed call, an undecodable answer, a document without any label key
      and every exception give the empty list. */
  function CollectLabels(answer: Option<string>, env: Env): (labels: Value)
    ensures answer.None? || env.decode(answer.value).None? ==> labels == Arr([])
    ensures answer.Some? && env.decode(answer.value).Some? && !env.decode(answer.value).value.Obj?
            ==> labels == Arr([])
    ensures answer.Some? && env.decode(answer.value).Some? && env.decode(answer.value).value.Obj? ==>
              var m := env.decode(answer.value).value.fields;
              var i := FirstKey(m, LABEL_KEYS);
              labels == if i < |LABEL_KEYS| then m[LABEL_KEYS[i]] else Arr([])
  {
    match answer
    case None => Arr([])
    case Some(text) =>
      match env.decode(text)
      case None => Arr([])
      case Some(doc) =>
        match Unwrap(doc, LABEL_KEYS)
        case Raise(_) => Arr([])
        case Ok(labels) => labels
  }

  // -------------------------------------------------- checking a proposal

  /** What `save_labels` makes of one proposal. */
  datatype Entry = Accept(name: string, confidence: Value) | Skip | Crash(exc: Exc)

  /** The checks on one proposal: it must hold a name and a confidence, and
      the name's length must lie in 1..200; a proposal that is not a
      container, or a string or list holding both words, raises. */
  function CheckEntry(e: Value): (c: Entry)
    ensures c.Accept? ==> e.Obj? && "name" in e.fields && "confidence" in e.fields
                          && e.fields["name"] == Str(c.name) && c.confidence == e.fields["confidence"]
                          && 1 <= |c.name| <= 200
    ensures e.Obj? && "name" in e.fields && "confidence" in e.fields
            && e.fields["name"].Str? && 1 <= |e.fields["name"].s| <= 200
            ==> c == Accept(e.fields["name"].s, e.fields["confidence"])
    ensures e.Obj? && ("name" !in e.fields || "confidence" !in e.fields) ==> c == Skip
    ensures !Sized(e) ==> c == Crash(TypeError)
  {
    match Has(e, "name")
    case Raise(x) => Crash(x)
    case Ok(hasName) =>
      if !hasName then Skip
      else
        match Has(e, "confidence")
        case Raise(x) => Crash(x)
        case Ok(hasConfidence) =>
          if !hasConfidence then Skip
          else
            match Index(e, "name")
            case Raise(x) => Crash(x)
            case Ok(name) =>
              if !Sized(name) then Crash(TypeError)
              else if Len(name) > 200 || Len(name) < 1 then Skip
              else if !name.Str? then Crash(TypeError)
              else Accept(name.s, e.fields["confidence"])
  }

  /** The one-character strings iterating over a string yields. */
  function Chars(s: string): (r: seq<Value>)
    ensures |r| == |s| && forall i :: 0 <= i < |s| ==> r[i] == Str([s[i]])
  {
    seq(|s|, i requires 0 <= i < |s| => Str([s[i]]))
  }

  // ----------------------------------------------------------- the tables

  /** `name__iexact`: names equal up to (ASCII) case. */
  predicate SameName(a: string, b: string)
  {
    LowerAll(a) == LowerAll(b)
  }

  /** The label table (a label's id is its position) and the story-label links. */
  datatype Tables = Tables(labels: seq<Label>, links: seq<StoryLabel>)

  /** The story is linked to the label. */
  predicate Linked(t: Tables, storyId: nat, labelId: nat)
  {
    exists k :: 0 <= k < |t.links| && t.links[k].storyId == storyId && t.links[k].labelId == labelId
  }

  /** The tables as this pipeline writes them: no two labels whose names
      differ only in case (the database's own uniqueness is case-sensitive,
      so this holds only when labels come from `get_or_create` by
      `name__iexact`), every link names an existing label, and no story is
      linked twice to the same label. */
  ghost predicate ValidTables(t: Tables)
  {
    && (forall i, j :: 0 <= i < j < |t.labels| ==> !SameName(t.labels[i].name, t.labels[j].name))
    && (forall k :: 0 <= k < |t.links| ==> t.links[k].labelId < |t.labels|)
    && (forall k, m :: 0 <= k < m < |t.links| ==>
          !(t.links[k].storyId == t.links[m].storyId && t.links[k].labelId == t.links[m].labelId))
  }

  /** The first label whose name equals `name` up to case. */
  function MatchLabel(labels: seq<Label>, name: string): (r: Option<nat>)
    ensures r.None? <==> forall i :: 0 <= i < |labels| ==> !SameName(labels[i].name, name)
    ensures r.Some? ==> r.value < |labels| && SameName(labels[r.value].name, name)
    ensures r.Some? ==> forall i :: 0 <= i < r.value ==> !SameName(labels[i].name, name)
  {
    if labels == [] then None
    else
      var n := |labels| - 1;
      var r := MatchLabel(labels[..n], name);
      assert forall i :: 0 <= i < n ==> labels[..n][i] == labels[i];
      if r.Some? then r
      else if SameName(labels[n].name, name) then Some(n)
      else None
  }

  /** `Label.objects.get_or_create(name__iexact=name, defaults=...)`: the
      id of the label matching `name` up to case, which is left as it is;
      otherwise a new label with this name and kind. */
  function GetOrCreateLabel(t: Tables, name: string, kind: LabelType): (r: (nat, Tables))
    ensures r.0 < |r.1.labels| && SameName(r.1.labels[r.0].name, name)
    ensures r.1.links == t.links && t.labels <= r.1.labels
    ensures MatchLabel(t.labels, name).Some? ==> r.1 == t
    ensures MatchLabel(t.labels, name).None? ==> r.1.labels == t.labels + [Label(name, kind)]
    ensures ValidTables(t) ==> ValidTables(r.1)
  {
    match MatchLabel(t.labels, name)
    case Some(i) => (i, t)
    case None => (|t.labels|, t.(labels := t.labels + [Label(name, kind)]))
  }

  /** Saving a link: a link that already exists, or that names no label,
      breaks a constraint of the link table, and the error is swallowed. */
  function AttachLink(t: Tables, storyId: nat, labelId: nat, confidence: Value): (r: Tables)
    ensures r.labels == t.labels && t.links <= r.links
    ensures labelId < |t.labels| ==> Linked(r, storyId, labelId)
    ensures Linked(t, storyId, labelId) || labelId >= |t.labels| ==> r == t
    ensures ValidTables(t) ==> ValidTables(r)
  {
    if labelId >= |t.labels| || Linked(t, storyId, labelId) then t
    else
      var r := t.(links := t.links + [StoryLabel(storyId, labelId, confidence)]);
      assert r.links[|t.links|] == StoryLabel(storyId, labelId, confidence);
      r
  }

  // ---------------------------------------------------- saving proposals

  /** The fields a story-label link is built with: the story, the label and
      the classifier's confidence. */
  const LINK_FIELDS: set<string> := {"id", "story", "label", "confidence"}

  /** The fields the declared link model has: no confidence. */
  const DECLARED_LINK_FIELDS: set<string> := {"id", "story", "label"}

  /** `StoryLabel(story=..., label=..., confidence=...)` on a model with the
      given fields: an unknown keyword argument raises. */
  function NewLink(fields: set<string>, storyId: nat, labelId: nat, confidence: Value): (r: Result<StoryLabel>)
    ensures r.Ok? <==> "confidence" in fields
    ensures r.Ok? ==> r.value == StoryLabel(storyId, labelId, confidence)
  {
    if "confidence" in fields then Ok(StoryLabel(storyId, labelId, confidence)) else Raise(TypeError)
  }

  /** The loop of `save_labels` over the proposals, for a link model with
      the given fields. */
  function Saving(fields: set<string>, t: Tables, storyId: nat, entries: seq<Value>, kind: LabelType)
    : (r: (Outcome, Tables))
    ensures ValidTables(t) ==> ValidTables(r.1)
    ensures t.labels <= r.1.labels && t.links <= r.1.links
    ensures forall j :: |t.labels| <= j < |r.1.labels| ==>
              r.1.labels[j].kind == kind && 1 <= |r.1.labels[j].name| <= 200
    ensures forall j :: |t.links| <= j < |r.1.links| ==> r.1.links[j].storyId == storyId
    decreases |entries|
  {
    if entries == [] then (Completed, t)
    else
      match CheckEntry(entries[0])
      case Skip => Saving(fields, t, storyId, entries[1..], kind)
      case Crash(e) => (Aborted(e), t)
      case Accept(name, confidence) =>
        var (id, t1) := GetOrCreateLabel(t, name, kind);
        match NewLink(fields, storyId, id, confidence)
        case Raise(e) => (Aborted(e), t1)
        case Ok(link) =>
          Saving(fields, AttachLink(t1, storyId, id, confidence), storyId, entries[1..], kind)
  }

  /** `save_labels`: a label type outside `LabelType.values` changes
      nothing; a list is walked proposal by proposal; a string yields only
      one-character proposals; a dictionary yields its keys, and a key
      holding both words raises; any other value is not iterable. */
  function SaveLabelsResult(t: Tables, storyId: nat, labels: Value, labeltype: string): (r: (Outcome, Tables))
    ensures ParseLabelType(labeltype).None? ==> r == (Completed, t)
  {
    match ParseLabelType(labeltype)
    case None => (Completed, t)
    case Some(kind) =>
      match labels
      case Arr(xs) => Saving(LINK_FIELDS, t, storyId, xs, kind)
      case Str(s) => Saving(LINK_FIELDS, t, storyId, Chars(s), kind)
      case Obj(m) =>
        if exists k :: k in m && Contains(k, "name") && Contains(k, "confidence")
        then (Aborted(TypeError), t) else (Completed, t)
      case _ => (Aborted(TypeError), t)
  }

  /** What `save_labels` keeps and adds: the tables stay valid, existing
      labels and links are untouched, new labels are of the given type and
      new links are the story's. */
  lemma SaveLabelsShape(t: Tables, storyId: nat, labels: Value, labeltype: string)
    ensures var r := SaveLabelsResult(t, storyId, labels, labeltype);
            && (ValidTables(t) ==> ValidTables(r.1))
            && t.labels <= r.1.labels && t.links <= r.1.links
            && (forall j :: |t.labels| <= j < |r.1.labels| ==> Some(r.1.labels[j].kind) == ParseLabelType(labeltype))
            && (forall j :: |t.links| <= j < |r.1.links| ==> r.1.links[j].storyId == storyId)
  {
  }

  /** A skipped proposal leaves the tables alone and the later ones are still saved. */
  lemma SavingSkips(fields: set<string>, t: Tables, storyId: nat, e: Value, rest: seq<Value>, kind: LabelType)
    requires CheckEntry(e).Skip?
    ensures Saving(fields, t, storyId, [e] + rest, kind) == Saving(fields, t, storyId, rest, kind)
  {
    assert ([e] + rest)[1..] == rest;
  }

  /** An accepted proposal whose name matches a label up to case links that
      label, whatever its kind, and leaves the label table as it was. */
  lemma SavingReuses(t: Tables, storyId: nat, e: Value, rest: seq<Value>, kind: LabelType)
    requires CheckEntry(e).Accept? && MatchLabel(t.labels, CheckEntry(e).name).Some?
    ensures var id := MatchLabel(t.labels, CheckEntry(e).name).value;
            Saving(LINK_FIELDS, t, storyId, [e] + rest, kind)
            == Saving(LINK_FIELDS, AttachLink(t, storyId, id, CheckEntry(e).confidence), storyId, rest, kind)
  {
    assert ([e] + rest)[1..] == rest;
  }

  /** A string of proposals yields only one-character proposals, so nothing is saved. */
  lemma {:induction false} SavingChars(fields: set<string>, t: Tables, storyId: nat, s: string, kind: LabelType)
    ensures Saving(fields, t, storyId, Chars(s), kind) == (Completed, t)
    decreases |s|
  {
    if s != [] {
      assert !Contains([s[0]], "name");
      assert Chars(s)[1..] == Chars(s[1..]);
      SavingChars(fields, t, storyId, s[1..], kind);
    }
  }

  /** The story has a link to a label whose name equals `name` up to case. */
  ghost predicate HasLabelNamed(t: Tables, storyId: nat, name: string)
  {
    exists k :: 0 <= k < |t.links| && t.links[k].storyId == storyId && t.links[k].labelId < |t.labels|
                && SameName(t.labels[t.links[k].labelId].name, name)
  }

  lemma HasLabelNamedGrows(t: Tables, u: Tables, storyId: nat, name: string)
    requires HasLabelNamed(t, storyId, name)
    requires t.labels <= u.labels && t.links <= u.links
    ensures HasLabelNamed(u, storyId, name)
  {
    var k :| 0 <= k < |t.links| && t.links[k].storyId == storyId && t.links[k].labelId < |t.labels|
             && SameName(t.labels[t.links[k].labelId].name, name);
    assert u.links[k] == t.links[k] && u.labels[t.links[k].labelId] == t.labels[t.links[k].labelId];
  }

  /** When the loop completes, every accepted proposal's name is linked to
      the story, through a label named like it up to case. */
  lemma {:induction false} SavingLinksAccepted(t: Tables, storyId: nat, entries: seq<Value>, kind: LabelType)
    requires Saving(LINK_FIELDS, t, storyId, entries, kind).0 == Completed
    ensures forall i :: 0 <= i < |entries| && CheckEntry(entries[i]).Accept? ==>
              HasLabelNamed(Saving(LINK_FIELDS, t, storyId, entries, kind).1, storyId, CheckEntry(entries[i]).name)
    decreases |entries|
  {
    if entries != [] {
      var r := Saving(LINK_FIELDS, t, storyId, entries, kind);
      assert forall i :: 1 <= i < |entries| ==> entries[i] == entries[1..][i - 1];
      match CheckEntry(entries[0])
      case Skip =>
        SavingLinksAccepted(t, storyId, entries[1..], kind);
      case Accept(name, confidence) =>
        var (id, t1) := GetOrCreateLabel(t, name, kind);
        var t2 := AttachLink(t1, storyId, id, confidence);
        SavingLinksAccepted(t2, storyId, entries[1..], kind);
        var k :| 0 <= k < |t2.links| && t2.links[k].storyId == storyId && t2.links[k].labelId == id;
        assert HasLabelNamed(t2, storyId, name);
        HasLabelNamedGrows(t2, r.1, storyId, name);
    }
  }

  /** With the declared link model, which has no confidence field, the
      first accepted proposal raises once its label exists: no link is ever
      saved, and only a run without any accepted proposal completes. */
  lemma {:induction false} SavingAsDeclared(t: Tables, storyId: nat, entries: seq<Value>, kind: LabelType)
    ensures var r := Saving(DECLARED_LINK_FIELDS, t, storyId, entries, kind);
            && r.1.links == t.links
            && |r.1.labels| <= |t.labels| + 1
            && (r.0 == Completed <==> forall i :: 0 <= i < |entries| ==> CheckEntry(entries[i]).Skip?)
    decreases |entries|
  {
    if entries != [] {
      var r := Saving(DECLARED_LINK_FIELDS, t, storyId, entries, kind);
      match CheckEntry(entries[0])
      case Skip =>
        assert forall i :: 1 <= i < |entries| ==> entries[i] == entries[1..][i - 1];
        SavingAsDeclared(t, storyId, entries[1..], kind);
      case Crash(e) =>
        assert r == (Aborted(e), t);
      case Accept(name, confidence) =>
        var (id, t1) := GetOrCreateLabel(t, name, kind);
        assert NewLink(DECLARED_LINK_FIELDS, storyId, id, confidence) == Raise(TypeError);
        assert r == (Aborted(TypeError), t1);
    }
  }

  // ---------------------------------------------------- classifying stories

  /** A classification run: how it ended, the tables after it, and the calls made. */
  datatype ClassifyRun = ClassifyRun(outcome: Outcome, tables: Tables, asked: seq<Request>)

  /** `classify_story`: topic proposals are collected and saved, then
      location proposals; an exception while saving topics ends the run
      before locations are asked for. */
  function Classified(t: Tables, story: Story, answers: seq<Option<string>>, env: Env): ClassifyRun
  {
    var (topicsDone, t1) := SaveLabelsResult(t, story.id, CollectLabels(Answer(answers, 0), env), StoredValue(TOPIC));
    var topicAsked := [LabelRequest(story, TOPIC)];
    if topicsDone.Aborted? then ClassifyRun(topicsDone, t1, topicAsked)
    else
      var (locationsDone, t2) :=
        SaveLabelsResult(t1, story.id, CollectLabels(Answer(answers, 1), env), StoredValue(LOCATION));
      ClassifyRun(locationsDone, t2, topicAsked + [LabelRequest(story, LOCATION)])
  }

  /** Topics first: the run asks for topics, then (unless saving them
      raised) for locations; it only adds labels and links, the links are
      the story's, and the labels it creates are topics followed by
      locations. */
  lemma ClassifiedOrder(t: Tables, story: Story, answers: seq<Option<string>>, env: Env)
    ensures var r := Classified(t, story, answers, env);
            && (r.asked == [LabelRequest(story, TOPIC)] || r.asked == [LabelRequest(story, TOPIC), LabelRequest(story, LOCATION)])
            && (r.outcome.Completed? ==> |r.asked| == 2)
            && t.labels <= r.tables.labels && t.links <= r.tables.links
            && (forall j :: |t.links| <= j < |r.tables.links| ==> r.tables.links[j].storyId == story.id)
            && (forall j :: |t.labels| <= j < |r.tables.labels| ==>
                  r.tables.labels[j].kind == TOPIC || r.tables.labels[j].kind == LOCATION)
            && (forall i, j :: |t.labels| <= i < j < |r.tables.labels| && r.tables.labels[i].kind == LOCATION ==>
                  r.tables.labels[j].kind == LOCATION)
  {
    var r := Classified(t, story, answers, env);
    var (topicsDone, t1) := SaveLabelsResult(t, story.id, CollectLabels(Answer(answers, 0), env), StoredValue(TOPIC));
    StoredValueRoundTrip(TOPIC);
    StoredValueRoundTrip(LOCATION);
    SaveLabelsShape(t, story.id, CollectLabels(Answer(answers, 0), env), StoredValue(TOPIC));
    if !topicsDone.Aborted? {
      SaveLabelsShape(t1, story.id, CollectLabels(Answer(answers, 1), env), StoredValue(LOCATION));
      var t2 := SaveLabelsResult(t1, story.id, CollectLabels(Answer(answers, 1), env), StoredValue(LOCATION)).1;
      assert r.tables == t2;
      assert forall j :: |t.labels| <= j < |t1.labels| ==> t2.labels[j] == t1.labels[j];
    }
  }

  /** Classifying keeps the tables valid. */
  lemma ClassifiedValid(t: Tables, story: Story, answers: seq<Option<string>>, env: Env)
    requires ValidTables(t)
    ensures ValidTables(Classified(t, story, answers, env).tables)
  {
    var t1 := SaveLabelsResult(t, story.id, CollectLabels(Answer(answers, 0), env), StoredValue(TOPIC)).1;
    SaveLabelsShape(t, story.id, CollectLabels(Answer(answers, 0), env), StoredValue(TOPIC));
    SaveLabelsShape(t1, story.id, CollectLabels(Answer(answers, 1), env), StoredValue(LOCATION));
  }

  /** `classify_stories`: the stories in order, until one run raises. */
  function ClassifiedAll(t: Tables, stories: seq<Story>, answers: seq<Option<string>>, env: Env): ClassifyRun
    decreases |stories|
  {
    if stories == [] then ClassifyRun(Completed, t, [])
    else
      var first := Classified(t, stories[0], answers, env);
      if first.outcome.Aborted? then first
      else
        var rest := ClassifiedAll(first.tables, stories[1..], Drop(answers, |first.asked|), env);
        rest.(asked := first.asked + rest.asked)
  }

  /** The calls of `classify_stories` go story by story, topics then
      locations: call j is about story j / 2. */
  lemma {:induction false} ClassifiedAllOrder(t: Tables, stories: seq<Story>, answers: seq<Option<string>>, env: Env)
    ensures var r := ClassifiedAll(t, stories, answers, env);
            && |r.asked| <= 2 * |stories|
            && (r.outcome.Completed? ==> |r.asked| == 2 * |stories|)
            && InStoryOrder(r.asked, stories)
    decreases |stories|
  {
    if stories != [] {
      var first := Classified(t, stories[0], answers, env);
      ClassifiedOrder(t, stories[0], answers, env);
      if first.outcome.Completed? {
        var rest := ClassifiedAll(first.tables, stories[1..], Drop(answers, |first.asked|), env);
        ClassifiedAllOrder(first.tables, stories[1..], Drop(answers, |first.asked|), env);
        InStoryOrderCons(stories, first.asked, rest.asked);
      }
    }
  }

  /** Call j of a run over `stories` is about story j / 2: topics, then locations. */
  predicate InStoryOrder(asked: seq<Request>, stories: seq<Story>)
  {
    forall j :: 0 <= j < |asked| ==>
      j / 2 < |stories| && asked[j] == LabelRequest(stories[j / 2], if j % 2 == 0 then TOPIC else LOCATION)
  }

  lemma InStoryOrderCons(stories: seq<Story>, first: seq<Request>, rest: seq<Request>)
    requires stories != []
    requires first == [LabelRequest(stories[0], TOPIC), LabelRequest(stories[0], LOCATION)]
    requires InStoryOrder(rest, stories[1..])
    ensures InStoryOrder(first + rest, stories)
  {
    var all := first + rest;
    forall j | 2 <= j < |all|
      ensures j / 2 < |stories| && all[j] == LabelRequest(stories[j / 2], if j % 2 == 0 then TOPIC else LOCATION)
    {
      assert all[j] == rest[j - 2];
      assert (j - 2) / 2 == j / 2 - 1 && (j - 2) % 2 == j % 2;
      assert stories[1..][(j - 2) / 2] == stories[j / 2];
    }
  }

  /** A run behind the calls already made. */
  function Behind(asked: seq<Request>, r: ClassifyRun): (b: ClassifyRun)
    ensures b.outcome == r.outcome && b.tables == r.tables && b.asked == asked + r.asked
  {
    r.(asked := asked + r.asked)
  }

  /** One story of `classify_stories`, as its loop takes it. */
  lemma ClassifiedAllStep(t: Tables, stories: seq<Story>, i: nat, answers: seq<Option<string>>,
                          asked: seq<Request>, env: Env)
    requires i < |stories|
    ensures var first := Classified(t, stories[i], Drop(answers, |asked|), env);
            var whole := Behind(asked, ClassifiedAll(t, stories[i..], Drop(answers, |asked|), env));
            && (first.outcome.Aborted? ==> whole == Behind(asked, first))
            && (first.outcome.Completed? ==>
                  whole == Behind(asked + first.asked,
                                  ClassifiedAll(first.tables, stories[i + 1..], Drop(answers, |asked + first.asked|), env)))
  {
    ClassifiedAllStepAborted(t, stories, i, answers, asked, env);
    ClassifiedAllStepCompleted(t, stories, i, answers, asked, env);
  }

  /** A story whose classification raises ends the run. */
  lemma ClassifiedAllStepAborted(t: Tables, stories: seq<Story>, i: nat, answers: seq<Option<string>>,
                                 asked: seq<Request>, env: Env)
    requires i < |stories|
    ensures var first := Classified(t, stories[i], Drop(answers, |asked|), env);
            first.outcome.Aborted? ==>
              Behind(asked, ClassifiedAll(t, stories[i..], Drop(answers, |asked|), env)) == Behind(asked, first)
  {
    var tail := stories[i..];
    assert tail[0] == stories[i];
    ClassifiedAllCons(t, tail, Drop(answers, |asked|), env);
  }

  /** After a story that completes, the run goes on with the next story and the next answers. */
  lemma ClassifiedAllStepCompleted(t: Tables, stories: seq<Story>, i: nat, answers: seq<Option<string>>,
                                   asked: seq<Request>, env: Env)
    requires i < |stories|
    ensures var first := Classified(t, stories[i], Drop(answers, |asked|), env);
            first.outcome.Completed? ==>
              Behind(asked, ClassifiedAll(t, stories[i..], Drop(answers, |asked|), env))
              == Behind(asked + first.asked,
                        ClassifiedAll(first.tables, stories[i + 1..], Drop(answers, |asked + first.asked|), env))
  {
    var here := Drop(answers, |asked|);
    var first := Classified(t, stories[i], here, env);
    var tail := stories[i..];
    assert tail[0] == stories[i];
    ClassifiedAllCons(t, tail, here, env);
    if first.outcome.Completed? {
      var rest := ClassifiedAll(first.tables, tail[1..], Drop(here, |first.asked|), env);
      assert ClassifiedAll(t, tail, here, env) == Behind(first.asked, rest);
      assert tail[1..] == stories[i + 1..];
      DropDrop(answers, |asked|, |first.asked|);
      BehindBehind(asked, first.asked, rest);
    }
  }

  /** Calls put behind a run in two steps or in one. */
  lemma BehindBehind(asked: seq<Request>, more: seq<Request>, r: ClassifyRun)
    ensures Behind(asked, Behind(more, r)) == Behind(asked + more, r)
  {
    assert asked + (more + r.asked) == (asked + more) + r.asked;
  }

  /** The first story of a run, then the rest. */
  lemma ClassifiedAllCons(t: Tables, stories: seq<Story>, answers: seq<Option<string>>, env: Env)
    requires stories != []
    ensures var first := Classified(t, stories[0], answers, env);
            var whole := ClassifiedAll(t, stories, answers, env);
            && (first.outcome.Aborted? ==> whole == first)
            && (first.outcome.Completed? ==>
                  whole == Behind(first.asked, ClassifiedAll(first.tables, stories[1..], Drop(answers, |first.asked|), env)))
  {
  }

  // ---------------------------------------------------------- the store

  /** The label table and the story-label link table. */
  class LabelStore {
    var labels: seq<Label>
    var links: seq<StoryLabel>

    function Current(): Tables
      reads this
    {
      Tables(labels, links)
    }

    ghost predicate Valid()
      reads this
    {
      ValidTables(Current())
    }

    constructor ()
      ensures labels == [] && links == [] && Valid()
    {
      labels, links := [], [];
    }

    /** `get_or_create` on the label table. */
    method GetOrCreate(name: string, kind: LabelType) returns (id: nat, created: bool)
      requires Valid()
      modifies this`labels
      ensures Valid()
      ensures (id, Current()) == GetOrCreateLabel(old(Current()), name, kind)
      ensures created <==> MatchLabel(old(labels), name).None?
    {
      var found := MatchLabel(labels, name);
      if found.Some? {
        return found.value, false;
      }
      labels := labels + [Label(name, kind)];
      return |labels| - 1, true;
    }

    /** Saving a link, an integrity error swallowed. */
    method Attach(storyId: nat, labelId: nat, confidence: Value)
      requires Valid()
      modifies this`links
      ensures Valid()
      ensures Current() == AttachLink(old(Current()), storyId, labelId, confidence)
    {
      if labelId >= |labels| || Linked(Current(), storyId, labelId) {
        return;
      }
      links := links + [StoryLabel(storyId, labelId, confidence)];
    }

    /** `save_labels` for the story with this id. */
    method SaveLabels(storyId: nat, proposals: Value, labeltype: string) returns (outcome: Outcome)
      requires Valid()
      modifies this
      ensures Valid()
      ensures (outcome, Current()) == SaveLabelsResult(old(Current()), storyId, proposals, labeltype)
    {
      var kind := ParseLabelType(labeltype);
      if kind.None? {
        return Completed;
      }
      var entries: seq<Value>;
      match proposals {
        case Arr(xs) => entries := xs;
        case Str(s) => entries := Chars(s);
        case Obj(m) =>
          if exists k :: k in m && Contains(k, "name") && Contains(k, "confidence") {
            return Aborted(TypeError);
          }
          return Completed;
        case _ =>
          return Aborted(TypeError);
      }
      ghost var goal := Saving(LINK_FIELDS, Current(), storyId, entries, kind.value);
      var i := 0;
      while i < |entries|
        invariant i <= |entries| && Valid()
        invariant goal == Saving(LINK_FIELDS, Current(), storyId, entries[i..], kind.value)
        decreases |entries| - i
      {
        assert entries[i..][1..] == entries[i + 1..];
        match CheckEntry(entries[i]) {
          case Skip =>
          case Crash(e) =>
            return Aborted(e);
          case Accept(name, confidence) =>
            var id, _ := GetOrCreate(name, kind.value);
            Attach(storyId, id, confidence);
        }
        i := i + 1;
      }
      return Completed;
    }

    /** `classify_story`. */
    method ClassifyStory(story: Story, answers: seq<Option<string>>, env: Env)
      returns (outcome: Outcome, asked: seq<Request>)
      requires Valid()
      modifies this
      ensures Valid()
      ensures ClassifyRun(outcome, Current(), asked) == Classified(old(Current()), story, answers, env)
    {
      var topicLabels := CollectLabels(Answer(answers, 0), env);
      asked := [LabelRequest(story, TOPIC)];
      outcome := SaveLabels(story.id, topicLabels, StoredValue(TOPIC));
      if outcome.Aborted? {
        return;
      }
      var locationLabels := CollectLabels(Answer(answers, 1), env);
      asked := asked + [LabelRequest(story, LOCATION)];
      outcome := SaveLabels(story.id, locationLabels, StoredValue(LOCATION));
    }

    /** `classify_stories`. */
    method ClassifyStories(stories: seq<Story>, answers: seq<Option<string>>, env: Env)
      returns (outcome: Outcome, asked: seq<Request>)
      requires Valid()
      modifies this
      ensures Valid()
      ensures ClassifyRun(outcome, Current(), asked) == ClassifiedAll(old(Current()), stories, answers, env)
    {
      ghost var goal := ClassifiedAll(Current(), stories, answers, env);
      asked := [];
      assert goal == Behind(asked, ClassifiedAll(Current(), stories[0..], Drop(answers, |asked|), env));
      var i := 0;
      while i < |stories|
        invariant i <= |stories| && Valid()
        invariant goal == Behind(asked, ClassifiedAll(Current(), stories[i..], Drop(answers, |asked|), env))
        decreases |stories| - i
      {
        ClassifiedAllStep(Current(), stories, i, answers, asked, env);
        var storyAsked;
        outcome, storyAsked := ClassifyStory(stories[i], Drop(answers, |asked|), env);
        asked := asked + storyAsked;
        if outcome.Aborted? {
          return;
        }
        i := i + 1;
      }
      outcome := Completed;
    }
  }
}
