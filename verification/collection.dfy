/** Story collection: from a source's front page to candidate URLs, and from
    each URL to a stored story. Every external call (fetching, parsing, the
    text service) is an oracle from Services; the text service's answers are
    a script consumed one per call. */
module Collection {
  import opened Values
  import opened Models
  import opened Services
  import opened Sources
  import opened Scraping
  import opened Sanitizer

  /** A summary longer than this many words is regenerated. */
  const SUMMARY_WORDS := 30

  /** The collection loop stops once this many stories are stored. */
  const STORY_LIMIT := 5

  // ------------------------------------------------------------- word count

  /** The characters `str.split()` treats as separators. */
  predicate IsSpace(c: char)
  {
    var n := c as int;
    n == 32 || 9 <= n <= 13 || 28 <= n <= 31 || n == 0x85 || n == 0xA0 || n == 0x1680
    || 0x2000 <= n <= 0x200A || n == 0x2028 || n == 0x2029 || n == 0x202F || n == 0x205F
    || n == 0x3000
  }

  /** A non-empty piece of text without separators. */
  predicate Word(w: string)
  {
    w != [] && forall i :: 0 <= i < |w| ==> !IsSpace(w[i])
  }

  /** The text after its leading run of non-separators. */
  function SkipWord(s: string): (r: string)
    ensures |r| <= |s| && r == s[|s| - |r|..]
    ensures r == [] || IsSpace(r[0])
    ensures s != [] && !IsSpace(s[0]) ==> |r| < |s|
  {
    if s == [] || IsSpace(s[0]) then s else SkipWord(s[1..])
  }

  /** `len(s.split())`: the number of maximal runs of non-separators. */
  function WordCount(s: string): nat
    decreases |s|
  {
    if s == [] then 0
    else if IsSpace(s[0]) then WordCount(s[1..])
    else 1 + WordCount(SkipWord(s))
  }

  lemma {:induction false} SkipWordOver(w: string, t: string)
    requires forall i :: 0 <= i < |w| ==> !IsSpace(w[i])
    requires t == [] || IsSpace(t[0])
    ensures SkipWord(w + t) == t
  {
    if w == [] {
      assert w + t == t;
    } else {
      assert (w + t)[0] == w[0];
      assert (w + t)[1..] == w[1..] + t;
      SkipWordOver(w[1..], t);
    }
  }

  /** Splitting words joined by single spaces counts the words again. */
  lemma {:induction false} WordCountJoin(words: seq<string>)
    requires forall i :: 0 <= i < |words| ==> Word(words[i])
    ensures WordCount(Join(words, " ")) == |words|
  {
    if |words| == 1 {
      SkipWordOver(words[0], []);
      assert words[0] + [] == words[0];
    } else if |words| > 1 {
      var rest := Join(words[1..], " ");
      assert Join(words, " ") == words[0] + (" " + rest);
      SkipWordOver(words[0], " " + rest);
      assert (" " + rest)[1..] == rest;
      WordCountJoin(words[1..]);
    }
  }

  /** `interpret_html_content`'s request: the extracted content of the page. */
  function ExtractionRequest(html: string, env: Env): Request
  {
    Request(StoryExtraction, [Obj(ExtractStoryContent(html, env))])
  }

  /** `interpret_html_content` once the service has answered. */
  function InterpretHtmlContent(answer: Option<string>, env: Env): (r: Option<Value>)
    ensures r.None? <==> answer.None? || env.decode(answer.value).None?
    ensures r.Some? ==> r.value == env.decode(answer.value).value
  {
    match answer
    case None => None
    case Some(text) => env.decode(text)
  }

  /** `generate_summary_from_story` once the service has answered: a failed
      call or undecodable text gives None; a decoded document without a
      `summary` key raises. */
  function SummaryFromAnswer(answer: Option<string>, env: Env): (r: Result<Value>)
    ensures answer.None? ==> r == Ok(Null)
    ensures answer.Some? && env.decode(answer.value).None? ==> r == Ok(Null)
    ensures answer.Some? && env.decode(answer.value).Some? ==> r == Index(env.decode(answer.value).value, "summary")
  {
    match answer
    case None => Ok(Null)
    case Some(text) =>
      match env.decode(text)
      case None => Ok(Null)
      case Some(doc) => Index(doc, "summary")
  }

  /** `validate_summary` once the service has answered: only a decoded
      document whose `validation` is exactly "yes" approves. */
  function ValidationFromAnswer(answer: Option<string>, env: Env): (r: Result<bool>)
    ensures answer.None? ==> r == Ok(false)
    ensures answer.Some? && env.decode(answer.value).None? ==> r == Ok(false)
    ensures r == Ok(true) <==>
              answer.Some? && env.decode(answer.value).Some?
              && Index(env.decode(answer.value).value, "validation") == Ok(Str("yes"))
  {
    match answer
    case None => Ok(false)
    case Some(text) =>
      match env.decode(text)
      case None => Ok(false)
      case Some(doc) =>
        match Index(doc, "validation")
        case Raise(e) => Raise(e)
        case Ok(v) => Ok(v == Str("yes"))
  }

  // ---------------------------------------------------------------- summary

  /** The candidate has a summary to look at. */
  predicate HasSummary(d: Record)
  {
    "summary" in d && Truthy(d["summary"])
  }

  /** The candidate's own summary is kept for validation. */
  predicate ShortSummary(d: Record)
  {
    HasSummary(d) && d["summary"].Str? && WordCount(d["summary"].s) <= SUMMARY_WORDS
  }

  /** The position of the validation call among a run's calls. */
  function ValidationIndex(d: Record): nat
  {
    if ShortSummary(d) then 0 else 1
  }

  /** The calls one `generate_summary` made and what it returned. */
  datatype SummaryRun = SummaryRun(result: Result<Value>, asked: seq<Request>)

  /** The candidate with its summary replaced by a freshly generated one. */
  function Regenerated(d: Record, answer: Option<string>, env: Env): Result<Record>
  {
    match SummaryFromAnswer(answer, env)
    case Raise(e) => Raise(e)
    case Ok(s) => Ok(d["summary" := s])
  }

  /** The validation call, the k-th of the run, and, when it does not
      approve, the one regeneration after it. */
  function Validated(d: Record, answers: seq<Option<string>>, k: nat, env: Env): (run: SummaryRun)
    requires "story" in d && "summary" in d
    ensures run.asked == [Request(SummaryValidation, [d["story"], d["summary"]])]
            || run.asked == [Request(SummaryValidation, [d["story"], d["summary"]]), Request(SummaryWriting, [d["story"]])]
  {
    var check := Request(SummaryValidation, [d["story"], d["summary"]]);
    match ValidationFromAnswer(Answer(answers, k), env)
    case Raise(e) => SummaryRun(Raise(e), [check])
    case Ok(approved) =>
      if approved then SummaryRun(Ok(Obj(d)), [check])
      else
        var gen := Request(SummaryWriting, [d["story"]]);
        match Regenerated(d, Answer(answers, k + 1), env)
        case Raise(e) => SummaryRun(Raise(e), [check, gen])
        case Ok(d2) => SummaryRun(Ok(Obj(d2)), [check, gen])
  }

  /** What `generate_summary` does with a candidate: keep a short summary,
      otherwise generate one from `story`; validate once; on anything but
      approval generate once more without validating again. The exceptions
      that escape it, and the calls made before they do, are part of the run. */
  function Summarised(storyData: Value, answers: seq<Option<string>>, env: Env): (run: SummaryRun)
    ensures !storyData.Obj? ==> run == SummaryRun(Raise(TypeError), [])
    ensures storyData.Obj? && HasSummary(storyData.fields) && !storyData.fields["summary"].Str? ==>
              run == SummaryRun(Raise(AttributeError), [])
    ensures (storyData.Obj? && !(HasSummary(storyData.fields) && !storyData.fields["summary"].Str?)
             && "story" !in storyData.fields) ==> run == SummaryRun(Raise(KeyError), [])
  {
    if !storyData.Obj? then SummaryRun(Raise(TypeError), [])
    else
      var d := storyData.fields;
      if HasSummary(d) && !d["summary"].Str? then SummaryRun(Raise(AttributeError), [])
      else if "story" !in d then SummaryRun(Raise(KeyError), [])
      else if ShortSummary(d) then Validated(d, answers, 0, env)
      else
        var gen := Request(SummaryWriting, [d["story"]]);
        match Regenerated(d, Answer(answers, 0), env)
        case Raise(e) => SummaryRun(Raise(e), [gen])
        case Ok(d1) =>
          var run := Validated(d1, answers, 1, env);
          SummaryRun(run.result, [gen] + run.asked)
  }

  /** The inputs on which `generate_summary` gets as far as its first call. */
  predicate Summarisable(storyData: Value)
  {
    storyData.Obj? && "story" in storyData.fields
    && !(HasSummary(storyData.fields) && !storyData.fields["summary"].Str?)
  }

  /** The first call validates the candidate's own summary when it is short,
      and generates a new one from the story otherwise. */
  lemma SummarisedFirstCall(storyData: Value, answers: seq<Option<string>>, env: Env)
    requires Summarisable(storyData)
    ensures var run := Summarised(storyData, answers, env);
            var d := storyData.fields;
            |run.asked| >= 1
            && run.asked[0] == if ShortSummary(d) then Request(SummaryValidation, [d["story"], d["summary"]])
                               else Request(SummaryWriting, [d["story"]])
  {
  }

  /** At most three calls: at most two generations and one validation, and
      exactly one validation when a record comes back. */
  lemma SummarisedCalls(storyData: Value, answers: seq<Option<string>>, env: Env)
    ensures var run := Summarised(storyData, answers, env);
            |run.asked| <= 3
            && CountTask(run.asked, SummaryWriting) <= 2
            && CountTask(run.asked, SummaryValidation) <= 1
            && (run.result.Ok? ==> CountTask(run.asked, SummaryValidation) == 1)
  {
    var run := Summarised(storyData, answers, env);
    if Summarisable(storyData) {
      var d := storyData.fields;
      if ShortSummary(d) {
        CountValidated(run.asked);
      } else {
        var gen := Request(SummaryWriting, [d["story"]]);
        var first := Regenerated(d, Answer(answers, 0), env);
        if first.Ok? {
          var tail := Validated(first.value, answers, 1, env);
          assert run.asked == [gen] + tail.asked;
          CountValidated(tail.asked);
          CountTaskAppend([gen], tail.asked, SummaryWriting);
          CountTaskAppend([gen], tail.asked, SummaryValidation);
        }
      }
    }
  }

  /** Task counts of a validation run. */
  lemma CountValidated(asked: seq<Request>)
    requires 1 <= |asked| <= 2 && asked[0].task == SummaryValidation
    requires |asked| == 2 ==> asked[1].task == SummaryWriting
    ensures CountTask(asked, SummaryValidation) == 1
    ensures CountTask(asked, SummaryWriting) == |asked| - 1
  {
    if |asked| == 2 {
      assert asked[1..][1..] == [];
    }
  }

  /** When a record comes back only its summary differs from the candidate.
      The validation call is the first call for a kept summary and the second
      otherwise; an approved summary is returned as validated, and anything
      else leads to exactly one more generation, whose result is returned. */
  lemma SummarisedSuccess(storyData: Value, answers: seq<Option<string>>, env: Env)
    requires Summarised(storyData, answers, env).result.Ok?
    ensures var run := Summarised(storyData, answers, env);
            var out := run.result.value;
            var v := ValidationIndex(storyData.fields);
            storyData.Obj? && out.Obj? && "summary" in out.fields
            && out.fields == storyData.fields["summary" := out.fields["summary"]]
            && v < |run.asked| && run.asked[v].task == SummaryValidation
            && (ValidationFromAnswer(Answer(answers, v), env) == Ok(true) ==>
                  |run.asked| == v + 1 && out.fields["summary"] == run.asked[v].inputs[1])
            && (ValidationFromAnswer(Answer(answers, v), env) == Ok(false) ==>
                  |run.asked| == v + 2 && run.asked[v + 1].task == SummaryWriting
                  && out.fields["summary"] == SummaryFromAnswer(Answer(answers, v + 1), env).value)
  {
    var run := Summarised(storyData, answers, env);
    var d := storyData.fields;
    if ShortSummary(d) {
      ValidatedSuccess(d, answers, 0, env);
    } else {
      var first := Regenerated(d, Answer(answers, 0), env);
      var d1 := first.value;
      ValidatedSuccess(d1, answers, 1, env);
      var tail := Validated(d1, answers, 1, env);
      assert run.asked == [Request(SummaryWriting, [d["story"]])] + tail.asked;
    }
  }

  /** When a record comes back, the validation call checked the story
      against the kept summary, or else against the one the first call
      generated from the story. */
  lemma SummarisedChecked(storyData: Value, answers: seq<Option<string>>, env: Env)
    requires Summarised(storyData, answers, env).result.Ok?
    ensures var run := Summarised(storyData, answers, env);
            var v := ValidationIndex(storyData.fields);
            storyData.Obj? && "story" in storyData.fields
            && v < |run.asked| && run.asked[v].task == SummaryValidation
            && |run.asked[v].inputs| == 2 && run.asked[v].inputs[0] == storyData.fields["story"]
            && (ShortSummary(storyData.fields) ==> run.asked[v].inputs[1] == storyData.fields["summary"])
            && (!ShortSummary(storyData.fields) ==>
                  run.asked[0] == Request(SummaryWriting, [storyData.fields["story"]])
                  && SummaryFromAnswer(Answer(answers, 0), env).Ok?
                  && run.asked[v].inputs[1] == SummaryFromAnswer(Answer(answers, 0), env).value)
  {
    var run := Summarised(storyData, answers, env);
    var d := storyData.fields;
    if !ShortSummary(d) {
      var d1 := Regenerated(d, Answer(answers, 0), env).value;
      var tail := Validated(d1, answers, 1, env);
      assert run.asked == [Request(SummaryWriting, [d["story"]])] + tail.asked;
    }
  }

  lemma ValidatedSuccess(d: Record, answers: seq<Option<string>>, k: nat, env: Env)
    requires "story" in d && "summary" in d
    requires Validated(d, answers, k, env).result.Ok?
    ensures var run := Validated(d, answers, k, env);
            var out := run.result.value;
            out.Obj? && "summary" in out.fields && out.fields == d["summary" := out.fields["summary"]]
            && (ValidationFromAnswer(Answer(answers, k), env) == Ok(true) ==>
                  |run.asked| == 1 && out.fields["summary"] == d["summary"])
            && (ValidationFromAnswer(Answer(answers, k), env) == Ok(false) ==>
                  |run.asked| == 2 && out.fields["summary"] == SummaryFromAnswer(Answer(answers, k + 1), env).value)
  {
    if ValidationFromAnswer(Answer(answers, k), env) == Ok(true) {
      assert d == d["summary" := d["summary"]];
    }
  }

  /** A short summary that the validation approves comes back untouched,
      after that one call. */
  lemma SummarisedKeepsApproved(storyData: Value, answers: seq<Option<string>>, env: Env)
    requires Summarisable(storyData) && ShortSummary(storyData.fields)
    requires ValidationFromAnswer(Answer(answers, 0), env) == Ok(true)
    ensures Summarised(storyData, answers, env)
            == SummaryRun(Ok(storyData), [Request(SummaryValidation, [storyData.fields["story"], storyData.fields["summary"]])])
  {
  }

  /** `generate_summary`: the candidate's summary is reassigned step by step. */
  method GenerateSummary(storyData: Value, answers: seq<Option<string>>, env: Env)
    returns (r: Result<Value>, asked: seq<Request>)
    ensures SummaryRun(r, asked) == Summarised(storyData, answers, env)
  {
    if !storyData.Obj? {
      return Raise(TypeError), [];
    }
    var d := storyData.fields;
    asked := [];
    var regenerate := true;
    if HasSummary(d) {
      if !d["summary"].Str? {
        return Raise(AttributeError), [];
      }
      regenerate := WordCount(d["summary"].s) > SUMMARY_WORDS;
    }
    assert regenerate <==> !ShortSummary(d);
    if regenerate {
      if "story" !in d {
        return Raise(KeyError), [];
      }
      asked := [Request(SummaryWriting, [d["story"]])];
      var summary := SummaryFromAnswer(Answer(answers, 0), env);
      if summary.Raise? {
        return Raise(summary.exc), asked;
      }
      d := d["summary" := summary.value];
    }
    if "story" !in d {
      return Raise(KeyError), asked;
    }
    var tail, tailAsked := ValidateSummary(d, answers, |asked|, env);
    r, asked := tail, asked + tailAsked;
  }

  /** The second half of `generate_summary`: validate the summary once and,
      unless it is approved, replace it by a new one. */
  method ValidateSummary(d: Record, answers: seq<Option<string>>, k: nat, env: Env)
    returns (r: Result<Value>, asked: seq<Request>)
    requires "story" in d && "summary" in d
    ensures SummaryRun(r, asked) == Validated(d, answers, k, env)
  {
    asked := [Request(SummaryValidation, [d["story"], d["summary"]])];
    var valid := ValidationFromAnswer(Answer(answers, k), env);
    if valid.Raise? {
      return Raise(valid.exc), asked;
    }
    if valid.value {
      return Ok(Obj(d)), asked;
    }
    asked := asked + [Request(SummaryWriting, [d["story"]])];
    var summary := SummaryFromAnswer(Answer(answers, k + 1), env);
    if summary.Raise? {
      return Raise(summary.exc), asked;
    }
    r := Ok(Obj(d["summary" := summary.value]));
  }

  // ------------------------------------------------------------ source URLs

  /** A source given by its key, or the source itself. */
  datatype SourceRef = ById(id: int) | Given(source: Source)

  /** The URLs a source's front page offers and the service was asked to
      filter, or no request when the page could not be had. */
  datatype UrlCandidates = UrlCandidates(items: Value, request: Option<Request>)

  /** `extract_urls_from_source`: every failure, caught or not along the way,
      yields the empty list; once the source's page is had, the service is
      asked to filter its URLs, and the `items` of its decoded answer are
      returned. */
  function ExtractUrlsFromSource(ref: SourceRef, rows: seq<SourceRow>, answer: Option<string>, env: Env)
    : (r: UrlCandidates)
    ensures r.items == Arr([])
            || (r.request.Some? && answer.Some? && env.decode(answer.value).Some?
                && Index(env.decode(answer.value).value, "items") == Ok(r.items))
    ensures ref.ById? && FindSource(rows, ref.id).None? ==> r == UrlCandidates(Arr([]), None)
    ensures r.request.Some? <==>
              var source := if ref.ById? then FindSource(rows, ref.id) else Some(ref.source);
              source.Some? && GetScraper(source.value.website, env).Some?
              && ScrapeWebsite(GetScraper(source.value.website, env).value, source.value.website, env).Html?
    ensures r.request.Some? ==>
              var website := if ref.ById? then FindSource(rows, ref.id).value.website else ref.source.website;
              GetScraper(website, env).Some?
              && ScrapeWebsite(GetScraper(website, env).value, website, env).Html?
              && r.request.value == Request(UrlFiltering,
                   [Str(Join(ExtractAllUrls(ScrapeWebsite(GetScraper(website, env).value, website, env).html, website, env), "\n"))])
    ensures answer.Some? && env.decode(answer.value).Some? && r.request.Some?
            && Index(env.decode(answer.value).value, "items").Ok? ==>
              r.items == Index(env.decode(answer.value).value, "items").value
  {
    var source := match ref
      case ById(id) => FindSource(rows, id)
      case Given(s) => Some(s);
    if source.None? then UrlCandidates(Arr([]), None)
    else
      var website := source.value.website;
      match GetScraper(website, env)
      case None => UrlCandidates(Arr([]), None)
      case Some(strategy) =>
        match ScrapeWebsite(strategy, website, env)
        case NoHtml => UrlCandidates(Arr([]), None)
        case Crashed(_) => UrlCandidates(Arr([]), None)
        case Html(html) =>
          var request := Request(UrlFiltering, [Str(Join(ExtractAllUrls(html, website, env), "\n"))]);
          match answer
          case None => UrlCandidates(Arr([]), Some(request))
          case Some(text) =>
            match env.decode(text)
            case None => UrlCandidates(Arr([]), Some(request))
            case Some(doc) =>
              match Index(doc, "items")
              case Raise(_) => UrlCandidates(Arr([]), Some(request))
              case Ok(items) => UrlCandidates(items, Some(request))
  }

  // ------------------------------------------------------------- the store

  /** A stored row is keyed by its own URL, and no field but the URL holds an
      empty value a required field may not hold. */
  predicate WellFormedRow(url: string, row: Record)
  {
    Get(row, "url") == Str(url) && forall k :: k in row && k != "url" ==> !Rejects(k, row[k])
  }

  predicate WellFormedRows(db: map<string, Record>)
  {
    forall u :: u in db ==> WellFormedRow(u, db[u])
  }

  /** `Story.objects.update_or_create(url=url, defaults=defaults)`: the row
      for the URL, created if missing, with the defaults written over it. */
  function Upsert(db: map<string, Record>, url: string, defaults: Record): (db': map<string, Record>)
    ensures db'.Keys == db.Keys + {url}
    ensures forall u :: u in db && u != url ==> db'[u] == db[u]
    ensures forall k :: k in defaults ==> k in db'[url] && db'[url][k] == defaults[k]
    ensures forall k :: k in db'[url] && k !in defaults ==>
              if url in db then k in db[url] && db'[url][k] == db[url][k] else k == "url" && db'[url][k] == Str(url)
  {
    db[url := (if url in db then db[url] else map["url" := Str(url)]) + defaults]
  }

  /** Writing the same URL twice leaves one row, in which the second write's
      fields win; a second write covering the first's fields erases every
      trace of the first. */
  lemma UpsertTwice(db: map<string, Record>, url: string, first: Record, second: Record)
    ensures Upsert(Upsert(db, url, first), url, second).Keys == Upsert(db, url, first).Keys
    ensures Upsert(Upsert(db, url, first), url, second)[url] == Upsert(db, url, first)[url] + second
    ensures first.Keys <= second.Keys ==> Upsert(Upsert(db, url, first), url, second) == Upsert(db, url, second)
  {
    var base := if url in db then db[url] else map["url" := Str(url)];
    if first.Keys <= second.Keys {
      assert base + first + second == base + second;
    }
  }

  /** Upserting a well-formed record keeps every row well formed. */
  lemma UpsertWellFormed(db: map<string, Record>, url: string, defaults: Record)
    requires WellFormedRows(db) && WellFormedRow(url, defaults)
    ensures WellFormedRows(Upsert(db, url, defaults))
  {
  }

  /** The stories table, seen as the stored field values of each story,
      keyed by URL: at most one row per URL, as this pipeline writes it
      (the schema itself does not make the URL unique). */
  class StoryStore {
    var byUrl: map<string, Record>

    constructor ()
      ensures byUrl == map[]
    {
      byUrl := map[];
    }

    method UpdateOrCreate(url: string, defaults: Record)
      modifies this
      ensures byUrl == Upsert(old(byUrl), url, defaults)
    {
      byUrl := Upsert(byUrl, url, defaults);
    }
  }

  // ------------------------------------------------------ one URL, and all

  /** What handling one URL led to. */
  datatype UrlStep = Saved(row: Record) | Skipped | Failed(exc: Exc)

  datatype UrlRun = UrlRun(step: UrlStep, asked: seq<Request>)

  /** The row a surviving record is stored as: tagged with the source and the URL. */
  function Tagged(validated: Record, sourceId: nat, url: string): Record
  {
    validated["source" := Int(sourceId)]["url" := Str(url)]
  }

  /** The part of an iteration after the page was interpreted: summary,
      sanitising, tagging. */
  function ProcessCandidate(storyData: Value, url: string, sourceId: nat, answers: seq<Option<string>>, env: Env)
    : (run: UrlRun)
    ensures |run.asked| <= 3
    ensures run.step.Saved? ==> WellFormedRow(url, run.step.row) && Get(run.step.row, "source") == Int(sourceId)
  {
    var summarised := Summarised(storyData, answers, env);
    SummarisedCalls(storyData, answers, env);
    match summarised.result
    case Raise(e) => UrlRun(Failed(e), summarised.asked)
    case Ok(d) =>
      SummarisedSuccess(storyData, answers, env);
      match Sanitized(d.fields, env.isIso)
      case None => UrlRun(Skipped, summarised.asked)
      case Some(validated) =>
        SanitizedAccepts(d.fields, env.isIso);
        UrlRun(Saved(Tagged(validated, sourceId, url)), summarised.asked)
  }

  /** One iteration of `extract_stories_from_urls`: an unusable fetch is
      fatal (the missing scraper or page is used regardless), an empty or
      unusable interpretation and a sanitiser refusal skip the URL, and a
      surviving record is tagged with the source and the URL. */
  function ProcessUrl(url: string, sourceId: nat, answers: seq<Option<string>>, env: Env): (run: UrlRun)
    ensures |run.asked| <= 4
    ensures GetScraper(url, env).None? ==> run == UrlRun(Failed(AttributeError), [])
    ensures GetScraper(url, env).Some? && ScrapeWebsite(GetScraper(url, env).value, url, env).NoHtml?
            ==> run == UrlRun(Failed(TypeError), [])
    ensures run.step.Saved? ==> WellFormedRow(url, run.step.row) && Get(run.step.row, "source") == Int(sourceId)
  {
    match GetScraper(url, env)
    case None => UrlRun(Failed(AttributeError), [])
    case Some(strategy) =>
      match ScrapeWebsite(strategy, url, env)
      case Crashed(e) => UrlRun(Failed(e), [])
      case NoHtml => UrlRun(Failed(TypeError), [])
      case Html(html) =>
        var request := ExtractionRequest(html, env);
        match InterpretHtmlContent(Answer(answers, 0), env)
        case None => UrlRun(Skipped, [request])
        case Some(storyData) =>
          if storyData == Null then UrlRun(Skipped, [request])
          else
            var run := ProcessCandidate(storyData, url, sourceId, Drop(answers, 1), env);
            UrlRun(run.step, [request] + run.asked)
  }

  /** A sanitised record has no field a required field may not hold. */
  lemma SanitizedAccepts(data: Record, isIso: string -> bool)
    requires Sanitized(data, isIso).Some?
    ensures forall k :: k in Sanitized(data, isIso).value ==> !Rejects(k, Sanitized(data, isIso).value[k])
  {
    var out := Sanitized(data, isIso).value;
    SanitizedShape(data, isIso);
    forall k | k in out
      ensures !Rejects(k, out[k])
    {
      if k !in DATE_FIELDS {
        assert out[k] == data[k];
      }
    }
  }

  /** Where the walk over the URL list ended. */
  datatype WalkRun = WalkRun(outcome: Outcome, visited: nat, written: seq<nat>, asked: seq<Request>, db: map<string, Record>)

  /** One iteration's handling of a URL, given the service's answers still unused. */
  type Processor = (string, seq<Option<string>>) -> UrlRun

  /** `process` handles each URL as `extract_stories_from_urls` does. The
      walk is stated over such a `process` rather than over `ProcessUrl`
      itself, so that proofs about the loop do not unfold the handling of
      one URL at every step. */
  ghost predicate Implements(process: Processor, sourceId: nat, env: Env)
  {
    forall u, a {:trigger ProcessUrl(u, sourceId, a, env)} :: process(u, a) == ProcessUrl(u, sourceId, a, env)
  }

  /** The handling `extract_stories_from_urls` applies to each URL. */
  function Iteration(sourceId: nat, env: Env): (p: Processor)
    ensures Implements(p, sourceId, env)
    ensures forall u, a :: |p(u, a).asked| <= 4
    ensures forall u, a :: p(u, a).step.Saved? ==>
              WellFormedRow(u, p(u, a).step.row) && Get(p(u, a).step.row, "source") == Int(sourceId)
  {
    (u, a) => ProcessUrl(u, sourceId, a, env)
  }

  /** The rest of the walk over `urls` from position i, with `count` stories
      already stored and the service's answers not yet used. */
  function Walk(urls: seq<string>, i: nat, count: nat, answers: seq<Option<string>>, db: map<string, Record>,
                process: Processor): (w: WalkRun)
    requires i <= |urls| && count <= STORY_LIMIT
    ensures i <= w.visited <= |urls|
    ensures count + |w.written| <= STORY_LIMIT
    decreases |urls| - i
  {
    if i == |urls| || count >= STORY_LIMIT then WalkRun(Completed, i, [], [], db)
    else
      var run := process(urls[i], answers);
      var rest := Drop(answers, |run.asked|);
      match run.step
      case Failed(e) => WalkRun(Aborted(e), i + 1, [], run.asked, db)
      case Skipped =>
        var w := Walk(urls, i + 1, count, rest, db, process);
        w.(asked := run.asked + w.asked)
      case Saved(row) =>
        var w := Walk(urls, i + 1, count + 1, rest, Upsert(db, urls[i], row), process);
        w.(written := [i] + w.written, asked := run.asked + w.asked)
  }

  /** Every written position was visited, and a walk completes only at the
      end of the list or at the story limit. */
  lemma {:induction false} WalkBounds(urls: seq<string>, i: nat, count: nat, answers: seq<Option<string>>,
                                      db: map<string, Record>, process: Processor)
    requires i <= |urls| && count <= STORY_LIMIT
    ensures var w := Walk(urls, i, count, answers, db, process);
            && (forall j :: 0 <= j < |w.written| ==> i <= w.written[j] < w.visited)
            && (w.outcome.Completed? ==> w.visited == |urls| || count + |w.written| == STORY_LIMIT)
    decreases |urls| - i
  {
    if i < |urls| && count < STORY_LIMIT {
      var run := process(urls[i], answers);
      var rest := Drop(answers, |run.asked|);
      match run.step
      case Failed(e) =>
      case Skipped =>
        WalkBounds(urls, i + 1, count, rest, db, process);
      case Saved(row) =>
        var w1 := Walk(urls, i + 1, count + 1, rest, Upsert(db, urls[i], row), process);
        WalkBounds(urls, i + 1, count + 1, rest, Upsert(db, urls[i], row), process);
        var w := Walk(urls, i, count, answers, db, process);
        assert w.written == [i] + w1.written;
        forall j | 0 < j < |w.written|
          ensures i <= w.written[j] < w.visited
        {
          assert w.written[j] == w1.written[j - 1];
        }
    }
  }

  /** Strictly increasing positions. */
  predicate Increasing(s: seq<nat>)
  {
    forall j, k :: 0 <= j < k < |s| ==> s[j] < s[k]
  }

  /** A position below every later one, then increasing positions. */
  lemma IncreasingCons(i: nat, s: seq<nat>)
    requires Increasing(s) && forall j :: 0 <= j < |s| ==> i < s[j]
    ensures Increasing([i] + s)
  {
    var t := [i] + s;
    forall j, k | 0 <= j < k < |t|
      ensures t[j] < t[k]
    {
      assert t[k] == s[k - 1];
      if j > 0 {
        assert t[j] == s[j - 1];
      }
    }
  }

  /** The stored positions increase: URLs are stored in list order. */
  lemma {:induction false} WalkIncreasing(urls: seq<string>, i: nat, count: nat, answers: seq<Option<string>>,
                                          db: map<string, Record>, process: Processor)
    requires i <= |urls| && count <= STORY_LIMIT
    ensures Increasing(Walk(urls, i, count, answers, db, process).written)
    decreases |urls| - i
  {
    if i < |urls| && count < STORY_LIMIT {
      var run := process(urls[i], answers);
      var rest := Drop(answers, |run.asked|);
      match run.step
      case Failed(e) =>
      case Skipped =>
        WalkIncreasing(urls, i + 1, count, rest, db, process);
      case Saved(row) =>
        var w1 := Walk(urls, i + 1, count + 1, rest, Upsert(db, urls[i], row), process);
        WalkIncreasing(urls, i + 1, count + 1, rest, Upsert(db, urls[i], row), process);
        WalkBounds(urls, i + 1, count + 1, rest, Upsert(db, urls[i], row), process);
        IncreasingCons(i, w1.written);
    }
  }

  /** A walk that stores its fifth story stops right after that URL. */
  lemma {:induction false} WalkStops(urls: seq<string>, i: nat, count: nat, answers: seq<Option<string>>,
                                     db: map<string, Record>, process: Processor)
    requires i <= |urls| && count <= STORY_LIMIT
    ensures var w := Walk(urls, i, count, answers, db, process);
            w.written != [] && count + |w.written| == STORY_LIMIT ==> w.visited == w.written[|w.written| - 1] + 1
    decreases |urls| - i
  {
    if i < |urls| && count < STORY_LIMIT {
      var run := process(urls[i], answers);
      var rest := Drop(answers, |run.asked|);
      match run.step
      case Failed(e) =>
      case Skipped =>
        WalkStops(urls, i + 1, count, rest, db, process);
      case Saved(row) =>
        var w1 := Walk(urls, i + 1, count + 1, rest, Upsert(db, urls[i], row), process);
        WalkStops(urls, i + 1, count + 1, rest, Upsert(db, urls[i], row), process);
        var w := Walk(urls, i, count, answers, db, process);
        assert w.written == [i] + w1.written && w.visited == w1.visited;
    }
  }

  /** Each visited URL costs at most four calls of the text service. */
  lemma {:induction false} WalkCalls(urls: seq<string>, i: nat, count: nat, answers: seq<Option<string>>,
                                     db: map<string, Record>, process: Processor)
    requires i <= |urls| && count <= STORY_LIMIT
    requires forall u, a :: |process(u, a).asked| <= 4
    ensures |Walk(urls, i, count, answers, db, process).asked| <= 4 * (Walk(urls, i, count, answers, db, process).visited - i)
    decreases |urls| - i
  {
    if i < |urls| && count < STORY_LIMIT {
      var run := process(urls[i], answers);
      var rest := Drop(answers, |run.asked|);
      match run.step
      case Failed(e) =>
      case Skipped =>
        WalkCalls(urls, i + 1, count, rest, db, process);
      case Saved(row) =>
        WalkCalls(urls, i + 1, count + 1, rest, Upsert(db, urls[i], row), process);
    }
  }

  /** The URLs at the written positions. */
  function WrittenUrls(urls: seq<string>, written: seq<nat>): set<string>
  {
    if written == [] then {}
    else (if written[0] < |urls| then {urls[written[0]]} else {}) + WrittenUrls(urls, written[1..])
  }

  /** The URL written first, then the others. */
  lemma WrittenUrlsCons(urls: seq<string>, i: nat, written: seq<nat>)
    requires i < |urls|
    ensures WrittenUrls(urls, [i] + written) == {urls[i]} + WrittenUrls(urls, written)
  {
    assert ([i] + written)[0] == i && ([i] + written)[1..] == written;
  }

  /** The walk's keys: every URL stored before stays stored, and only the
      written URLs are added. */
  lemma {:induction false} WalkKeys(urls: seq<string>, i: nat, count: nat, answers: seq<Option<string>>,
                                    db: map<string, Record>, process: Processor)
    requires i <= |urls| && count <= STORY_LIMIT
    ensures var w := Walk(urls, i, count, answers, db, process);
            db.Keys <= w.db.Keys <= db.Keys + WrittenUrls(urls, w.written)
    decreases |urls| - i
  {
    if i < |urls| && count < STORY_LIMIT {
      var run := process(urls[i], answers);
      var rest := Drop(answers, |run.asked|);
      match run.step
      case Failed(e) =>
      case Skipped =>
        WalkKeys(urls, i + 1, count, rest, db, process);
      case Saved(row) =>
        var db1 := Upsert(db, urls[i], row);
        var w1 := Walk(urls, i + 1, count + 1, rest, db1, process);
        WalkKeys(urls, i + 1, count + 1, rest, db1, process);
        WrittenUrlsCons(urls, i, w1.written);
    }
  }

  /** Every written URL is stored. */
  lemma {:induction false} WalkRowsWritten(urls: seq<string>, i: nat, count: nat, answers: seq<Option<string>>,
                                           db: map<string, Record>, process: Processor)
    requires i <= |urls| && count <= STORY_LIMIT
    ensures var w := Walk(urls, i, count, answers, db, process);
            WrittenUrls(urls, w.written) <= w.db.Keys
    decreases |urls| - i
  {
    if i < |urls| && count < STORY_LIMIT {
      var run := process(urls[i], answers);
      var rest := Drop(answers, |run.asked|);
      match run.step
      case Failed(e) =>
        assert WrittenUrls(urls, []) == {};
      case Skipped =>
        WalkRowsWritten(urls, i + 1, count, rest, db, process);
      case Saved(row) =>
        var db1 := Upsert(db, urls[i], row);
        var w1 := Walk(urls, i + 1, count + 1, rest, db1, process);
        WalkRowsWritten(urls, i + 1, count + 1, rest, db1, process);
        WalkKeys(urls, i + 1, count + 1, rest, db1, process);
        WrittenUrlsCons(urls, i, w1.written);
        var w := Walk(urls, i, count, answers, db, process);
        assert w.written == [i] + w1.written && w.db == w1.db;
        assert urls[i] in db1.Keys;
    } else {
      assert WrittenUrls(urls, []) == {};
    }
  }

  /** Every row of a URL the walk did not write is as it was. */
  lemma {:induction false} WalkRowsKept(urls: seq<string>, i: nat, count: nat, answers: seq<Option<string>>,
                                        db: map<string, Record>, process: Processor)
    requires i <= |urls| && count <= STORY_LIMIT
    ensures var w := Walk(urls, i, count, answers, db, process);
            forall u :: u in db && u !in WrittenUrls(urls, w.written) ==> u in w.db && w.db[u] == db[u]
    decreases |urls| - i
  {
    if i < |urls| && count < STORY_LIMIT {
      var run := process(urls[i], answers);
      var rest := Drop(answers, |run.asked|);
      match run.step
      case Failed(e) =>
      case Skipped =>
        WalkRowsKept(urls, i + 1, count, rest, db, process);
      case Saved(row) =>
        var db1 := Upsert(db, urls[i], row);
        var w1 := Walk(urls, i + 1, count + 1, rest, db1, process);
        WalkRowsKept(urls, i + 1, count + 1, rest, db1, process);
        WrittenUrlsCons(urls, i, w1.written);
    }
  }

  /** A store whose rows are well formed stays so. */
  lemma {:induction false} WalkRowsWellFormed(urls: seq<string>, i: nat, count: nat, sourceId: nat,
                                              answers: seq<Option<string>>, db: map<string, Record>,
                                              process: Processor)
    requires i <= |urls| && count <= STORY_LIMIT
    requires forall u, a :: process(u, a).step.Saved? ==> WellFormedRow(u, process(u, a).step.row)
    requires WellFormedRows(db)
    ensures WellFormedRows(Walk(urls, i, count, answers, db, process).db)
    decreases |urls| - i
  {
    if i < |urls| && count < STORY_LIMIT {
      var run := process(urls[i], answers);
      var rest := Drop(answers, |run.asked|);
      match run.step
      case Failed(e) =>
      case Skipped =>
        WalkRowsWellFormed(urls, i + 1, count, sourceId, rest, db, process);
      case Saved(row) =>
        UpsertWellFormed(db, urls[i], row);
        WalkRowsWellFormed(urls, i + 1, count + 1, sourceId, rest, Upsert(db, urls[i], row), process);
    }
  }

  /** Every row of `db` that is not the row `base` had under its URL carries the source. */
  ghost predicate SourcedSince(base: map<string, Record>, db: map<string, Record>, sourceId: nat)
  {
    forall u :: u in db ==> (u in base && db[u] == base[u]) || Get(db[u], "source") == Int(sourceId)
  }

  /** Every row the walk added or changed carries the walk's source. */
  lemma {:induction false} WalkRowsSource(urls: seq<string>, i: nat, count: nat, sourceId: nat,
                                          answers: seq<Option<string>>, base: map<string, Record>,
                                          db: map<string, Record>, process: Processor)
    requires i <= |urls| && count <= STORY_LIMIT
    requires forall u, a :: process(u, a).step.Saved? ==> Get(process(u, a).step.row, "source") == Int(sourceId)
    requires SourcedSince(base, db, sourceId)
    ensures SourcedSince(base, Walk(urls, i, count, answers, db, process).db, sourceId)
    decreases |urls| - i
  {
    if i < |urls| && count < STORY_LIMIT {
      var run := process(urls[i], answers);
      var rest := Drop(answers, |run.asked|);
      match run.step
      case Failed(e) =>
      case Skipped =>
        WalkRowsSource(urls, i + 1, count, sourceId, rest, base, db, process);
      case Saved(row) =>
        var db1 := Upsert(db, urls[i], row);
        assert Get(db1[urls[i]], "source") == Int(sourceId);
        WalkRowsSource(urls, i + 1, count + 1, sourceId, rest, base, db1, process);
    }
  }

  /** The body of one iteration of `extract_stories_from_urls`, up to the write. */
  method HandleUrl(url: string, sourceId: nat, answers: seq<Option<string>>, env: Env, ghost process: Processor)
    returns (step: UrlStep, asked: seq<Request>)
    requires Implements(process, sourceId, env)
    ensures UrlRun(step, asked) == process(url, answers)
  {
    assert process(url, answers) == ProcessUrl(url, sourceId, answers, env);
    var scraper := GetScraper(url, env);
    if scraper.None? {
      return Failed(AttributeError), [];
    }
    var html := ScrapeWebsite(scraper.value, url, env);
    if html.Crashed? {
      return Failed(html.exc), [];
    }
    if html.NoHtml? {
      return Failed(TypeError), [];
    }
    var request := ExtractionRequest(html.html, env);
    var storyData := InterpretHtmlContent(Answer(answers, 0), env);
    if storyData.None? || storyData.value == Null {
      return Skipped, [request];
    }
    step, asked := HandleCandidate(storyData.value, url, sourceId, Drop(answers, 1), env);
    asked := [request] + asked;
  }

  /** The rest of an iteration once the page is interpreted. */
  method HandleCandidate(storyData: Value, url: string, sourceId: nat, answers: seq<Option<string>>, env: Env)
    returns (step: UrlStep, asked: seq<Request>)
    ensures UrlRun(step, asked) == ProcessCandidate(storyData, url, sourceId, answers, env)
  {
    var summarised;
    summarised, asked := GenerateSummary(storyData, answers, env);
    if summarised.Raise? {
      return Failed(summarised.exc), asked;
    }
    SummarisedSuccess(storyData, answers, env);
    var validated := SanitizeStoryData(summarised.value.fields, env.isIso);
    if validated.None? {
      return Skipped, asked;
    }
    step := Saved(Tagged(validated.value, sourceId, url));
  }

  /** A walk's result behind the positions already written and the calls already made. */
  function After(written: seq<nat>, asked: seq<Request>, w: WalkRun): (r: WalkRun)
    ensures r.outcome == w.outcome && r.visited == w.visited && r.db == w.db
    ensures r.written == written + w.written && r.asked == asked + w.asked
  {
    w.(written := written + w.written, asked := asked + w.asked)
  }

  /** One step of the walk, as the loop of `extract_stories_from_urls` takes
      it: what the whole walk comes to, given how the next URL was handled. */
  lemma WalkStep(urls: seq<string>, i: nat, count: nat, answers: seq<Option<string>>, db: map<string, Record>,
                 process: Processor, written: seq<nat>, asked: seq<Request>, step: UrlStep, stepAsked: seq<Request>)
    requires i < |urls| && count < STORY_LIMIT
    requires process(urls[i], Drop(answers, |asked|)) == UrlRun(step, stepAsked)
    ensures var total := After(written, asked, Walk(urls, i, count, Drop(answers, |asked|), db, process));
            var next := Drop(answers, |asked + stepAsked|);
            && (step.Failed? ==> total == WalkRun(Aborted(step.exc), i + 1, written, asked + stepAsked, db))
            && (step.Skipped? ==>
                  total == After(written, asked + stepAsked, Walk(urls, i + 1, count, next, db, process)))
            && (step.Saved? ==>
                  total == After(written + [i], asked + stepAsked,
                                 Walk(urls, i + 1, count + 1, next, Upsert(db, urls[i], step.row), process)))
  {
    var here := Drop(answers, |asked|);
    DropDrop(answers, |asked|, |stepAsked|);
    assert Drop(here, |stepAsked|) == Drop(answers, |asked + stepAsked|);
    var db1 := if step.Saved? then Upsert(db, urls[i], step.row) else db;
    var rest := Walk(urls, i + 1, count + (if step.Saved? then 1 else 0), Drop(here, |stepAsked|), db1, process);
    if step.Skipped? {
      assert Walk(urls, i, count, here, db, process) == rest.(asked := stepAsked + rest.asked);
      assert asked + (stepAsked + rest.asked) == (asked + stepAsked) + rest.asked;
    } else if step.Saved? {
      assert Walk(urls, i, count, here, db, process)
             == rest.(written := [i] + rest.written, asked := stepAsked + rest.asked);
      assert asked + (stepAsked + rest.asked) == (asked + stepAsked) + rest.asked;
      assert written + ([i] + rest.written) == (written + [i]) + rest.written;
    }
  }

  /** `extract_stories_from_urls`: walk the URLs in order, storing each
      surviving record by URL, until the list ends, the fifth story is
      stored, or an exception escapes. */
  method ExtractStoriesFromUrls(store: StoryStore, urls: seq<string>, sourceId: nat,
                                answers: seq<Option<string>>, env: Env)
    returns (outcome: Outcome, visited: nat, written: seq<nat>, asked: seq<Request>)
    modifies store
    ensures WalkRun(outcome, visited, written, asked, store.byUrl)
            == Walk(urls, 0, 0, answers, old(store.byUrl), Iteration(sourceId, env))
  {
    outcome, visited, written, asked := WalkUrls(store, urls, sourceId, answers, env, Iteration(sourceId, env));
  }

  /** One iteration of the loop of `extract_stories_from_urls`: the URL is
      handled and, when it yields a story, the story is stored; the walk that
      remains after it is the walk from the next URL. */
  method VisitUrl(store: StoryStore, urls: seq<string>, i: nat, count: nat, sourceId: nat,
                  answers: seq<Option<string>>, env: Env, ghost process: Processor,
                  ghost written: seq<nat>, asked: seq<Request>)
    returns (step: UrlStep, stepAsked: seq<Request>)
    requires Implements(process, sourceId, env)
    requires i < |urls| && count < STORY_LIMIT
    modifies store
    ensures var total := After(written, asked, Walk(urls, i, count, Drop(answers, |asked|), old(store.byUrl), process));
            var next := Drop(answers, |asked + stepAsked|);
            && (step.Failed? ==> total == WalkRun(Aborted(step.exc), i + 1, written, asked + stepAsked, store.byUrl))
            && (step.Skipped? ==>
                  total == After(written, asked + stepAsked, Walk(urls, i + 1, count, next, store.byUrl, process)))
            && (step.Saved? ==>
                  total == After(written + [i], asked + stepAsked, Walk(urls, i + 1, count + 1, next, store.byUrl, process)))
  {
    var url := urls[i];
    step, stepAsked := HandleUrl(url, sourceId, Drop(answers, |asked|), env, process);
    WalkStep(urls, i, count, answers, store.byUrl, process, written, asked, step, stepAsked);
    if step.Saved? {
      store.UpdateOrCreate(url, step.row);
    }
  }

  /** The loop of `extract_stories_from_urls`, for any handling that is the
      per-URL handling. */
  method WalkUrls(store: StoryStore, urls: seq<string>, sourceId: nat,
                  answers: seq<Option<string>>, env: Env, ghost process: Processor)
    returns (outcome: Outcome, visited: nat, written: seq<nat>, asked: seq<Request>)
    requires Implements(process, sourceId, env)
    modifies store
    ensures WalkRun(outcome, visited, written, asked, store.byUrl)
            == Walk(urls, 0, 0, answers, old(store.byUrl), process)
  {
    var i := 0;
    var storiesScraped := 0;
    written, asked := [], [];
    ghost var total := Walk(urls, 0, 0, answers, store.byUrl, process);
    assert total == After([], [], total);
    while i < |urls|
      invariant i <= |urls| && storiesScraped == |written| <= STORY_LIMIT
      invariant total == After(written, asked, Walk(urls, i, storiesScraped, Drop(answers, |asked|), store.byUrl, process))
      decreases |urls| - i
    {
      if storiesScraped >= STORY_LIMIT {
        break;
      }
      var step, stepAsked := VisitUrl(store, urls, i, storiesScraped, sourceId, answers, env, process, written, asked);
      asked := asked + stepAsked;
      match step
      case Failed(e) =>
        return Aborted(e), i + 1, written, asked;
      case Skipped =>
        i := i + 1;
      case Saved(row) =>
        written := written + [i];
        storiesScraped := storiesScraped + 1;
        i := i + 1;
    }
    return Completed, i, written, asked;
  }
}
