/** Demonstration data: news sources imported from CSV rows, and ten
    generated stories per source. The catalogue holds the source table and
    the story table with their next primary keys. */
module MockData {
  import opened Values
  import opened Models
  import opened Sources

  /** A CSV row as the dictionary reader yields it: column name to text. */
  type CsvRow = map<string, string>

  /** The columns an import reads. */
  const CSV_COLUMNS: set<string> := {
    "name", "website", "country", "province", "region", "municipality", "medium",
    "originalContent", "releaseFrequency", "commercialPublisher", "publisher",
    "individualOrOrganisation", "contentType", "contentArea", "contentQuality" }

  /** The source a row describes; a row without every column raises KeyError. */
  function RowToSource(row: CsvRow): (r: Result<Source>)
    ensures r.Raise? <==> !(CSV_COLUMNS <= row.Keys)
    ensures r.Raise? ==> r.exc == KeyError
  {
    if !(CSV_COLUMNS <= row.Keys) then Raise(KeyError)
    else
      Ok(Source(
        row["name"], row["website"], row["country"], row["province"], row["region"],
        row["municipality"], row["medium"],
        ResolveOriginalContent(row["originalContent"]),
        ResolveReleaseFrequency(row["releaseFrequency"]),
        ResolveCommercialPublisher(row["commercialPublisher"]),
        row["publisher"],
        ResolveIndividualOrOrganisation(row["individualOrOrganisation"]),
        ResolveContentType(row["contentType"]),
        row["contentArea"],
        ResolveContentQuality(row["contentQuality"])))
  }

  /** A complete row's text columns are copied as they are; each
      classification column gives the member of that name, or the default
      when no member has it. */
  lemma RowToSourceColumns(row: CsvRow)
    requires CSV_COLUMNS <= row.Keys
    ensures RowToSource(row).Ok?
    ensures var v := RowToSource(row).value;
            && v.name == row["name"] && v.website == row["website"]
            && v.country == row["country"] && v.province == row["province"]
            && v.region == row["region"] && v.municipality == row["municipality"]
            && v.medium == row["medium"] && v.publisher == row["publisher"]
            && v.contentArea == row["contentArea"]
    ensures var v := RowToSource(row).value;
            && OriginalContentName(v.originalContent) in {row["originalContent"], "MIX"}
            && ReleaseFrequencyName(v.releaseFrequency) in {row["releaseFrequency"], "UNSURE"}
            && CommercialPublisherName(v.commercialPublisher) in {row["commercialPublisher"], "YES"}
            && IndividualOrOrganisationName(v.individualOrOrganisation)
                 in {row["individualOrOrganisation"], "UNSURE"}
            && ContentTypeName(v.contentType) in {row["contentType"], "MIX"}
            && ContentQualityName(v.contentQuality) in {row["contentQuality"], "LOW"}
  {
  }

  /** What an import ends with, and the sources it created in order. */
  datatype Import = Import(outcome: Outcome, sources: seq<Source>)
  {
    /** The same import after sources `created` were created before it. */
    function After(created: seq<Source>): Import
    {
      Import(outcome, created + sources)
    }
  }

  /** A conversion of one CSV row. */
  type Converter = CsvRow -> Result<Source>

  /** The sources the rows convert to, in order, up to the first row that
      raises. */
  function Converted(convert: Converter, rows: seq<CsvRow>): (r: Import)
    ensures |r.sources| <= |rows|
    ensures r.outcome.Completed? <==> |r.sources| == |rows|
    decreases |rows|
  {
    if rows == [] then Import(Completed, [])
    else
      match convert(rows[0])
      case Raise(e) => Import(Aborted(e), [])
      case Ok(source) =>
        var rest := Converted(convert, rows[1..]);
        Import(rest.outcome, [source] + rest.sources)
  }

  /** Each converted source is its row's, and an import stops exactly at
      the first row that raises, with that row's exception. */
  lemma {:induction false} ConvertedRows(convert: Converter, rows: seq<CsvRow>)
    ensures var r := Converted(convert, rows);
            && (forall i :: 0 <= i < |r.sources| ==> convert(rows[i]) == Ok(r.sources[i]))
            && (r.outcome.Aborted? ==> convert(rows[|r.sources|]) == Raise(r.outcome.exc))
    decreases |rows|
  {
    if rows != [] && convert(rows[0]).Ok? {
      ConvertedRows(convert, rows[1..]);
      var created := Converted(convert, rows).sources;
      forall i | 0 <= i < |created|
        ensures convert(rows[i]) == Ok(created[i])
      {
        if i > 0 {
          assert rows[i] == rows[1..][i - 1];
        }
      }
      if Converted(convert, rows).outcome.Aborted? {
        assert rows[|created|] == rows[1..][|created| - 1];
      }
    }
  }

  /** An import of CSV rows creates one source per row when every row has
      every column, and otherwise stops with KeyError at the first row that
      lacks one. */
  lemma ImportOutcome(rows: seq<CsvRow>)
    ensures var r := Converted(RowToSource, rows);
            && (forall i :: 0 <= i < |r.sources| ==> CSV_COLUMNS <= rows[i].Keys)
            && (r.outcome.Completed? <==> forall i :: 0 <= i < |rows| ==> CSV_COLUMNS <= rows[i].Keys)
            && (r.outcome.Aborted? ==> r.outcome.exc == KeyError && !(CSV_COLUMNS <= rows[|r.sources|].Keys))
  {
    ConvertedRows(RowToSource, rows);
  }

  /** Sources stored under consecutive keys from `first`. */
  function Numbered(first: nat, sources: seq<Source>): (r: seq<SourceRow>)
    ensures |r| == |sources|
    ensures forall i :: 0 <= i < |r| ==> r[i] == SourceRow(first + i, sources[i])
  {
    seq(|sources|, i requires 0 <= i < |sources| => SourceRow(first + i, sources[i]))
  }

  /** The primary keys of a source table. */
  function SourceIds(sources: seq<SourceRow>): (ids: set<nat>)
    ensures forall i :: 0 <= i < |sources| ==> sources[i].id in ids
    ensures forall id :: id in ids ==> exists i :: 0 <= i < |sources| && sources[i].id == id
  {
    set i | 0 <= i < |sources| :: sources[i].id
  }

  /** The conversion is the CSV row conversion. The import loop reasons
      about a ghost `convert` tied to `RowToSource` by this predicate, so
      that its proof does not unfold the column lookups of every row. */
  ghost predicate ConvertsRows(convert: Converter)
  {
    forall row {:trigger RowToSource(row)} :: convert(row) == RowToSource(row)
  }

  /** `Source.objects.create(...)` arguments for one row. */
  method ConvertRow(row: CsvRow, ghost convert: Converter) returns (r: Result<Source>)
    requires ConvertsRows(convert)
    ensures r == convert(row)
  {
    r := RowToSource(row);
  }

  /** Converting from row i on: a row that raises ends the import there,
      a row that converts joins the sources before it. */
  lemma ImportStep(convert: Converter, rows: seq<CsvRow>, i: nat, created: seq<Source>)
    requires i < |rows|
    requires Converted(convert, rows) == Converted(convert, rows[i..]).After(created)
    ensures match convert(rows[i])
            case Raise(e) => Converted(convert, rows) == Import(Aborted(e), created)
            case Ok(v) => Converted(convert, rows) == Converted(convert, rows[i + 1..]).After(created + [v])
  {
    ConvertedFrom(convert, rows, i);
    match convert(rows[i])
    case Raise(e) =>
      assert created + [] == created;
    case Ok(v) =>
      AfterAfter(Converted(convert, rows[i + 1..]), created, [v]);
  }

  /** Converting from row i on is converting row i, then the rows after it. */
  lemma ConvertedFrom(convert: Converter, rows: seq<CsvRow>, i: nat)
    requires i < |rows|
    ensures Converted(convert, rows[i..]) == match convert(rows[i])
                                             case Raise(e) => Import(Aborted(e), [])
                                             case Ok(v) => Converted(convert, rows[i + 1..]).After([v])
  {
    assert rows[i..][0] == rows[i] && rows[i..][1..] == rows[i + 1..];
  }

  /** Sources created before sources created before an import. */
  lemma AfterAfter(r: Import, created: seq<Source>, more: seq<Source>)
    ensures r.After(more).After(created) == r.After(created + more)
  {
    assert created + (more + r.sources) == (created + more) + r.sources;
  }

  /** Deleting every source, and with them the stories they own, keeps
      the tables valid. */
  lemma UnownedValid(sources: seq<SourceRow>, stories: seq<Story>, nextSourceId: nat, nextStoryId: nat)
    requires TablesValid(sources, stories, nextSourceId, nextStoryId)
    ensures TablesValid([], Unowned(stories), nextSourceId, nextStoryId)
  {
    UnownedOrder(stories);
    UnownedAll(stories, (s: Story) => s.id < nextStoryId);
  }

  /** Numbering one more source appends its row under the next key. */
  lemma NumberedAppend(before: seq<SourceRow>, first: nat, sources: seq<Source>, source: Source)
    ensures before + Numbered(first, sources + [source])
         == (before + Numbered(first, sources)) + [SourceRow(first + |sources|, source)]
  {
    var grown := sources + [source];
    assert forall i :: 0 <= i < |sources| ==> grown[i] == sources[i];
    assert Numbered(first, grown) == Numbered(first, sources) + [SourceRow(first + |sources|, source)];
  }

  /** The stories that no source owns, which deleting every source keeps. */
  function Unowned(stories: seq<Story>): (r: seq<Story>)
    ensures forall i :: 0 <= i < |r| ==> r[i].source.None?
    ensures |r| <= |stories|
  {
    if stories == [] then []
    else (if stories[0].source.None? then [stories[0]] else []) + Unowned(stories[1..])
  }

  /** Deleting every source keeps exactly the stories no source owns. */
  lemma {:induction false} UnownedKeeps(stories: seq<Story>)
    ensures forall s :: s in Unowned(stories) <==> s in stories && s.source.None?
    decreases |stories|
  {
    if stories != [] {
      UnownedKeeps(stories[1..]);
      assert stories == [stories[0]] + stories[1..];
    }
  }

  // ------------------------------------------------------ generated stories

  /** The fake-data generator and the random image choice, indexed by the
      number of the generated story. */
  datatype Fake = Fake(
    sentence: nat -> string,
    created: nat -> string,
    updated: nat -> string,
    paragraph: nat -> string,
    texts: nat -> string,
    url: nat -> string,
    name: nat -> string,
    pick: nat -> nat)

  /** The image path of generated story k: none without image files, else
      one of the files under the story image directory. */
  function ImageFor(files: seq<string>, fake: Fake, k: nat): (image: Option<string>)
    ensures image.None? <==> files == []
    ensures image.Some? ==> exists f :: f in files && image.value == "story_images/" + f
  {
    if files == [] then None
    else
      var f := files[fake.pick(k) % |files|];
      Some("story_images/" + f)
  }

  /** Generated story k: fake texts and dates, the image choice, the given
      source, and the derived fields of a saved story with no scores. */
  ghost predicate Generated(s: Story, k: nat, id: nat, sourceId: nat, files: seq<string>, fake: Fake)
    reads s
  {
    && s.id == id && s.source == Some(sourceId)
    && s.title == fake.sentence(k) && s.summary == fake.paragraph(k) && s.story == fake.texts(k)
    && s.created == Some(fake.created(k)) && s.updated == Some(fake.updated(k))
    && s.url == fake.url(k) && s.author == fake.name(k)
    && s.image == ImageFor(files, fake, k) && s.imageUrl == ""
    && s.Needs() == [0, 0, 0, 0] && s.needsSum == 0 && s.needsPrimary == "Know"
  }

  /** `Story.objects.create` for generated story k: a new row, saved. */
  method CreateStory(k: nat, id: nat, sourceId: nat, files: seq<string>, fake: Fake) returns (s: Story)
    ensures fresh(s)
    ensures Generated(s, k, id, sourceId, files, fake)
  {
    s := new Story(id, fake.sentence(k), Some(fake.created(k)), Some(fake.updated(k)), fake.name(k),
                   fake.texts(k), fake.paragraph(k), fake.url(k), ImageFor(files, fake, k), "", Some(sourceId));
    s.Save();
    TiesGoToKnow(0);
  }

  // ------------------------------------------------------------ the tables

  /** Keys increase in table order and stay below the next key, and every
      story's source exists. */
  ghost predicate TablesValid(sources: seq<SourceRow>, stories: seq<Story>, nextSourceId: nat, nextStoryId: nat)
  {
    && (forall i, j :: 0 <= i < j < |sources| ==> sources[i].id < sources[j].id)
    && (forall i :: 0 <= i < |sources| ==> sources[i].id < nextSourceId)
    && (forall i, j :: 0 <= i < j < |stories| ==> stories[i].id < stories[j].id)
    && (forall i :: 0 <= i < |stories| ==> stories[i].id < nextStoryId)
    && (forall i :: 0 <= i < |stories| && stories[i].source.Some? ==>
          stories[i].source.value in SourceIds(sources))
  }

  /** Importing sources under keys from the next key on keeps the tables
      valid. */
  lemma ImportKeepsValid(before: seq<SourceRow>, stories: seq<Story>, start: nat, nextStoryId: nat, created: seq<Source>)
    requires TablesValid(before, stories, start, nextStoryId)
    ensures TablesValid(before + Numbered(start, created), stories, start + |created|, nextStoryId)
  {
    var after := before + Numbered(start, created);
    assert forall i :: 0 <= i < |before| ==> after[i] == before[i];
    assert forall i :: |before| <= i < |after| ==> after[i].id == start + (i - |before|);
    assert SourceIds(before) <= SourceIds(after);
  }

  /** The source table and the story table, with their next primary keys. */
  class Catalogue {
    var sources: seq<SourceRow>
    var stories: seq<Story>
    var nextSourceId: nat
    var nextStoryId: nat

    /** Keys increase in table order and stay below the next key, and every
        story's source exists. */
    ghost predicate Valid()
      reads this
    {
      TablesValid(sources, stories, nextSourceId, nextStoryId)
    }

    constructor ()
      ensures sources == [] && stories == [] && Valid()
    {
      sources, stories := [], [];
      nextSourceId, nextStoryId := 1, 1;
    }

    /** `import_sources_from_csv`: one source per row, in order, under fresh
        keys, until a row lacks a column. */
    method ImportSourcesFromCsv(rows: seq<CsvRow>) returns (outcome: Outcome)
      requires Valid()
      modifies this`sources, this`nextSourceId
      ensures Valid()
      ensures outcome == Converted(RowToSource, rows).outcome
      ensures sources == old(sources) + Numbered(old(nextSourceId), Converted(RowToSource, rows).sources)
      ensures nextSourceId == old(nextSourceId) + |Converted(RowToSource, rows).sources|
    {
      outcome := ImportRows(rows, RowToSource);
    }

    /** The import loop, for a conversion that is the CSV row conversion. */
    method ImportRows(rows: seq<CsvRow>, ghost convert: Converter) returns (outcome: Outcome)
      requires Valid() && ConvertsRows(convert)
      modifies this`sources, this`nextSourceId
      ensures Valid()
      ensures outcome == Converted(convert, rows).outcome
      ensures sources == old(sources) + Numbered(old(nextSourceId), Converted(convert, rows).sources)
      ensures nextSourceId == old(nextSourceId) + |Converted(convert, rows).sources|
    {
      ghost var start := nextSourceId;
      ghost var before := sources;
      ghost var created: seq<Source> := [];
      var i := 0;
      assert rows[0..] == rows && [] + Converted(convert, rows).sources == Converted(convert, rows).sources;
      while i < |rows|
        invariant i <= |rows| && |created| == i
        invariant Converted(convert, rows) == Converted(convert, rows[i..]).After(created)
        invariant sources == before + Numbered(start, created) && nextSourceId == start + i
        decreases |rows| - i
      {
        var source := ConvertRow(rows[i], convert);
        ImportStep(convert, rows, i, created);
        if source.Raise? {
          ImportKeepsValid(before, stories, start, nextStoryId, created);
          return Aborted(source.exc);
        }
        NumberedAppend(before, start, created, source.value);
        sources := sources + [SourceRow(nextSourceId, source.value)];
        nextSourceId := nextSourceId + 1;
        created := created + [source.value];
        i := i + 1;
      }
      ImportKeepsValid(before, stories, start, nextStoryId, created);
      return Completed;
    }

    /** `clear_data`: every story and every source deleted. */
    method ClearData()
      requires Valid()
      modifies this`stories, this`sources
      ensures stories == [] && sources == []
      ensures Valid()
    {
      stories := [];
      sources := [];
    }

    /** `populate_sources`: every source deleted (and with it, every story
        it owned), then the rows imported. */
    method PopulateSources(rows: seq<CsvRow>) returns (outcome: Outcome)
      requires Valid()
      modifies this`stories, this`sources, this`nextSourceId
      ensures Valid()
      ensures stories == Unowned(old(stories))
      ensures outcome == Converted(RowToSource, rows).outcome
      ensures sources == Numbered(old(nextSourceId), Converted(RowToSource, rows).sources)
      ensures nextSourceId == old(nextSourceId) + |Converted(RowToSource, rows).sources|
    {
      UnownedValid(sources, stories, nextSourceId, nextStoryId);
      stories := Unowned(stories);
      sources := [];
      outcome := ImportSourcesFromCsv(rows);
    }

    /** `populate_stories`: every story deleted, then ten generated stories
        per source, in source order. */
    method PopulateStories(files: seq<string>, fake: Fake)
      requires Valid()
      modifies this`stories, this`nextStoryId
      ensures Valid()
      ensures |stories| == 10 * |sources|
      ensures nextStoryId == old(nextStoryId) + |stories|
      ensures forall k :: 0 <= k < |stories| ==>
                fresh(stories[k])
                && Generated(stories[k], k, old(nextStoryId) + k, sources[k / 10].id, files, fake)
    {
      stories := [];
      ghost var first := nextStoryId;
      var j := 0;
      while j < |sources|
        invariant j <= |sources|
        invariant |stories| == 10 * j && nextStoryId == first + |stories|
        invariant forall k :: 0 <= k < |stories| ==>
                    fresh(stories[k]) && Generated(stories[k], k, first + k, sources[k / 10].id, files, fake)
        decreases |sources| - j
      {
        var n := 0;
        while n < 10
          invariant n <= 10
          invariant |stories| == 10 * j + n && nextStoryId == first + |stories|
          invariant forall k :: 0 <= k < |stories| ==>
                      fresh(stories[k]) && Generated(stories[k], k, first + k, sources[k / 10].id, files, fake)
          decreases 10 - n
        {
          var story := CreateStory(|stories|, nextStoryId, sources[j].id, files, fake);
          stories := stories + [story];
          nextStoryId := nextStoryId + 1;
          n := n + 1;
        }
        j := j + 1;
      }
    }
  }

  /** What holds of every story holds of every story deleting the sources keeps. */
  lemma {:induction false} UnownedAll(stories: seq<Story>, p: Story -> bool)
    requires forall i :: 0 <= i < |stories| ==> p(stories[i])
    ensures forall i :: 0 <= i < |Unowned(stories)| ==> p(Unowned(stories)[i])
    decreases |stories|
  {
    if stories != [] {
      var tail := stories[1..];
      forall i | 0 <= i < |tail|
        ensures p(tail[i])
      {
        assert tail[i] == stories[i + 1];
      }
      UnownedAll(tail, p);
      var r := Unowned(stories);
      if stories[0].source.None? {
        forall i | 0 <= i < |r|
          ensures p(r[i])
        {
          if i > 0 {
            assert r[i] == Unowned(tail)[i - 1];
          }
        }
      } else {
        assert r == Unowned(tail);
      }
    }
  }

  /** Keeping the unowned stories keeps their order, so their keys still
      increase. */
  lemma {:induction false} UnownedOrder(stories: seq<Story>)
    requires forall i, j :: 0 <= i < j < |stories| ==> stories[i].id < stories[j].id
    ensures forall i, j :: 0 <= i < j < |Unowned(stories)| ==> Unowned(stories)[i].id < Unowned(stories)[j].id
    decreases |stories|
  {
    if stories != [] {
      var tail := stories[1..];
      var first := stories[0];
      forall i, j | 0 <= i < j < |tail|
        ensures tail[i].id < tail[j].id
      {
        assert tail[i] == stories[i + 1] && tail[j] == stories[j + 1];
      }
      UnownedOrder(tail);
      var rest := Unowned(tail);
      if first.source.None? {
        forall i | 0 <= i < |tail|
          ensures first.id < tail[i].id
        {
          assert tail[i] == stories[i + 1];
        }
        UnownedAll(tail, (s: Story) => first.id < s.id);
        var r := Unowned(stories);
        assert r == [first] + rest;
        forall i, j | 0 <= i < j < |r|
          ensures r[i].id < r[j].id
        {
          assert r[j] == rest[j - 1];
          if i > 0 {
            assert r[i] == rest[i - 1];
          }
        }
      } else {
        assert Unowned(stories) == rest;
      }
    }
  }
}
