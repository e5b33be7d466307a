/** Scraper choice and content normalisation over a parsed page: which of the
    three scraping strategies a page calls for, what each strategy's fetch
    yields, and the URL, meta-property and image extraction. */
module Scraping {
  import opened Values
  import opened Services

  // ------------------------------------------------------- strategy choice

  datatype Strategy = StaticScraper | DynamicScraper | AjaxScraper

  predicate IsScript(t: Tag)
  {
    t.name == "script"
  }

  /** A script whose text matches `.*ajax.*`, that is, contains "ajax". */
  predicate IsAjaxScript(t: Tag)
  {
    t.name == "script" && Contains(t.text, "ajax")
  }

  /** `soup.find('script')` found something. */
  function AnyScript(tags: seq<Tag>): (b: bool)
    ensures b <==> exists i :: 0 <= i < |tags| && IsScript(tags[i])
  {
    if tags == [] then false
    else IsScript(tags[0]) || AnyScript(tags[1..])
  }

  /** `soup.find('script', text=re.compile('.*ajax.*'))` found something. */
  function AnyAjaxScript(tags: seq<Tag>): (b: bool)
    ensures b <==> exists i :: 0 <= i < |tags| && IsAjaxScript(tags[i])
  {
    if tags == [] then false
    else IsAjaxScript(tags[0]) || AnyAjaxScript(tags[1..])
  }

  /** The classification `get_scraper` makes of a fetched page, AJAX first,
      then dynamic, then static. */
  function ChooseStrategy(page: Page): (s: Strategy)
    ensures s == AjaxScraper <==> exists i :: 0 <= i < |page.tags| && IsAjaxScript(page.tags[i])
    ensures s == DynamicScraper <==>
              (exists i :: 0 <= i < |page.tags| && IsScript(page.tags[i]))
              && !(exists i :: 0 <= i < |page.tags| && IsAjaxScript(page.tags[i]))
    ensures s == StaticScraper <==> !exists i :: 0 <= i < |page.tags| && IsScript(page.tags[i])
  {
    if AnyAjaxScript(page.tags) then AjaxScraper
    else if AnyScript(page.tags) then DynamicScraper
    else StaticScraper
  }

  /** `get_scraper(url)`: fetch once, classify the page; None when the fetch fails. */
  function GetScraper(url: string, env: Env): (r: Option<Strategy>)
    ensures r.None? <==> env.get(url).None?
    ensures r.Some? ==> r.value == ChooseStrategy(env.parse(env.get(url).value))
  {
    match env.get(url)
    case None => None
    case Some(body) => Some(ChooseStrategy(env.parse(body)))
  }

  // --------------------------------------------------------------- fetching

  /** What `scrape_website` gives back: markup, None, or an exception that escapes it. */
  datatype Fetched = Html(html: string) | NoHtml | Crashed(exc: Exc)

  /** `scrape_website` of each strategy. The static scraper fetches the page
      again, independently of the fetch that chose it. A request or browser
      start-up error yields None; the dynamic scraper's readiness wait raises
      when it times out, the AJAX scraper's wait swallows its timeout. */
  function ScrapeWebsite(s: Strategy, url: string, env: Env): (r: Fetched)
    ensures s == StaticScraper ==> (r.NoHtml? <==> env.refetch(url).None?) && !r.Crashed?
    ensures s != StaticScraper ==> (r.NoHtml? <==> env.browse(url).BrowserFailed?)
    ensures r.Crashed? <==> s == DynamicScraper && env.browse(url).Loaded? && !env.browse(url).ready
    ensures r.Crashed? ==> r.exc == WaitTimeout
  {
    match s
    case StaticScraper =>
      (match env.refetch(url)
       case None => NoHtml
       case Some(body) => Html(body))
    case DynamicScraper =>
      (match env.browse(url)
       case BrowserFailed => NoHtml
       case Loaded(html, ready) => if ready then Html(html) else Crashed(WaitTimeout))
    case AjaxScraper =>
      (match env.browse(url)
       case BrowserFailed => NoHtml
       case Loaded(html, _) => Html(html))
  }

  // ----------------------------------------------------- attribute filters

  /** `tag.get(attr)`, with an absent attribute read as the empty string
      (both are falsy, which is all the filters below look at). */
  function AttrOr(t: Tag, attr: string): string
  {
    if attr in t.attrs then t.attrs[attr] else ""
  }

  /** `[t.get(attr) for t in tags if keep(t)]`. */
  function Select(tags: seq<Tag>, keep: Tag -> bool, attr: string): (r: seq<string>)
    ensures |r| <= |tags|
  {
    if tags == [] then []
    else (if keep(tags[0]) then [AttrOr(tags[0], attr)] else []) + Select(tags[1..], keep, attr)
  }

  /** Selecting from consecutive stretches of the document concatenates the
      results: document order is kept and nothing is merged away. */
  lemma {:induction false} SelectAppend(a: seq<Tag>, b: seq<Tag>, keep: Tag -> bool, attr: string)
    ensures Select(a + b, keep, attr) == Select(a, keep, attr) + Select(b, keep, attr)
  {
    if a == [] {
      assert a + b == b;
    } else {
      var head := if keep(a[0]) then [AttrOr(a[0], attr)] else [];
      assert (a + b)[0] == a[0] && (a + b)[1..] == a[1..] + b;
      assert Select(a + b, keep, attr) == head + Select(a[1..] + b, keep, attr);
      SelectAppend(a[1..], b, keep, attr);
      var x, y := Select(a[1..], keep, attr), Select(b, keep, attr);
      assert head + (x + y) == (head + x) + y;
    }
  }

  /** Every kept tag contributes its attribute, and every selected value comes from a kept tag. */
  lemma {:induction false} SelectMembers(tags: seq<Tag>, keep: Tag -> bool, attr: string)
    ensures forall i :: 0 <= i < |tags| && keep(tags[i]) ==> AttrOr(tags[i], attr) in Select(tags, keep, attr)
    ensures forall v :: v in Select(tags, keep, attr) ==>
              exists i :: 0 <= i < |tags| && keep(tags[i]) && AttrOr(tags[i], attr) == v
  {
    if tags != [] {
      SelectMembers(tags[1..], keep, attr);
      forall i | 0 < i < |tags|
        ensures tags[i] == tags[1..][i - 1]
      {
      }
      forall v | v in Select(tags[1..], keep, attr)
        ensures exists i :: 0 <= i < |tags| && keep(tags[i]) && AttrOr(tags[i], attr) == v
      {
        var j :| 0 <= j < |tags[1..]| && keep(tags[1..][j]) && AttrOr(tags[1..][j], attr) == v;
        assert tags[j + 1] == tags[1..][j];
      }
    }
  }

  // --------------------------------------------------------------- anchors

  predicate HasHref(t: Tag)
  {
    t.name == "a" && "href" in t.attrs
  }

  /** `extract_all_urls`: one resolved URL per anchor with an href, in
      document order, duplicates kept. */
  function ExtractAllUrls(html: string, base: string, env: Env): (urls: seq<string>)
    ensures var hrefs := Select(env.parse(html).tags, HasHref, "href");
            |urls| == |hrefs| && forall i :: 0 <= i < |urls| ==> urls[i] == env.urljoin(base, hrefs[i])
  {
    var hrefs := Select(env.parse(html).tags, HasHref, "href");
    seq(|hrefs|, i requires 0 <= i < |hrefs| => env.urljoin(base, hrefs[i]))
  }

  // ---------------------------------------------------- meta properties

  /** `meta.get('name') or meta.get('property')`. */
  function MetaKey(t: Tag): string
  {
    if AttrOr(t, "name") != "" then AttrOr(t, "name") else AttrOr(t, "property")
  }

  /** A meta tag that has a key and non-empty content. */
  predicate QualifiesMeta(t: Tag)
  {
    t.name == "meta" && MetaKey(t) != "" && AttrOr(t, "content") != ""
  }

  /** The dictionary comprehension over the meta tags: later tags overwrite earlier ones. */
  function MetaProperties(tags: seq<Tag>): (m: map<string, string>)
    ensures forall k :: k in m <==> exists i :: 0 <= i < |tags| && QualifiesMeta(tags[i]) && MetaKey(tags[i]) == k
  {
    if tags == [] then map[]
    else
      var last := tags[|tags| - 1];
      var before := MetaProperties(tags[..|tags| - 1]);
      assert forall i :: 0 <= i < |tags| - 1 ==> tags[..|tags| - 1][i] == tags[i];
      if QualifiesMeta(last) then before[MetaKey(last) := AttrOr(last, "content")] else before
  }

  /** The value under a key is the content of the last qualifying meta tag with that key. */
  lemma {:induction false} MetaPropertiesLastWins(tags: seq<Tag>, k: string)
    requires k in MetaProperties(tags)
    ensures exists i :: 0 <= i < |tags| && QualifiesMeta(tags[i]) && MetaKey(tags[i]) == k
              && MetaProperties(tags)[k] == AttrOr(tags[i], "content")
              && forall j :: i < j < |tags| ==> !(QualifiesMeta(tags[j]) && MetaKey(tags[j]) == k)
  {
    var n := |tags| - 1;
    var last := tags[n];
    var init := tags[..n];
    if QualifiesMeta(last) && MetaKey(last) == k {
      assert MetaProperties(tags)[k] == AttrOr(last, "content");
    } else {
      assert k in MetaProperties(init);
      MetaPropertiesLastWins(init, k);
      var i :| 0 <= i < |init| && QualifiesMeta(init[i]) && MetaKey(init[i]) == k
                && MetaProperties(init)[k] == AttrOr(init[i], "content")
                && forall j :: i < j < |init| ==> !(QualifiesMeta(init[j]) && MetaKey(init[j]) == k);
      assert init[i] == tags[i];
      forall j | i < j < |tags|
        ensures !(QualifiesMeta(tags[j]) && MetaKey(tags[j]) == k)
      {
        if j < n {
          assert init[j] == tags[j];
        }
      }
    }
  }

  // ------------------------------------------------------------------ images

  predicate IsImage(t: Tag)
  {
    t.name == "img" && AttrOr(t, "src") != ""
  }

  // --------------------------------------------------------- story content

  function Strs(xs: seq<string>): (vs: seq<Value>)
    ensures |vs| == |xs| && forall i :: 0 <= i < |xs| ==> vs[i] == Str(xs[i])
  {
    seq(|xs|, i requires 0 <= i < |xs| => Str(xs[i]))
  }

  /** `extract_story_content`: the page's visible text, its meta properties
      and the sources of its images with a non-empty src, in document order. */
  function ExtractStoryContent(html: string, env: Env): (content: Record)
    ensures content.Keys == {"text", "meta_properties", "images"}
    ensures content["text"] == Str(env.parse(html).text)
    ensures var meta := MetaProperties(env.parse(html).tags);
            content["meta_properties"].Obj? && content["meta_properties"].fields.Keys == meta.Keys
            && forall k :: k in meta ==> content["meta_properties"].fields[k] == Str(meta[k])
    ensures content["images"] == Arr(Strs(Select(env.parse(html).tags, IsImage, "src")))
  {
    var page := env.parse(html);
    var meta := MetaProperties(page.tags);
    map[
      "text" := Str(page.text),
      "meta_properties" := Obj(map k | k in meta :: Str(meta[k])),
      "images" := Arr(Strs(Select(page.tags, IsImage, "src")))]
  }
}
