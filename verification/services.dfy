/** The external collaborators the pipeline calls, as opaque oracles: the
    JSON-constrained text service, HTTP, the headless browser, the HTML
    parser, JSON decoding, URL joining and ISO-8601 date parsing. */
module Services {
  import opened Values
  import opened Models

  /** An HTML element as the parser sees it: its tag name, its attributes
      and its own text (the `.string` of a script tag). */
  datatype Tag = Tag(name: string, attrs: map<string, string>, text: string)

  /** A parsed page: its elements in document order and its visible text. */
  datatype Page = Page(tags: seq<Tag>, text: string)

  /** What opening a URL in the headless browser produced: the browser could
      not be started or could not load the page, or it loaded the page; then
      `ready` tells whether the scraper's wait condition was met in time. */
  datatype Attempt = BrowserFailed | Loaded(html: string, ready: bool)

  /** The oracles. Every one is total: a failure is a value, never a crash. */
  datatype Env = Env(
    get: string -> Option<string>,        // `get_scraper`'s `requests.get` + `raise_for_status`: the body, or None on a request error
    refetch: string -> Option<string>,    // the static scraper's own second request for the same URL, which may fail on its own
    browse: string -> Attempt,            // a Chrome session opening the URL
    parse: string -> Page,                // BeautifulSoup
    urljoin: (string, string) -> string,  // `urllib.parse.urljoin(base, href)`
    decode: string -> Option<Value>,      // `json.loads`, None on a decoding error
    isIso: string -> bool                 // `datetime.fromisoformat` accepts the text
  )

  /** What the text service is asked to do; each task has its own fixed prompt. */
  datatype Task =
    | UrlFiltering
    | StoryExtraction
    | SummaryWriting
    | SummaryValidation
    | Labelling(kind: LabelType)

  /** One call to the text service: the task and the values its content is built from. */
  datatype Request = Request(task: Task, inputs: seq<Value>)

  /** The text service answers the calls of a run from a finite script, in
      call order: the k-th call gets the k-th answer, None once the script
      is exhausted. None stands for every failure the client collapses
      (transport error, error envelope, any exception). */
  function Answer(answers: seq<Option<string>>, k: nat): Option<string>
  {
    if k < |answers| then answers[k] else None
  }

  /** The answers left after the first n calls. */
  function Drop(answers: seq<Option<string>>, n: nat): (r: seq<Option<string>>)
    ensures forall k: nat :: Answer(r, k) == Answer(answers, n + k)
  {
    if n <= |answers| then answers[n..] else []
  }

  lemma DropDrop(answers: seq<Option<string>>, m: nat, n: nat)
    ensures Drop(Drop(answers, m), n) == Drop(answers, m + n)
  {
    if m <= |answers| && n <= |answers| - m {
      assert answers[m..][n..] == answers[m + n..];
    }
  }

  /** How many of the requests were of the given task. */
  function CountTask(asked: seq<Request>, t: Task): (n: nat)
    ensures n <= |asked|
  {
    if asked == [] then 0
    else (if asked[0].task == t then 1 else 0) + CountTask(asked[1..], t)
  }

  lemma {:induction false} CountTaskAppend(a: seq<Request>, b: seq<Request>, t: Task)
    ensures CountTask(a + b, t) == CountTask(a, t) + CountTask(b, t)
  {
    if a == [] {
      assert a + b == b;
    } else {
      assert (a + b)[1..] == a[1..] + b;
      CountTaskAppend(a[1..], b, t);
    }
  }
}
