# news_hyperlocalizer — a Dafny model of the story pipeline

news_hyperlocalizer collects local news stories and classifies them. Its
pipeline has these parts:

- **Collection.** It scrapes a news source's front page and asks a text
  service which links are stories. Then it scrapes each story page and has
  the service extract a story record. It writes or checks the record's
  summary, sanitises the record and stores it under its URL, stopping after
  five stories.
- **Labelling.** The service proposes topic labels and location labels for
  a story. Labels are matched by name, ignoring case. Each accepted label is
  meant to be linked to the story with the classifier's confidence. The
  declared link model has no confidence field, though, so as written the
  first accepted entry raises TypeError (see "## Findings").
- **User-need scoring.** Each story gets four user-need scores, from an
  external scoring service or at random. Saving the story recomputes their
  sum and the primary need.
- **Demonstration data.** News sources are imported from CSV rows, and ten
  generated stories are created for every source.

The model takes the program's own form:

- **Pure code becomes functions and lemmas.** This covers the text-service
  parsers, the scraper choice, the page-content extraction, the label
  colours and the CSV row mapping.
- **Code that updates state step by step becomes methods with loops.** Each
  method is proved equal to a specification function, and the properties
  are then proved about that function:
  - the record sanitiser;
  - the summary step;
  - the collection loop over the URL store;
  - the label store with its label and link tables;
  - `Story.save`;
  - the scoring loops;
  - the source and story catalogue.

Every external collaborator is an oracle. These are HTTP, the headless
browser, the HTML parser, JSON decoding, `urljoin` and ISO-8601 date parsing
(all fields of `Services.Env`), and the scoring service (`UserNeeds.Scorer`).
The scraper choice and the static scraper each make their own request for a
page, so they are two oracles, and either may fail while the other
succeeds. The text service answers a run's calls from a script, one answer
per call, and each method returns the requests it made. Exceptions that
escape the Python code are `Raise`/`Aborted` values, never preconditions.
This includes a request error of the scoring POST, which nothing catches.

Files:

- `values.dfy`: JSON-like values, Python dictionary lookups and truthiness.
- `services.dfy`: the oracles, the requests and the answer script.
- `sources.dfy`: the source enums and `getattr` name resolution.
- `models.dfy`: label types, colours, `Label`, `Story`, `Story.save` and the Story field table.
- `sanitize.dfy`: `sanitize_story_data`.
- `scraping.dfy`: the scraper choice and content extraction.
- `collection.dfy`: summaries, URL extraction and the collection loop.
- `labels.dfy`: the label classifier.
- `userneeds.dfy` and `ai_userneeds.dfy`: the two user-need scorers.
- `mockdata.dfy`: the CSV import and the generated stories.

## Model

| member | source | states |
|---|---|---|
| Sanitizer.SanitizeStoryData | story_collection/collection.py:171-204 | The field loop and the date promotion compute `Sanitized`. The result is None exactly when some required Story field holds a falsy value; keys that are not Story fields never refuse a record. |
| Sanitizer.CheckDate | story_collection/collection.py:190-197 | A date field keeps its value exactly when it parses as ISO-8601 or is None, and otherwise becomes None; other fields are untouched. |
| Sanitizer.Promote | story_collection/collection.py:199-202 | After promotion, a missing creation date implies a missing update date. |
| Sanitizer.SanitizedShape | story_collection/collection.py:171-204 | A kept record has its non-date fields unchanged, both dates valid or None, and never an update date without a creation date. A valid creation date is kept. Only `created` can be added as a key. |
| Sanitizer.SanitizedIdempotent | story_collection/collection.py:171-204 | Sanitising a sanitised record gives it back unchanged. |
| Sanitizer.SanitizeExample | story_collection/collection.py:199-202 | The record with `created` "xxxx" and a valid `updated` gets `created` set to the update date and `updated` cleared. |
| Collection.WordCountJoin | story_collection/collection.py:86 | `len(split())` of words joined by single spaces is the number of words. |
| Collection.InterpretHtmlContent | story_collection/collection.py:52-79 | A failed call or an undecodable answer gives None; otherwise it gives the decoded document. |
| Collection.SummaryFromAnswer | story_collection/collection.py:100-115 | A failed call or an undecodable answer gives None. Otherwise the result is the lookup of `summary`, which raises when the key is missing. |
| Collection.ValidationFromAnswer | story_collection/collection.py:118-133 | The summary is approved exactly when the decoded answer's `validation` is "yes". A failed call or bad JSON disapproves. |
| Collection.Summarised | story_collection/collection.py:82-97 | A candidate that is not a dictionary raises TypeError. A truthy summary that is not a string raises AttributeError; a falsy one (None, 0, an empty list) counts as missing and is regenerated. A missing `story` raises KeyError, and no call is made in any of these cases. |
| Collection.SummarisedFirstCall | story_collection/collection.py:84-90 | A short (at most 30 words) non-empty summary is validated first; otherwise a summary is generated from `story` first. |
| Collection.SummarisedCalls | story_collection/collection.py:82-97 | A run makes at most three calls: at most two generations and at most one validation, and exactly one validation when a record comes back. |
| Collection.SummarisedSuccess | story_collection/collection.py:92-97 | Only the summary differs from the candidate. An approved summary is returned as validated. A disapproved one is replaced by exactly one more generation, whose result is returned. |
| Collection.SummarisedKeepsApproved | story_collection/collection.py:84-97 | A short summary that validation approves comes back untouched, after one call. |
| Collection.SummarisedChecked | story_collection/collection.py:84-93 | When a record comes back, the validation call was given the story and the summary being checked. That summary is the kept one when it is short, and otherwise the one the first call generated from the story. |
| Collection.GenerateSummary | story_collection/collection.py:82-97 | The reassigning method computes `Summarised`: the same result and the same calls. |
| Collection.ValidateSummary | story_collection/collection.py:92-95 | Validate once; unless approved, regenerate once. It computes `Validated`. |
| Collection.ExtractUrlsFromSource | story_collection/collection.py:10-49 | Every failure gives []: an unknown source id, no scraper, no page, a failed call, bad JSON or a missing `items` key. The service is asked exactly when the source is found, a scraper is chosen and the page is fetched. Otherwise the result is the answer's `items`, and the request carries the page's resolved URLs joined by newlines. |
| Collection.Upsert | story_collection/collection.py:162-166 | `update_or_create` by URL: the key set gains the URL, other rows are unchanged, the defaults overwrite, and a new row starts with its URL. |
| Collection.UpsertTwice | story_collection/collection.py:166 | Writing a URL twice leaves one row in which the later fields win. A covering second write erases the first. |
| Collection.UpsertWellFormed | story_collection/collection.py:166 | Upserting a well-formed row keeps every row keyed by its own URL and free of refused values. |
| Collection.StoryStore.UpdateOrCreate | story_collection/collection.py:166 | The store after the call is `Upsert` of the store before it. |
| Collection.ProcessCandidate | story_collection/collection.py:154-163 | A saved row is well formed and carries the source; at most three service calls. |
| Collection.ProcessUrl | story_collection/collection.py:145-163 | A missing scraper raises AttributeError before any call. A chosen scraper that then gets no page raises TypeError, also before any call. A saved row is well formed, keyed by its URL and tagged with the source. At most four calls per URL. |
| Collection.SanitizedAccepts | story_collection/collection.py:171-204 | A record the sanitiser keeps holds no refused value. |
| Collection.Iteration | story_collection/collection.py:145-163 | The per-URL handling implements `ProcessUrl`: at most four calls, and saved rows are well formed and tagged. |
| Collection.Walk | story_collection/collection.py:136-168 | The walk visits URLs in order and never stores more than five stories. |
| Collection.WalkBounds | story_collection/collection.py:139-143 | Written positions were visited. A walk completes only at the end of the list or on reaching five stories. |
| Collection.WalkIncreasing | story_collection/collection.py:139 | URLs are written in list order, each position at most once. |
| Collection.WalkStops | story_collection/collection.py:141-143 | The walk stops right after the URL that stored the fifth story. |
| Collection.WalkCalls | story_collection/collection.py:139-163 | The text service is called at most four times per visited URL. |
| Collection.WalkKeys | story_collection/collection.py:166 | The store gains only the written URLs as keys. |
| Collection.WalkRowsWritten | story_collection/collection.py:166-168 | Every URL the walk counted is stored. |
| Collection.WalkRowsKept | story_collection/collection.py:166 | Rows of URLs the walk did not write are untouched. |
| Collection.WalkRowsWellFormed | story_collection/collection.py:162-166 | A store whose rows are well formed stays so. |
| Collection.WalkRowsSource | story_collection/collection.py:162 | Every row the walk added or changed carries the walk's source. |
| Collection.WalkStep | story_collection/collection.py:139-168 | One loop iteration: a failure ends the walk, a skip moves on, and a save stores the row and counts it. |
| Collection.HandleUrl | story_collection/collection.py:145-160 | The iteration body computes `ProcessUrl`. |
| Collection.HandleCandidate | story_collection/collection.py:154-163 | The second half of the body computes `ProcessCandidate`. |
| Collection.VisitUrl | story_collection/collection.py:145-168 | One iteration with its write: the store and the rest of the walk agree with `Walk`. |
| Collection.WalkUrls | story_collection/collection.py:136-168 | The counting loop over the store computes `Walk` from the first URL: outcome, positions, calls and the final store. |
| Collection.ExtractStoriesFromUrls | story_collection/collection.py:136-168 | `extract_stories_from_urls` computes `Walk` with the per-URL handling, so all the Walk lemmas above hold of it. |
| Scraping.ChooseStrategy | story_collection/scraping_utils.py:106-117 | AJAX exactly when a script contains "ajax"; otherwise dynamic exactly when some script exists; otherwise static. |
| Scraping.GetScraper | story_collection/scraping_utils.py:94-117 | None exactly when the fetch fails; otherwise the choice made on the parsed page. |
| Scraping.ScrapeWebsite | story_collection/scraping_utils.py:22-91 | The static scraper gives None exactly when its own request for the page fails. The browser scrapers give None when the browser fails. Only the dynamic scraper's wait timeout escapes, as `WaitTimeout` (Selenium's `TimeoutException`). |
| Scraping.ExtractAllUrls | story_collection/scraping_utils.py:120-123 | One resolved URL per anchor with an href, in document order, duplicates kept. |
| Scraping.SelectAppend | story_collection/scraping_utils.py:122-136 | The filtering comprehensions keep document order: selecting from a concatenation concatenates the selections. |
| Scraping.SelectMembers | story_collection/scraping_utils.py:122-136 | Every kept tag contributes its attribute, and every selected value comes from a kept tag. |
| Scraping.MetaProperties | story_collection/scraping_utils.py:133 | The keys are exactly the `name` (else `property`) of the meta tags that have a key and non-empty content. |
| Scraping.MetaPropertiesLastWins | story_collection/scraping_utils.py:133 | The value under a key is the content of the last qualifying meta tag with that key. |
| Scraping.ExtractStoryContent | story_collection/scraping_utils.py:126-144 | Exactly the keys `text`, `meta_properties` and `images`. The images are the non-empty `src` of every img, in document order. |
| Sources.ResolveOriginalContent | mock/mockdata.py:15 | `getattr` by member name: the member so named, or MIX when no member has the name. |
| Sources.ResolveReleaseFrequency | mock/mockdata.py:16 | The member so named, or UNSURE. |
| Sources.ResolveCommercialPublisher | mock/mockdata.py:17 | The member so named, or YES. |
| Sources.ResolveIndividualOrOrganisation | mock/mockdata.py:18 | The member so named, or UNSURE. |
| Sources.ResolveContentType | mock/mockdata.py:19 | The member so named, or MIX. |
| Sources.ResolveContentQuality | mock/mockdata.py:20 | The member so named, or LOW. |
| Sources.FindSource | story_collection/collection.py:13-18 | `Source.objects.get(id=...)`: None exactly when no row has the id, otherwise that row's source. |
| Models.ParseLabelType | story_evaluation/story_labels.py:52 | Membership in `LabelType.values`, and the member a stored value names. |
| Models.StoredValueRoundTrip | stories/models.py:5-9 | Every label type's stored value parses back to it. |
| Models.LabelColor | stories/models.py:11-13 | `label_color` is total, and it is the colour at the type's position in the zip of types and colours. |
| Models.LabelColorTable | stories/models.py:11-21 | LOCATION is #007bff, TOPIC #28a745, CATEGORY #17a2b8 and AUDIENCE #ffc107. |
| Models.LabelColorInjective | stories/models.py:11-21 | Distinct types get distinct colours. |
| Models.LabelStringParts | stories/models.py:23-24 | `str(label)` is the name, ": " and the type, and both parts can be read back. |
| Models.CapitalizeChars | stories/models.py:58 | `capitalize` upper-cases the first character and lower-cases the rest. |
| Models.CapitalizedKeys | stories/models.py:51-58 | Capitalising know, understand, feel, do gives Know, Understand, Feel, Do. |
| Models.FirstMaxIsFirst | stories/models.py:57 | `max(user_needs, key=...)` picks a maximal score, and every earlier score is strictly smaller (ties go to the first key). |
| Models.PrimaryNeedName | stories/models.py:51-58 | The primary need is one of Know, Understand, Feel, Do: the first one with a maximal score. |
| Models.Story.constructor | stories/models.py:27-47 | A new story has the given fields and every score at its default of 0. |
| Models.Story.Save | stories/models.py:49-62 | `needsSum` is the sum of the four scores, `needsPrimary` is the primary need, the scores are unchanged, and no other field is written. |
| Models.SaveExample | stories/models.py:51-58 | The scores 20, 30, 40, 50 give the primary need Do. |
| Models.TiesGoToKnow | stories/models.py:57-58 | Four equal scores give Know. |
| Labels.FirstKey | story_evaluation/story_labels.py:30-40 | The first of the keys the document holds; every earlier key is absent. |
| Labels.Unwrap | story_evaluation/story_labels.py:30-40 | The if/elif chain: the value under the first present key, or [] when none is present. |
| Labels.CollectLabels | story_evaluation/story_labels.py:8-47 | The value under the first present key of items, topics, labels, locations. A failed call, bad JSON, a missing key or any exception gives []. |
| Labels.CheckEntry | story_evaluation/story_labels.py:56-65 | An entry without `name` or `confidence` is skipped, and so is a name whose length is outside 1..200. A well-formed entry is accepted with its name and confidence. A value that is not a container raises. |
| Labels.Chars | story_evaluation/story_labels.py:56 | Iterating over a string yields its one-character strings. |
| Labels.MatchLabel | story_evaluation/story_labels.py:68 | `name__iexact`: the first label whose name equals the given one ignoring case, None exactly when there is none. |
| Labels.GetOrCreateLabel | story_evaluation/story_labels.py:68-69 | An existing label that matches ignoring case is reused and left as it is. Otherwise a label with the entry's name and the argument's type is added. Links are untouched and the tables stay valid. |
| Labels.AttachLink | story_evaluation/story_labels.py:72-78 | The story is linked to the label afterwards. An existing link is swallowed and leaves the tables unchanged. The tables stay valid, with each (story, label) pair at most once. |
| Labels.NewLink | story_evaluation/story_labels.py:72 | Building a link succeeds exactly when the model has a `confidence` field. |
| Labels.Saving | story_evaluation/story_labels.py:56-78 | The entry loop keeps the tables valid and only appends. New labels have the given type and a 1..200-character name; new links are the story's. |
| Labels.SaveLabelsResult | story_evaluation/story_labels.py:50-54 | A label type outside `LabelType.values` changes nothing. This row and the classifier rows below it (`Saving`, `Classified`, `ClassifiedAll` and the `LabelStore` methods) use the corrected link model, which has a confidence field. With the declared model every accepted entry raises TypeError (see `Labels.SavingAsDeclared` and "## Findings"). |
| Labels.SaveLabelsShape | story_evaluation/story_labels.py:50-78 | `save_labels` keeps the tables valid and existing rows untouched. Labels it adds have the given type; links it adds are the story's. |
| Labels.SavingSkips | story_evaluation/story_labels.py:58-65 | A skipped entry leaves the tables alone, and the later entries are still processed. |
| Labels.SavingReuses | story_evaluation/story_labels.py:68-78 | An entry whose name matches a label ignoring case links that label and adds no label. |
| Labels.SavingChars | story_evaluation/story_labels.py:56-60 | A string of proposals yields only one-character entries, so nothing is saved. |
| Labels.SavingLinksAccepted | story_evaluation/story_labels.py:56-78 | After a completed loop, every accepted entry's name is linked to the story through a label named like it ignoring case. |
| Labels.SavingAsDeclared | stories/models.py:68-73 | With the declared link model, which has no confidence field, no link is ever saved. A loop completes only when every entry is skipped. |
| Labels.ClassifiedOrder | story_evaluation/story_labels.py:81-116 | Topics are asked for and saved before locations. Only labels and links are added; the new links are the story's, and new topic labels precede new location labels. |
| Labels.ClassifiedValid | story_evaluation/story_labels.py:81-116 | Classifying keeps the tables valid. |
| Labels.ClassifiedAllOrder | story_evaluation/story_labels.py:119-121 | Stories are visited in order: call j is about story j/2, topics then locations. A completed run makes two calls per story. |
| Labels.ClassifiedAllStep | story_evaluation/story_labels.py:119-121 | One story of the loop: a raising story ends the run, otherwise the run goes on with the next story. |
| Labels.LabelStore.constructor | stories/models.py:16-24 | Both tables start empty and valid. |
| Labels.LabelStore.GetOrCreate | story_evaluation/story_labels.py:68-69 | The table update is `GetOrCreateLabel`, and `created` holds exactly when no label matched. |
| Labels.LabelStore.Attach | story_evaluation/story_labels.py:72-78 | The table update is `AttachLink`, and the tables stay valid. |
| Labels.LabelStore.SaveLabels | story_evaluation/story_labels.py:50-78 | The loop computes `SaveLabelsResult` and keeps the tables valid. |
| Labels.LabelStore.ClassifyStory | story_evaluation/story_labels.py:81-116 | It computes `Classified`: topics, then locations. |
| Labels.LabelStore.ClassifyStories | story_evaluation/story_labels.py:119-121 | It computes `ClassifiedAll` over the stories in order. |
| UserNeeds.MapResponse | story_evaluation/story_userneeds.py:45-52 | Exactly the four fields: know to needsKnow, context to needsUnderstand, emotion to needsFeel, action to needsDo, and a missing key gives 0. |
| UserNeeds.MapResponseExample | story_evaluation/story_userneeds.py:47-52 | A reply of 80, 70, 60, 50 is carried over field by field. |
| UserNeeds.MapResponseEmpty | story_evaluation/story_userneeds.py:47-52 | A reply without any known key scores every field 0. |
| UserNeeds.RandInt | story_evaluation/story_userneeds.py:61 | `randint(0, 100)` lies in 0..100. |
| UserNeeds.GenerateRandomUserneeds | story_evaluation/story_userneeds.py:59-64 | Exactly the four fields, each in 0..100. |
| UserNeeds.EvaluateUserneeds | story_evaluation/story_userneeds.py:29-57 | With a key, a request error of the POST escapes as RequestException, and only then does the call raise. Otherwise the result has exactly the four fields. With a key and status 200 they are the mapped reply; otherwise each lies in 0..100. |
| UserNeeds.SetAttr | story_evaluation/story_userneeds.py:25 | `setattr` writes the named score field and leaves the other scores alone. |
| UserNeeds.ApplyUserneeds | story_evaluation/story_userneeds.py:24-26 | Each field in the dictionary takes its score and the others keep theirs; then `save` recomputes the derived fields. |
| UserNeeds.EvaluateStoryUserneeds | story_evaluation/story_userneeds.py:22-26 | The call aborts exactly when the scoring POST raises, and then the story's scores are untouched. Otherwise the story's scores are what `evaluate_userneeds` gives for its text, and the derived fields agree with them. |
| UserNeeds.Selection | story_evaluation/story_userneeds.py:14-17 | Exactly the stories the filter selects, in table order. |
| UserNeeds.SelectionMembers | story_evaluation/story_userneeds.py:14-17 | A story is selected exactly when its scores are all 0 (no date), or when its creation or update date is the given date. |
| UserNeeds.EvaluateEach | story_evaluation/story_userneeds.py:18-19 | The stories before the stopping point are scored and saved, the rest keep their scores. The loop stops only at a story whose scoring POST raises, and otherwise covers every story. |
| UserNeeds.EvaluateStoriesUserneeds | story_evaluation/story_userneeds.py:13-19 | Selected stories are scored and saved in table order until a scoring POST raises, which ends the run. Stories not reached and unselected stories keep their scores and derived fields. A completed run scores every selected story. |
| AiUserNeeds.EvaluateUserneeds | ai_evaluation/userneeds.py:22-30 | Exactly the four fields, each in 0..100. |
| AiUserNeeds.EvaluateStoryUserneeds | ai_evaluation/userneeds.py:15-19 | Random scores in 0..100 are written, and the derived fields agree with them. |
| AiUserNeeds.EvaluateEach | ai_evaluation/userneeds.py:11-12 | Every story of the loop is scored and saved. |
| AiUserNeeds.EvaluateStories | ai_evaluation/userneeds.py:6-12 | Every selected story is scored at random and saved; every other story keeps its scores. |
| MockData.RowToSource | mock/mockdata.py:13-40 | A row lacking a column raises KeyError, and only such a row raises. |
| MockData.RowToSourceColumns | mock/mockdata.py:15-38 | The free-text columns are copied verbatim. Each enum column gives the member of that name, or the column's default (MIX, UNSURE, YES, UNSURE, MIX, LOW). |
| MockData.Converted | mock/mockdata.py:13-40 | An import creates at most one source per row, and completes exactly when it creates one per row. |
| MockData.ConvertedRows | mock/mockdata.py:13-40 | Source i comes from row i, in order. An import stops at the first raising row, with that row's exception. |
| MockData.ImportOutcome | mock/mockdata.py:13-40 | One source per row when every row is complete; otherwise the import stops with KeyError at the first incomplete row. |
| MockData.Numbered | mock/mockdata.py:40 | Created sources get consecutive keys, in order. |
| MockData.ImportKeepsValid | mock/mockdata.py:40 | Importing under fresh keys keeps keys increasing and every story's source existing. |
| MockData.Unowned | mock/mockdata.py:50 | Deleting every source cascades: the stories left own no source. |
| MockData.UnownedKeeps | mock/mockdata.py:50 | Exactly the stories without a source survive. |
| MockData.UnownedOrder | mock/mockdata.py:50 | The surviving stories keep their order. |
| MockData.UnownedValid | mock/mockdata.py:48-50 | Deleting every source keeps the tables valid. |
| MockData.NumberedAppend | mock/mockdata.py:40 | Creating one more source appends its row under the next key. |
| MockData.ImageFor | mock/mockdata.py:75-79 | None exactly when there are no image files; otherwise "story_images/" followed by one of the files. |
| MockData.CreateStory | mock/mockdata.py:69-92 | A new saved story with the fake texts and dates, the image choice, the given source, scores 0 and primary need Know. |
| MockData.Catalogue.constructor | mock/mockdata.py:42-45 | Empty tables, valid. |
| MockData.Catalogue.ImportSourcesFromCsv | mock/mockdata.py:10-40 | The source table gains one row per converted source under fresh consecutive keys, and the next key moves past them; the outcome is the import's. |
| MockData.Catalogue.ImportRows | mock/mockdata.py:13-40 | The loop over the rows computes `Converted`, the next key moves past the new rows, and the tables stay valid. |
| MockData.Catalogue.ClearData | mock/mockdata.py:42-45 | No story and no source remain. |
| MockData.Catalogue.PopulateSources | mock/mockdata.py:48-53 | Every source is deleted, and with it every story it owned; then the rows are imported under keys from the old next key on. Only the two tables and the next source key change. |
| MockData.Catalogue.PopulateStories | mock/mockdata.py:56-92 | Every story is deleted, then exactly ten fresh stories are created per source in source order. Story k belongs to source k/10 and gets the next key, which ends one past the last story's. |
| Services.Drop | story_collection/collection.py:139-168 | After n calls, the k-th remaining answer is the (n+k)-th of the script. |
| Services.CountTaskAppend | story_collection/collection.py:82-97 | Calls of a task in two runs add up. |

## Left out

- I/O is not modelled as such. HTTP (`requests`), the Selenium browser, BeautifulSoup, `json.loads`, `urljoin`, `datetime.fromisoformat`, the environment variable and the scoring service's POST are all parameters (`Services.Env`, `UserNeeds.Scorer`, the API key). Each is a total function, and a failure it reports is a value (None, a status, `RequestFailed`). Whether that failure is caught is modelled as in the code. The scraper choice and the static scraper fetch the page separately, as `Env.get` and `Env.refetch`. The two fetches are not linked, so neither constrains the other.
- The text-service client (`process_content_with_openai`, its prompts and JSON schemas, and the argument order it is called with) is an answer script. A call gets the next answer or None. The client lives in ai_utilities/openai_utils.py, which is not part of this model.
- `str(soup)` re-serialisation is not modelled: the static scraper returns the fetched body as the page markup. `str(story_content)` in `interpret_html_content` is not modelled either; the request carries the content record itself.
- The Selenium driver is never quit when the dynamic scraper's wait times out. This resource leak is not modelled.
- Models.Capitalize, Models.LowerAll: only ASCII case is modelled. Python's Unicode case mapping, and the case folding of the database's `iexact`, are not.
- Models.PrimaryNeed reads the capitalised key from the name table. `Models.CapitalizedKeys` proves that table equals `str.capitalize` of the keys, and `Story.Save` computes it with `Capitalize` itself.
- Scoring and randomness:
  - UserNeeds.EvaluateUserneeds: the service reply is a map from key to integer. A reply whose JSON body is not an object, or whose scores are not integers, is not modelled.
  - `random.randint` is a nondeterministic choice in 0..100.
  - Faker and `random.choice` are the `MockData.Fake` oracle, indexed by the story's number. The ordering of the generated creation and update dates is not modelled.
- Collection.WellFormedRow: Django's validation of field types, lengths and URLs at save time is not modelled.
- Collection.Upsert: the database's refusals are not modelled, and the model stores and counts the row where the program raises and ends the collection loop. There are three cases. First, the model assumes a stories table with at most one row per URL, which is why the store is a map keyed by URL. The schema does not enforce this: `Story.url` is not declared unique (stories/models.py:34), and the admin and the stories API can add a second story with a stored URL. On such a table `update_or_create(url=url, ...)` raises MultipleObjectsReturned, which nothing catches, so `extract_stories_from_urls` ends there. Second, on the create path, `update_or_create` raises FieldError for a key that is not a Story field, while the model keeps that key in the row. Third, on either path, a None in a field declared without `null=True` raises IntegrityError at save; `author`, `story` and `image_url` are such fields (stories/models.py:31-36).
- Collection.ExtractUrlsFromSource: the entries of `items` are passed on as they are; non-string entries are not singled out.
- The story-id forms of `collect_labels_for_story` and `classify_story` (the lookup that catches the wrong exception type) are left out. The model takes story values directly, and ids only for sources.
- UserNeeds.Selected: the date filter compares `created` and `updated` with the given date as text. The program's `Q(created=date) | Q(updated=date)` compares date-time values, so "2024-05-01" also matches a story stored at "2024-05-01T00:00:00". The model selects only an exact textual match.
- Labels.GetOrCreateLabel: the model assumes label tables written only by this pipeline, in which no two names differ only in case (`ValidTables`, required by the `LabelStore` methods). The database's `unique=True` on the name is case-sensitive (stories/models.py:17), so labels entered by other means, such as the admin, may differ only in case. On such a table `get_or_create(name__iexact=...)` raises MultipleObjectsReturned, which nothing in `save_labels` catches, so it ends `classify_story` and `classify_stories`. The model does not cover such tables.
- Labels.CheckEntry: for a name that is a list or a dictionary, the model raises TypeError at `get_or_create`. It does not model how the database would treat such a name.
- Stories: deleting a story or a label does not model the cascade to StoryLabel rows.
- Collection.StoryStore: the stored rows are field dictionaries. Saving them does not recompute `needsSum`/`needsPrimary`, since collected records carry no scores. The stored rows and the `Models.Story` objects are separate representations of a story.
- MockData.RowToSource: a short CSV row is modelled as lacking the column (KeyError). `csv.DictReader` would instead fill the missing columns with None. Enum columns are resolved only by member name: `getattr` on another attribute of the enum class is not modelled.
- `collect_stories_from_source`, the two `test()` functions and every `print` are left out. The first two only chain the modelled operations on the database's first source or all stories; the prints are logging.
- MockData.Catalogue.ImportSourcesFromCsv: opening and reading the CSV file is left out; the rows are the parameter.

## Findings

| source | as written | input that shows it | evidently intended | confidence | as-written member | corrected member |
|---|---|---|---|---|---|---|
| stories/models.py:68-73, story_evaluation/story_labels.py:72 | `save_labels` builds `StoryLabel(story=..., label=..., confidence=...)`, but the declared StoryLabel model has no `confidence` field, so the constructor raises TypeError at the first accepted entry | `labels = [{"name": "Onderwijs", "confidence": 0.9}]` with `labeltype = "TOPIC"`: the label is created, then building the link raises, and no link is ever saved | the link carries the classifier's confidence, and every accepted entry ends up linked to the story | not executed | Labels.SavingAsDeclared | Labels.SavingLinksAccepted |
