/** User-need scoring of stories: an external scoring service (when an API
    key is configured and it answers 200) or random scores in 0..100, written
    into a story's four need fields before the story is saved, for the
    stories a date (or the absence of any score) selects. */
module UserNeeds {
  import opened Values
  import opened Models

  /** The fields of the scores dictionary, in the order it lists them. */
  const NEED_FIELDS: seq<string> := ["needsKnow", "needsUnderstand", "needsFeel", "needsDo"]

  /** The service's key for each field, position by position. */
  const RESPONSE_KEYS: seq<string> := ["know", "context", "emotion", "action"]

  /** The keys every scores dictionary has. */
  const NEED_FIELD_SET: set<string> := {"needsKnow", "needsUnderstand", "needsFeel", "needsDo"}

  /** The scoring service's reply: its HTTP status and, on success, its JSON
      object of scores; or the request error `requests.post` raises when no
      reply comes. */
  datatype Reply = Reply(status: int, body: map<string, int>) | RequestFailed

  /** The scoring service, called with the API key and the story text. */
  type Scorer = (string, string) -> Reply

  /** The service is used: a non-empty key is configured and it answered 200. */
  predicate UsesService(apiKey: Option<string>, text: string, score: Scorer)
  {
    apiKey.Some? && apiKey.value != "" && score(apiKey.value, text).Reply? && score(apiKey.value, text).status == 200
  }

  /** The service is called and the call raises: nothing catches it. */
  predicate PostRaises(apiKey: Option<string>, text: string, score: Scorer)
  {
    apiKey.Some? && apiKey.value != "" && score(apiKey.value, text).RequestFailed?
  }

  /** The reply's scores under the field names, a missing score read as 0. */
  function MapResponse(body: map<string, int>): (needs: map<string, int>)
    ensures needs.Keys == NEED_FIELD_SET
    ensures forall i :: 0 <= i < |NEED_FIELDS| ==>
              needs[NEED_FIELDS[i]] == if RESPONSE_KEYS[i] in body then body[RESPONSE_KEYS[i]] else 0
  {
    map[
      "needsKnow" := if "know" in body then body["know"] else 0,
      "needsUnderstand" := if "context" in body then body["context"] else 0,
      "needsFeel" := if "emotion" in body then body["emotion"] else 0,
      "needsDo" := if "action" in body then body["action"] else 0]
  }

  /** A reply of 80, 70, 60, 50 is carried over field by field. */
  lemma MapResponseExample()
    ensures var needs := MapResponse(map["know" := 80, "context" := 70, "emotion" := 60, "action" := 50]);
            needs["needsKnow"] == 80 && needs["needsUnderstand"] == 70
            && needs["needsFeel"] == 60 && needs["needsDo"] == 50
  {
  }

  /** A reply without any known key scores every field 0. */
  lemma MapResponseEmpty(body: map<string, int>)
    requires forall i :: 0 <= i < |RESPONSE_KEYS| ==> RESPONSE_KEYS[i] !in body
    ensures forall f :: f in MapResponse(body) ==> MapResponse(body)[f] == 0
  {
    var needs := MapResponse(body);
    forall f | f in needs
      ensures needs[f] == 0
    {
      assert f == NEED_FIELDS[0] || f == NEED_FIELDS[1] || f == NEED_FIELDS[2] || f == NEED_FIELDS[3];
    }
  }

  /** Every score lies in 0..100. */
  predicate InRange(needs: map<string, int>)
  {
    forall f :: f in needs ==> 0 <= needs[f] <= 100
  }

  /** `random.randint(0, 100)`. */
  method RandInt() returns (r: int)
    ensures 0 <= r <= 100
  {
    r :| 0 <= r <= 100;
  }

  /** `generate_random_userneeds`: each of the four fields drawn from 0..100. */
  method GenerateRandomUserneeds() returns (needs: map<string, int>)
    ensures needs.Keys == NEED_FIELD_SET && InRange(needs)
  {
    var know := RandInt();
    var understand := RandInt();
    var feel := RandInt();
    var act := RandInt();
    needs := map["needsKnow" := know, "needsUnderstand" := understand, "needsFeel" := feel, "needsDo" := act];
  }

  /** `evaluate_userneeds`: the service's scores when it is configured and
      answers 200, random scores when it answers otherwise or is not
      configured; always the four fields. A request error of the call
      escapes. */
  method EvaluateUserneeds(text: string, apiKey: Option<string>, score: Scorer) returns (needs: Result<map<string, int>>)
    ensures needs.Raise? <==> PostRaises(apiKey, text, score)
    ensures needs.Raise? ==> needs.exc == RequestException
    ensures needs.Ok? ==> needs.value.Keys == NEED_FIELD_SET
    ensures UsesService(apiKey, text, score) ==> needs == Ok(MapResponse(score(apiKey.value, text).body))
    ensures !UsesService(apiKey, text, score) && needs.Ok? ==> InRange(needs.value)
  {
    if apiKey.Some? && apiKey.value != "" {
      var response := score(apiKey.value, text);
      if response.RequestFailed? {
        return Raise(RequestException);
      }
      if response.status == 200 {
        return Ok(MapResponse(response.body));
      }
    }
    var random := GenerateRandomUserneeds();
    needs := Ok(random);
  }

  /** The story's scores as `evaluate_userneeds` may have produced them for
      its text. */
  ghost predicate ScoredFor(needs: seq<int>, text: string, apiKey: Option<string>, score: Scorer)
    requires |needs| == |NEED_FIELDS|
  {
    if UsesService(apiKey, text, score)
    then forall i :: 0 <= i < |NEED_FIELDS| ==> needs[i] == MapResponse(score(apiKey.value, text).body)[NEED_FIELDS[i]]
    else forall i :: 0 <= i < |NEED_FIELDS| ==> 0 <= needs[i] <= 100
  }

  /** The story's scores as `evaluate_userneeds` may have produced them for
      its text, and its derived fields recomputed. */
  ghost predicate Evaluated(s: Story, apiKey: Option<string>, score: Scorer)
    reads s
  {
    ScoredFor(s.Needs(), s.story, apiKey, score) && s.Derived()
  }

  /** `setattr(story, field, value)` for a score field; other names do not
      touch the scores. */
  method SetAttr(story: Story, field: string, value: int)
    modifies story`needsKnow, story`needsUnderstand, story`needsFeel, story`needsDo
    ensures forall i :: 0 <= i < |NEED_FIELDS| ==>
              story.Needs()[i] == if field == NEED_FIELDS[i] then value else old(story.Needs())[i]
  {
    if field == "needsKnow" {
      story.needsKnow := value;
    } else if field == "needsUnderstand" {
      story.needsUnderstand := value;
    } else if field == "needsFeel" {
      story.needsFeel := value;
    } else if field == "needsDo" {
      story.needsDo := value;
    }
  }

  /** The `setattr` loop over the scores dictionary, then `save`: every
      field the dictionary holds takes its score, the others keep theirs,
      and the derived fields are recomputed. */
  method ApplyUserneeds(story: Story, needs: map<string, int>)
    modifies story`needsKnow, story`needsUnderstand, story`needsFeel, story`needsDo, story`needsSum, story`needsPrimary
    ensures forall i :: 0 <= i < |NEED_FIELDS| ==>
              story.Needs()[i] == if NEED_FIELDS[i] in needs then needs[NEED_FIELDS[i]] else old(story.Needs())[i]
    ensures story.Derived()
  {
    var todo := needs.Keys;
    while todo != {}
      invariant todo <= needs.Keys
      invariant forall i :: 0 <= i < |NEED_FIELDS| ==>
                  story.Needs()[i] == if NEED_FIELDS[i] in needs && NEED_FIELDS[i] !in todo
                                      then needs[NEED_FIELDS[i]] else old(story.Needs())[i]
      decreases |todo|
    {
      var field :| field in todo;
      todo := todo - {field};
      SetAttr(story, field, needs[field]);
    }
    story.Save();
  }

  /** `evaluate_story_userneeds`: score the story's text and save it; when
      the scoring call raises, the story is left as it was. */
  method EvaluateStoryUserneeds(story: Story, apiKey: Option<string>, score: Scorer) returns (outcome: Outcome)
    modifies story
    ensures outcome.Aborted? <==> PostRaises(apiKey, story.story, score)
    ensures outcome.Aborted? ==> outcome.exc == RequestException && ScoreState(story) == old(ScoreState(story))
    ensures outcome.Completed? ==> Evaluated(story, apiKey, score)
  {
    var userNeeds := EvaluateUserneeds(story.story, apiKey, score);
    if userNeeds.Raise? {
      return Aborted(userNeeds.exc);
    }
    ApplyUserneeds(story, userNeeds.value);
    outcome := Completed;
  }

  // -------------------------------------------------------------- selection

  /** The filter of `evaluate_stories_userneeds`: without a date, the
      stories not scored yet (all four needs 0); with a date, the stories
      created or updated at that date. */
  predicate Selected(s: Story, date: Option<string>)
    reads s
  {
    match date
    case None => s.Needs() == [0, 0, 0, 0]
    case Some(d) => s.created == Some(d) || s.updated == Some(d)
  }

  /** The selected stories in table order. */
  function Selection(stories: seq<Story>, date: Option<string>): (r: seq<Story>)
    reads set s | s in stories
    ensures forall i :: 0 <= i < |r| ==> r[i] in stories && Selected(r[i], date)
    ensures forall i :: 0 <= i < |stories| && Selected(stories[i], date) ==> stories[i] in r
    ensures |r| <= |stories|
  {
    if stories == [] then []
    else (if Selected(stories[0], date) then [stories[0]] else []) + Selection(stories[1..], date)
  }

  /** The selection holds exactly the stories the filter selects. */
  lemma SelectionMembers(stories: seq<Story>, date: Option<string>)
    ensures forall s :: s in Selection(stories, date) <==> s in stories && Selected(s, date)
  {
    var r := Selection(stories, date);
    forall s | s in stories && Selected(s, date)
      ensures s in r
    {
      var i :| 0 <= i < |stories| && stories[i] == s;
    }
    forall s | s in r
      ensures s in stories && Selected(s, date)
    {
      var i :| 0 <= i < |r| && r[i] == s;
    }
  }

  /** A story's scores and derived fields, to say that they did not change. */
  function ScoreState(s: Story): (seq<int>, int, string)
    reads s
  {
    (s.Needs(), s.needsSum, s.needsPrimary)
  }

  /** `evaluate_stories_userneeds`: the selected stories are scored and
      saved in table order until a scoring call raises, which ends the loop;
      the stories before that point are scored, and every other story keeps
      its scores. Without a raise every selected story is scored. */
  method EvaluateStoriesUserneeds(stories: seq<Story>, date: Option<string>, apiKey: Option<string>, score: Scorer)
    returns (outcome: Outcome, done: nat)
    modifies set s | s in stories
    ensures var selected := old(Selection(stories, date));
            done <= |selected|
            && (forall j :: 0 <= j < done ==> Evaluated(selected[j], apiKey, score))
            && (outcome.Completed? ==> done == |selected|)
            && (outcome.Aborted? ==> outcome.exc == RequestException && done < |selected|
                                     && PostRaises(apiKey, selected[done].story, score))
            && (forall s :: s in stories && s !in selected[..done] ==> ScoreState(s) == old(ScoreState(s)))
    ensures outcome.Completed? ==> forall s :: s in stories && old(Selected(s, date)) ==> Evaluated(s, apiKey, score)
    ensures forall s :: s in stories && !old(Selected(s, date)) ==> ScoreState(s) == old(ScoreState(s))
  {
    var selected := Selection(stories, date);
    SelectionMembers(stories, date);
    outcome, done := EvaluateEach(selected, apiKey, score);
  }

  /** The loop of `evaluate_stories_userneeds` over the selected stories:
      the first `done` are scored, and a raise at position `done` ends it. */
  method EvaluateEach(selected: seq<Story>, apiKey: Option<string>, score: Scorer) returns (outcome: Outcome, done: nat)
    modifies set s | s in selected
    ensures done <= |selected|
    ensures forall j :: 0 <= j < done ==> Evaluated(selected[j], apiKey, score)
    ensures outcome.Completed? ==> done == |selected|
    ensures outcome.Aborted? ==> outcome.exc == RequestException && done < |selected|
                                 && PostRaises(apiKey, selected[done].story, score)
    ensures forall s :: s in selected && s !in selected[..done] ==> ScoreState(s) == old(ScoreState(s))
  {
    done := 0;
    while done < |selected|
      invariant done <= |selected|
      invariant forall j :: 0 <= j < done ==> Evaluated(selected[j], apiKey, score)
      invariant forall s :: s in selected && s !in selected[..done] ==> ScoreState(s) == old(ScoreState(s))
      decreases |selected| - done
    {
      outcome := EvaluateStoryUserneeds(selected[done], apiKey, score);
      if outcome.Aborted? {
        return;
      }
      assert selected[..done + 1] == selected[..done] + [selected[done]];
      done := done + 1;
    }
    outcome := Completed;
  }
}
