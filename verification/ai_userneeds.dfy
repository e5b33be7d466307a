/** The placeholder user-need evaluation: every story it selects gets four
    random scores in 0..100 and is saved. Selection and the field writes are
    those of the scoring service's evaluation. */
module AiUserNeeds {
  import opened Values
  import opened Models
  import opened UserNeeds

  /** `evaluate_userneeds`: the text is not looked at; four random scores. */
  method EvaluateUserneeds(text: string) returns (needs: map<string, int>)
    ensures needs.Keys == NEED_FIELD_SET
    ensures InRange(needs)
  {
    needs := GenerateRandomUserneeds();
  }

  /** Every score in 0..100 and the derived fields recomputed. */
  ghost predicate ScoredAtRandom(s: Story)
    reads s
  {
    (forall i :: 0 <= i < |NEED_FIELDS| ==> 0 <= s.Needs()[i] <= 100) && s.Derived()
  }

  /** `evaluate_story_userneeds`: random scores written and the story saved. */
  method EvaluateStoryUserneeds(story: Story)
    modifies story
    ensures ScoredAtRandom(story)
  {
    var userNeeds := EvaluateUserneeds(story.story);
    ApplyUserneeds(story, userNeeds);
  }

  /** `evaluate_stories`: every selected story is scored and saved; every
      other story keeps its scores. */
  method EvaluateStories(stories: seq<Story>, date: Option<string>)
    modifies set s | s in stories
    ensures forall s :: s in stories && old(Selected(s, date)) ==> ScoredAtRandom(s)
    ensures forall s :: s in stories && !old(Selected(s, date)) ==> ScoreState(s) == old(ScoreState(s))
  {
    var selected := Selection(stories, date);
    SelectionMembers(stories, date);
    EvaluateEach(selected);
  }

  /** The loop of `evaluate_stories` over the selected stories. */
  method EvaluateEach(selected: seq<Story>)
    modifies set s | s in selected
    ensures forall s :: s in selected ==> ScoredAtRandom(s)
  {
    var i := 0;
    while i < |selected|
      invariant i <= |selected|
      invariant forall j :: 0 <= j < i ==> ScoredAtRandom(selected[j])
      decreases |selected| - i
    {
      EvaluateStoryUserneeds(selected[i]);
      i := i + 1;
    }
  }
}
