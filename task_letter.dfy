/**
 * The referral letter task: a story chain to a five-minute writing task,
 * an evaluator whose reply is cleaned of code fences before parsing, and
 * an evaluation screen that either leads on (total 80 or more) or resets
 * the task for another try.
 */
module TaskLetter {
  import opened Wrappers
  import opened Grading

  datatype Stage = Opening | TaskIntro | Task | Evaluation | NextChapter

  datatype Key = GameStateKey | TimerKey | LetterSubmissionKey | StartTimeKey | EvaluationResultKey

  const AllKeys: set<Key> := {GameStateKey, TimerKey, LetterSubmissionKey, StartTimeKey, EvaluationResultKey}

  /** Five minutes, in seconds. */
  const TimeLimit: nat := 300

  /**
   * `evaluate_letter`: the letter and its length score go to the model
   * (`ask`); a failed call gives nothing, otherwise the reply is cleaned
   * and parsed.
   */
  function EvaluateLetter(text: string, ask: (string, int) -> Option<string>, parse: string -> Option<Evaluation>): (r: Option<Evaluation>)
    ensures ask(text, LetterLengthScore(|text|)).None? ==> r.None?
    ensures ask(text, LetterLengthScore(|text|)).Some? ==> r == parse(CleanReply(ask(text, LetterLengthScore(|text|)).value))
  {
    EvaluateReply(ask(text, LetterLengthScore(|text|)), CleanReply, parse)
  }

  /** `st.session_state` of the page; times are whole seconds on the clock `now` passed to each render. */
  class Page {
    var keys: set<Key>
    var gameState: Stage
    var timer: int
    var letterSubmission: string
    var startTime: Option<int>
    var evaluationResult: Option<Evaluation>

    /** A new browser session: no key is set yet. */
    constructor ()
      ensures keys == {}
    {
      keys := {};
      gameState := Opening;
      timer := TimeLimit;
      letterSubmission := [];
      startTime := None;
      evaluationResult := None;
    }

    /** `init_session_state`: every missing key gets its default, every present key keeps its value. */
    method InitSessionState()
      modifies this
      ensures keys == old(keys) + AllKeys
      ensures gameState == (if GameStateKey in old(keys) then old(gameState) else Opening)
      ensures timer == (if TimerKey in old(keys) then old(timer) else TimeLimit)
      ensures letterSubmission == (if LetterSubmissionKey in old(keys) then old(letterSubmission) else [])
      ensures startTime == (if StartTimeKey in old(keys) then old(startTime) else None)
      ensures evaluationResult == (if EvaluationResultKey in old(keys) then old(evaluationResult) else None)
      ensures AllKeys <= old(keys) ==> unchanged(this)
    {
      if GameStateKey !in keys {
        gameState := Opening;
        keys := keys + {GameStateKey};
      }
      if TimerKey !in keys {
        timer := TimeLimit;
        keys := keys + {TimerKey};
      }
      if LetterSubmissionKey !in keys {
        letterSubmission := [];
        keys := keys + {LetterSubmissionKey};
      }
      FillProgress();
    }

    /** The keys `init_session_state` fills after the submission. */
    method FillProgress()
      modifies this`keys, this`startTime, this`evaluationResult
      ensures keys == old(keys) + {StartTimeKey, EvaluationResultKey}
      ensures startTime == (if StartTimeKey in old(keys) then old(startTime) else None)
      ensures evaluationResult == (if EvaluationResultKey in old(keys) then old(evaluationResult) else None)
      ensures {StartTimeKey, EvaluationResultKey} <= old(keys) ==> unchanged(this)
    {
      if StartTimeKey !in keys {
        startTime := None;
        keys := keys + {StartTimeKey};
      }
      if EvaluationResultKey !in keys {
        evaluationResult := None;
        keys := keys + {EvaluationResultKey};
      }
    }

    /** `display_opening`: the next button shows the story. */
    method DisplayOpening(nextPressed: bool)
      modifies this`gameState
      ensures gameState == (if nextPressed then TaskIntro else old(gameState))
    {
      if nextPressed {
        gameState := TaskIntro;
      }
    }

    /** `display_story`: the start button opens the task and starts the clock. */
    method DisplayStory(startPressed: bool, now: int)
      modifies this`gameState, this`startTime
      ensures startPressed ==> gameState == Task && startTime == Some(now)
      ensures !startPressed ==> gameState == old(gameState) && startTime == old(startTime)
    {
      if startPressed {
        gameState := Task;
        startTime := Some(now);
      }
    }

    /** The first half of `display_evaluation`: the evaluator is asked only while no result is stored. */
    method StoreEvaluation(ask: (string, int) -> Option<string>, parse: string -> Option<Evaluation>)
      modifies this`evaluationResult
      ensures evaluationResult == StoreOnce(old(evaluationResult), EvaluateLetter(letterSubmission, ask, parse))
    {
      if evaluationResult.None? {
        var result := EvaluateLetter(letterSubmission, ask, parse);
        if result.Some? {
          evaluationResult := result;
        }
      }
    }

    /**
     * `display_evaluation`: the evaluator runs only while no result is
     * stored, and its result is stored only if one came back. With a
     * result the tier is shown and one button offered: a total of 80 or
     * more leads to the next chapter, anything less resets the task and
     * restarts the clock.
     */
    method DisplayEvaluation(ask: (string, int) -> Option<string>, parse: string -> Option<Evaluation>, pressed: bool, now: int)
      returns (tier: Option<Tier>)
      modifies this
      ensures var stored := StoreOnce(old(evaluationResult), EvaluateLetter(old(letterSubmission), ask, parse));
        && tier == (if stored.Some? then Some(TierOf(stored.value.totalScore)) else None)
        && (stored.None? || !pressed ==>
              evaluationResult == stored && gameState == old(gameState)
              && letterSubmission == old(letterSubmission) && startTime == old(startTime))
        && (stored.Some? && pressed && Passes(stored.value.totalScore) ==>
              evaluationResult == stored && gameState == NextChapter
              && letterSubmission == old(letterSubmission) && startTime == old(startTime))
        && (stored.Some? && pressed && !Passes(stored.value.totalScore) ==>
              evaluationResult == None && gameState == Task
              && letterSubmission == [] && startTime == Some(now))
      ensures keys == old(keys) && timer == old(timer)
    {
      StoreEvaluation(ask, parse);
      ghost var stored := evaluationResult;
      assert stored == StoreOnce(old(evaluationResult), EvaluateLetter(old(letterSubmission), ask, parse));
      tier := None;
      if evaluationResult.Some? {
        var result := evaluationResult.value;
        tier := Some(TierOf(result.totalScore));
        if result.totalScore >= 80 {
          if pressed {
            gameState := NextChapter;
          }
        } else {
          if pressed {
            letterSubmission := [];
            evaluationResult := None;
            gameState := Task;
            startTime := Some(now);
          }
        }
      }
    }

    /**
     * `display_task`, on the task screen only: the clock is started if it
     * was not, the remaining time shown; while no result is stored the
     * text area's content is kept, and running out of time or submitting
     * moves to the evaluation, text kept. With a stored result the
     * evaluation screen is shown in place.
     */
    method DisplayTask(now: int, currentText: string, submit: bool,
                       ask: (string, int) -> Option<string>, parse: string -> Option<Evaluation>, pressed: bool)
      returns (clock: Option<(nat, nat)>)
      modifies this
      ensures old(gameState) != Task ==> unchanged(this) && clock.None?
      ensures old(gameState) == Task ==>
        var start := if old(startTime).Some? then old(startTime).value else now;
        var remaining := Remaining(TimeLimit, now - start);
        && clock == Some(Clock(remaining))
        && (old(evaluationResult).None? ==>
              startTime == Some(start) && letterSubmission == currentText && evaluationResult == None
              && gameState == (if remaining == 0 || submit then Stage.Evaluation else Task))
        && (old(evaluationResult).Some? && !pressed ==>
              startTime == Some(start) && letterSubmission == old(letterSubmission)
              && evaluationResult == old(evaluationResult) && gameState == Task)
        && (old(evaluationResult).Some? && pressed && Passes(old(evaluationResult).value.totalScore) ==>
              startTime == Some(start) && letterSubmission == old(letterSubmission)
              && evaluationResult == old(evaluationResult) && gameState == NextChapter)
        && (old(evaluationResult).Some? && pressed && !Passes(old(evaluationResult).value.totalScore) ==>
              startTime == Some(now) && letterSubmission == [] && evaluationResult == None && gameState == Task)
      ensures keys == old(keys) && timer == old(timer)
    {
      clock := None;
      if gameState != Task {
        return;
      }
      if startTime.None? {
        startTime := Some(now);
      }
      var elapsedTime := now - startTime.value;
      var remainingTime := Remaining(TimeLimit, elapsedTime);
      clock := Some(Clock(remainingTime));
      if evaluationResult.None? {
        letterSubmission := currentText;
        if remainingTime <= 0 || submit {
          gameState := Stage.Evaluation;
        }
      } else {
        var _ := DisplayEvaluation(ask, parse, pressed, now);
      }
    }

    /** `display_sidebar`: the countdown, once the clock has started. */
    function SidebarClock(now: int): (r: Option<(nat, nat)>)
      reads this
      ensures r.Some? <==> startTime.Some?
      ensures r.Some? ==> 60 * r.value.0 + r.value.1 == Remaining(TimeLimit, now - startTime.value) && r.value.1 < 60
    {
      if startTime.Some? then Some(Clock(Remaining(TimeLimit, now - startTime.value))) else None
    }
  }
}
