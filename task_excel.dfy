/**
 * The data-analysis task: a story chain to a five-minute report, an
 * evaluator whose reply is only trimmed before parsing, and an evaluation
 * screen whose single button always restarts the task: this chapter has
 * no way forward.
 */
module TaskExcel {
  import opened Wrappers
  import opened Text
  import opened Grading

  datatype Stage = Opening | TaskIntro | Task | Evaluation

  datatype Key = GameStateKey | TimerKey | LetterSubmissionKey | StartTimeKey | EvaluationResultKey

  const AllKeys: set<Key> := {GameStateKey, TimerKey, LetterSubmissionKey, StartTimeKey, EvaluationResultKey}

  /** Five minutes, in seconds. */
  const TimeLimit: nat := 300

  /**
   * `evaluate_letter` of this page: the report and its length score go to
   * the model (`ask`); a failed call gives nothing, otherwise the reply is
   * trimmed and parsed as it is.
   */
  function EvaluateReport(text: string, ask: (string, int) -> Option<string>, parse: string -> Option<Evaluation>): (r: Option<Evaluation>)
    ensures ask(text, ExcelLengthScore(|text|)).None? ==> r.None?
    ensures ask(text, ExcelLengthScore(|text|)).Some? ==> r == parse(TrimReply(ask(text, ExcelLengthScore(|text|)).value))
  {
    EvaluateReply(ask(text, ExcelLengthScore(|text|)), TrimReply, parse)
  }

  /**
   * Unlike the other graded tasks, this page does not remove code fences:
   * a trimmed reply wrapped in a fence reaches the parser with the fence,
   * where the other tasks would have removed it.
   */
  lemma {:induction false} FencesReachParser(text: string, ask: (string, int) -> Option<string>, parse: string -> Option<Evaluation>, reply: string)
    requires ask(text, ExcelLengthScore(|text|)) == Some(reply)
    requires Strip(reply, Python) == reply && Contains(reply, Fence)
    ensures EvaluateReport(text, ask, parse) == parse(reply)
    ensures TrimReply(reply) != CleanReply(reply)
  {
    assert TrimReply(reply) == reply;
    assert !Contains(CleanReply(reply), Fence);
  }

  /** `st.session_state` of the page; times are whole seconds on the clock `now` passed to each render. */
  class Page {
    var keys: set<Key>
    var gameState: Stage
    var timer: int
    var letterSubmission: string
    var startTime: Option<int>
    var evaluationResult: Option<Evaluation>

    /** A new browser session: no key is set yet. */
    constructor ()
      ensures keys == {}
    {
      keys := {};
      gameState := Opening;
      timer := TimeLimit;
      letterSubmission := [];
      startTime := None;
      evaluationResult := None;
    }

    /** `init_session_state`: every missing key gets its default, every present key keeps its value. */
    method InitSessionState()
      modifies this
      ensures keys == old(keys) + AllKeys
      ensures gameState == (if GameStateKey in old(keys) then old(gameState) else Opening)
      ensures timer == (if TimerKey in old(keys) then old(timer) else TimeLimit)
      ensures letterSubmission == (if LetterSubmissionKey in old(keys) then old(letterSubmission) else [])
      ensures startTime == (if StartTimeKey in old(keys) then old(startTime) else None)
      ensures evaluationResult == (if EvaluationResultKey in old(keys) then old(evaluationResult) else None)
      ensures AllKeys <= old(keys) ==> unchanged(this)
    {
      if GameStateKey !in keys {
        gameState := Opening;
        keys := keys + {GameStateKey};
      }
      if TimerKey !in keys {
        timer := TimeLimit;
        keys := keys + {TimerKey};
      }
      if LetterSubmissionKey !in keys {
        letterSubmission := [];
        keys := keys + {LetterSubmissionKey};
      }
      FillProgress();
    }

    /** The keys `init_session_state` fills after the submission. */
    method FillProgress()
      modifies this`keys, this`startTime, this`evaluationResult
      ensures keys == old(keys) + {StartTimeKey, EvaluationResultKey}
      ensures startTime == (if StartTimeKey in old(keys) then old(startTime) else None)
      ensures evaluationResult == (if EvaluationResultKey in old(keys) then old(evaluationResult) else None)
      ensures {StartTimeKey, EvaluationResultKey} <= old(keys) ==> unchanged(this)
    {
      if StartTimeKey !in keys {
        startTime := None;
        keys := keys + {StartTimeKey};
      }
      if EvaluationResultKey !in keys {
        evaluationResult := None;
        keys := keys + {EvaluationResultKey};
      }
    }

    /** `display_opening`: the next button shows the story. */
    method DisplayOpening(nextPressed: bool)
      modifies this`gameState
      ensures gameState == (if nextPressed then TaskIntro else old(gameState))
    {
      if nextPressed {
        gameState := TaskIntro;
      }
    }

    /** `display_story`: the start button opens the task and starts the clock. */
    method DisplayStory(startPressed: bool, now: int)
      modifies this`gameState, this`startTime
      ensures startPressed ==> gameState == Task && startTime == Some(now)
      ensures !startPressed ==> gameState == old(gameState) && startTime == old(startTime)
    {
      if startPressed {
        gameState := Task;
        startTime := Some(now);
      }
    }

    /** The first half of `display_evaluation`: the evaluator is asked only while no result is stored. */
    method StoreEvaluation(ask: (string, int) -> Option<string>, parse: string -> Option<Evaluation>)
      modifies this`evaluationResult
      ensures evaluationResult == StoreOnce(old(evaluationResult), EvaluateReport(letterSubmission, ask, parse))
    {
      if evaluationResult.None? {
        var result := EvaluateReport(letterSubmission, ask, parse);
        if result.Some? {
          evaluationResult := result;
        }
      }
    }

    /**
     * `display_evaluation`: with a result the tier is shown and only a
     * retry is offered, whatever the total; it empties the submission and
     * the result and restarts the clock on the task.
     */
    method DisplayEvaluation(ask: (string, int) -> Option<string>, parse: string -> Option<Evaluation>, pressed: bool, now: int)
      returns (tier: Option<Tier>)
      modifies this
      ensures var stored := StoreOnce(old(evaluationResult), EvaluateReport(old(letterSubmission), ask, parse));
        && tier == (if stored.Some? then Some(TierOf(stored.value.totalScore)) else None)
        && (stored.None? || !pressed ==>
              evaluationResult == stored && gameState == old(gameState)
              && letterSubmission == old(letterSubmission) && startTime == old(startTime))
        && (stored.Some? && pressed ==>
              evaluationResult == None && gameState == Task
              && letterSubmission == [] && startTime == Some(now))
      ensures keys == old(keys) && timer == old(timer)
    {
      StoreEvaluation(ask, parse);
      ghost var stored := evaluationResult;
      assert stored == StoreOnce(old(evaluationResult), EvaluateReport(old(letterSubmission), ask, parse));
      tier := None;
      if evaluationResult.Some? {
        var result := evaluationResult.value;
        tier := Some(TierOf(result.totalScore));
        if pressed {
          letterSubmission := [];
          evaluationResult := None;
          gameState := Task;
          startTime := Some(now);
        }
      }
    }

    /**
     * `display_task`, on the task screen only: the clock is started if it
     * was not and the remaining time shown; while no result is stored the
     * text area's content is kept, and running out of time or submitting
     * moves to the evaluation, text kept. With a stored result the
     * evaluation screen is shown in place.
     */
    method DisplayTask(now: int, currentText: string, submit: bool,
                       ask: (string, int) -> Option<string>, parse: string -> Option<Evaluation>, pressed: bool)
      returns (clock: Option<(nat, nat)>)
      modifies this
      ensures old(gameState) != Task ==> unchanged(this) && clock.None?
      ensures old(gameState) == Task ==>
        var start := if old(startTime).Some? then old(startTime).value else now;
        var remaining := Remaining(TimeLimit, now - start);
        && clock == Some(Clock(remaining))
        && (old(evaluationResult).None? ==>
              startTime == Some(start) && letterSubmission == currentText && evaluationResult == None
              && gameState == (if remaining == 0 || submit then Stage.Evaluation else Task))
        && (old(evaluationResult).Some? && !pressed ==>
              startTime == Some(start) && letterSubmission == old(letterSubmission)
              && evaluationResult == old(evaluationResult) && gameState == Task)
        && (old(evaluationResult).Some? && pressed ==>
              startTime == Some(now) && letterSubmission == [] && evaluationResult == None && gameState == Task)
      ensures keys == old(keys) && timer == old(timer)
    {
      clock := None;
      if gameState != Task {
        return;
      }
      if startTime.None? {
        startTime := Some(now);
      }
      var elapsedTime := now - startTime.value;
      var remainingTime := Remaining(TimeLimit, elapsedTime);
      clock := Some(Clock(remainingTime));
      if evaluationResult.None? {
        letterSubmission := currentText;
        if remainingTime <= 0 || submit {
          gameState := Stage.Evaluation;
        }
      } else {
        var _ := DisplayEvaluation(ask, parse, pressed, now);
      }
    }
  }
}
