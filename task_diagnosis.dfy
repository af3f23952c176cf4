/**
 * The differential diagnosis task: a two-minute writing task; a
 * submission under fifty characters after trimming is scored zero without
 * asking the model, anything longer goes to the evaluator, whose reply is
 * cleaned of code fences before parsing; a total of 80 or more leads on,
 * anything less resets the task.
 */
module TaskDiagnosis {
  import opened Wrappers
  import opened Text
  import opened Grading

  datatype Stage = Opening | TaskIntro | Task | Evaluation | NextChapter

  datatype Key = GameStateKey | DiagnosisSubmissionKey | StartTimeKey | EvaluationResultKey | NextChapterKey

  const AllKeys: set<Key> := {GameStateKey, DiagnosisSubmissionKey, StartTimeKey, EvaluationResultKey, NextChapterKey}

  /** Two minutes, in seconds. */
  const TimeLimit: nat := 120

  /** The shortest trimmed submission that is sent to the evaluator. */
  const MinLength: nat := 50

  /** The verdict on a missing or too short submission: all four sub-scores and the total are zero. */
  const ZeroEvaluation: Evaluation := Grading.Evaluation([0, 0, 0, 0], 0)

  /**
   * `evaluate_diagnosis`: an empty submission, or one shorter than fifty
   * characters once trimmed, is scored zero on the spot; otherwise the
   * text goes to the model (`ask`), a failed call gives nothing, and the
   * reply is cleaned and parsed.
   */
  function EvaluateDiagnosis(text: string, ask: string -> Option<string>, parse: string -> Option<Evaluation>): (r: Option<Evaluation>)
    ensures |Strip(text, Python)| < MinLength ==> r == Some(ZeroEvaluation)
    ensures |Strip(text, Python)| >= MinLength ==> r == EvaluateReply(ask(text), CleanReply, parse)
  {
    if text == [] || |Strip(text, Python)| < MinLength then Some(ZeroEvaluation)
    else EvaluateReply(ask(text), CleanReply, parse)
  }

  /**
   * The zero verdict is consistent (its total is the sum of its
   * sub-scores) and falls in the lowest tier, so a short submission can
   * only be retried.
   */
  lemma ShortSubmissionFails(text: string, ask: string -> Option<string>, parse: string -> Option<Evaluation>)
    requires |Strip(text, Python)| < MinLength
    ensures var r := EvaluateDiagnosis(text, ask, parse);
      && r.Some? && r.value.totalScore == Sum(r.value.subScores) == 0
      && TierOf(r.value.totalScore) == Fail && !Passes(r.value.totalScore)
  {
    assert Sum(ZeroEvaluation.subScores) == 0 by {
      assert ZeroEvaluation.subScores[1..] == [0, 0, 0];
      assert ZeroEvaluation.subScores[1..][1..] == [0, 0];
      assert ZeroEvaluation.subScores[1..][1..][1..] == [0];
    }
  }

  /** `st.session_state` of the page; times are whole seconds on the clock `now` passed to each render. */
  class Page {
    var keys: set<Key>
    var gameState: Stage
    var diagnosisSubmission: string
    var startTime: Option<int>
    var evaluationResult: Option<Evaluation>
    var nextChapter: bool

    /** A new browser session: no key is set yet. */
    constructor ()
      ensures keys == {}
    {
      keys := {};
      gameState := Opening;
      diagnosisSubmission := [];
      startTime := None;
      evaluationResult := None;
      nextChapter := false;
    }

    /** `init_session_state`: every missing key gets its default, every present key keeps its value. */
    method InitSessionState()
      modifies this
      ensures keys == old(keys) + AllKeys
      ensures gameState == (if GameStateKey in old(keys) then old(gameState) else Opening)
      ensures diagnosisSubmission == (if DiagnosisSubmissionKey in old(keys) then old(diagnosisSubmission) else [])
      ensures startTime == (if StartTimeKey in old(keys) then old(startTime) else None)
      ensures evaluationResult == (if EvaluationResultKey in old(keys) then old(evaluationResult) else None)
      ensures nextChapter == (if NextChapterKey in old(keys) then old(nextChapter) else false)
      ensures AllKeys <= old(keys) ==> unchanged(this)
    {
      if GameStateKey !in keys {
        gameState := Opening;
        keys := keys + {GameStateKey};
      }
      if DiagnosisSubmissionKey !in keys {
        diagnosisSubmission := [];
        keys := keys + {DiagnosisSubmissionKey};
      }
      FillProgress();
    }

    /** The keys `init_session_state` fills after the submission. */
    method FillProgress()
      modifies this`keys, this`startTime, this`evaluationResult, this`nextChapter
      ensures keys == old(keys) + {StartTimeKey, EvaluationResultKey, NextChapterKey}
      ensures startTime == (if StartTimeKey in old(keys) then old(startTime) else None)
      ensures evaluationResult == (if EvaluationResultKey in old(keys) then old(evaluationResult) else None)
      ensures nextChapter == (if NextChapterKey in old(keys) then old(nextChapter) else false)
      ensures {StartTimeKey, EvaluationResultKey, NextChapterKey} <= old(keys) ==> unchanged(this)
    {
      if StartTimeKey !in keys {
        startTime := None;
        keys := keys + {StartTimeKey};
      }
      if EvaluationResultKey !in keys {
        evaluationResult := None;
        keys := keys + {EvaluationResultKey};
      }
      if NextChapterKey !in keys {
        nextChapter := false;
        keys := keys + {NextChapterKey};
      }
    }

    /** `display_opening`: the next button shows the story. */
    method DisplayOpening(nextPressed: bool)
      modifies this`gameState
      ensures gameState == (if nextPressed then TaskIntro else old(gameState))
    {
      if nextPressed {
        gameState := TaskIntro;
      }
    }

    /** `display_story`: the start button opens the task and starts the clock. */
    method DisplayStory(startPressed: bool, now: int)
      modifies this`gameState, this`startTime
      ensures startPressed ==> gameState == Task && startTime == Some(now)
      ensures !startPressed ==> gameState == old(gameState) && startTime == old(startTime)
    {
      if startPressed {
        gameState := Task;
        startTime := Some(now);
      }
    }

    /**
     * `display_evaluation`: the evaluator runs only while no result is
     * stored, and its result is stored only if one came back. With a
     * result the tier is shown and one button offered: a total of 80 or
     * more leads to the next chapter, anything less resets the task and
     * restarts the clock.
     */
    method DisplayEvaluation(ask: string -> Option<string>, parse: string -> Option<Evaluation>, pressed: bool, now: int)
      returns (tier: Option<Tier>)
      modifies this
      ensures var stored := StoreOnce(old(evaluationResult), EvaluateDiagnosis(old(diagnosisSubmission), ask, parse));
        && tier == (if stored.Some? then Some(TierOf(stored.value.totalScore)) else None)
        && (stored.None? || !pressed ==>
              evaluationResult == stored && gameState == old(gameState)
              && diagnosisSubmission == old(diagnosisSubmission) && startTime == old(startTime))
        && (stored.Some? && pressed && Passes(stored.value.totalScore) ==>
              evaluationResult == stored && gameState == NextChapter
              && diagnosisSubmission == old(diagnosisSubmission) && startTime == old(startTime))
        && (stored.Some? && pressed && !Passes(stored.value.totalScore) ==>
              evaluationResult == None && gameState == Task
              && diagnosisSubmission == [] && startTime == Some(now))
      ensures keys == old(keys) && nextChapter == old(nextChapter)
    {
      StoreEvaluation(ask, parse);
      ghost var stored := evaluationResult;
      assert stored == StoreOnce(old(evaluationResult), EvaluateDiagnosis(old(diagnosisSubmission), ask, parse));
      tier := None;
      if evaluationResult.Some? {
        var result := evaluationResult.value;
        tier := Some(TierOf(result.totalScore));
        if result.totalScore >= 80 {
          if pressed {
            gameState := NextChapter;
          }
        } else {
          if pressed {
            ResetEvaluation(now);
          }
        }
      }
    }

    /** The first half of `display_evaluation`: ask the evaluator only while no result is stored, and keep any result it gives. */
    method StoreEvaluation(ask: string -> Option<string>, parse: string -> Option<Evaluation>)
      modifies this`evaluationResult
      ensures evaluationResult == StoreOnce(old(evaluationResult), EvaluateDiagnosis(diagnosisSubmission, ask, parse))
    {
      if evaluationResult.None? {
        var result := EvaluateDiagnosis(diagnosisSubmission, ask, parse);
        if result.Some? {
          evaluationResult := result;
        }
      }
    }

    /** `reset_evaluation`: an empty submission, no result, the task screen and a restarted clock. */
    method ResetEvaluation(now: int)
      modifies this`diagnosisSubmission, this`evaluationResult, this`gameState, this`startTime
      ensures diagnosisSubmission == [] && evaluationResult == None && gameState == Task && startTime == Some(now)
    {
      diagnosisSubmission := [];
      evaluationResult := None;
      gameState := Task;
      startTime := Some(now);
    }

    /**
     * `display_task`, on the task screen only: the clock is started if it
     * was not, the remaining seconds shown; while no result is stored the
     * text area's content is kept, and running out of time or submitting
     * moves to the evaluation, text kept. With a stored result the
     * evaluation screen is shown in place.
     */
    method DisplayTask(now: int, currentText: string, submit: bool,
                       ask: string -> Option<string>, parse: string -> Option<Evaluation>, pressed: bool)
      returns (shown: Option<nat>)
      modifies this
      ensures old(gameState) != Task ==> unchanged(this) && shown.None?
      ensures old(gameState) == Task ==>
        var start := if old(startTime).Some? then old(startTime).value else now;
        var remaining := Remaining(TimeLimit, now - start);
        && shown == Some(remaining)
        && (old(evaluationResult).None? ==>
              startTime == Some(start) && diagnosisSubmission == currentText && evaluationResult == None
              && gameState == (if remaining == 0 || submit then Stage.Evaluation else Task))
        && (old(evaluationResult).Some? && !pressed ==>
              startTime == Some(start) && diagnosisSubmission == old(diagnosisSubmission)
              && evaluationResult == old(evaluationResult) && gameState == Task)
        && (old(evaluationResult).Some? && pressed && Passes(old(evaluationResult).value.totalScore) ==>
              startTime == Some(start) && diagnosisSubmission == old(diagnosisSubmission)
              && evaluationResult == old(evaluationResult) && gameState == NextChapter)
        && (old(evaluationResult).Some? && pressed && !Passes(old(evaluationResult).value.totalScore) ==>
              startTime == Some(now) && diagnosisSubmission == [] && evaluationResult == None && gameState == Task)
      ensures keys == old(keys) && nextChapter == old(nextChapter)
    {
      shown := None;
      if gameState != Task {
        return;
      }
      if startTime.None? {
        startTime := Some(now);
      }
      var elapsedTime := now - startTime.value;
      var remainingTime := Remaining(TimeLimit, elapsedTime);
      shown := Some(remainingTime);
      if evaluationResult.None? {
        diagnosisSubmission := currentText;
        if remainingTime <= 0 || submit {
          gameState := Stage.Evaluation;
        }
      } else {
        var _ := DisplayEvaluation(ask, parse, pressed, now);
      }
    }

    /** `display_sidebar`: the countdown, once the clock has started. */
    function SidebarClock(now: int): (r: Option<(nat, nat)>)
      reads this
      ensures r.Some? <==> startTime.Some?
      ensures r.Some? ==> 60 * r.value.0 + r.value.1 == Remaining(TimeLimit, now - startTime.value) && r.value.1 < 60
    {
      if startTime.Some? then Some(Clock(Remaining(TimeLimit, now - startTime.value))) else None
    }
  }
}
