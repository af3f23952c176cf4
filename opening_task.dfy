/**
 * The opening chapter: a chain of story screens leading to a five-minute
 * proposal task, an evaluator whose reply is cleaned of code fences, a
 * one-time meeting with the nurse assistant after the first failing
 * result, and a retry that clears the clock so the task restarts it.
 */
module OpeningTask {
  import opened Wrappers
  import opened Grading

  datatype Stage = Opening | Clinic | Intro | TaskIntro | Task | Evaluation | NextChapter

  datatype Key = GameStateKey | TimerKey | TaskSubmissionKey | StartTimeKey | EvaluationResultKey | HasMetKokoroKey

  const AllKeys: set<Key> := {GameStateKey, TimerKey, TaskSubmissionKey, StartTimeKey, EvaluationResultKey, HasMetKokoroKey}

  /** Five minutes, in seconds. */
  const TimeLimit: nat := 300

  /**
   * `evaluate_proposal`: the proposal and its length score go to the
   * model (`ask`); a failed call gives nothing, otherwise the reply is
   * cleaned and parsed.
   */
  function EvaluateProposal(text: string, ask: (string, int) -> Option<string>, parse: string -> Option<Evaluation>): (r: Option<Evaluation>)
    ensures ask(text, ProposalLengthScore(|text|)).None? ==> r.None?
    ensures ask(text, ProposalLengthScore(|text|)).Some? ==> r == parse(CleanReply(ask(text, ProposalLengthScore(|text|)).value))
  {
    EvaluateReply(ask(text, ProposalLengthScore(|text|)), CleanReply, parse)
  }

  /** What the sidebar shows. */
  datatype Sidebar = Sidebar(clock: Option<(nat, nat)>, showsKokoro: bool)

  /** The button that moves each story screen on, and where it leads. */
  function NextScreen(s: Stage): (r: Option<Stage>)
    ensures r.Some? <==> s in {Opening, Clinic, Intro, TaskIntro}
  {
    match s
    case Opening => Some(Clinic)
    case Clinic => Some(Intro)
    case Intro => Some(TaskIntro)
    case TaskIntro => Some(Task)
    case _ => None
  }

  /** The story screens lead to the task one button at a time, in a fixed order. */
  lemma StoryChain()
    ensures NextScreen(Opening) == Some(Clinic) && NextScreen(Clinic) == Some(Intro)
    ensures NextScreen(Intro) == Some(TaskIntro) && NextScreen(TaskIntro) == Some(Task)
    ensures forall s :: NextScreen(s) != Some(Opening)
  {
  }

  /** `st.session_state` of the page; times are whole seconds on the clock `now` passed to each render. */
  class Page {
    var keys: set<Key>
    var gameState: Stage
    var timer: int
    var taskSubmission: string
    var startTime: Option<int>
    var evaluationResult: Option<Evaluation>
    var hasMetKokoro: bool

    /** A new browser session: no key is set yet. */
    constructor ()
      ensures keys == {}
    {
      keys := {};
      gameState := Opening;
      timer := TimeLimit;
      taskSubmission := [];
      startTime := None;
      evaluationResult := None;
      hasMetKokoro := false;
    }

    /** `init_session_state`: every missing key gets its default, every present key keeps its value. */
    method InitSessionState()
      modifies this
      ensures keys == old(keys) + AllKeys
      ensures gameState == (if GameStateKey in old(keys) then old(gameState) else Opening)
      ensures timer == (if TimerKey in old(keys) then old(timer) else TimeLimit)
      ensures taskSubmission == (if TaskSubmissionKey in old(keys) then old(taskSubmission) else [])
      ensures startTime == (if StartTimeKey in old(keys) then old(startTime) else None)
      ensures evaluationResult == (if EvaluationResultKey in old(keys) then old(evaluationResult) else None)
      ensures hasMetKokoro == (if HasMetKokoroKey in old(keys) then old(hasMetKokoro) else false)
      ensures AllKeys <= old(keys) ==> unchanged(this)
    {
      if GameStateKey !in keys {
        gameState := Opening;
        keys := keys + {GameStateKey};
      }
      if TimerKey !in keys {
        timer := TimeLimit;
        keys := keys + {TimerKey};
      }
      if TaskSubmissionKey !in keys {
        taskSubmission := [];
        keys := keys + {TaskSubmissionKey};
      }
      FillProgress();
    }

    /** The keys `init_session_state` fills after the submission. */
    method FillProgress()
      modifies this`keys, this`startTime, this`evaluationResult, this`hasMetKokoro
      ensures keys == old(keys) + {StartTimeKey, EvaluationResultKey, HasMetKokoroKey}
      ensures startTime == (if StartTimeKey in old(keys) then old(startTime) else None)
      ensures evaluationResult == (if EvaluationResultKey in old(keys) then old(evaluationResult) else None)
      ensures hasMetKokoro == (if HasMetKokoroKey in old(keys) then old(hasMetKokoro) else false)
      ensures {StartTimeKey, EvaluationResultKey, HasMetKokoroKey} <= old(keys) ==> unchanged(this)
    {
      if StartTimeKey !in keys {
        startTime := None;
        keys := keys + {StartTimeKey};
      }
      if EvaluationResultKey !in keys {
        evaluationResult := None;
        keys := keys + {EvaluationResultKey};
      }
      if HasMetKokoroKey !in keys {
        hasMetKokoro := false;
        keys := keys + {HasMetKokoroKey};
      }
    }

    /**
     * `display_opening`, `display_clinic`, `display_intro` and
     * `display_task_intro`: on a story screen its button moves one screen
     * on; the last one opens the task and starts the clock.
     */
    method DisplayStory(pressed: bool, now: int)
      modifies this`gameState, this`startTime
      ensures pressed && NextScreen(old(gameState)).Some? ==> gameState == NextScreen(old(gameState)).value
      ensures !pressed || NextScreen(old(gameState)).None? ==> gameState == old(gameState)
      ensures pressed && old(gameState) == TaskIntro ==> startTime == Some(now)
      ensures !(pressed && old(gameState) == TaskIntro) ==> startTime == old(startTime)
    {
      if pressed {
        match gameState
        case Opening => gameState := Clinic;
        case Clinic => gameState := Intro;
        case Intro => gameState := TaskIntro;
        case TaskIntro =>
          gameState := Task;
          startTime := Some(now);
        case _ =>
      }
    }

    /**
     * `display_task`, on the task screen only: the clock is started if it
     * was not, the text area's content is kept, and running out of time or
     * submitting moves to the evaluation, text kept.
     */
    method DisplayTask(now: int, currentText: string, submit: bool)
      modifies this
      ensures old(gameState) != Task ==> unchanged(this)
      ensures old(gameState) == Task ==>
        var start := if old(startTime).Some? then old(startTime).value else now;
        && startTime == Some(start) && taskSubmission == currentText
        && gameState == (if Remaining(TimeLimit, now - start) == 0 || submit then Stage.Evaluation else Task)
      ensures keys == old(keys) && timer == old(timer)
      ensures evaluationResult == old(evaluationResult) && hasMetKokoro == old(hasMetKokoro)
    {
      if gameState != Task {
        return;
      }
      if startTime.None? {
        startTime := Some(now);
      }
      taskSubmission := currentText;
      var elapsedTime := now - startTime.value;
      var remainingTime := Remaining(TimeLimit, elapsedTime);
      if remainingTime <= 0 || submit {
        gameState := Stage.Evaluation;
      }
    }

    /** The first half of `display_evaluation`: ask the evaluator only while no result is stored, and keep any result it gives. */
    method StoreEvaluation(ask: (string, int) -> Option<string>, parse: string -> Option<Evaluation>)
      modifies this`evaluationResult
      ensures evaluationResult == StoreOnce(old(evaluationResult), EvaluateProposal(taskSubmission, ask, parse))
    {
      if evaluationResult.None? {
        var result := EvaluateProposal(taskSubmission, ask, parse);
        if result.Some? {
          evaluationResult := result;
        }
      }
    }

    /**
     * `display_evaluation`: with a result the tier is shown; the first
     * result under 60 also shows the nurse's scene, once per session. A
     * total of 80 or more offers the next chapter; anything less offers a
     * retry that empties the submission and the result and clears the clock.
     */
    method DisplayEvaluation(ask: (string, int) -> Option<string>, parse: string -> Option<Evaluation>, pressed: bool)
      returns (tier: Option<Tier>, kokoroScene: bool)
      modifies this
      ensures var stored := StoreOnce(old(evaluationResult), EvaluateProposal(old(taskSubmission), ask, parse));
        && tier == (if stored.Some? then Some(TierOf(stored.value.totalScore)) else None)
        && (kokoroScene <==> stored.Some? && stored.value.totalScore < 60 && !old(hasMetKokoro))
        && hasMetKokoro == (old(hasMetKokoro) || kokoroScene)
        && (stored.None? || !pressed ==>
              evaluationResult == stored && gameState == old(gameState)
              && taskSubmission == old(taskSubmission) && startTime == old(startTime))
        && (stored.Some? && pressed && Passes(stored.value.totalScore) ==>
              evaluationResult == stored && gameState == NextChapter
              && taskSubmission == old(taskSubmission) && startTime == old(startTime))
        && (stored.Some? && pressed && !Passes(stored.value.totalScore) ==>
              evaluationResult == None && gameState == Task
              && taskSubmission == [] && startTime == None)
      ensures old(hasMetKokoro) ==> hasMetKokoro && !kokoroScene
      ensures keys == old(keys) && timer == old(timer)
    {
      StoreEvaluation(ask, parse);
      ghost var stored := evaluationResult;
      assert stored == StoreOnce(old(evaluationResult), EvaluateProposal(old(taskSubmission), ask, parse));
      tier := None;
      kokoroScene := false;
      if evaluationResult.Some? {
        var result := evaluationResult.value;
        tier := Some(TierOf(result.totalScore));
        if result.totalScore < 60 && !hasMetKokoro {
          hasMetKokoro := true;
          kokoroScene := true;
        }
        if result.totalScore >= 80 {
          if pressed {
            gameState := NextChapter;
          }
        } else {
          if pressed {
            gameState := Task;
            startTime := None;
            taskSubmission := [];
            evaluationResult := None;
          }
        }
      }
    }

    /**
     * The sidebar of `main`: the countdown on the task and evaluation
     * screens once the clock runs; the nurse once met, except on an
     * evaluation screen still waiting for its result.
     */
    function SidebarView(now: int): (r: Sidebar)
      reads this
      ensures r.clock.Some? <==> gameState in {Task, Stage.Evaluation} && startTime.Some?
      ensures r.clock.Some? ==> 60 * r.clock.value.0 + r.clock.value.1 == Remaining(TimeLimit, now - startTime.value)
      ensures r.clock.Some? ==> r.clock.value.1 < 60
      ensures r.showsKokoro <==> hasMetKokoro && !(gameState == Stage.Evaluation && evaluationResult.None?)
    {
      var clock := if gameState in {Task, Stage.Evaluation} && startTime.Some?
        then Some(Clock(Remaining(TimeLimit, now - startTime.value))) else None;
      Sidebar(clock, hasMetKokoro && !(gameState == Stage.Evaluation && evaluationResult.None?))
    }
  }
}
