/**
 * The image-drawing task: the player asks the assistant for a picture of
 * each of four themes in turn, submits it to the head nurse's evaluator,
 * and moves to the next theme on a score of 80 or more; a pass on the last
 * theme counts the task as completed and ends the chapter.
 */
module TaskImage {
  import opened Wrappers
  import opened Grading
  import opened Chat

  /** The values of `page`. */
  datatype Screen = Opening | Nurse | Task | Ending

  /** The session-state keys: two set on every render, the rest on the first task render. */
  datatype Key = PageKey | CompletedTasksKey | ThemeIndexKey | GeneratedImageKey | SubmittedKey | EvaluationResultKey | ThemesKey

  const TaskKeys: set<Key> := {ThemeIndexKey, GeneratedImageKey, SubmittedKey, EvaluationResultKey, ThemesKey}

  /** The themes, in the order they are set; a fifth one is commented out in the list. */
  const Themes: seq<string> := [
    "患者さんに安心感を与えるリラックスできる風景",
    "子供向けの病院の待合室を飾る楽しいイラスト",
    "健康的な食事を促すカラフルな料理の写真",
    "リハビリテーションの成果を象徴する希望に満ちた光景"
  ]

  /** There are exactly four themes to clear. */
  lemma FourThemes()
    ensures |Themes| == 4
  {
  }

  /**
   * `evaluate_image`: the image and its theme go to the evaluator
   * (`ask`); a failed call gives nothing, otherwise the reply is cleaned of
   * code fences and parsed.
   */
  function EvaluateImage(image: string, theme: string, ask: (string, string) -> Option<string>, parse: string -> Option<Evaluation>): (r: Option<Evaluation>)
    ensures ask(image, theme).None? ==> r.None?
    ensures ask(image, theme).Some? ==> r == parse(CleanReply(ask(image, theme).value))
  {
    EvaluateReply(ask(image, theme), CleanReply, parse)
  }

  /** What pressing the drawing button led to. */
  datatype DrawOutcome = NoPrompt | Refused | Drawn

  /** `st.session_state` of the page. */
  class Page {
    var keys: set<Key>
    var page: Screen
    var completedTasks: int
    var themeIndex: int
    var generatedImage: Option<string>
    var submitted: bool
    var evaluationResult: Option<Evaluation>
    var themes: seq<string>
    var currentTheme: string

    /** A new browser session: no key is set yet. */
    constructor ()
      ensures keys == {}
    {
      keys := {};
      page := Opening;
      completedTasks := 0;
      themeIndex := 0;
      generatedImage := None;
      submitted := false;
      evaluationResult := None;
      themes := [];
      currentTheme := [];
    }

    /**
     * The task keys are set together; once set, the theme list is the one
     * above and the index points into it.
     */
    predicate Valid()
      reads this
    {
      (TaskKeys !! keys || TaskKeys <= keys)
      && (TaskKeys <= keys ==> themes == Themes && 0 <= themeIndex < |themes|)
    }

    /** The first lines of `main`: the page and the completed count get their defaults when missing. */
    method InitPage()
      modifies this`keys, this`page, this`completedTasks
      ensures keys == old(keys) + {PageKey, CompletedTasksKey}
      ensures page == (if PageKey in old(keys) then old(page) else Opening)
      ensures completedTasks == (if CompletedTasksKey in old(keys) then old(completedTasks) else 0)
      ensures old(Valid()) ==> Valid()
    {
      if PageKey !in keys {
        page := Opening;
        keys := keys + {PageKey};
      }
      if CompletedTasksKey !in keys {
        completedTasks := 0;
        keys := keys + {CompletedTasksKey};
      }
    }

    /** The buttons of `display_opening` and of the nurse screen: opening leads to the nurse, the nurse to the task. */
    method DisplayStory(pressed: bool)
      modifies this`page
      ensures pressed && old(page) == Opening ==> page == Nurse
      ensures pressed && old(page) == Nurse ==> page == Task
      ensures !pressed || old(page) in {Task, Ending} ==> page == old(page)
    {
      if pressed {
        if page == Opening {
          page := Nurse;
        } else if page == Nurse {
          page := Task;
        }
      }
    }

    /**
     * The start of the task screen: on the first visit the index is 0, no
     * image, nothing submitted, no result and the four themes; then the
     * current theme is the one the index points to.
     */
    method EnterTask()
      requires Valid()
      modifies this
      ensures keys == old(keys) + TaskKeys
      ensures TaskKeys !! old(keys) ==>
        themeIndex == 0 && generatedImage == None && !submitted && evaluationResult == None && themes == Themes
      ensures TaskKeys <= old(keys) ==>
        && themeIndex == old(themeIndex) && generatedImage == old(generatedImage)
        && submitted == old(submitted) && evaluationResult == old(evaluationResult) && themes == old(themes)
      ensures page == old(page) && completedTasks == old(completedTasks)
      ensures Valid()
      ensures currentTheme == themes[themeIndex]
    {
      FillDrawingKeys();
      FillThemeKeys();
      currentTheme := themes[themeIndex];
    }

    /** The first three task keys: each missing one gets its default. */
    method FillDrawingKeys()
      modifies this`keys, this`themeIndex, this`generatedImage, this`submitted
      ensures keys == old(keys) + {ThemeIndexKey, GeneratedImageKey, SubmittedKey}
      ensures themeIndex == (if ThemeIndexKey in old(keys) then old(themeIndex) else 0)
      ensures generatedImage == (if GeneratedImageKey in old(keys) then old(generatedImage) else None)
      ensures submitted == (if SubmittedKey in old(keys) then old(submitted) else false)
    {
      if ThemeIndexKey !in keys {
        themeIndex := 0;
        keys := keys + {ThemeIndexKey};
      }
      if GeneratedImageKey !in keys {
        generatedImage := None;
        keys := keys + {GeneratedImageKey};
      }
      if SubmittedKey !in keys {
        submitted := false;
        keys := keys + {SubmittedKey};
      }
    }

    /** The last two task keys: the result and the theme list. */
    method FillThemeKeys()
      modifies this`keys, this`evaluationResult, this`themes
      ensures keys == old(keys) + {EvaluationResultKey, ThemesKey}
      ensures evaluationResult == (if EvaluationResultKey in old(keys) then old(evaluationResult) else None)
      ensures themes == (if ThemesKey in old(keys) then old(themes) else Themes)
    {
      if EvaluationResultKey !in keys {
        evaluationResult := None;
        keys := keys + {EvaluationResultKey};
      }
      if ThemesKey !in keys {
        themes := Themes;
        keys := keys + {ThemesKey};
      }
    }

    /**
     * The drawing button: an empty prompt is refused with no change; a
     * drawing that comes back (`image`, the URL the generator returned)
     * replaces the shown one and clears the submission and its result.
     */
    method RequestDrawing(prompt: string, image: Option<string>) returns (outcome: DrawOutcome)
      modifies this`generatedImage, this`submitted, this`evaluationResult
      ensures outcome == NoPrompt <==> prompt == []
      ensures outcome == Drawn <==> prompt != [] && Truthy(image)
      ensures outcome != Drawn ==> unchanged(this)
      ensures outcome == Drawn ==> generatedImage == image && !submitted && evaluationResult == None
    {
      if prompt != [] {
        if Truthy(image) {
          generatedImage := image;
          submitted := false;
          evaluationResult := None;
          outcome := Drawn;
        } else {
          outcome := Refused;
        }
      } else {
        outcome := NoPrompt;
      }
    }

    /** The submit button, shown only while a drawing is on screen and not yet submitted. */
    method SubmitDrawing(pressed: bool)
      modifies this`submitted, this`evaluationResult
      ensures pressed && Truthy(old(generatedImage)) && !old(submitted) ==> submitted && evaluationResult == None
      ensures !(pressed && Truthy(old(generatedImage)) && !old(submitted)) ==> unchanged(this)
    {
      if Truthy(generatedImage) && !submitted && pressed {
        submitted := true;
        evaluationResult := None;
      }
    }

    /** The redraw button, shown beside the submit button: the drawing, the submission and the result are cleared. */
    method Redraw(pressed: bool)
      modifies this`generatedImage, this`submitted, this`evaluationResult
      ensures pressed && Truthy(old(generatedImage)) && !old(submitted) ==> generatedImage == None && !submitted && evaluationResult == None
      ensures !(pressed && Truthy(old(generatedImage)) && !old(submitted)) ==> unchanged(this)
    {
      if Truthy(generatedImage) && !submitted && pressed {
        generatedImage := None;
        submitted := false;
        evaluationResult := None;
      }
    }

    /** The first half of `display_evaluation`: the evaluator is asked only while no result is stored. */
    method StoreEvaluation(ask: (string, string) -> Option<string>, parse: string -> Option<Evaluation>)
      requires generatedImage.Some?
      modifies this`evaluationResult
      ensures evaluationResult == StoreOnce(old(evaluationResult), EvaluateImage(generatedImage.value, currentTheme, ask, parse))
    {
      if evaluationResult.None? {
        var result := EvaluateImage(generatedImage.value, currentTheme, ask, parse);
        if result.Some? {
          evaluationResult := result;
        }
      }
    }

    /**
     * `display_evaluation`, shown under a submitted drawing. A pass on the
     * last theme completes the task and ends the chapter at once; a pass on
     * an earlier theme offers the next one; anything less offers a retry of
     * the same theme. Either button clears the drawing, the submission and
     * the result, and the index stays inside the theme list.
     */
    method DisplayEvaluation(ask: (string, string) -> Option<string>, parse: string -> Option<Evaluation>, pressed: bool)
      returns (tier: Option<Tier>)
      requires Valid() && TaskKeys <= keys
      requires Truthy(generatedImage) && submitted
      modifies this
      ensures var stored := StoreOnce(old(evaluationResult), EvaluateImage(old(generatedImage).value, old(currentTheme), ask, parse));
        && tier == (if stored.Some? then Some(TierOf(stored.value.totalScore)) else None)
        && (stored.Some? && Passes(stored.value.totalScore) && old(themeIndex) == |themes| - 1 ==>
              completedTasks == old(completedTasks) + 1 && page == Ending
              && themeIndex == old(themeIndex) && evaluationResult == stored
              && generatedImage == old(generatedImage) && submitted)
        && (stored.Some? && Passes(stored.value.totalScore) && old(themeIndex) < |themes| - 1 && pressed ==>
              themeIndex == old(themeIndex) + 1 && completedTasks == old(completedTasks) && page == old(page)
              && generatedImage == None && !submitted && evaluationResult == None)
        && (stored.Some? && !Passes(stored.value.totalScore) && pressed ==>
              themeIndex == old(themeIndex) && completedTasks == old(completedTasks) && page == old(page)
              && generatedImage == None && !submitted && evaluationResult == None)
        && (stored.None? || (!pressed && !(Passes(stored.value.totalScore) && old(themeIndex) == |themes| - 1)) ==>
              themeIndex == old(themeIndex) && completedTasks == old(completedTasks) && page == old(page)
              && generatedImage == old(generatedImage) && submitted && evaluationResult == stored)
      ensures keys == old(keys) && themes == old(themes) && currentTheme == old(currentTheme)
      ensures Valid()
    {
      StoreEvaluation(ask, parse);
      ghost var stored := evaluationResult;
      assert stored == StoreOnce(old(evaluationResult), EvaluateImage(old(generatedImage).value, old(currentTheme), ask, parse));
      tier := None;
      if evaluationResult.Some? {
        var result := evaluationResult.value;
        tier := Some(TierOf(result.totalScore));
        if result.totalScore >= 80 {
          if themeIndex == |themes| - 1 {
            completedTasks := completedTasks + 1;
            page := Ending;
          } else if pressed {
            themeIndex := themeIndex + 1;
            generatedImage := None;
            submitted := false;
            evaluationResult := None;
          }
        } else if pressed {
          generatedImage := None;
          submitted := false;
          evaluationResult := None;
        }
      }
    }
  }
}
