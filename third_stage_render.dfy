/**
 * The hosted version of the third stage page: no PIN and no speech, a
 * debug button that jumps to the success screen, and a completion test
 * written as a loop over the whole transcript.
 */
module ThirdStageRender {
  import opened Text
  import opened Wrappers
  import opened Chat

  /** The values of `game_state` this page renders. */
  datatype Stage = Title | Opening | QuizIntro | Quiz | Success | Form

  /** This page keeps no speech setting. */
  datatype Key = GameStateKey | MessagesKey | OpenaiMessagesKey | QuizCompletedKey

  const AllKeys: set<Key> := {GameStateKey, MessagesKey, OpenaiMessagesKey, QuizCompletedKey}

  /** The phrase that ends the quiz. */
  const Trigger: string := "ゲーム終了"

  /** The line the prompt asks the principal to say once every question is done. */
  const ClosingLine: string := "これでゲーム終了だ"

  /** The scripted closing line holds the trigger, so saying it as the latest entry ends the quiz. */
  lemma ClosingLineTriggers()
    ensures Contains(ClosingLine, Trigger)
    ensures forall ms: seq<Message>, completed: bool ::
      |ms| > 0 && Contains(ms[|ms| - 1].content, ClosingLine) && !completed ==> CompletionDue(ms, Trigger, completed)
  {
    assert Trigger <= ClosingLine[3..];
    ClosingLineCompletes(ClosingLine, Trigger);
  }

  /**
   * The loop of `display_quiz`: every entry equal to the latest one is
   * tested, and the loop stops at the first that holds the trigger while
   * the flag is clear. Comparing every entry with the latest is the same as
   * testing the latest entry alone.
   */
  method ScanForGameEnd(ms: seq<Message>, completed: bool) returns (fires: bool)
    ensures fires <==> CompletionDue(ms, Trigger, completed)
  {
    var i := 0;
    while i < |ms|
      invariant 0 <= i <= |ms|
      invariant forall j :: 0 <= j < i ==> !(ms[j] == ms[|ms| - 1] && Contains(ms[j].content, Trigger) && !completed)
    {
      var msg := ms[i];
      if msg == ms[|ms| - 1] && Contains(msg.content, Trigger) && !completed {
        return true;
      }
      i := i + 1;
    }
    if |ms| > 0 {
      assert !(ms[|ms| - 1] == ms[|ms| - 1] && Contains(ms[|ms| - 1].content, Trigger) && !completed);
    }
    return false;
  }

  /** The buttons of the title screen. */
  datatype TitleButton = NoButton | StartButton | DebugSuccessButton

  /** `st.session_state` of the page, with the prompt text the API transcript is seeded with. */
  class Page {
    var keys: set<Key>
    var gameState: Stage
    var messages: seq<Message>
    var openaiMessages: seq<Message>
    var quizCompleted: bool
    var userInputField: string
    const systemPrompt: string

    /** A new browser session: no key is set yet. */
    constructor (systemPrompt: string)
      ensures keys == {} && userInputField == [] && this.systemPrompt == systemPrompt
    {
      keys := {};
      gameState := Title;
      messages := [];
      openaiMessages := [];
      quizCompleted := false;
      userInputField := [];
      this.systemPrompt := systemPrompt;
    }

    /** The API transcript is the system prompt followed, in order, by the display transcript. */
    predicate Mirrored()
      reads this
    {
      Mirrors(Message(System, systemPrompt), messages, openaiMessages)
    }

    /** `init_session_state`: every missing key gets its default, every present key keeps its value. */
    method InitSessionState()
      modifies this
      ensures keys == old(keys) + AllKeys
      ensures gameState == (if GameStateKey in old(keys) then old(gameState) else Title)
      ensures messages == (if MessagesKey in old(keys) then old(messages) else [])
      ensures openaiMessages == (if OpenaiMessagesKey in old(keys) then old(openaiMessages) else [Message(System, systemPrompt)])
      ensures quizCompleted == (if QuizCompletedKey in old(keys) then old(quizCompleted) else false)
      ensures userInputField == old(userInputField)
      ensures AllKeys <= old(keys) ==> unchanged(this)
      ensures MessagesKey !in old(keys) && OpenaiMessagesKey !in old(keys) ==> Mirrored()
    {
      if GameStateKey !in keys {
        gameState := Title;
        keys := keys + {GameStateKey};
      }
      if MessagesKey !in keys {
        messages := [];
        keys := keys + {MessagesKey};
      }
      if OpenaiMessagesKey !in keys {
        openaiMessages := [Message(System, systemPrompt)];
        keys := keys + {OpenaiMessagesKey};
      }
      if QuizCompletedKey !in keys {
        quizCompleted := false;
        keys := keys + {QuizCompletedKey};
      }
    }

    /** Typing into the answer field. */
    method TypeInput(s: string)
      modifies this`userInputField
      ensures userInputField == s
    {
      userInputField := s;
    }

    /**
     * `handle_submit`: a whitespace-only field is ignored and kept;
     * otherwise the field's text, unstripped, and a truthy reply go to both
     * transcripts and the field is emptied.
     */
    method HandleSubmit(reply: Option<string>)
      modifies this
      ensures IsBlank(old(userInputField), Python) ==> unchanged(this)
      ensures !IsBlank(old(userInputField), Python) ==>
        && messages == old(messages) + Turn(old(userInputField), reply)
        && openaiMessages == old(openaiMessages) + Turn(old(userInputField), reply)
        && userInputField == []
      ensures keys == old(keys) && gameState == old(gameState) && quizCompleted == old(quizCompleted)
      ensures old(Mirrored()) ==> Mirrored()
    {
      var currentInput := userInputField;
      StripEmptyIffBlank(currentInput, Python);
      if Strip(currentInput, Python) != [] {
        AppendTurn(currentInput, reply);
        userInputField := [];
      }
    }

    /** The two appends of `handle_submit`: the entered text, then a truthy reply, onto both transcripts. */
    method AppendTurn(input: string, reply: Option<string>)
      modifies this`messages, this`openaiMessages
      ensures messages == old(messages) + Turn(input, reply)
      ensures openaiMessages == old(openaiMessages) + Turn(input, reply)
      ensures old(Mirrored()) ==> Mirrored()
    {
      ghost var display, api := messages, openaiMessages;
      messages := messages + [Message(User, input)];
      openaiMessages := openaiMessages + [Message(User, input)];
      if Truthy(reply) {
        messages := messages + [Message(Assistant, reply.value)];
        openaiMessages := openaiMessages + [Message(Assistant, reply.value)];
      }
      ghost var turn := Turn(input, reply);
      assert messages == display + turn && openaiMessages == api + turn;
      if Mirrors(Message(System, systemPrompt), display, api) {
        MirrorsAppend(Message(System, systemPrompt), display, api, turn);
      }
    }

    /** `display_title`: the start button opens the door screen, the debug button jumps to the success screen. */
    method DisplayTitle(button: TitleButton)
      modifies this`gameState
      ensures gameState == (match button
        case NoButton => old(gameState)
        case StartButton => Opening
        case DebugSuccessButton => Success)
    {
      if button == StartButton {
        gameState := Opening;
      } else if button == DebugSuccessButton {
        gameState := Success;
      }
    }

    /** `display_opening`: the door button leads to the quiz introduction, with no PIN. */
    method DisplayOpening(openPressed: bool)
      modifies this`gameState
      ensures gameState == (if openPressed then QuizIntro else old(gameState))
    {
      if openPressed {
        gameState := QuizIntro;
      }
    }

    /** `display_quiz_intro`: the yes button starts the quiz. */
    method DisplayQuizIntro(yesPressed: bool)
      modifies this`gameState
      ensures gameState == (if yesPressed then Quiz else old(gameState))
    {
      if yesPressed {
        gameState := Quiz;
      }
    }

    /** `display_success`: the next button shows the survey form. */
    method DisplaySuccess(nextPressed: bool)
      modifies this`gameState
      ensures gameState == (if nextPressed then Form else old(gameState))
    {
      if nextPressed {
        gameState := Form;
      }
    }

    /**
     * `display_quiz`: the scan fires at most once, setting the flag and the
     * success screen; once the flag is set it never fires again.
     */
    method DisplayQuiz()
      modifies this
      ensures CompletionDue(old(messages), Trigger, old(quizCompleted)) ==> quizCompleted && gameState == Success
      ensures !CompletionDue(old(messages), Trigger, old(quizCompleted)) ==> unchanged(this)
      ensures keys == old(keys) && messages == old(messages) && openaiMessages == old(openaiMessages)
      ensures userInputField == old(userInputField)
      ensures old(quizCompleted) ==> unchanged(this)
    {
      var fires := ScanForGameEnd(messages, quizCompleted);
      if fires {
        quizCompleted := true;
        gameState := Success;
      }
    }
  }
}
