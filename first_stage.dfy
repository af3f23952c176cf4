/**
 * The first stage page (the principal's quiz): five screens, a PIN-locked
 * door, a chat quiz whose two transcripts grow in lockstep, and a one-shot
 * completion test on the latest entry. The two versions of the page (the
 * local and the hosted one) run the same logic and differ only in layout
 * and prompt wording, so one class models both.
 */
module FirstStage {
  import opened Text
  import opened Wrappers
  import opened Chat
  import opened Gate

  /** The values of `game_state`; no other state renders anything. */
  datatype Stage = Title | Opening | Quiz | Success | Form

  /** The session-state keys this page initialises. */
  datatype Key = GameStateKey | MessagesKey | OpenaiMessagesKey | TtsEnabledKey | QuizCompletedKey

  const AllKeys: set<Key> := {GameStateKey, MessagesKey, OpenaiMessagesKey, TtsEnabledKey, QuizCompletedKey}

  /** The phrase whose appearance in the latest entry ends the quiz. */
  const Trigger: string := "全問正解"

  /** The line the hosted version's prompt asks the principal to say after ten correct answers. */
  const ClosingLine: string := "間近！全問正解かい"

  /** The line the local version's prompt asks for instead. */
  const LocalClosingLine: string :=
    "おお！正解ばい！さすがは附設の卒業生じゃのう。頭の回転が速かばい！全問正解！さすがじゃ！お前が本当の附設の卒業生じゃと認めよう。"

  /** Both scripted closing lines end the quiz when the principal says them. */
  lemma ClosingLineTriggers()
    ensures Contains(ClosingLine, Trigger) && Contains(LocalClosingLine, Trigger)
    ensures forall ms: seq<Message>, completed: bool ::
      |ms| > 0 && Contains(ms[|ms| - 1].content, ClosingLine) && !completed ==> CompletionDue(ms, Trigger, completed)
    ensures forall ms: seq<Message>, completed: bool ::
      |ms| > 0 && Contains(ms[|ms| - 1].content, LocalClosingLine) && !completed ==> CompletionDue(ms, Trigger, completed)
  {
    assert Trigger <= ClosingLine[3..];
    assert Trigger <= LocalClosingLine[33..];
    ClosingLineCompletes(ClosingLine, Trigger);
    ClosingLineCompletes(LocalClosingLine, Trigger);
  }

  /** `st.session_state` of the page, with the prompt text it seeds the API transcript with. */
  class Page {
    var keys: set<Key>
    var gameState: Stage
    var messages: seq<Message>
    var openaiMessages: seq<Message>
    var ttsEnabled: bool
    var quizCompleted: bool
    var userInputField: string
    const systemPrompt: string

    /** A new browser session: no key is set yet. */
    constructor (systemPrompt: string)
      ensures keys == {} && userInputField == [] && this.systemPrompt == systemPrompt
    {
      keys := {};
      gameState := Title;
      messages := [];
      openaiMessages := [];
      ttsEnabled := true;
      quizCompleted := false;
      userInputField := [];
      this.systemPrompt := systemPrompt;
    }

    /** The API transcript is the system prompt followed, in order, by the display transcript. */
    predicate Mirrored()
      reads this
    {
      Mirrors(Message(System, systemPrompt), messages, openaiMessages)
    }

    /**
     * `init_session_state`: every missing key gets its default and every
     * present key keeps its value, so a second call changes nothing.
     */
    method InitSessionState()
      modifies this
      ensures keys == old(keys) + AllKeys
      ensures gameState == (if GameStateKey in old(keys) then old(gameState) else Title)
      ensures messages == (if MessagesKey in old(keys) then old(messages) else [])
      ensures openaiMessages == (if OpenaiMessagesKey in old(keys) then old(openaiMessages) else [Message(System, systemPrompt)])
      ensures ttsEnabled == (if TtsEnabledKey in old(keys) then old(ttsEnabled) else true)
      ensures quizCompleted == (if QuizCompletedKey in old(keys) then old(quizCompleted) else false)
      ensures userInputField == old(userInputField)
      ensures AllKeys <= old(keys) ==> unchanged(this)
      ensures MessagesKey !in old(keys) && OpenaiMessagesKey !in old(keys) ==> Mirrored()
    {
      if GameStateKey !in keys {
        gameState := Title;
        keys := keys + {GameStateKey};
      }
      if MessagesKey !in keys {
        messages := [];
        keys := keys + {MessagesKey};
      }
      if OpenaiMessagesKey !in keys {
        openaiMessages := [Message(System, systemPrompt)];
        keys := keys + {OpenaiMessagesKey};
      }
      FillSettings();
    }

    /** The keys `init_session_state` fills after the transcripts. */
    method FillSettings()
      modifies this`keys, this`ttsEnabled, this`quizCompleted
      ensures keys == old(keys) + {TtsEnabledKey, QuizCompletedKey}
      ensures ttsEnabled == (if TtsEnabledKey in old(keys) then old(ttsEnabled) else true)
      ensures quizCompleted == (if QuizCompletedKey in old(keys) then old(quizCompleted) else false)
      ensures {TtsEnabledKey, QuizCompletedKey} <= old(keys) ==> unchanged(this)
    {
      if TtsEnabledKey !in keys {
        ttsEnabled := true;
        keys := keys + {TtsEnabledKey};
      }
      if QuizCompletedKey !in keys {
        quizCompleted := false;
        keys := keys + {QuizCompletedKey};
      }
    }

    /** Typing into the answer field. */
    method TypeInput(s: string)
      modifies this`userInputField
      ensures userInputField == s
    {
      userInputField := s;
    }

    /**
     * `handle_submit`: a whitespace-only field is ignored and kept;
     * otherwise the field's text, unstripped, and a truthy reply go to both
     * transcripts and the field is emptied.
     */
    method HandleSubmit(reply: Option<string>)
      modifies this
      ensures IsBlank(old(userInputField), Python) ==> unchanged(this)
      ensures !IsBlank(old(userInputField), Python) ==>
        && messages == old(messages) + Turn(old(userInputField), reply)
        && openaiMessages == old(openaiMessages) + Turn(old(userInputField), reply)
        && userInputField == []
      ensures keys == old(keys) && gameState == old(gameState)
      ensures ttsEnabled == old(ttsEnabled) && quizCompleted == old(quizCompleted)
      ensures old(Mirrored()) ==> Mirrored()
    {
      var currentInput := userInputField;
      StripEmptyIffBlank(currentInput, Python);
      if Strip(currentInput, Python) != [] {
        AppendTurn(currentInput, reply);
        userInputField := [];
      }
    }

    /** The two appends of `handle_submit`: the entered text, then a truthy reply, onto both transcripts. */
    method AppendTurn(input: string, reply: Option<string>)
      modifies this`messages, this`openaiMessages
      ensures messages == old(messages) + Turn(input, reply)
      ensures openaiMessages == old(openaiMessages) + Turn(input, reply)
      ensures old(Mirrored()) ==> Mirrored()
    {
      ghost var display, api := messages, openaiMessages;
      messages := messages + [Message(User, input)];
      openaiMessages := openaiMessages + [Message(User, input)];
      if Truthy(reply) {
        messages := messages + [Message(Assistant, reply.value)];
        openaiMessages := openaiMessages + [Message(Assistant, reply.value)];
      }
      ghost var turn := Turn(input, reply);
      assert messages == display + turn && openaiMessages == api + turn;
      if Mirrors(Message(System, systemPrompt), display, api) {
        MirrorsAppend(Message(System, systemPrompt), display, api, turn);
      }
    }

    /** `display_title`: the start button opens the door screen. */
    method DisplayTitle(startPressed: bool)
      modifies this`gameState
      ensures gameState == (if startPressed then Opening else old(gameState))
    {
      if startPressed {
        gameState := Opening;
      }
    }

    /**
     * `display_opening`: a six-character PIN is checked; the door code
     * opens the quiz, anything else leaves the screen as it is.
     */
    method DisplayOpening(pin: string) returns (outcome: PinOutcome)
      modifies this`gameState
      ensures outcome == CheckPin(pin)
      ensures gameState == (if pin == DoorCode then Quiz else old(gameState))
    {
      outcome := Waiting;
      if pin != [] && |pin| == 6 {
        if pin == "442222" {
          outcome := Unlocked;
          gameState := Quiz;
        } else {
          outcome := Rejected;
        }
      }
    }

    /**
     * The completion test of `display_quiz`: the latest entry holding the
     * trigger, with the flag clear, sets the flag and shows the success
     * screen. Once the flag is set the test never fires again.
     */
    method DisplayQuiz()
      modifies this
      ensures CompletionDue(old(messages), Trigger, old(quizCompleted)) ==> quizCompleted && gameState == Success
      ensures !CompletionDue(old(messages), Trigger, old(quizCompleted)) ==> unchanged(this)
      ensures keys == old(keys) && messages == old(messages) && openaiMessages == old(openaiMessages)
      ensures ttsEnabled == old(ttsEnabled) && userInputField == old(userInputField)
      ensures old(quizCompleted) ==> unchanged(this)
    {
      if |messages| > 0 {
        var latest := messages[|messages| - 1];
        if Contains(latest.content, Trigger) && !quizCompleted {
          quizCompleted := true;
          gameState := Success;
        }
      }
    }

    /** `display_success`: the form button shows the registration form. */
    method DisplaySuccess(formPressed: bool)
      modifies this`gameState
      ensures gameState == (if formPressed then Form else old(gameState))
    {
      if formPressed {
        gameState := Form;
      }
    }

    /** The speech toggle in `main`, shown only on the quiz screen. */
    method ToggleSpeech(toggle: bool)
      modifies this`ttsEnabled
      ensures ttsEnabled == (if gameState == Quiz then toggle else old(ttsEnabled))
    {
      if gameState == Quiz && toggle != ttsEnabled {
        ttsEnabled := toggle;
      }
    }
  }
}
