/**
 * The third stage page (local version): the API transcript is seeded from
 * a prompt file, the PIN leads to a quiz introduction before the quiz, and
 * the speech text of an assistant entry goes through two ordered
 * dictionary passes while the screen shows the entry as it is.
 */
module ThirdStage {
  import opened Text
  import opened Wrappers
  import opened Chat
  import opened Gate
  import opened Rewrite

  /** The values of `game_state` this page renders. */
  datatype Stage = Title | Opening | QuizIntro | Quiz | Success

  datatype Key = GameStateKey | MessagesKey | OpenaiMessagesKey | TtsEnabledKey | QuizCompletedKey

  const AllKeys: set<Key> := {GameStateKey, MessagesKey, OpenaiMessagesKey, TtsEnabledKey, QuizCompletedKey}

  /** The phrase whose appearance in the latest entry ends the quiz. */
  const Trigger: string := "全問正解かい"

  /** The text sent to speech synthesis for an assistant entry: kana conversion first, then the reading guides. */
  function SpeechText(content: string): string
  {
    ApplyAll(StageGuides, ApplyAll(KanaConversions, content))
  }

  /** `convert_to_hiragana`: the display text is the input itself; the speech text has the six words replaced in order. */
  method ConvertToHiragana(text: string) returns (displayText: string, speechText: string)
    ensures displayText == text
    ensures speechText == ApplyAll(KanaConversions, text)
  {
    displayText := text;
    speechText := ConvertWords(KanaConversions, text);
  }

  /** What `format_message` shows for an entry and, if it synthesises speech, from which text. */
  datatype Rendered = Rendered(display: string, speech: Option<string>)

  /**
   * `format_message`: every entry is shown as it is; speech is made only
   * for a new non-user entry while speech is on, and from the converted text.
   */
  method FormatMessage(role: Role, content: string, ttsEnabled: bool, isNewMessage: bool) returns (r: Rendered)
    ensures r.display == content
    ensures r.speech == (if role != User && ttsEnabled && isNewMessage then Some(SpeechText(content)) else None)
  {
    if role == User {
      r := Rendered(content, None);
    } else {
      var displayText, speechText := ConvertToHiragana(content);
      if ttsEnabled && isNewMessage {
        var modified := ApplyGuides(StageGuides, speechText);
        r := Rendered(displayText, Some(modified));
      } else {
        r := Rendered(displayText, None);
      }
    }
  }

  /** The reading guides leave hiragana text alone: every guide word starts with a kanji, a digit or a katakana letter. */
  lemma GuidesSkipHiragana(s: string)
    requires AllHiragana(s)
    ensures ApplyAll(StageGuides, s) == s
  {
    assert KanjiLed(StageGuides);
    HiraganaPassesThrough(StageGuides, s);
  }

  /** The first kana entry turns 源頼朝 into its reading. */
  lemma KanaFirstEntry()
    ensures KanaConversions[0] == Rule("源頼朝", "みなもとのよりとも")
    ensures ReplaceAll("源頼朝", "源頼朝", "みなもとのよりとも") == "みなもとのよりとも"
  {
    assert "源頼朝"[3..] == [];
  }

  /** The kana entries after the first all start with a kanji. */
  lemma KanaTailKanjiLed()
    ensures KanjiLed(KanaConversions[1..])
  {
    var tail := KanaConversions[1..];
    assert |tail| == 5;
    assert tail[0].word[0] == '征' && tail[1].word[0] == '鎌' && tail[2].word[0] == '裏';
    assert tail[3].word[0] == '男' && tail[4].word[0] == '芙';
  }

  /** The reading of 源頼朝 is written in hiragana only. */
  lemma ShogunReadingIsHiragana()
    ensures AllHiragana("みなもとのよりとも")
  {
  }

  /** The kana table spells 源頼朝 out in hiragana; the later table entries do not touch the result. */
  lemma KanaSpellsShogun()
    ensures ApplyAll(KanaConversions, "源頼朝") == "みなもとのよりとも"
  {
    KanaFirstEntry();
    ShogunReadingIsHiragana();
    KanaTailKanjiLed();
    FirstEntryThenHiragana(KanaConversions, "源頼朝", "みなもとのよりとも");
  }

  /**
   * The two passes interact: the kana table turns 源頼朝 into hiragana,
   * which no reading guide matches, so the guide that would append the
   * reading to the kanji never fires on it.
   */
  lemma KanaBeforeGuides()
    ensures SpeechText("源頼朝") == "みなもとのよりとも"
  {
    KanaSpellsShogun();
    ShogunReadingIsHiragana();
    GuidesSkipHiragana("みなもとのよりとも");
  }

  /** `st.session_state` of the page. */
  class Page {
    var keys: set<Key>
    var gameState: Stage
    var messages: seq<Message>
    var openaiMessages: seq<Message>
    var ttsEnabled: bool
    var quizCompleted: bool
    var userInputField: string

    /** A new browser session: no key is set yet. */
    constructor ()
      ensures keys == {} && userInputField == []
    {
      keys := {};
      gameState := Title;
      messages := [];
      openaiMessages := [];
      ttsEnabled := true;
      quizCompleted := false;
      userInputField := [];
    }

    /** The API transcript is one system entry followed, in order, by the display transcript. */
    predicate Mirrored()
      reads this
    {
      |openaiMessages| > 0 && openaiMessages[0].role == System && Mirrors(openaiMessages[0], messages, openaiMessages)
    }

    /**
     * `init_session_state` with the prompt file's text (`None` when it
     * cannot be read). Missing keys get their defaults in order; when the
     * API transcript is missing and the prompt is empty or absent, the
     * script stops right there and the later keys stay missing.
     */
    method InitSessionState(promptFile: Option<string>) returns (stopped: bool)
      modifies this
      ensures stopped <==> OpenaiMessagesKey !in old(keys) && !Truthy(promptFile)
      ensures gameState == (if GameStateKey in old(keys) then old(gameState) else Title)
      ensures messages == (if MessagesKey in old(keys) then old(messages) else [])
      ensures OpenaiMessagesKey !in old(keys) && Truthy(promptFile) ==> openaiMessages == [Message(System, promptFile.value)]
      ensures OpenaiMessagesKey in old(keys) || stopped ==> openaiMessages == old(openaiMessages)
      ensures stopped ==> keys == old(keys) + {GameStateKey, MessagesKey}
      ensures stopped ==> ttsEnabled == old(ttsEnabled) && quizCompleted == old(quizCompleted)
      ensures !stopped ==> keys == old(keys) + AllKeys
      ensures !stopped ==> ttsEnabled == (if TtsEnabledKey in old(keys) then old(ttsEnabled) else true)
      ensures !stopped ==> quizCompleted == (if QuizCompletedKey in old(keys) then old(quizCompleted) else false)
      ensures userInputField == old(userInputField)
      ensures AllKeys <= old(keys) ==> unchanged(this)
      ensures MessagesKey !in old(keys) && OpenaiMessagesKey !in old(keys) && !stopped ==> Mirrored()
    {
      stopped := false;
      if GameStateKey !in keys {
        gameState := Title;
        keys := keys + {GameStateKey};
      }
      if MessagesKey !in keys {
        messages := [];
        keys := keys + {MessagesKey};
      }
      if OpenaiMessagesKey !in keys && !Truthy(promptFile) {
        stopped := true;
        return;
      }
      if OpenaiMessagesKey !in keys {
        openaiMessages := [Message(System, promptFile.value)];
        keys := keys + {OpenaiMessagesKey};
      }
      FillSettings();
    }

    /** The keys `init_session_state` fills after the API transcript. */
    method FillSettings()
      modifies this
      ensures keys == old(keys) + {TtsEnabledKey, QuizCompletedKey}
      ensures ttsEnabled == (if TtsEnabledKey in old(keys) then old(ttsEnabled) else true)
      ensures quizCompleted == (if QuizCompletedKey in old(keys) then old(quizCompleted) else false)
      ensures gameState == old(gameState) && messages == old(messages) && openaiMessages == old(openaiMessages)
      ensures userInputField == old(userInputField)
      ensures {TtsEnabledKey, QuizCompletedKey} <= old(keys) ==> unchanged(this)
    {
      if TtsEnabledKey !in keys {
        ttsEnabled := true;
        keys := keys + {TtsEnabledKey};
      }
      if QuizCompletedKey !in keys {
        quizCompleted := false;
        keys := keys + {QuizCompletedKey};
      }
    }

    /** Typing into the answer field. */
    method TypeInput(s: string)
      modifies this`userInputField
      ensures userInputField == s
    {
      userInputField := s;
    }

    /**
     * `handle_submit`: a whitespace-only field is ignored and kept;
     * otherwise the field's text, unstripped, and a truthy reply go to both
     * transcripts and the field is emptied.
     */
    method HandleSubmit(reply: Option<string>)
      modifies this
      ensures IsBlank(old(userInputField), Python) ==> unchanged(this)
      ensures !IsBlank(old(userInputField), Python) ==>
        && messages == old(messages) + Turn(old(userInputField), reply)
        && openaiMessages == old(openaiMessages) + Turn(old(userInputField), reply)
        && userInputField == []
      ensures keys == old(keys) && gameState == old(gameState)
      ensures ttsEnabled == old(ttsEnabled) && quizCompleted == old(quizCompleted)
      ensures old(Mirrored()) ==> Mirrored()
    {
      var currentInput := userInputField;
      StripEmptyIffBlank(currentInput, Python);
      if Strip(currentInput, Python) != [] {
        AppendTurn(currentInput, reply);
        userInputField := [];
      }
    }

    /** The two appends of `handle_submit`: the entered text, then a truthy reply, onto both transcripts. */
    method AppendTurn(input: string, reply: Option<string>)
      modifies this`messages, this`openaiMessages
      ensures messages == old(messages) + Turn(input, reply)
      ensures openaiMessages == old(openaiMessages) + Turn(input, reply)
      ensures old(Mirrored()) ==> Mirrored()
    {
      ghost var display, api := messages, openaiMessages;
      messages := messages + [Message(User, input)];
      openaiMessages := openaiMessages + [Message(User, input)];
      if Truthy(reply) {
        messages := messages + [Message(Assistant, reply.value)];
        openaiMessages := openaiMessages + [Message(Assistant, reply.value)];
      }
      ghost var turn := Turn(input, reply);
      assert messages == display + turn && openaiMessages == api + turn;
      if |api| > 0 && Mirrors(api[0], display, api) {
        MirrorsAppend(api[0], display, api, turn);
      }
    }

    /** `display_title`: the start button opens the door screen. */
    method DisplayTitle(startPressed: bool)
      modifies this`gameState
      ensures gameState == (if startPressed then Opening else old(gameState))
    {
      if startPressed {
        gameState := Opening;
      }
    }

    /**
     * `display_opening`: a six-character PIN is checked; the door code
     * leads to the quiz introduction, anything else leaves the screen.
     */
    method DisplayOpening(pin: string) returns (outcome: PinOutcome)
      modifies this`gameState
      ensures outcome == CheckPin(pin)
      ensures gameState == (if pin == DoorCode then QuizIntro else old(gameState))
    {
      outcome := Waiting;
      if pin != [] && |pin| == 6 {
        if pin == "442222" {
          outcome := Unlocked;
          gameState := QuizIntro;
        } else {
          outcome := Rejected;
        }
      }
    }

    /** `display_quiz_intro`: the challenge button starts the quiz. */
    method DisplayQuizIntro(challengePressed: bool)
      modifies this`gameState
      ensures gameState == (if challengePressed then Quiz else old(gameState))
    {
      if challengePressed {
        gameState := Quiz;
      }
    }

    /**
     * The completion test of `display_quiz`: the latest entry holding the
     * trigger, with the flag clear, sets the flag and shows the success
     * screen; once the flag is set the test never fires again.
     */
    method DisplayQuiz()
      modifies this
      ensures CompletionDue(old(messages), Trigger, old(quizCompleted)) ==> quizCompleted && gameState == Success
      ensures !CompletionDue(old(messages), Trigger, old(quizCompleted)) ==> unchanged(this)
      ensures keys == old(keys) && messages == old(messages) && openaiMessages == old(openaiMessages)
      ensures ttsEnabled == old(ttsEnabled) && userInputField == old(userInputField)
      ensures old(quizCompleted) ==> unchanged(this)
    {
      if |messages| > 0 {
        var latest := messages[|messages| - 1];
        if Contains(latest.content, Trigger) && !quizCompleted {
          quizCompleted := true;
          gameState := Success;
        }
      }
    }

    /** The speech toggle in `main`, shown only on the quiz screen. */
    method ToggleSpeech(toggle: bool)
      modifies this`ttsEnabled
      ensures ttsEnabled == (if gameState == Quiz then toggle else old(ttsEnabled))
    {
      if gameState == Quiz && toggle != ttsEnabled {
        ttsEnabled := toggle;
      }
    }
  }
}
