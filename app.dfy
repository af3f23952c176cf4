/**
 * The browser version of the escape game: a global game state switched
 * between seven screens, two chat quizzes that share one transcript pair,
 * the API key store and the Gemini request built from the transcript.
 */
module App {
  import opened Wrappers
  import opened Text
  import opened Chat
  import Gemini

  datatype Screen =
    | OpeningScreen | Opening2Screen | QuizIntroScreen | QuizScreen
    | MiddleSuccessScreen | Quiz2Screen | FinalSuccessScreen

  /** Which quiz a submission belongs to (`'quiz'` or `'quiz2'`). */
  datatype QuizKind = Quiz1 | Quiz2

  datatype ModelChoice = Gpt4o | GeminiFlash

  datatype TtsProvider = OpenAiVoice | GoogleVoice

  /** The sentence the quiz master says at the end of each quiz. */
  function EndPhrase(kind: QuizKind): string
  {
    match kind
    case Quiz1 => "これでクイズ1は終了だ"
    case Quiz2 => "これでクイズ2は終了だ"
  }

  /** The screen reached when a quiz is finished. */
  function SuccessScreen(kind: QuizKind): Screen
  {
    match kind
    case Quiz1 => MiddleSuccessScreen
    case Quiz2 => FinalSuccessScreen
  }

  /** A reply finishes the quiz when it contains that quiz's end phrase. */
  predicate Finishes(kind: QuizKind, reply: string)
  {
    Contains(reply, EndPhrase(kind))
  }

  /** A word occurs in a string of its own length only as the whole string. */
  lemma ContainsSameLength(s: string, p: string)
    requires |s| == |p| && Contains(s, p)
    ensures s == p
  {
    var k :| 0 <= k <= |s| && p <= s[k..];
    assert |s[k..]| >= |p|;
  }

  /** Each end phrase finishes its own quiz and not the other one. */
  lemma EndPhrasesAreDistinct()
    ensures Finishes(Quiz1, EndPhrase(Quiz1)) && Finishes(Quiz2, EndPhrase(Quiz2))
    ensures !Finishes(Quiz1, EndPhrase(Quiz2)) && !Finishes(Quiz2, EndPhrase(Quiz1))
  {
    assert EndPhrase(Quiz1) <= EndPhrase(Quiz1)[0..];
    assert EndPhrase(Quiz2) <= EndPhrase(Quiz2)[0..];
    assert EndPhrase(Quiz1)[6] != EndPhrase(Quiz2)[6];
    if Finishes(Quiz1, EndPhrase(Quiz2)) {
      ContainsSameLength(EndPhrase(Quiz2), EndPhrase(Quiz1));
    }
    if Finishes(Quiz2, EndPhrase(Quiz1)) {
      ContainsSameLength(EndPhrase(Quiz1), EndPhrase(Quiz2));
    }
  }

  /** The `API_KEYS` object and `setApiKey`. */
  class ApiKeyStore {
    var keys: map<string, string>

    constructor ()
      ensures keys == map["openai" := [], "gemini" := []]
    {
      keys := map["openai" := [], "gemini" := []];
    }

    /** Stores the key only when both provider and key are non-empty, and says whether it did. */
    method SetApiKey(provider: string, key: string) returns (stored: bool)
      modifies this
      ensures stored <==> provider != [] && key != []
      ensures stored ==> keys == old(keys)[provider := key]
      ensures !stored ==> keys == old(keys)
    {
      stored := false;
      if provider != [] && key != [] {
        keys := keys[provider := key];
        stored := true;
      }
    }
  }

  /** The `gameState` object, the two chat input fields and the loaded quiz prompts. */
  class Game {
    var currentScreen: Screen
    var quiz1Completed: bool
    var quiz2Completed: bool
    var currentQuiz: QuizKind
    var modelChoice: ModelChoice
    var ttsEnabled: bool
    var ttsProvider: TtsProvider
    var messages: seq<Message>
    var openaiMessages: seq<Message>
    var userInput: string
    var userInput2: string
    const quiz1Prompt: string
    const quiz2Prompt: string

    /** The state at page load, with the prompts as loaded from the prompt files. */
    constructor (quiz1Prompt: string, quiz2Prompt: string)
      ensures currentScreen == OpeningScreen && !quiz1Completed && !quiz2Completed
      ensures currentQuiz == Quiz1 && modelChoice == Gpt4o && ttsEnabled && ttsProvider == OpenAiVoice
      ensures messages == [] && openaiMessages == []
      ensures userInput == [] && userInput2 == []
      ensures this.quiz1Prompt == quiz1Prompt && this.quiz2Prompt == quiz2Prompt
    {
      currentScreen := OpeningScreen;
      quiz1Completed := false;
      quiz2Completed := false;
      currentQuiz := Quiz1;
      modelChoice := Gpt4o;
      ttsEnabled := true;
      ttsProvider := OpenAiVoice;
      messages := [];
      openaiMessages := [];
      userInput := [];
      userInput2 := [];
      this.quiz1Prompt := quiz1Prompt;
      this.quiz2Prompt := quiz2Prompt;
    }

    /** The prompt of a quiz. */
    function PromptOf(kind: QuizKind): string
      reads this
    {
      match kind
      case Quiz1 => quiz1Prompt
      case Quiz2 => quiz2Prompt
    }

    /** The input field a quiz reads from (`user-input` or `user-input-2`). */
    function InputOf(kind: QuizKind): string
      reads this
    {
      match kind
      case Quiz1 => userInput
      case Quiz2 => userInput2
    }

    /**
     * The API transcript is one system entry holding `prompt` followed, in
     * order, by the display transcript, which holds no system entry.
     */
    predicate Seeded(prompt: string)
      reads this
    {
      Mirrors(Message(System, prompt), messages, openaiMessages) && NoSystem(messages)
    }

    /** `showScreen`: always records the new screen. */
    method ShowScreen(screen: Screen)
      modifies this
      ensures currentScreen == screen
      ensures quiz1Completed == old(quiz1Completed) && quiz2Completed == old(quiz2Completed)
      ensures currentQuiz == old(currentQuiz) && modelChoice == old(modelChoice)
      ensures ttsEnabled == old(ttsEnabled) && ttsProvider == old(ttsProvider)
      ensures messages == old(messages) && openaiMessages == old(openaiMessages)
      ensures userInput == old(userInput) && userInput2 == old(userInput2)
    {
      currentScreen := screen;
    }

    /** Clicking the door on the opening screen. */
    method ClickDoor()
      modifies this
      ensures currentScreen == Opening2Screen
      ensures quiz1Completed == old(quiz1Completed) && quiz2Completed == old(quiz2Completed)
      ensures currentQuiz == old(currentQuiz)
      ensures messages == old(messages) && openaiMessages == old(openaiMessages)
    {
      ShowScreen(Opening2Screen);
    }

    /** The two-second timer the door click starts. */
    method DoorTimerElapsed()
      modifies this
      ensures currentScreen == QuizIntroScreen
      ensures quiz1Completed == old(quiz1Completed) && quiz2Completed == old(quiz2Completed)
      ensures currentQuiz == old(currentQuiz)
      ensures messages == old(messages) && openaiMessages == old(openaiMessages)
    {
      ShowScreen(QuizIntroScreen);
    }

    /** The debug jump to the quiz introduction. */
    method JumpToQuizIntro()
      modifies this
      ensures currentScreen == QuizIntroScreen
      ensures quiz1Completed == old(quiz1Completed) && quiz2Completed == old(quiz2Completed)
      ensures currentQuiz == old(currentQuiz)
      ensures messages == old(messages) && openaiMessages == old(openaiMessages)
    {
      ShowScreen(QuizIntroScreen);
    }

    /** The challenge button: a fresh transcript seeded with the first quiz's prompt. */
    method StartQuiz1()
      modifies this
      ensures messages == [] && openaiMessages == [Message(System, quiz1Prompt)]
      ensures Seeded(quiz1Prompt)
      ensures currentScreen == QuizScreen
      ensures quiz1Completed == old(quiz1Completed) && quiz2Completed == old(quiz2Completed)
      ensures currentQuiz == old(currentQuiz)
    {
      messages := [];
      openaiMessages := [Message(System, quiz1Prompt)];
      ShowScreen(QuizScreen);
    }

    /** The next-quiz button on the middle success screen: a fresh transcript seeded with the second quiz's prompt. */
    method StartQuiz2()
      modifies this
      ensures currentQuiz == Quiz2
      ensures messages == [] && openaiMessages == [Message(System, quiz2Prompt)]
      ensures Seeded(quiz2Prompt)
      ensures currentScreen == Quiz2Screen
      ensures quiz1Completed == old(quiz1Completed) && quiz2Completed == old(quiz2Completed)
    {
      currentQuiz := Quiz2;
      messages := [];
      openaiMessages := [Message(System, quiz2Prompt)];
      ShowScreen(Quiz2Screen);
    }

    /** The hidden and sidebar jumps to the second quiz: as `StartQuiz2`, and quiz 1 counts as done. */
    method JumpToQuiz2()
      modifies this
      ensures currentQuiz == Quiz2 && quiz1Completed
      ensures messages == [] && openaiMessages == [Message(System, quiz2Prompt)]
      ensures Seeded(quiz2Prompt)
      ensures currentScreen == Quiz2Screen
      ensures quiz2Completed == old(quiz2Completed)
    {
      currentQuiz := Quiz2;
      quiz1Completed := true;
      messages := [];
      openaiMessages := [Message(System, quiz2Prompt)];
      ShowScreen(Quiz2Screen);
    }

    /** The debug jumps to the middle success screen. */
    method JumpToMiddleSuccess()
      modifies this
      ensures quiz1Completed && quiz2Completed == old(quiz2Completed)
      ensures currentScreen == MiddleSuccessScreen
      ensures currentQuiz == old(currentQuiz)
      ensures messages == old(messages) && openaiMessages == old(openaiMessages)
    {
      quiz1Completed := true;
      ShowScreen(MiddleSuccessScreen);
    }

    /** The debug jumps to the final success screen. */
    method JumpToFinalSuccess()
      modifies this
      ensures quiz1Completed && quiz2Completed
      ensures currentScreen == FinalSuccessScreen
      ensures currentQuiz == old(currentQuiz)
      ensures messages == old(messages) && openaiMessages == old(openaiMessages)
    {
      quiz1Completed := true;
      quiz2Completed := true;
      ShowScreen(FinalSuccessScreen);
    }

    /** The model radio buttons. */
    method ChooseModel(choice: ModelChoice)
      modifies this`modelChoice
      ensures modelChoice == choice
    {
      modelChoice := choice;
    }

    /** The speech checkbox. */
    method SetTtsEnabled(checked: bool)
      modifies this`ttsEnabled
      ensures ttsEnabled == checked
    {
      ttsEnabled := checked;
    }

    /** The voice radio buttons. */
    method ChooseTtsProvider(provider: TtsProvider)
      modifies this`ttsProvider
      ensures ttsProvider == provider
    {
      ttsProvider := provider;
    }

    /**
     * `checkSuccessCondition`: a reply containing the quiz's end phrase
     * marks that quiz done and shows its success screen; any other reply
     * changes nothing.
     */
    method CheckSuccessCondition(kind: QuizKind, reply: string)
      modifies this
      ensures Finishes(kind, reply) ==> currentScreen == SuccessScreen(kind)
      ensures !Finishes(kind, reply) ==> currentScreen == old(currentScreen)
      ensures quiz1Completed == (old(quiz1Completed) || (kind == Quiz1 && Finishes(kind, reply)))
      ensures quiz2Completed == (old(quiz2Completed) || (kind == Quiz2 && Finishes(kind, reply)))
      ensures currentQuiz == old(currentQuiz) && modelChoice == old(modelChoice)
      ensures ttsEnabled == old(ttsEnabled) && ttsProvider == old(ttsProvider)
      ensures messages == old(messages) && openaiMessages == old(openaiMessages)
      ensures userInput == old(userInput) && userInput2 == old(userInput2)
    {
      if kind == Quiz1 {
        if Contains(reply, "これでクイズ1は終了だ") {
          quiz1Completed := true;
          ShowScreen(MiddleSuccessScreen);
        }
      } else {
        if Contains(reply, "これでクイズ2は終了だ") {
          quiz2Completed := true;
          ShowScreen(FinalSuccessScreen);
        }
      }
    }

    /** One pair of pushes: the same entry onto both transcripts. */
    method PushEntry(m: Message)
      modifies this
      ensures messages == old(messages) + [m] && openaiMessages == old(openaiMessages) + [m]
      ensures currentScreen == old(currentScreen)
      ensures quiz1Completed == old(quiz1Completed) && quiz2Completed == old(quiz2Completed)
      ensures currentQuiz == old(currentQuiz) && modelChoice == old(modelChoice)
      ensures ttsEnabled == old(ttsEnabled) && ttsProvider == old(ttsProvider)
      ensures userInput == old(userInput) && userInput2 == old(userInput2)
    {
      messages := messages + [m];
      openaiMessages := openaiMessages + [m];
    }

    /** Emptying the input field of a quiz. */
    method ClearInput(kind: QuizKind)
      modifies this
      ensures InputOf(kind) == []
      ensures kind == Quiz1 ==> userInput2 == old(userInput2)
      ensures kind == Quiz2 ==> userInput == old(userInput)
      ensures messages == old(messages) && openaiMessages == old(openaiMessages)
      ensures currentScreen == old(currentScreen)
      ensures quiz1Completed == old(quiz1Completed) && quiz2Completed == old(quiz2Completed)
      ensures currentQuiz == old(currentQuiz) && modelChoice == old(modelChoice)
      ensures ttsEnabled == old(ttsEnabled) && ttsProvider == old(ttsProvider)
    {
      if kind == Quiz1 {
        userInput := [];
      } else {
        userInput2 := [];
      }
    }

    /** The part of `handleSubmit` after the blank check, for the trimmed text `text`. */
    method AcceptSubmission(kind: QuizKind, text: string, reply: Option<string>)
      modifies this
      ensures messages == old(messages) + Turn(text, reply)
      ensures openaiMessages == old(openaiMessages) + Turn(text, reply)
      ensures InputOf(kind) == []
      ensures kind == Quiz1 ==> userInput2 == old(userInput2)
      ensures kind == Quiz2 ==> userInput == old(userInput)
      ensures var done := Truthy(reply) && Finishes(kind, reply.value);
        && currentScreen == (if done then SuccessScreen(kind) else old(currentScreen))
        && quiz1Completed == (old(quiz1Completed) || (kind == Quiz1 && done))
        && quiz2Completed == (old(quiz2Completed) || (kind == Quiz2 && done))
      ensures currentQuiz == old(currentQuiz) && modelChoice == old(modelChoice)
      ensures ttsEnabled == old(ttsEnabled) && ttsProvider == old(ttsProvider)
    {
      ClearInput(kind);
      PushEntry(Message(User, text));
      if Truthy(reply) {
        PushEntry(Message(Assistant, reply.value));
        if (kind == Quiz1 && Contains(reply.value, "これでクイズ1は終了だ"))
          || (kind == Quiz2 && Contains(reply.value, "これでクイズ2は終了だ"))
        {
          CheckSuccessCondition(kind, reply.value);
        }
      }
    }

    /**
     * `handleSubmit`: input that trims to nothing is ignored (the field
     * keeps it); otherwise the field is cleared, the trimmed text and a
     * truthy reply go to both transcripts, and a reply holding the quiz's
     * end phrase finishes the quiz.
     */
    method HandleSubmit(kind: QuizKind, reply: Option<string>)
      modifies this
      ensures Strip(old(InputOf(kind)), JavaScript) == [] ==> unchanged(this)
      ensures Strip(old(InputOf(kind)), JavaScript) != [] ==>
        var text := Strip(old(InputOf(kind)), JavaScript);
        && messages == old(messages) + Turn(text, reply)
        && openaiMessages == old(openaiMessages) + Turn(text, reply)
        && InputOf(kind) == []
        && (kind == Quiz1 ==> userInput2 == old(userInput2))
        && (kind == Quiz2 ==> userInput == old(userInput))
        && var done := Truthy(reply) && Finishes(kind, reply.value);
        && currentScreen == (if done then SuccessScreen(kind) else old(currentScreen))
        && quiz1Completed == (old(quiz1Completed) || (kind == Quiz1 && done))
        && quiz2Completed == (old(quiz2Completed) || (kind == Quiz2 && done))
      ensures currentQuiz == old(currentQuiz) && modelChoice == old(modelChoice)
      ensures old(Seeded(quiz1Prompt)) ==> Seeded(quiz1Prompt)
      ensures old(Seeded(quiz2Prompt)) ==> Seeded(quiz2Prompt)
    {
      var userMessage := Strip(InputOf(kind), JavaScript);
      if userMessage == [] {
        return;
      }
      ghost var display, api := messages, openaiMessages;
      if NoSystem(messages) {
        TurnKeepsNoSystem(messages, userMessage, reply);
      }
      AcceptSubmission(kind, userMessage, reply);
      ghost var turn := Turn(userMessage, reply);
      assert messages == display + turn && openaiMessages == api + turn;
      if Mirrors(Message(System, quiz1Prompt), display, api) {
        MirrorsAppend(Message(System, quiz1Prompt), display, api, turn);
      }
      if Mirrors(Message(System, quiz2Prompt), display, api) {
        MirrorsAppend(Message(System, quiz2Prompt), display, api, turn);
      }
    }

    /**
     * The Gemini branch of `getChatResponse`: the request built from the
     * API transcript. On a seeded transcript the prompt becomes the
     * instruction exactly when non-empty and every display entry is sent,
     * in order.
     */
    method GeminiRequest() returns (req: Gemini.Request)
      ensures req == Gemini.RequestOf(openaiMessages)
      ensures forall p :: Seeded(p) ==>
        (req.systemInstruction.Some? <==> p != [])
        && |req.contents| == |messages|
        && (forall k :: 0 <= k < |messages| ==> req.contents[k] == Gemini.Convert(messages[k]))
    {
      req := Gemini.BuildRequest(openaiMessages);
      forall p | Seeded(p)
        ensures (req.systemInstruction.Some? <==> p != [])
        ensures |req.contents| == |messages|
        ensures forall k :: 0 <= k < |messages| ==> req.contents[k] == Gemini.Convert(messages[k])
      {
        Gemini.SeededRequest(p, messages);
      }
    }
  }
}
