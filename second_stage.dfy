/**
 * The second stage page: a free chat with the gatekeeper and no stages.
 * Only the transcripts, the answer field and the speech setting change;
 * nothing looks at what the replies say.
 */
module SecondStage {
  import opened Text
  import opened Wrappers
  import opened Chat

  datatype Key = MessagesKey | OpenaiMessagesKey | TtsEnabledKey

  const AllKeys: set<Key> := {MessagesKey, OpenaiMessagesKey, TtsEnabledKey}

  /** `st.session_state` of the page, with the prompt text the API transcript is seeded with. */
  class Page {
    var keys: set<Key>
    var messages: seq<Message>
    var openaiMessages: seq<Message>
    var ttsEnabled: bool
    var userInputField: string
    const systemPrompt: string

    /** A new browser session: no key is set yet. */
    constructor (systemPrompt: string)
      ensures keys == {} && userInputField == [] && this.systemPrompt == systemPrompt
    {
      keys := {};
      messages := [];
      openaiMessages := [];
      ttsEnabled := true;
      userInputField := [];
      this.systemPrompt := systemPrompt;
    }

    /** The API transcript is the system prompt followed, in order, by the display transcript. */
    predicate Mirrored()
      reads this
    {
      Mirrors(Message(System, systemPrompt), messages, openaiMessages)
    }

    /** `init_session_state`: every missing key gets its default, every present key keeps its value. */
    method InitSessionState()
      modifies this
      ensures keys == old(keys) + AllKeys
      ensures messages == (if MessagesKey in old(keys) then old(messages) else [])
      ensures openaiMessages == (if OpenaiMessagesKey in old(keys) then old(openaiMessages) else [Message(System, systemPrompt)])
      ensures ttsEnabled == (if TtsEnabledKey in old(keys) then old(ttsEnabled) else true)
      ensures userInputField == old(userInputField)
      ensures AllKeys <= old(keys) ==> unchanged(this)
      ensures MessagesKey !in old(keys) && OpenaiMessagesKey !in old(keys) ==> Mirrored()
    {
      if MessagesKey !in keys {
        messages := [];
        keys := keys + {MessagesKey};
      }
      if OpenaiMessagesKey !in keys {
        openaiMessages := [Message(System, systemPrompt)];
        keys := keys + {OpenaiMessagesKey};
      }
      if TtsEnabledKey !in keys {
        ttsEnabled := true;
        keys := keys + {TtsEnabledKey};
      }
    }

    /** Typing into the message field. */
    method TypeInput(s: string)
      modifies this`userInputField
      ensures userInputField == s
    {
      userInputField := s;
    }

    /**
     * `handle_submit`: a whitespace-only field is ignored and kept;
     * otherwise the field's text, unstripped, and a truthy reply go to both
     * transcripts and the field is emptied. The speech setting never changes.
     */
    method HandleSubmit(reply: Option<string>)
      modifies this
      ensures IsBlank(old(userInputField), Python) ==> unchanged(this)
      ensures !IsBlank(old(userInputField), Python) ==>
        && messages == old(messages) + Turn(old(userInputField), reply)
        && openaiMessages == old(openaiMessages) + Turn(old(userInputField), reply)
        && userInputField == []
      ensures keys == old(keys) && ttsEnabled == old(ttsEnabled)
      ensures old(Mirrored()) ==> Mirrored()
    {
      var currentInput := userInputField;
      StripEmptyIffBlank(currentInput, Python);
      if Strip(currentInput, Python) != [] {
        AppendTurn(currentInput, reply);
        userInputField := [];
      }
    }

    /** The two appends of `handle_submit`: the entered text, then a truthy reply, onto both transcripts. */
    method AppendTurn(input: string, reply: Option<string>)
      modifies this`messages, this`openaiMessages
      ensures messages == old(messages) + Turn(input, reply)
      ensures openaiMessages == old(openaiMessages) + Turn(input, reply)
      ensures old(Mirrored()) ==> Mirrored()
    {
      ghost var display, api := messages, openaiMessages;
      messages := messages + [Message(User, input)];
      openaiMessages := openaiMessages + [Message(User, input)];
      if Truthy(reply) {
        messages := messages + [Message(Assistant, reply.value)];
        openaiMessages := openaiMessages + [Message(Assistant, reply.value)];
      }
      ghost var turn := Turn(input, reply);
      assert messages == display + turn && openaiMessages == api + turn;
      if Mirrors(Message(System, systemPrompt), display, api) {
        MirrorsAppend(Message(System, systemPrompt), display, api, turn);
      }
    }

    /** The speech toggle in the sidebar, shown on every render. */
    method ToggleSpeech(toggle: bool)
      modifies this`ttsEnabled
      ensures ttsEnabled == toggle
    {
      if toggle != ttsEnabled {
        ttsEnabled := toggle;
      }
    }
  }
}
