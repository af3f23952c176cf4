/**
 * The nurse assistant page: a chat whose API transcript starts with the
 * nurse's greeting as an assistant entry. The chat box is the page's only
 * input; the page also defines a `handle_submit` for an answer field that
 * no widget creates, modelled here with the field as explicit state.
 */
module Kokoro {
  import opened Text
  import opened Wrappers
  import opened Chat

  datatype Key = MessagesKey | OpenaiMessagesKey

  const AllKeys: set<Key> := {MessagesKey, OpenaiMessagesKey}

  /** `st.session_state` of the page, with the greeting the API transcript starts with. */
  class Page {
    var keys: set<Key>
    var messages: seq<Message>
    var openaiMessages: seq<Message>
    var userInputField: string
    const greeting: string

    /** A new browser session: no key is set yet. */
    constructor (greeting: string)
      ensures keys == {} && userInputField == [] && this.greeting == greeting
    {
      keys := {};
      messages := [];
      openaiMessages := [];
      userInputField := [];
      this.greeting := greeting;
    }

    /**
     * The API transcript is the greeting followed, in order, by the display
     * transcript, hence exactly one entry longer.
     */
    predicate Mirrored()
      reads this
    {
      Mirrors(Message(Assistant, greeting), messages, openaiMessages)
    }

    /** `init_session_state`: every missing key gets its default, every present key keeps its value. */
    method InitSessionState()
      modifies this
      ensures keys == old(keys) + AllKeys
      ensures messages == (if MessagesKey in old(keys) then old(messages) else [])
      ensures openaiMessages == (if OpenaiMessagesKey in old(keys) then old(openaiMessages) else [Message(Assistant, greeting)])
      ensures userInputField == old(userInputField)
      ensures AllKeys <= old(keys) ==> unchanged(this)
      ensures MessagesKey !in old(keys) && OpenaiMessagesKey !in old(keys) ==> Mirrored()
    {
      if MessagesKey !in keys {
        messages := [];
        keys := keys + {MessagesKey};
      }
      if OpenaiMessagesKey !in keys {
        openaiMessages := [Message(Assistant, greeting)];
        keys := keys + {OpenaiMessagesKey};
      }
    }

    /**
     * `handle_submit`: a whitespace-only field is ignored and kept;
     * otherwise the field's text, unstripped, and a truthy reply go to both
     * transcripts and the field is emptied.
     */
    method HandleSubmit(reply: Option<string>)
      modifies this
      ensures IsBlank(old(userInputField), Python) ==> unchanged(this)
      ensures !IsBlank(old(userInputField), Python) ==>
        && messages == old(messages) + Turn(old(userInputField), reply)
        && openaiMessages == old(openaiMessages) + Turn(old(userInputField), reply)
        && userInputField == []
      ensures keys == old(keys)
      ensures old(Mirrored()) ==> Mirrored() && |openaiMessages| == |messages| + 1
    {
      var currentInput := userInputField;
      StripEmptyIffBlank(currentInput, Python);
      if Strip(currentInput, Python) != [] {
        AppendTurn(currentInput, reply);
        userInputField := [];
      }
    }

    /** The two appends of `handle_submit`: the entered text, then a truthy reply, onto both transcripts. */
    method AppendTurn(input: string, reply: Option<string>)
      modifies this`messages, this`openaiMessages
      ensures messages == old(messages) + Turn(input, reply)
      ensures openaiMessages == old(openaiMessages) + Turn(input, reply)
      ensures old(Mirrored()) ==> Mirrored()
    {
      ghost var display, api := messages, openaiMessages;
      messages := messages + [Message(User, input)];
      openaiMessages := openaiMessages + [Message(User, input)];
      if Truthy(reply) {
        messages := messages + [Message(Assistant, reply.value)];
        openaiMessages := openaiMessages + [Message(Assistant, reply.value)];
      }
      ghost var turn := Turn(input, reply);
      assert messages == display + turn && openaiMessages == api + turn;
      if Mirrors(Message(Assistant, greeting), display, api) {
        MirrorsAppend(Message(Assistant, greeting), display, api, turn);
      }
    }

    /**
     * The chat box in `main`: any non-empty input, even whitespace, goes to
     * both transcripts with a truthy reply after it; the answer field is
     * not touched.
     */
    method ChatInput(userInput: string, reply: Option<string>)
      modifies this
      ensures userInput == [] ==> unchanged(this)
      ensures userInput != [] ==>
        && messages == old(messages) + Turn(userInput, reply)
        && openaiMessages == old(openaiMessages) + Turn(userInput, reply)
      ensures keys == old(keys) && userInputField == old(userInputField)
      ensures old(Mirrored()) ==> Mirrored() && |openaiMessages| == |messages| + 1
    {
      if userInput != [] {
        var userMessage := Message(User, userInput);
        messages := messages + [userMessage];
        openaiMessages := openaiMessages + [userMessage];
        if Truthy(reply) {
          var assistantMessage := Message(Assistant, reply.value);
          messages := messages + [assistantMessage];
          openaiMessages := openaiMessages + [assistantMessage];
        }
      }
    }
  }
}
