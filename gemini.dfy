/**
 * How the browser game turns its API transcript into a Gemini
 * `generateContent` request: system entries are dropped from `contents`,
 * the other entries keep their order, `user` stays `user` and every other
 * role becomes `model`, and a leading system entry becomes the
 * `systemInstruction` when its text is non-empty.
 */
module Gemini {
  import opened Wrappers
  import opened Chat

  /** The two roles Gemini distinguishes. */
  datatype Speaker = UserTurn | ModelTurn

  /** One element of `contents`: a role and its text parts. */
  datatype Content = Content(role: Speaker, parts: seq<string>)

  /** The request body; `temperature` (0.7) is a floating-point constant and is not modelled. */
  datatype Request = Request(contents: seq<Content>, maxOutputTokens: int, systemInstruction: Option<string>)

  const MaxOutputTokens: int := 1000

  /** The prompt taken from the transcript: the first entry's text if that entry is a system entry, else empty. */
  function SystemPromptOf(ms: seq<Message>): string
  {
    if |ms| > 0 && ms[0].role == System then ms[0].content else []
  }

  /** A non-system entry as a Gemini content element. */
  function Convert(m: Message): Content
  {
    Content(if m.role == User then UserTurn else ModelTurn, [m.content])
  }

  /** The reference `contents`: the non-system entries converted, in order. */
  function ContentsOf(ms: seq<Message>): seq<Content>
    decreases |ms|
  {
    if ms == [] then []
    else (if ms[0].role == System then [] else [Convert(ms[0])]) + ContentsOf(ms[1..])
  }

  /** The reference request for a transcript. */
  function RequestOf(ms: seq<Message>): (r: Request)
    ensures r.systemInstruction.Some? <==> SystemPromptOf(ms) != []
    ensures r.systemInstruction.Some? ==> r.systemInstruction.value == ms[0].content && ms[0].role == System
  {
    var prompt := SystemPromptOf(ms);
    Request(ContentsOf(ms), MaxOutputTokens, if prompt != [] then Some(prompt) else None)
  }

  /** Conversion distributes over concatenation: entries keep their relative order. */
  lemma {:induction false} ContentsOfConcat(a: seq<Message>, b: seq<Message>)
    ensures ContentsOf(a + b) == ContentsOf(a) + ContentsOf(b)
    decreases |a|
  {
    if a == [] {
      assert a + b == b;
    } else {
      assert (a + b)[1..] == a[1..] + b;
      ContentsOfConcat(a[1..], b);
    }
  }

  /** The texts of the `role` elements of `cs`, in order. */
  function PartsOf(cs: seq<Content>, role: Speaker): seq<string>
    decreases |cs|
  {
    if cs == [] then []
    else (if cs[0].role == role then cs[0].parts else []) + PartsOf(cs[1..], role)
  }

  /**
   * What is sent under `user` is exactly the user texts of the transcript
   * and what is sent under `model` exactly the assistant texts; every
   * system entry, wherever it stands, is dropped.
   */
  lemma {:induction false} ContentsCarryTexts(ms: seq<Message>)
    ensures PartsOf(ContentsOf(ms), UserTurn) == TextsOf(ms, User)
    ensures PartsOf(ContentsOf(ms), ModelTurn) == TextsOf(ms, Assistant)
    ensures |ContentsOf(ms)| == |ms| - |TextsOf(ms, System)|
    decreases |ms|
  {
    if ms != [] {
      ContentsCarryTexts(ms[1..]);
      var head := if ms[0].role == System then [] else [Convert(ms[0])];
      assert ContentsOf(ms) == head + ContentsOf(ms[1..]);
      PartsOfConcat(head, ContentsOf(ms[1..]), UserTurn);
      PartsOfConcat(head, ContentsOf(ms[1..]), ModelTurn);
      if head != [] {
        assert head[1..] == [];
      }
    }
  }

  lemma {:induction false} PartsOfConcat(a: seq<Content>, b: seq<Content>, role: Speaker)
    ensures PartsOf(a + b, role) == PartsOf(a, role) + PartsOf(b, role)
    decreases |a|
  {
    if a == [] {
      assert a + b == b;
    } else {
      assert (a + b)[1..] == a[1..] + b;
      PartsOfConcat(a[1..], b, role);
    }
  }

  /** Without system entries, every entry is converted in place. */
  lemma {:induction false} ContentsOfNoSystem(ms: seq<Message>)
    requires NoSystem(ms)
    ensures |ContentsOf(ms)| == |ms|
    ensures forall k :: 0 <= k < |ms| ==> ContentsOf(ms)[k] == Convert(ms[k])
    decreases |ms|
  {
    if ms != [] {
      assert NoSystem(ms[1..]) by {
        forall k | 0 <= k < |ms[1..]|
          ensures ms[1..][k].role != System
        {
          assert ms[1..][k] == ms[k + 1];
        }
      }
      ContentsOfNoSystem(ms[1..]);
      assert ms[0].role != System;
      assert ContentsOf(ms) == [Convert(ms[0])] + ContentsOf(ms[1..]);
    }
  }

  /**
   * The request for a transcript seeded with one system prompt: the prompt
   * becomes the instruction exactly when non-empty, and the contents are
   * the remaining entries converted one for one.
   */
  lemma SeededRequest(prompt: string, ms: seq<Message>)
    requires NoSystem(ms)
    ensures var r := RequestOf([Message(System, prompt)] + ms);
      (r.systemInstruction.Some? <==> prompt != [])
      && (r.systemInstruction.Some? ==> r.systemInstruction.value == prompt)
      && |r.contents| == |ms|
      && (forall k :: 0 <= k < |ms| ==> r.contents[k] == Convert(ms[k]))
  {
    var all := [Message(System, prompt)] + ms;
    assert all[1..] == ms;
    assert ContentsOf(all) == ContentsOf(ms);
    ContentsOfNoSystem(ms);
  }

  /** The conversion loop of `getChatResponse`. */
  method BuildRequest(ms: seq<Message>) returns (req: Request)
    ensures req == RequestOf(ms)
  {
    var systemPrompt: string := [];
    if |ms| > 0 && ms[0].role == System {
      systemPrompt := ms[0].content;
    }
    var conversation: seq<Content> := [];
    var i := 0;
    while i < |ms|
      invariant 0 <= i <= |ms|
      invariant conversation == ContentsOf(ms[..i])
    {
      var msg := ms[i];
      assert ms[..i + 1] == ms[..i] + [msg];
      ContentsOfConcat(ms[..i], [msg]);
      assert [msg][1..] == [];
      if msg.role != System {
        conversation := conversation + [Content(if msg.role == User then UserTurn else ModelTurn, [msg.content])];
      }
      i := i + 1;
    }
    assert ms[..i] == ms;
    req := Request(conversation, MaxOutputTokens, None);
    if systemPrompt != [] {
      req := req.(systemInstruction := Some(systemPrompt));
    }
  }
}
