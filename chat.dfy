/**
 * The chat transcript protocol shared by the quiz and chat pages: a display
 * list and an API list that receive the same entries, a submission that is
 * ignored when blank, and an assistant entry added only for a non-empty reply.
 */
module Chat {
  import opened Wrappers
  import opened Text

  datatype Role = System | User | Assistant

  /** One transcript entry (`{"role": ..., "content": ...}`). */
  datatype Message = Message(role: Role, content: string)

  /** Truthiness of a reply in Python and JavaScript: present and non-empty. */
  predicate Truthy(reply: Option<string>)
  {
    reply.Some? && reply.value != []
  }

  /** The entries one accepted submission appends to each list: the user turn, then the reply if truthy. */
  function Turn(input: string, reply: Option<string>): seq<Message>
  {
    [Message(User, input)] + (if Truthy(reply) then [Message(Assistant, reply.value)] else [])
  }

  /** The contents of the entries with role `role`, in transcript order. */
  function TextsOf(ms: seq<Message>, role: Role): seq<string>
    decreases |ms|
  {
    if ms == [] then []
    else (if ms[0].role == role then [ms[0].content] else []) + TextsOf(ms[1..], role)
  }

  /** Filtering by role distributes over concatenation, so appending never reorders earlier entries. */
  lemma {:induction false} TextsOfConcat(a: seq<Message>, b: seq<Message>, role: Role)
    ensures TextsOf(a + b, role) == TextsOf(a, role) + TextsOf(b, role)
    decreases |a|
  {
    if a == [] {
      assert a + b == b;
    } else {
      assert (a + b)[1..] == a[1..] + b;
      TextsOfConcat(a[1..], b, role);
    }
  }

  /**
   * After a turn, the user texts gain exactly the submitted input, the
   * assistant texts gain the reply exactly when it is truthy, and no system
   * entry is added.
   */
  lemma TurnRecords(ms: seq<Message>, input: string, reply: Option<string>)
    ensures TextsOf(ms + Turn(input, reply), User) == TextsOf(ms, User) + [input]
    ensures TextsOf(ms + Turn(input, reply), Assistant)
         == TextsOf(ms, Assistant) + (if Truthy(reply) then [reply.value] else [])
    ensures TextsOf(ms + Turn(input, reply), System) == TextsOf(ms, System)
  {
    var t := Turn(input, reply);
    TextsOfConcat(ms, t, User);
    TextsOfConcat(ms, t, Assistant);
    TextsOfConcat(ms, t, System);
    var u := Message(User, input);
    assert TextsOf([u], User) == [input] && TextsOf([u], Assistant) == [] && TextsOf([u], System) == [] by {
      assert [u][1..] == [];
    }
    if Truthy(reply) {
      var a := Message(Assistant, reply.value);
      assert t == [u] + [a];
      TextsOfConcat([u], [a], User);
      TextsOfConcat([u], [a], Assistant);
      TextsOfConcat([u], [a], System);
      assert [a][1..] == [];
    } else {
      assert t == [u];
    }
  }

  /** No entry of `ms` is a system entry. */
  predicate NoSystem(ms: seq<Message>)
  {
    forall i :: 0 <= i < |ms| ==> ms[i].role != System
  }

  /** Turns never add system entries. */
  lemma TurnKeepsNoSystem(ms: seq<Message>, input: string, reply: Option<string>)
    requires NoSystem(ms)
    ensures NoSystem(ms + Turn(input, reply))
  {
  }

  /**
   * The API list is the seed entry followed, in order, by the display list;
   * hence it is exactly one entry longer.
   */
  predicate Mirrors(seed: Message, display: seq<Message>, api: seq<Message>)
  {
    api == [seed] + display
  }

  /** Appending the same entries to both lists keeps them mirrored. */
  lemma MirrorsAppend(seed: Message, display: seq<Message>, api: seq<Message>, t: seq<Message>)
    requires Mirrors(seed, display, api)
    ensures Mirrors(seed, display + t, api + t)
    ensures |api + t| == |display + t| + 1
  {
  }

  /** The completion test of the quiz pages: the latest entry, of any role, contains `trigger` and the one-shot flag is clear. */
  predicate CompletionDue(ms: seq<Message>, trigger: string, completed: bool)
    ensures completed ==> !CompletionDue(ms, trigger, completed)
    ensures CompletionDue(ms, trigger, completed) ==> ms != [] && |trigger| <= |ms[|ms| - 1].content|
  {
    |ms| > 0 && Contains(ms[|ms| - 1].content, trigger) && !completed
  }

  /** A scripted line that holds the trigger ends the quiz whenever the latest entry says that line and the flag is clear. */
  lemma ClosingLineCompletes(line: string, trigger: string)
    requires Contains(line, trigger)
    ensures forall ms: seq<Message>, completed: bool ::
      |ms| > 0 && Contains(ms[|ms| - 1].content, line) && !completed ==> CompletionDue(ms, trigger, completed)
  {
    var j :| 0 <= j <= |line| && trigger <= line[j..];
    forall ms: seq<Message>, completed: bool | |ms| > 0 && Contains(ms[|ms| - 1].content, line) && !completed
      ensures CompletionDue(ms, trigger, completed)
    {
      var c := ms[|ms| - 1].content;
      var k :| 0 <= k <= |c| && line <= c[k..];
      assert c[k + j..][..|trigger|] == trigger;
    }
  }
}
