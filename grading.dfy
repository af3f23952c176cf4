/**
 * The integer arithmetic and string clean-up shared by the graded writing
 * tasks: the length score sent to the evaluator, the three feedback tiers,
 * the countdown, and the removal of Markdown code fences from the
 * evaluator's reply before parsing.
 */
module Grading {
  import opened Wrappers
  import opened Text

  /** A parsed evaluator verdict: the sub-scores shown to the player and the total that decides the flow. */
  datatype Evaluation = Evaluation(subScores: seq<int>, totalScore: int)

  function Abs(x: int): nat
  {
    if x < 0 then -x else x
  }

  /**
   * `max(0, 20 - abs(length - target) // step)`: full marks near the target
   * length, one point lost per `step` characters of distance.
   */
  function LengthScore(length: nat, target: nat, step: nat): (r: int)
    requires step > 0
    ensures 0 <= r <= 20
  {
    var lost := Abs(length - target) / step;
    if 20 - lost > 0 then 20 - lost else 0
  }

  /** Full marks exactly when the distance to the target is under one step. */
  lemma LengthScoreFull(length: nat, target: nat, step: nat)
    requires step > 0
    ensures LengthScore(length, target, step) == 20 <==> Abs(length - target) < step
  {
    var d := Abs(length - target);
    if d >= step {
      DivAtLeastOne(d, step);
    }
  }

  lemma DivAtLeastOne(d: nat, step: nat)
    requires 0 < step <= d
    ensures d / step >= 1
  {
  }

  lemma DivBelow(d: nat, step: nat, k: nat)
    requires step > 0 && d < k * step
    ensures d / step < k
  {
  }

  lemma DivAtLeast(d: nat, step: nat, k: nat)
    requires step > 0 && d >= k * step
    ensures d / step >= k
  {
    assert d < (d / step + 1) * step;
    MulLess(k, d / step + 1, step);
  }

  lemma MulLess(a: nat, b: nat, step: nat)
    requires step > 0 && a * step < b * step
    ensures a < b
  {
  }

  /** No marks exactly when the distance is at least twenty steps. */
  lemma LengthScoreZero(length: nat, target: nat, step: nat)
    requires step > 0
    ensures LengthScore(length, target, step) == 0 <==> Abs(length - target) >= 20 * step
  {
    var d := Abs(length - target);
    if d >= 20 * step {
      DivAtLeast(d, step, 20);
    } else {
      DivBelow(d, step, 20);
    }
  }

  /** The score never rises as the length moves away from the target. */
  lemma LengthScoreMonotone(a: nat, b: nat, target: nat, step: nat)
    requires step > 0 && Abs(a - target) <= Abs(b - target)
    ensures LengthScore(a, target, step) >= LengthScore(b, target, step)
  {
    DivMonotone(Abs(a - target), Abs(b - target), step);
  }

  lemma DivMonotone(x: nat, y: nat, step: nat)
    requires step > 0 && x <= y
    ensures x / step <= y / step
  {
    assert y < (y / step + 1) * step;
    DivBelow(x, step, y / step + 1);
  }

  /** The referral letter task: a 400-character target, one point per 40 characters. */
  function LetterLengthScore(length: nat): (r: int)
    ensures 0 <= r <= 20
    ensures r == 20 <==> 361 <= length <= 439
    ensures r == 0 <==> length >= 1200
  {
    LengthScoreFull(length, 400, 40);
    LengthScoreZero(length, 400, 40);
    LengthScore(length, 400, 40)
  }

  /** The opening proposal task: an 800-character target, one point per 20 characters. */
  function ProposalLengthScore(length: nat): (r: int)
    ensures 0 <= r <= 20
    ensures r == 20 <==> 781 <= length <= 819
    ensures r == 0 <==> length <= 400 || length >= 1200
  {
    LengthScoreFull(length, 800, 20);
    LengthScoreZero(length, 800, 20);
    LengthScore(length, 800, 20)
  }

  /** The spreadsheet letter task: an 800-character target, one point per 40 characters. */
  function ExcelLengthScore(length: nat): (r: int)
    ensures 0 <= r <= 20
    ensures r == 20 <==> 761 <= length <= 839
    ensures r == 0 <==> length == 0 || length >= 1600
  {
    LengthScoreFull(length, 800, 40);
    LengthScoreZero(length, 800, 40);
    LengthScore(length, 800, 40)
  }

  /** The feedback shown for a total: 不合格, 改善の余地あり or 高評価. */
  datatype Tier = Fail | NeedsWork | High

  /** Totals below 60 fail, 60 to 79 need work, 80 and above rate high. */
  function TierOf(total: int): (t: Tier)
    ensures t == Fail <==> total < 60
    ensures t == NeedsWork <==> 60 <= total < 80
    ensures t == High <==> total >= 80
  {
    if total < 60 then Fail
    else if total < 80 then NeedsWork
    else High
  }

  /** The sum of a list of sub-scores. */
  function Sum(xs: seq<int>): int
    decreases |xs|
  {
    if xs == [] then 0 else xs[0] + Sum(xs[1..])
  }

  /** A total that offers the way forward (the same 80 that rates high). */
  predicate Passes(total: int)
  {
    total >= 80
  }

  /** Passing and rating high are the same test. */
  lemma PassesIffHigh(total: int)
    ensures Passes(total) <==> TierOf(total) == High
  {
  }

  /** Seconds left on a countdown of `limit` seconds after `elapsed` seconds, never negative. */
  function Remaining(limit: nat, elapsed: int): (r: nat)
    ensures elapsed >= 0 ==> r <= limit
    ensures r == 0 <==> elapsed >= limit
    ensures r > 0 ==> r + elapsed == limit
  {
    if limit - elapsed > 0 then limit - elapsed else 0
  }

  /** The countdown as shown: whole minutes and the seconds past them. */
  function Clock(remaining: nat): (mmss: (nat, nat))
    ensures 60 * mmss.0 + mmss.1 == remaining
    ensures mmss.1 < 60
  {
    (remaining / 60, remaining % 60)
  }

  /** The minute-and-second split is the only one with seconds under 60. */
  lemma ClockUnique(remaining: nat, m: nat, s: nat)
    requires 60 * m + s == remaining && s < 60
    ensures Clock(remaining) == (m, s)
  {
  }

  /**
   * What the evaluator's reply becomes before parsing: trimmed, every
   * "```json" removed, then every "```" removed, trimmed again.
   */
  function CleanReply(content: string): (r: string)
    ensures !Contains(r, Fence)
    ensures Strip(r, Python) == r
  {
    var unfenced := ReplaceAll(ReplaceAll(Strip(content, Python), "```json", []), Fence, []);
    var r := Strip(unfenced, Python);
    DeletingFencesLeavesNone(ReplaceAll(Strip(content, Python), "```json", []));
    StripTrims(unfenced, Python);
    StrippedNoNewOccurrence(unfenced, r, Fence);
    StripIdempotent(unfenced, Python);
    r
  }

  /** Trimming never creates an occurrence. */
  lemma StrippedNoNewOccurrence(s: string, r: string, p: string)
    requires StrippedFrom(s, r, Python)
    requires !Contains(s, p)
    ensures !Contains(r, p)
  {
    var i :| 0 <= i <= |s| - |r| && r <= s[i..];
    forall k | 0 <= k <= |r|
      ensures !(p <= r[k..])
    {
      assert r[k..] <= s[i + k..];
      assert !(p <= s[i + k..]);
    }
  }

  /** A reply that is already trimmed and unfenced is parsed exactly as it came. */
  lemma {:induction false} CleanReplyKeepsPlain(content: string)
    requires Strip(content, Python) == content
    requires !Contains(content, Fence)
    ensures CleanReply(content) == content
  {
    ReplaceAbsent(content, "```json", []);
    ReplaceAbsent(content, Fence, []);
  }

  /** A reply as the spreadsheet task prepares it: trimmed only. */
  function TrimReply(content: string): (r: string)
    ensures StrippedFrom(content, r, Python)
    ensures Strip(r, Python) == r
  {
    StripTrims(content, Python);
    StripIdempotent(content, Python);
    Strip(content, Python)
  }

  /**
   * What an evaluator call yields: nothing when the call failed, else the
   * parse of the prepared reply; `parse` stands for `json.loads` and yields
   * nothing on a parse error or an empty object.
   */
  function EvaluateReply(reply: Option<string>, prepare: string -> string, parse: string -> Option<Evaluation>): (r: Option<Evaluation>)
    ensures reply.None? ==> r.None?
    ensures reply.Some? ==> r == parse(prepare(reply.value))
  {
    match reply
    case None => None
    case Some(content) => parse(prepare(content))
  }

  /** The evaluation kept in the session: an existing one is kept, otherwise a new one if any came back. */
  function StoreOnce(stored: Option<Evaluation>, incoming: Option<Evaluation>): (r: Option<Evaluation>)
    ensures r.Some? <==> stored.Some? || incoming.Some?
    ensures r == stored || r == incoming
  {
    if stored.Some? then stored else incoming
  }

  /** The evaluation kept after a series of renders, each bringing what the evaluator would say on it. */
  function StoreAll(stored: Option<Evaluation>, incoming: seq<Option<Evaluation>>): Option<Evaluation>
    decreases |incoming|
  {
    if incoming == [] then stored
    else StoreAll(StoreOnce(stored, incoming[0]), incoming[1..])
  }

  /**
   * Once an evaluation is stored, any number of later renders keep it
   * whatever the evaluator would say; the first evaluation that comes back
   * is the one kept.
   */
  lemma {:induction false} StoreOnceSticks(stored: Option<Evaluation>, incoming: seq<Option<Evaluation>>)
    ensures stored.Some? ==> StoreAll(stored, incoming) == stored
    ensures stored.None? && incoming != [] && incoming[0].Some? ==> StoreAll(stored, incoming) == incoming[0]
    decreases |incoming|
  {
    if incoming != [] {
      StoreOnceSticks(StoreOnce(stored, incoming[0]), incoming[1..]);
    }
  }
}
