/** The plan of paired runs: blocks of two pairs in opposite orders, the first order of each block drawn at random. */
module AbPlan {
  import opened Wrappers

  /** One pair of runs; the two arms are control and instrumented, and each pair runs both. */
  datatype Pair = Pair(pairSequence: nat, measured: bool, measuredIndex: Option<nat>, controlFirst: bool)

  /** The plan a run of draws determines, pair by pair. */
  function PairAt(draw: nat -> bool, warmup: nat, i: nat): Pair {
    Pair(i + 1, i >= warmup, if i >= warmup then Some(i - warmup) else None, ControlFirst(draw, i))
  }

  predicate ControlFirst(draw: nat -> bool, i: nat) {
    draw(i / 2) == (i % 2 == 0)
  }

  /** By how many pairs control runs first more often than instrumented. */
  function LeadOf(pairs: seq<Pair>): int {
    if pairs == [] then 0
    else LeadOf(pairs[..|pairs| - 1]) + (if pairs[|pairs| - 1].controlFirst then 1 else -1)
  }

  /** The plan: pairs in order, the measured ones last, each block's two orders opposite; and balanced.  Whatever is drawn,
      the orders differ by at most one in every prefix; among the measured pairs by at most two, by at most one if either
      end of them falls between blocks, and not at all if both do. */
  method BuildPlan(draw: nat -> bool, warmup: nat, iterations: nat) returns (pairs: seq<Pair>)
    ensures |pairs| == warmup + iterations
    ensures forall i :: 0 <= i < |pairs| ==> pairs[i] == PairAt(draw, warmup, i)
    ensures forall n :: 0 <= n <= |pairs| ==> -1 <= LeadOf(pairs[..n]) <= 1
    ensures var slack := warmup % 2 + (warmup + iterations) % 2;
      -slack <= LeadOf(pairs[warmup..]) <= slack
  {
    var total := warmup + iterations;
    pairs := [];
    var sequence, block := 0, 0;
    while sequence < total
      invariant sequence == |pairs| <= total
      invariant sequence == 2 * block || sequence == total
      invariant forall i :: 0 <= i < |pairs| ==> pairs[i] == PairAt(draw, warmup, i)
      decreases total - sequence
    {
      var controlFirst := draw(block);
      var orders := if controlFirst then [true, false] else [false, true];
      var k := 0;
      while k < 2 && sequence < total
        invariant 0 <= k <= 2 && sequence == |pairs| <= total
        invariant sequence == 2 * block + k
        invariant forall i :: 0 <= i < |pairs| ==> pairs[i] == PairAt(draw, warmup, i)
      {
        var included := sequence >= warmup;
        pairs := pairs + [Pair(sequence + 1, included, if included then Some(sequence - warmup) else None, orders[k])];
        sequence := sequence + 1;
        k := k + 1;
      }
      block := block + 1;
    }
    PlanBalanced(pairs, draw, warmup);
  }

  /** By how many pairs of the window control runs first more often than instrumented. */
  function Lead(draw: nat -> bool, from: nat, until: nat): int
    requires from <= until
    decreases until
  {
    if from == until then 0 else Lead(draw, from, until - 1) + (if ControlFirst(draw, until - 1) then 1 else -1)
  }

  /** From the start of a block the lead is that of the block's own draw, and none after whole blocks. */
  lemma {:induction false} LeadFromBlock(draw: nat -> bool, block: nat, until: nat)
    requires 2 * block <= until
    ensures Lead(draw, 2 * block, until) == if until % 2 == 0 then 0 else if draw(until / 2) then 1 else -1
    decreases until
  {
    if 2 * block < until {
      LeadFromBlock(draw, block, until - 1);
      assert until % 2 == 0 ==> (until - 1) / 2 == until / 2 - 1 && (until - 1) % 2 == 1;
      assert until % 2 == 1 ==> (until - 1) / 2 == until / 2 && (until - 1) % 2 == 0;
    }
  }

  lemma {:induction false} LeadSplits(draw: nat -> bool, from: nat, middle: nat, until: nat)
    requires from <= middle <= until
    ensures Lead(draw, from, until) == Lead(draw, from, middle) + Lead(draw, middle, until)
    decreases until
  {
    if middle < until {
      LeadSplits(draw, from, middle, until - 1);
    }
  }

  /** The exact lead of any window: what its last half block brings, less what the block it starts inside had run. */
  lemma {:induction false} LeadOfWindow(draw: nat -> bool, from: nat, until: nat)
    requires from <= until
    ensures Lead(draw, from, until) == Half(draw, until) - Half(draw, from)
  {
    LeadFromBlock(draw, 0, from);
    LeadFromBlock(draw, 0, until);
    LeadSplits(draw, 0, from, until);
  }

  function Half(draw: nat -> bool, at: nat): int {
    if at % 2 == 0 then 0 else if draw(at / 2) then 1 else -1
  }

  /** The same bounds over the draws. */
  lemma Balanced(draw: nat -> bool, warmup: nat, iterations: nat, prefix: nat)
    requires prefix <= warmup + iterations
    ensures -1 <= Lead(draw, 0, prefix) <= 1
    ensures var lead := Lead(draw, warmup, warmup + iterations);
      var slack := warmup % 2 + (warmup + iterations) % 2;
      -slack <= lead <= slack
  {
    LeadOfWindow(draw, 0, prefix);
    LeadOfWindow(draw, warmup, warmup + iterations);
  }

  /** Two is reached: one warm-up pair, two measured ones, and the second block in the first one's order reversed. */
  lemma TwoIsReached()
    ensures exists draw: nat -> bool :: Lead(draw, 1, 3) == -2
  {
    var draw: nat -> bool := i => i == 0;
    LeadOfWindow(draw, 1, 3);
    assert Half(draw, 1) == 1 && Half(draw, 3) == -1;
  }

  /** The lead of a stretch of the plan is that of its draws. */
  lemma {:induction false} LeadOfStretch(pairs: seq<Pair>, draw: nat -> bool, warmup: nat, from: nat, until: nat)
    requires from <= until <= |pairs|
    requires forall i :: 0 <= i < |pairs| ==> pairs[i] == PairAt(draw, warmup, i)
    ensures LeadOf(pairs[from..until]) == Lead(draw, from, until)
    decreases until
  {
    if from < until {
      assert pairs[from..until][..until - from - 1] == pairs[from..until - 1];
      LeadOfStretch(pairs, draw, warmup, from, until - 1);
    }
  }

  lemma PlanBalanced(pairs: seq<Pair>, draw: nat -> bool, warmup: nat)
    requires warmup <= |pairs| && forall i :: 0 <= i < |pairs| ==> pairs[i] == PairAt(draw, warmup, i)
    ensures forall n :: 0 <= n <= |pairs| ==> -1 <= LeadOf(pairs[..n]) <= 1
    ensures var slack := warmup % 2 + |pairs| % 2;
      -slack <= LeadOf(pairs[warmup..]) <= slack
  {
    forall n | 0 <= n <= |pairs|
      ensures -1 <= LeadOf(pairs[..n]) <= 1
    {
      LeadOfStretch(pairs, draw, warmup, 0, n);
      Balanced(draw, n, 0, n);
    }
    LeadOfStretch(pairs, draw, warmup, warmup, |pairs|);
    Balanced(draw, warmup, |pairs| - warmup, 0);
    assert pairs[warmup..|pairs|] == pairs[warmup..];
  }
}
