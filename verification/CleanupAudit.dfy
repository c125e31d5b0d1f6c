/** The audit after shutdown: it watches until enough clean snapshots in a row, for a bounded number of snapshots. */
module CleanupAudit {

  datatype Snapshot = Snapshot(procfsAvailable: bool, processes: nat)
  datatype Status = Clean | Residue | Degraded

  /** The last n of the first `taken` snapshots could all be read and show no process. */
  predicate CleanRun(snapshot: nat -> Snapshot, taken: nat, n: nat) {
    n <= taken && forall i :: taken - n <= i < taken ==> snapshot(i).procfsAvailable && snapshot(i).processes == 0
  }

  /** The audit may stop after this many snapshots: it has the clean run it wants (any run, if it wants none). */
  predicate Satisfied(snapshot: nat -> Snapshot, taken: nat, required: int) {
    required <= 0 || CleanRun(snapshot, taken, required)
  }

  function Bound(maxSamples: int): nat {
    if maxSamples < 1 then 1 else maxSamples
  }

  /** The audit is clean exactly when some stretch of the required length within the bound is clean, and it stops at the
      first; otherwise it takes them all, and finds residue exactly when every one could be read and the last still shows
      a process. */
  method Watch(snapshot: nat -> Snapshot, maxSamples: int, required: int)
    returns (status: Status, samples: seq<Snapshot>, consecutive: nat)
    ensures 1 <= |samples| <= Bound(maxSamples)
    ensures forall i :: 0 <= i < |samples| ==> samples[i] == snapshot(i)
    ensures status == Clean <==> exists k :: 1 <= k <= Bound(maxSamples) && Satisfied(snapshot, k, required)
    ensures status == Clean ==> Satisfied(snapshot, |samples|, required)
    ensures forall k :: 1 <= k < |samples| ==> !Satisfied(snapshot, k, required)
    ensures status != Clean ==> |samples| == Bound(maxSamples)
    ensures status == Residue <==>
      status != Clean && (forall s :: s in samples ==> s.procfsAvailable) && samples[|samples| - 1].processes > 0
    ensures CleanRun(snapshot, |samples|, consecutive)
    ensures consecutive < |samples| ==> !CleanRun(snapshot, |samples|, consecutive + 1)
  {
    hide CleanRun, Satisfied;
    samples, consecutive, status := [], 0, Degraded;
    NoSample(snapshot);
    var index := 0;
    var bound := if maxSamples > 1 then maxSamples else 1;
    while index < bound
      invariant 0 <= index == |samples| <= Bound(maxSamples)
      invariant forall i :: 0 <= i < |samples| ==> samples[i] == snapshot(i)
      invariant CleanRun(snapshot, index, consecutive)
      invariant consecutive < index ==> !CleanRun(snapshot, index, consecutive + 1)
      invariant status == Degraded
      invariant forall k :: 1 <= k <= index ==> !Satisfied(snapshot, k, required)
    {
      var s := snapshot(index);
      ghost var before := consecutive;
      consecutive := if s.procfsAvailable && s.processes == 0 then consecutive + 1 else 0;
      samples := samples + [s];
      OneSample(snapshot, index, before, consecutive);
      if consecutive >= required {
        EnoughClean(snapshot, index + 1, consecutive, required);
        status := Clean;
        break;
      }
      LongestRun(snapshot, index + 1, consecutive, required);
      index := index + 1;
    }
    if status != Clean {
      if forall s :: s in samples ==> s.procfsAvailable {
        status := if samples[|samples| - 1].processes > 0 then Residue else Degraded;
      }
    }
  }

  lemma NoSample(snapshot: nat -> Snapshot)
    ensures CleanRun(snapshot, 0, 0)
  {
  }

  lemma OneSample(snapshot: nat -> Snapshot, taken: nat, before: nat, after: nat)
    requires CleanRun(snapshot, taken, before) && (before < taken ==> !CleanRun(snapshot, taken, before + 1))
    requires after == if snapshot(taken).procfsAvailable && snapshot(taken).processes == 0 then before + 1 else 0
    ensures CleanRun(snapshot, taken + 1, after) && (after < taken + 1 ==> !CleanRun(snapshot, taken + 1, after + 1))
  {
    if after > 0 && after < taken + 1 && CleanRun(snapshot, taken + 1, after + 1) {
      assert CleanRun(snapshot, taken, before + 1);
    }
  }

  lemma EnoughClean(snapshot: nat -> Snapshot, taken: nat, consecutive: nat, n: int)
    requires CleanRun(snapshot, taken, consecutive) && consecutive >= n
    ensures Satisfied(snapshot, taken, n)
  {
  }

  lemma LongestRun(snapshot: nat -> Snapshot, taken: nat, consecutive: nat, n: int)
    requires n > consecutive && consecutive <= taken
    requires consecutive < taken ==> !CleanRun(snapshot, taken, consecutive + 1)
    ensures !Satisfied(snapshot, taken, n)
  {
    if n <= taken && CleanRun(snapshot, taken, n) {
      assert CleanRun(snapshot, taken, consecutive + 1);
    }
  }
}
