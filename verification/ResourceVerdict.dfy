/** The verdict on a resource profile, and what a complete verdict guarantees about its figures. */
module ResourceVerdict {
  import opened SetSums
  import opened ResourceSpec
  import opened ResourceAggregate
  import opened ResourceReadings
  import opened ResourceProfile
  import opened ResourceTheorems

  datatype Status = Complete | Degraded | Unavailable

  datatype Reason =
    | ProcfsUnavailable | ClockTicksUnavailable | InsufficientSamples
    | NonMonotonicSamples | NonMonotonicTimestamps | SamplesOutsideWindow
    | PermissionErrors | ParseErrors | IdentityGap | IoPartial | DeadlineMissed

  /** The profile's timestamps, in the order they should come: started, spawn begin, spawned, command exit, ended. */
  type Stamps = s: seq<int> | |s| == 5 witness [0, 0, 0, 0, 0]

  predicate Rising(xs: seq<int>) {
    forall i :: 0 <= i < |xs| - 1 ==> xs[i] <= xs[i + 1]
  }

  function Times(snapshots: seq<Snapshot>): seq<int> {
    seq(|snapshots|, i requires 0 <= i < |snapshots| => snapshots[i].monotonicNs)
  }

  predicate Readable(snapshots: seq<Snapshot>) {
    snapshots != [] && forall i :: 0 <= i < |snapshots| ==> snapshots[i].procfsAvailable
  }

  predicate WithinWindow(snapshots: seq<Snapshot>, stamps: Stamps) {
    forall i :: 0 <= i < |snapshots| ==> stamps[0] <= snapshots[i].monotonicNs <= stamps[4]
  }

  function PermissionsDenied(snapshots: seq<Snapshot>): nat {
    if snapshots == [] then 0 else snapshots[0].permissionErrors + PermissionsDenied(snapshots[1..])
  }

  function ParsesFailed(snapshots: seq<Snapshot>): nat {
    if snapshots == [] then 0 else snapshots[0].parseErrors + ParsesFailed(snapshots[1..])
  }

  /** Gaps longer than twice the target, not counting the one after the baseline snapshot. */
  function Misses(times: seq<int>, targetGapNs: int): nat {
    if |times| < 3 then 0
    else Misses(Init(times), targetGapNs) + (if Last(times) - Last(Init(times)) > 2 * targetGapNs then 1 else 0)
  }

  /** The places of the snapshots that came too late: more than twice the target after the one before.  The second
      snapshot is never late, because the first was taken before the measured command. */
  function LatePlaces(times: seq<int>, targetGapNs: int): set<int> {
    set k | 2 <= k < |times| && IsLate(times, k, targetGapNs)
  }

  predicate IsLate(times: seq<int>, k: int, targetGapNs: int) {
    1 <= k < |times| && times[k] - times[k - 1] > targetGapNs + targetGapNs
  }

  lemma {:induction false} MissesAreLate(times: seq<int>, targetGapNs: int)
    ensures Misses(times, targetGapNs) == |LatePlaces(times, targetGapNs)|
  {
    if |times| >= 3 {
      var before, n := Init(times), |times| - 1;
      MissesAreLate(before, targetGapNs);
      assert forall k :: 0 <= k < n ==> before[k] == times[k];
      assert forall k :: 1 <= k < n ==> IsLate(before, k, targetGapNs) == IsLate(times, k, targetGapNs);
      if IsLate(times, n, targetGapNs) {
        assert LatePlaces(times, targetGapNs) == LatePlaces(before, targetGapNs) + {n};
      } else {
        assert LatePlaces(times, targetGapNs) == LatePlaces(before, targetGapNs);
      }
    } else {
      assert LatePlaces(times, targetGapNs) == {};
    }
  }

  lemma {:induction false} NoErrors(snapshots: seq<Snapshot>)
    ensures PermissionsDenied(snapshots) == 0 <==> forall i :: 0 <= i < |snapshots| ==> snapshots[i].permissionErrors == 0
    ensures ParsesFailed(snapshots) == 0 <==> forall i :: 0 <= i < |snapshots| ==> snapshots[i].parseErrors == 0
  {
    if snapshots != [] {
      NoErrors(snapshots[1..]);
      assert forall i :: 1 <= i < |snapshots| ==> snapshots[i] == snapshots[1..][i - 1];
    }
  }

  /** The run was measured at all. */
  predicate Usable(snapshots: seq<Snapshot>, stamps: Stamps, clockTicks: bool) {
    && Readable(snapshots) && clockTicks && |snapshots| >= 2
    && Rising(Times(snapshots)) && Rising(stamps) && WithinWindow(snapshots, stamps)
  }

  /** Nothing but the sampling pace can be held against the run. */
  predicate Flawless(snapshots: seq<Snapshot>, gapEvents: int, unresolved: nat) {
    PermissionsDenied(snapshots) == 0 && ParsesFailed(snapshots) == 0 && gapEvents == 0 && unresolved == 0
  }

  /** Each reason about the taking of the samples is given exactly when it applies. */
  predicate TellsTaking(reasons: set<Reason>, snapshots: seq<Snapshot>, stamps: Stamps, clockTicks: bool) {
    && (ProcfsUnavailable in reasons <==> !Readable(snapshots))
    && (ClockTicksUnavailable in reasons <==> !clockTicks)
    && (InsufficientSamples in reasons <==> |snapshots| < 2)
    && (NonMonotonicSamples in reasons <==> !Rising(Times(snapshots)))
    && (NonMonotonicTimestamps in reasons <==> !Rising(stamps))
    && (SamplesOutsideWindow in reasons <==> !WithinWindow(snapshots, stamps))
    && (PermissionErrors in reasons <==> Usable(snapshots, stamps, clockTicks) && PermissionsDenied(snapshots) > 0)
    && (ParseErrors in reasons <==> Usable(snapshots, stamps, clockTicks) && ParsesFailed(snapshots) > 0)
  }

  /** The part of the verdict that is reached before the readings are looked at. */
  method JudgeTaking(snapshots: seq<Snapshot>, stamps: Stamps, clockTicks: bool) returns (status: Status, reasons: set<Reason>)
    ensures status == Unavailable <==> !Usable(snapshots, stamps, clockTicks)
    ensures status == Complete <==> reasons == {}
    ensures status == Degraded <==>
      Usable(snapshots, stamps, clockTicks) && (PermissionsDenied(snapshots) > 0 || ParsesFailed(snapshots) > 0)
    ensures TellsTaking(reasons, snapshots, stamps, clockTicks)
    ensures reasons !! {IdentityGap, IoPartial, DeadlineMissed}
  {
    hide Readable, Rising, Times, WithinWindow, PermissionsDenied, ParsesFailed;
    status, reasons := Complete, {};
    if !Readable(snapshots) || !clockTicks || |snapshots| < 2 {
      status := Unavailable;
      if !Readable(snapshots) {
        reasons := reasons + {ProcfsUnavailable};
      }
      if !clockTicks {
        reasons := reasons + {ClockTicksUnavailable};
      }
      if |snapshots| < 2 {
        reasons := reasons + {InsufficientSamples};
      }
    }
    if !Rising(Times(snapshots)) {
      status, reasons := Unavailable, reasons + {NonMonotonicSamples};
    }
    if !Rising(stamps) {
      status, reasons := Unavailable, reasons + {NonMonotonicTimestamps};
    }
    if !WithinWindow(snapshots, stamps) {
      status, reasons := Unavailable, reasons + {SamplesOutsideWindow};
    }
    if status != Unavailable && (PermissionsDenied(snapshots) > 0 || ParsesFailed(snapshots) > 0) {
      status := Degraded;
      if PermissionsDenied(snapshots) > 0 {
        reasons := reasons + {PermissionErrors};
      }
      if ParsesFailed(snapshots) > 0 {
        reasons := reasons + {ParseErrors};
      }
    }
  }

  method Judge(snapshots: seq<Snapshot>, stamps: Stamps, clockTicks: bool, targetGapNs: int, gapEvents: int, unresolved: nat)
    returns (status: Status, reasons: set<Reason>)
    ensures status == Unavailable <==> !Usable(snapshots, stamps, clockTicks)
    ensures status == Complete <==> reasons == {}
    ensures status == Complete <==>
      Usable(snapshots, stamps, clockTicks) && Flawless(snapshots, gapEvents, unresolved)
      && Misses(Times(snapshots), targetGapNs) == 0
    ensures TellsTaking(reasons, snapshots, stamps, clockTicks)
    ensures IdentityGap in reasons <==> gapEvents != 0
    ensures IoPartial in reasons <==> unresolved != 0
    // A missed deadline is told only of a run that has no other flaw.
    ensures DeadlineMissed in reasons <==> reasons == {DeadlineMissed}
    ensures DeadlineMissed in reasons <==>
      Usable(snapshots, stamps, clockTicks) && Flawless(snapshots, gapEvents, unresolved)
      && Misses(Times(snapshots), targetGapNs) > 0
  {
    hide Usable, Readable, Rising, Times, WithinWindow, PermissionsDenied, ParsesFailed, Misses;
    status, reasons := JudgeTaking(snapshots, stamps, clockTicks);
    if gapEvents != 0 {
      if status != Unavailable {
        status := Degraded;
      }
      reasons := reasons + {IdentityGap};
    }
    if unresolved != 0 {
      if status != Unavailable {
        status := Degraded;
      }
      reasons := reasons + {IoPartial};
    }
    if status == Complete && Misses(Times(snapshots), targetGapNs) > 0 {
      status := Degraded;
      reasons := reasons + {DeadlineMissed};
    }
  }

  /** A profile with nothing to hold against it is exact: every I/O total is the sum over the processes of last reading
      minus start, and every process was seen in each sample between its first and its last. */
  ghost predicate Exact(p: Profile, h: History) {
    && (forall f: Field {:trigger p.io[f]} ::
          f in p.io && p.io[f] == Sum(Seen(h), NetFn(Baseline(h), LogOf(h), f)))
    && forall id :: id in Seen(h) ==> Absences(h, id) == {}
  }

  lemma CompleteIsExact(p: Profile, h: History)
    requires Reports(p, h) && p.gapEvents == 0 && p.unresolved == 0
    ensures Exact(p, h)
  {
    hide Absences, Seen, LogOf, Sum, Total, Cpu, UnresolvedKeys, KeysWith;
    forall f: Field
      ensures f in p.io && p.io[f] == Sum(Seen(h), NetFn(Baseline(h), LogOf(h), f))
    {
      NothingUnresolved(p, h, f);
    }
    GapFigures(p, h);
    forall id | id in Seen(h)
      ensures Absences(h, id) == {}
    {
      TermOfZeroSum(Seen(h), AbsenceFn(h), id);
      assert AbsenceFn(h)(id) == |Absences(h, id)|;
    }
  }

  /** The profile of a run with its status and reasons: a complete one is exact. */
  method AggregateAndJudge(snapshots: seq<Snapshot>, stamps: Stamps, clockTicks: bool, targetGapNs: int)
    returns (p: Profile, status: Status, reasons: set<Reason>)
    ensures Reports(p, Histories(snapshots)) && ReportsLoads(p, Histories(snapshots))
    ensures ReportsSeries(p, Histories(snapshots))
    ensures CountsReadings(p, snapshots) && PointsTell(p.series, snapshots, stamps[0])
    ensures status == Complete <==>
      Usable(snapshots, stamps, clockTicks) && Flawless(snapshots, p.gapEvents, p.unresolved)
      && LatePlaces(Times(snapshots), targetGapNs) == {}
    ensures status == Complete <==> reasons == {}
    ensures status == Complete ==>
      forall i :: 0 <= i < |snapshots| ==> snapshots[i].permissionErrors == 0 && snapshots[i].parseErrors == 0
    ensures status == Complete ==> Exact(p, Histories(snapshots))
  {
    hide Reports, ReportsLoads, ReportsSeries, CountsReadings, PointsTell, Points, Usable, Times, Misses, LatePlaces, Exact, TellsTaking;
    p := Aggregate(snapshots, stamps[0]);
    status, reasons := Judge(snapshots, stamps, clockTicks, targetGapNs, p.gapEvents, p.unresolved);
    MissesAreLate(Times(snapshots), targetGapNs);
    NoErrors(snapshots);
    if status == Complete {
      CompleteIsExact(p, Histories(snapshots));
    }
  }
}
