/**
 * The fault-injection rounds of the mixed-recovery scenario: the launch log, the two checkers that read it, and the
 * machine of launches that writes it.
 *
 * A field of an event is absent or has its type; a value of another type counts as absent.  Every second launch of the
 * target is selected to fail: it arms, waits for its release token, and fails.
 */
module FaultRounds {
  import opened ReasonCodes
  import opened Wrappers

  datatype Kind =
    | Entered | Exited | InjectionMatch | Armed | Released | Failure | ReleaseTimeout | StaleReaped | StartupComplete
    | OtherKind

  datatype Event = Event(seqNo: Option<int>, runId: Option<string>, agent: Option<string>, kind: Kind,
                         matchIndex: Option<int>, selected: Option<bool>)

  datatype Probe = Probe(schemaVersion: int, runId: string, scopeOk: bool, events: Option<seq<Event>>,
                         active: Option<int>, activeProcesses: Option<nat>, maxObserved: Option<int>)

  // ---------- reading a log ----------

  predicate Fits(e: Event, agent: string, kind: Kind) {
    e.agent == Some(agent) && e.kind == kind
  }

  /** The events of one agent and kind, in order. */
  function Pick(events: seq<Event>, agent: string, kind: Kind): seq<Event> {
    if events == [] then []
    else
      var last := events[|events| - 1];
      Pick(events[..|events| - 1], agent, kind) + (if Fits(last, agent, kind) then [last] else [])
  }

  /** Those whose selection flag is as given. */
  function Flagged(events: seq<Event>, selected: bool): seq<Event> {
    if events == [] then []
    else
      var last := events[|events| - 1];
      Flagged(events[..|events| - 1], selected) + (if last.selected == Some(selected) then [last] else [])
  }

  function Indices(events: seq<Event>): seq<Option<int>> {
    seq(|events|, i requires 0 <= i < |events| => events[i].matchIndex)
  }

  function SeqNos(events: seq<Event>): seq<Option<int>> {
    seq(|events|, i requires 0 <= i < |events| => events[i].seqNo)
  }

  /** first, first + step, ...: n terms. */
  function Count(first: int, step: int, n: nat): seq<Option<int>> {
    seq(n, i => Some(first + step * i))
  }

  function Evens(n: nat): seq<Option<int>> {
    Count(2, 2, n)
  }

  /** What a checkpoint expects: target launches, failures, latches armed, latches released, processes starting. */
  datatype Expected = Expected(matches: nat, failures: nat, armed: nat, released: nat, active: nat)

  function Upto(xs: seq<Option<int>>, n: nat): seq<Option<int>> {
    if n < |xs| then xs[..n] else xs
  }

  // ---------- the probe check ----------

  function EventsOf(p: Probe): seq<Event> {
    if p.events.Some? then p.events.value else []
  }

  function HeaderReasons(p: Probe, runId: string, active: nat): Reasons {
    var events := EventsOf(p);
    When(p.schemaVersion != 2, "mixed_probe_schema_invalid")
    + When(p.runId != runId, "mixed_probe_run_id_mismatch")
    + When(!p.scopeOk, "mixed_probe_scope_invalid")
    + When(p.events.None?, "mixed_probe_events_invalid")
    + When(SeqNos(events) != Count(1, 1, |events|), "mixed_probe_event_sequence_invalid")
    + When(exists i :: 0 <= i < |events| && events[i].runId != Some(runId), "mixed_probe_event_run_id_mismatch")
    + (if p.active.None? || p.active.value < 0 || p.activeProcesses.None? || p.active.value != p.activeProcesses.value
       then {"mixed_probe_active_state_invalid"}
       else When(p.active.value != active, "mixed_probe_active_count_mismatch"))
    + When(p.maxObserved != Some(1), "mixed_probe_not_strictly_serial")
    + When(exists i :: 0 <= i < |events| && events[i].kind in {ReleaseTimeout, StaleReaped},
           "mixed_probe_timeout_or_stale_process")
  }

  function MatchReasons(matches: seq<Event>, expected: nat): Reasons {
    When(Indices(matches) != Count(1, 1, expected), "mixed_probe_target_match_sequence_mismatch")
    + When(Indices(Flagged(matches, true)) != Evens(expected / 2), "mixed_probe_selected_match_sequence_mismatch")
    + When(Indices(Flagged(matches, false)) != Count(1, 2, (expected + 1) / 2),
           "mixed_probe_nonselected_match_sequence_mismatch")
    + When(exists i :: 0 <= i < |matches| && matches[i].selected.None?, "mixed_probe_match_selection_invalid")
  }

  function InjectionReasons(failures: seq<Event>, armed: seq<Event>, released: seq<Event>, x: Expected): Reasons {
    var selectedAt := Evens(x.matches / 2);
    When(Indices(failures) != Upto(selectedAt, x.failures), "mixed_probe_failure_sequence_mismatch")
    + When(Indices(armed) != Upto(selectedAt, x.armed), "mixed_probe_armed_sequence_mismatch")
    + When(Indices(released) != Upto(selectedAt, x.released), "mixed_probe_release_sequence_mismatch")
    + When(|failures| != x.failures, "mixed_probe_failure_count_mismatch")
    + When(|armed| != x.armed, "mixed_probe_armed_count_mismatch")
    + When(|released| != x.released, "mixed_probe_release_count_mismatch")
  }

  function ProbeReasons(p: Probe, runId: string, target: string, x: Expected): Reasons {
    var events := EventsOf(p);
    HeaderReasons(p, runId, x.active)
    + MatchReasons(Pick(events, target, InjectionMatch), x.matches)
    + InjectionReasons(Pick(events, target, Failure), Pick(events, target, Armed), Pick(events, target, Released), x)
  }

  predicate ProbePasses(p: Probe, runId: string, target: string, x: Expected) {
    ProbeReasons(p, runId, target, x) == {}
  }

  // ---------- the four checkpoints of a round ----------

  function BeforeRestart(k: nat): Expected
    requires k >= 1
  {
    Expected(2 * k - 1, k - 1, k - 1, k - 1, 0)
  }

  function LatchArmed(k: nat): Expected
    requires k >= 1
  {
    Expected(2 * k, k - 1, k, k - 1, 1)
  }

  function AfterFailure(k: nat): Expected {
    Expected(2 * k, k, k, k, 0)
  }

  function AfterRecovery(k: nat): Expected {
    Expected(2 * k + 1, k, k, k, 0)
  }

  // ---------- the snapshot check of the manifest audit ----------

  /** The agents with a selected match; an event without an agent counts as the agent "". */
  function SelectedAgents(events: seq<Event>): set<string> {
    set e | e in events && e.kind == InjectionMatch && e.selected == Some(true) :: if e.agent.Some? then e.agent.value else ""
  }

  function SnapshotReasons(p: Probe, runId: string, k: nat): Reasons {
    if p.runId != runId || p.active != Some(0) || p.maxObserved != Some(1) || p.events.None? then
      {"mixed_manifest_probe_snapshot_semantics_invalid"}
    else
      var events := p.events.value;
      var agents := SelectedAgents(events);
      if |agents| != 1 || "" in agents then {"mixed_manifest_probe_snapshot_target_ambiguous"}
      else
        var target := Only(agents);
        var matches := Pick(events, target, InjectionMatch);
        When(Indices(matches) != Count(1, 1, 2 * k + 1), "mixed_manifest_probe_snapshot_match_sequence_invalid")
        + When(Indices(Flagged(matches, true)) != Evens(k), "mixed_manifest_probe_snapshot_selection_invalid")
        + When(Indices(Pick(events, target, Armed)) != Evens(k), "mixed_manifest_probe_snapshot_armed_invalid")
        + When(Indices(Pick(events, target, Released)) != Evens(k), "mixed_manifest_probe_snapshot_released_invalid")
        + When(Indices(Pick(events, target, Failure)) != Evens(k), "mixed_manifest_probe_snapshot_failure_invalid")
  }

  /** The one element of a singleton. */
  function Only(s: set<string>): (a: string)
    requires |s| == 1
    ensures s == {a}
  {
    SingletonHasOne(s);
    var a :| a in s && s == {a};
    a
  }

  lemma SingletonHasOne(s: set<string>)
    requires |s| == 1
    ensures exists a :: a in s && s == {a}
    ensures forall a, b :: a in s && b in s ==> a == b
  {
    var a :| a in s;
    assert |s - {a}| == 0;
    assert s == {a};
  }

  // ---------- what a passing probe says ----------

  /** Every event is of the run, and none tells of a timeout or of a lost process. */
  predicate EventsClean(events: seq<Event>, runId: string) {
    forall i :: 0 <= i < |events| ==>
      events[i].runId == Some(runId) && events[i].kind != ReleaseTimeout && events[i].kind != StaleReaped
  }

  predicate AllFlagged(matches: seq<Event>) {
    forall i :: 0 <= i < |matches| ==> matches[i].selected.Some?
  }

  predicate HeaderHolds(p: Probe, runId: string, active: nat) {
    var events := EventsOf(p);
    && p.schemaVersion == 2 && p.runId == runId && p.scopeOk && p.events.Some?
    && SeqNos(events) == Count(1, 1, |events|)
    && EventsClean(events, runId)
    && p.active == Some(active) && p.activeProcesses == Some(active) && p.maxObserved == Some(1)
  }

  predicate MatchesHold(matches: seq<Event>, expected: nat) {
    && Indices(matches) == Count(1, 1, expected)
    && Indices(Flagged(matches, true)) == Evens(expected / 2)
    && Indices(Flagged(matches, false)) == Count(1, 2, (expected + 1) / 2)
    && AllFlagged(matches)
  }

  lemma HeaderMeans(p: Probe, runId: string, active: nat)
    ensures HeaderReasons(p, runId, active) == {} <==> HeaderHolds(p, runId, active)
  {
    hide SeqNos, Count;
  }

  lemma MatchesMean(matches: seq<Event>, expected: nat)
    ensures MatchReasons(matches, expected) == {} <==> MatchesHold(matches, expected)
  {
    hide Indices, Count, Flagged, Evens;
  }

  /** At a checkpoint whose counts are at most the selected launches so far, the injections read 2, 4, ... */
  lemma InjectionsMean(failures: seq<Event>, armed: seq<Event>, released: seq<Event>, x: Expected)
    requires x.failures <= x.matches / 2 && x.armed <= x.matches / 2 && x.released <= x.matches / 2
    ensures InjectionReasons(failures, armed, released, x) == {}
      <==> Indices(failures) == Evens(x.failures) && Indices(armed) == Evens(x.armed)
           && Indices(released) == Evens(x.released)
  {
    PrefixOfEvens(x.matches / 2, x.failures);
    PrefixOfEvens(x.matches / 2, x.armed);
    PrefixOfEvens(x.matches / 2, x.released);
    assert |Indices(failures)| == |failures| && |Indices(armed)| == |armed| && |Indices(released)| == |released|;
    hide Indices, Evens, Upto;
  }

  lemma PrefixOfEvens(n: nat, k: nat)
    requires k <= n
    ensures Upto(Evens(n), k) == Evens(k) && |Evens(k)| == k
  {
    assert k < n ==> Evens(n)[..k] == Evens(k);
  }

  /** Everything a passing probe check establishes, and nothing less than it. */
  lemma ProbeMeans(p: Probe, runId: string, target: string, x: Expected)
    requires x.failures <= x.matches / 2 && x.armed <= x.matches / 2 && x.released <= x.matches / 2
    ensures ProbePasses(p, runId, target, x) <==>
      && HeaderHolds(p, runId, x.active)
      && MatchesHold(Pick(EventsOf(p), target, InjectionMatch), x.matches)
      && Indices(Pick(EventsOf(p), target, Failure)) == Evens(x.failures)
      && Indices(Pick(EventsOf(p), target, Armed)) == Evens(x.armed)
      && Indices(Pick(EventsOf(p), target, Released)) == Evens(x.released)
  {
    hide HeaderReasons, MatchReasons, InjectionReasons, HeaderHolds, MatchesHold, Pick, Indices, Evens;
    var events := EventsOf(p);
    HeaderMeans(p, runId, x.active);
    MatchesMean(Pick(events, target, InjectionMatch), x.matches);
    InjectionsMean(Pick(events, target, Failure), Pick(events, target, Armed), Pick(events, target, Released), x);
  }

  /** A log of another run, out of order, with another number of active launches or with an overlap is told by its own
      reason. */
  lemma HeaderFaultsAreTold(p: Probe, runId: string, active: nat)
    ensures var reasons, events := HeaderReasons(p, runId, active), EventsOf(p);
      && (p.runId != runId ==> "mixed_probe_run_id_mismatch" in reasons)
      && (SeqNos(events) != Count(1, 1, |events|) ==> "mixed_probe_event_sequence_invalid" in reasons)
      && (p.active.Some? && p.activeProcesses == Some(p.active.value) && p.active.value != active ==>
            "mixed_probe_active_count_mismatch" in reasons)
      && (p.maxObserved != Some(1) ==> "mixed_probe_not_strictly_serial" in reasons)
  {
    hide When, SeqNos, Count;
    var events := EventsOf(p);
    WhenTells(p.runId != runId, "mixed_probe_run_id_mismatch");
    WhenTells(SeqNos(events) != Count(1, 1, |events|), "mixed_probe_event_sequence_invalid");
    if p.active.Some? {
      WhenTells(p.active.value != active, "mixed_probe_active_count_mismatch");
    }
    WhenTells(p.maxObserved != Some(1), "mixed_probe_not_strictly_serial");
  }

  /** And so is each way in which the target's launches can fail to be those expected. */
  lemma MatchFaultsAreTold(matches: seq<Event>, expected: nat)
    ensures var reasons := MatchReasons(matches, expected);
      && (Indices(matches) != Count(1, 1, expected) ==> "mixed_probe_target_match_sequence_mismatch" in reasons)
      && (Indices(Flagged(matches, true)) != Count(2, 2, expected / 2) ==>
            "mixed_probe_selected_match_sequence_mismatch" in reasons)
      && (Indices(Flagged(matches, false)) != Count(1, 2, (expected + 1) / 2) ==>
            "mixed_probe_nonselected_match_sequence_mismatch" in reasons)
      && ((exists i :: 0 <= i < |matches| && matches[i].selected.None?) ==> "mixed_probe_match_selection_invalid" in reasons)
  {
    hide When, Indices, Count, Flagged;
    WhenTells(Indices(matches) != Count(1, 1, expected), "mixed_probe_target_match_sequence_mismatch");
    WhenTells(Indices(Flagged(matches, true)) != Evens(expected / 2), "mixed_probe_selected_match_sequence_mismatch");
    WhenTells(Indices(Flagged(matches, false)) != Count(1, 2, (expected + 1) / 2),
              "mixed_probe_nonselected_match_sequence_mismatch");
    WhenTells(exists i :: 0 <= i < |matches| && matches[i].selected.None?, "mixed_probe_match_selection_invalid");
  }

  lemma InjectionFaultsAreTold(failures: seq<Event>, armed: seq<Event>, released: seq<Event>, x: Expected)
    ensures var reasons := InjectionReasons(failures, armed, released, x);
      && (|failures| != x.failures ==> "mixed_probe_failure_count_mismatch" in reasons)
      && (|armed| != x.armed ==> "mixed_probe_armed_count_mismatch" in reasons)
      && (|released| != x.released ==> "mixed_probe_release_count_mismatch" in reasons)
  {
    hide When, Indices, Evens, Upto;
    WhenTells(|failures| != x.failures, "mixed_probe_failure_count_mismatch");
    WhenTells(|armed| != x.armed, "mixed_probe_armed_count_mismatch");
    WhenTells(|released| != x.released, "mixed_probe_release_count_mismatch");
  }

  // ---------- agreement of the two checkers ----------

  predicate SnapshotHolds(p: Probe, runId: string, target: string, k: nat) {
    var events := EventsOf(p);
    var matches := Pick(events, target, InjectionMatch);
    && p.runId == runId && p.active == Some(0) && p.maxObserved == Some(1) && p.events.Some?
    && Indices(matches) == Count(1, 1, 2 * k + 1) && Indices(Flagged(matches, true)) == Evens(k)
    && Indices(Pick(events, target, Armed)) == Evens(k) && Indices(Pick(events, target, Released)) == Evens(k)
    && Indices(Pick(events, target, Failure)) == Evens(k)
  }

  lemma SnapshotMeans(p: Probe, runId: string, target: string, k: nat)
    requires target != "" && SelectedAgents(EventsOf(p)) == {target}
    ensures SnapshotReasons(p, runId, k) == {} <==> SnapshotHolds(p, runId, target, k)
  {
    hide Pick, Indices, Flagged, Evens, Count, SelectedAgents;
    assert Only({target}) == target;
  }

  /** The snapshot check over every log, however many agents it selects: it finds nothing exactly when one named agent is
      selected and its events are as they should be, and a log with no such agent is ambiguous. */
  lemma SnapshotSays(p: Probe, runId: string, k: nat)
    ensures var reasons, agents := SnapshotReasons(p, runId, k), SelectedAgents(EventsOf(p));
      && (!SnapshotOfRun(p, runId) ==> reasons == {"mixed_manifest_probe_snapshot_semantics_invalid"})
      && (SnapshotOfRun(p, runId) && (forall target :: target != "" ==> agents != {target}) ==>
            reasons == {"mixed_manifest_probe_snapshot_target_ambiguous"})
      && (reasons == {} <==> exists target :: target != "" && agents == {target} && SnapshotHolds(p, runId, target, k))
  {
    hide Pick, Indices, Flagged, Evens, Count, SelectedAgents;
    var agents := SelectedAgents(EventsOf(p));
    if |agents| == 1 && "" !in agents {
      var target := Only(agents);
      assert target in agents;
      SnapshotMeans(p, runId, target, k);
      forall other | agents == {other} ensures other == target {
        assert other in {target};
      }
    } else {
      forall target: string | target != "" ensures agents != {target} {
        assert |{target}| == 1;
      }
    }
  }

  predicate SnapshotOfRun(p: Probe, runId: string) {
    p.runId == runId && p.active == Some(0) && p.maxObserved == Some(1) && p.events.Some?
  }

  /** What the probe check asks of a log beyond the snapshot check. */
  predicate ProbeExtras(p: Probe, runId: string, target: string, k: nat) {
    var events := EventsOf(p);
    var matches := Pick(events, target, InjectionMatch);
    && p.schemaVersion == 2 && p.scopeOk && p.activeProcesses == Some(0)
    && SeqNos(events) == Count(1, 1, |events|)
    && EventsClean(events, runId)
    && Indices(Flagged(matches, false)) == Count(1, 2, k + 1)
    && AllFlagged(matches)
  }

  /** The two checkers agree: on a log where only the target has selected matches, the probe check after the recovery of
      round k passes exactly when the snapshot check finds nothing and the probe's own extras hold. */
  lemma CheckersAgree(p: Probe, runId: string, target: string, k: nat)
    requires k >= 1 && target != ""
    requires SelectedAgents(EventsOf(p)) <= {target}
    ensures ProbePasses(p, runId, target, AfterRecovery(k))
      <==> SnapshotReasons(p, runId, k) == {} && ProbeExtras(p, runId, target, k)
  {
    hide Pick, Indices, Flagged, Evens, Count, SelectedAgents, ProbePasses, SeqNos, EventsClean, AllFlagged, SnapshotReasons;
    var x, events := AfterRecovery(k), EventsOf(p);
    assert x.matches / 2 == k && (x.matches + 1) / 2 == k + 1;
    ProbeMeans(p, runId, target, x);
    if SelectedAgents(events) == {target} {
      SnapshotMeans(p, runId, target, k);
    } else {
      assert SelectedAgents(events) == {};
      NoTargetNoPass(events, target, k);
      NoTargetAmbiguous(p, runId, k);
    }
  }

  /** Over every log: the snapshot check with the probe's extras says what the probe check says, and besides that no agent
      but the target was selected. */
  lemma CheckersAgreeWhen(p: Probe, runId: string, target: string, k: nat)
    requires k >= 1 && target != ""
    ensures ProbePasses(p, runId, target, AfterRecovery(k)) && SelectedAgents(EventsOf(p)) <= {target}
      <==> SnapshotReasons(p, runId, k) == {} && ProbeExtras(p, runId, target, k) && target in SelectedAgents(EventsOf(p))
  {
    hide SelectedAgents, ProbePasses, ProbeExtras, SnapshotReasons, SnapshotHolds;
    var agents := SelectedAgents(EventsOf(p));
    SnapshotSays(p, runId, k);
    if agents <= {target} {
      CheckersAgree(p, runId, target, k);
    }
  }

  // ---------- what picking keeps ----------

  /** These places, in order. */
  ghost predicate IsPicked(events: seq<Event>, picked: seq<Event>, at: seq<nat>) {
    && |at| == |picked|
    && (forall k :: 0 <= k < |at| ==> at[k] < |events| && picked[k] == events[at[k]])
    && forall k, l :: 0 <= k < l < |at| ==> at[k] < at[l]
  }

  lemma OneMorePicked(events: seq<Event>, picked: seq<Event>, at: seq<nat>, more: bool)
    requires events != [] && IsPicked(events[..|events| - 1], picked, at)
    ensures IsPicked(events, picked + (if more then [events[|events| - 1]] else []),
                     at + (if more then [|events| - 1] else []))
    ensures |events| - 1 !in at
  {
  }

  /** Picking keeps the agent's events of a kind, every one of them, in their order. */
  lemma {:induction false} PickKeeps(events: seq<Event>, agent: string, kind: Kind) returns (at: seq<nat>)
    ensures IsPicked(events, Pick(events, agent, kind), at)
    ensures forall i: nat :: i in at <==> i < |events| && events[i].agent == Some(agent) && events[i].kind == kind
  {
    at := [];
    if events != [] {
      hide IsPicked;
      var n := |events| - 1;
      var more := events[n].agent == Some(agent) && events[n].kind == kind;
      at := PickKeeps(events[..n], agent, kind);
      OneMorePicked(events, Pick(events[..n], agent, kind), at, more);
      at := at + (if more then [n] else []);
    }
  }

  lemma {:induction false} FlaggedKeeps(events: seq<Event>, selected: bool) returns (at: seq<nat>)
    ensures IsPicked(events, Flagged(events, selected), at)
    ensures forall i: nat :: i in at <==> i < |events| && events[i].selected == Some(selected)
  {
    at := [];
    if events != [] {
      hide IsPicked;
      var n := |events| - 1;
      var more := events[n].selected == Some(selected);
      at := FlaggedKeeps(events[..n], selected);
      OneMorePicked(events, Flagged(events[..n], selected), at, more);
      at := at + (if more then [n] else []);
    }
  }

  lemma NoTargetAmbiguous(p: Probe, runId: string, k: nat)
    requires SelectedAgents(EventsOf(p)) == {}
    ensures SnapshotReasons(p, runId, k) != {}
  {
    hide SelectedAgents, Pick, Flagged, Indices;
  }

  lemma NoTargetNoPass(events: seq<Event>, target: string, k: nat)
    requires k >= 1 && SelectedAgents(events) == {}
    ensures Indices(Flagged(Pick(events, target, InjectionMatch), true)) != Evens(k)
  {
    hide Pick, Flagged;
    var selected := Flagged(Pick(events, target, InjectionMatch), true);
    if selected != [] {
      TargetIsSelected(events, target);
      assert false;
    }
  }

  lemma {:induction false} FlaggedFrom(events: seq<Event>, selected: bool, e: Event)
    requires e in Flagged(events, selected)
    ensures e in events && e.selected == Some(selected)
  {
    if e in Flagged(events[..|events| - 1], selected) {
      FlaggedFrom(events[..|events| - 1], selected, e);
    }
  }

  lemma {:induction false} PickFrom(events: seq<Event>, agent: string, kind: Kind, e: Event)
    requires e in Pick(events, agent, kind)
    ensures e in events && Fits(e, agent, kind)
  {
    if e in Pick(events[..|events| - 1], agent, kind) {
      PickFrom(events[..|events| - 1], agent, kind, e);
    }
  }

  lemma TargetIsSelected(events: seq<Event>, target: string)
    requires Flagged(Pick(events, target, InjectionMatch), true) != []
    ensures target in SelectedAgents(events)
  {
    var e := Flagged(Pick(events, target, InjectionMatch), true)[0];
    FlaggedFrom(Pick(events, target, InjectionMatch), true, e);
    PickFrom(events, target, InjectionMatch, e);
  }
}
