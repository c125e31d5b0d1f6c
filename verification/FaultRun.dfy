/**
 * The launches that write the log of the fault-injection rounds, as a machine of atomic updates of the shared probe
 * state.  Any number of processes of any agents launch in any interleaving; a process may be stopped or killed at any
 * point.  The theorems say which runs the probe check accepts at each checkpoint of each round.
 */
module FaultRun {
  import opened Wrappers
  import opened FaultRounds

  /** How far a launch of the target got after it claimed its match index; an odd index is not selected. */
  datatype Fate = NotSelected | Chosen | LatchHeld | LatchFreed | GivenUp | Failed

  /** A registered process and the index it claimed, if any. */
  datatype Process = Process(agent: string, claim: Option<nat>)

  datatype State = State(log: seq<Event>, processes: map<nat, Process>, nextToken: nat, fates: seq<Fate>,
                         maxObserved: nat, reaped: nat)

  datatype Action =
    | Enter(agent: string)
    | Claim(token: nat)
    | Arm(token: nat)
    | Release(token: nat)
    | GiveUp(token: nat)
    | Fail(token: nat)
    | Complete(token: nat)
    | Leave(token: nat)
    | Reap(token: nat)

  const INITIAL := State([], map[], 0, [], 0, 0)

  /** The run of the benchmark, the agent that is made to fail, and in how many rounds. */
  datatype Setup = Setup(runId: string, target: string, rounds: nat)

  predicate Even(index: int) {
    index % 2 == 0
  }

  /** The even launches of the target, up to the last round's. */
  predicate Selected(setup: Setup, index: int) {
    Even(index) && 2 <= index <= 2 * setup.rounds
  }

  /** An empty agent name is not written. */
  function Named(agent: string): Option<string> {
    if agent == "" then None else Some(agent)
  }

  /** The process holds a claim whose launch has come to the given point. */
  predicate At(s: State, token: nat, fate: Fate) {
    && token in s.processes && s.processes[token].claim.Some?
    && 1 <= s.processes[token].claim.value <= |s.fates|
    && s.fates[s.processes[token].claim.value - 1] == fate
  }

  predicate Enabled(s: State, setup: Setup, a: Action) {
    match a
    case Enter(_) => true
    case Claim(t) => t in s.processes && s.processes[t].agent == setup.target && s.processes[t].claim.None?
    case Arm(t) => At(s, t, Chosen)
    case Release(t) => At(s, t, LatchHeld)
    case GiveUp(t) => At(s, t, LatchHeld)
    case Fail(t) => At(s, t, LatchFreed)
    case Complete(t) => t in s.processes && (s.processes[t].agent != setup.target || At(s, t, NotSelected))
    case Leave(t) => t in s.processes
    case Reap(t) => t in s.processes
  }

  // ---------- one update: an event and a change ----------

  function KindOf(a: Action): Kind {
    match a
    case Enter(_) => Entered
    case Claim(_) => InjectionMatch
    case Arm(_) => Armed
    case Release(_) => Released
    case GiveUp(_) => ReleaseTimeout
    case Fail(_) => Failure
    case Complete(_) => StartupComplete
    case Leave(_) => Exited
    case Reap(_) => StaleReaped
  }

  function AgentOf(s: State, setup: Setup, a: Action): string
    requires Enabled(s, setup, a)
  {
    if a.Enter? then a.agent else s.processes[a.token].agent
  }

  /** The events of a launch after its claim carry the claimed index. */
  function IndexOf(s: State, setup: Setup, a: Action): Option<int>
    requires Enabled(s, setup, a)
  {
    match a
    case Claim(_) => Some(|s.fates| + 1)
    case Arm(t) => Some(s.processes[t].claim.value)
    case Release(t) => Some(s.processes[t].claim.value)
    case GiveUp(t) => Some(s.processes[t].claim.value)
    case Fail(t) => Some(s.processes[t].claim.value)
    case _ => None
  }

  function EventOf(s: State, setup: Setup, a: Action): Event
    requires Enabled(s, setup, a)
  {
    Event(Some(|s.log| + 1), Some(setup.runId), Named(AgentOf(s, setup, a)), KindOf(a), IndexOf(s, setup, a),
          if a.Claim? then Some(Selected(setup, |s.fates| + 1)) else None)
  }

  function FateAfter(a: Action): Fate {
    match a
    case Arm(_) => LatchHeld
    case Release(_) => LatchFreed
    case GiveUp(_) => GivenUp
    case Fail(_) => Failed
    case _ => Chosen
  }

  predicate Moves(a: Action) {
    a.Arm? || a.Release? || a.GiveUp? || a.Fail?
  }

  function FatesAfter(s: State, setup: Setup, a: Action): seq<Fate>
    requires Enabled(s, setup, a)
  {
    if a.Claim? then s.fates + [if Selected(setup, |s.fates| + 1) then Chosen else NotSelected]
    else if Moves(a) then s.fates[s.processes[a.token].claim.value - 1 := FateAfter(a)]
    else s.fates
  }

  function ProcessesAfter(s: State, setup: Setup, a: Action): map<nat, Process>
    requires Enabled(s, setup, a)
  {
    match a
    case Enter(agent) => s.processes[s.nextToken := Process(agent, None)]
    case Claim(t) => s.processes[t := Process(setup.target, Some(|s.fates| + 1))]
    case Leave(t) => s.processes - {t}
    case Reap(t) => s.processes - {t}
    case _ => s.processes
  }

  /** Every update writes one event, and counts the registered processes. */
  function Update(s: State, setup: Setup, a: Action): State
    requires Enabled(s, setup, a)
  {
    var processes := ProcessesAfter(s, setup, a);
    State(s.log + [EventOf(s, setup, a)], processes, if a.Enter? then s.nextToken + 1 else s.nextToken,
          FatesAfter(s, setup, a), Max(s.maxObserved, |processes|), if a.Reap? then s.reaped + 1 else s.reaped)
  }

  /** An action that is not enabled does nothing. */
  function Next(s: State, setup: Setup, a: Action): State {
    if Enabled(s, setup, a) then Update(s, setup, a) else s
  }

  function Run(s: State, setup: Setup, actions: seq<Action>): State {
    if actions == [] then s
    else Next(Run(s, setup, actions[..|actions| - 1]), setup, actions[|actions| - 1])
  }

  function ProbeOf(s: State, setup: Setup): Probe {
    Probe(2, setup.runId, true, Some(s.log), Some(|s.processes|), Some(|s.processes|), Some(s.maxObserved))
  }

  // ---------- what the log records of the launches ----------

  predicate Reached(fate: Fate, kind: Kind) {
    match kind
    case Armed => fate in {LatchHeld, LatchFreed, GivenUp, Failed}
    case Released => fate in {LatchFreed, Failed}
    case Failure => fate == Failed
    case _ => false
  }

  /** The indices of the launches that got as far as the given event. */
  function Recorded(fates: seq<Fate>, kind: Kind): seq<Option<int>> {
    if fates == [] then []
    else
      var n := |fates|;
      Recorded(fates[..n - 1], kind) + (if Reached(fates[n - 1], kind) then [Some(n)] else [])
  }

  predicate ParityHolds(fates: seq<Fate>, setup: Setup) {
    forall i :: 0 <= i < |fates| ==> (fates[i] == NotSelected <==> !Selected(setup, i + 1))
  }

  predicate NothingLost(log: seq<Event>) {
    forall i :: 0 <= i < |log| ==> log[i].kind != ReleaseTimeout && log[i].kind != StaleReaped
  }

  predicate Numbered(log: seq<Event>, runId: string) {
    SeqNos(log) == Count(1, 1, |log|) && forall i :: 0 <= i < |log| ==> log[i].runId == Some(runId)
  }

  /** The target's matches are numbered, and up to the last round's the even ones are selected. */
  predicate MatchesNumbered(matches: seq<Event>, n: nat, setup: Setup) {
    Indices(matches) == Count(1, 1, n) && (n <= 2 * setup.rounds + 1 ==> MatchesHold(matches, n))
  }

  /** What every reachable state satisfies, whatever the interleaving. */
  predicate LogHolds(s: State, setup: Setup) {
    && Numbered(s.log, setup.runId)
    && (s.reaped == 0 && GivenUp !in s.fates <==> NothingLost(s.log))
    && MatchesNumbered(Pick(s.log, setup.target, InjectionMatch), |s.fates|, setup)
    && ParityHolds(s.fates, setup)
    && |Pick(s.log, setup.target, Armed)| == |Recorded(s.fates, Armed)|
  }

  predicate ProcessesHold(s: State, setup: Setup) {
    && |s.processes| <= s.maxObserved
    && (forall t :: t in s.processes ==> t < s.nextToken)
    && (forall t :: t in s.processes && s.processes[t].claim.Some? ==>
          s.processes[t].agent == setup.target && 1 <= s.processes[t].claim.value <= |s.fates|)
  }

  /** While launches never overlapped, a registered claim is the latest one and the log lists the launches in order. */
  predicate SerialHolds(s: State, setup: Setup) {
    && (forall t :: t in s.processes && s.processes[t].claim.Some? ==> s.processes[t].claim.value == |s.fates|)
    && Indices(Pick(s.log, setup.target, Armed)) == Recorded(s.fates, Armed)
    && Indices(Pick(s.log, setup.target, Released)) == Recorded(s.fates, Released)
    && Indices(Pick(s.log, setup.target, Failure)) == Recorded(s.fates, Failure)
  }

  ghost predicate Inv(s: State, setup: Setup) {
    && LogHolds(s, setup)
    && ProcessesHold(s, setup)
    && (s.maxObserved <= 1 ==> SerialHolds(s, setup))
  }

  // ---------- every action keeps the invariant ----------

  lemma PickStep(log: seq<Event>, e: Event, agent: string, kind: Kind)
    ensures Pick(log + [e], agent, kind)
         == if Fits(e, agent, kind) then Pick(log, agent, kind) + [e] else Pick(log, agent, kind)
  {
    assert (log + [e])[..|log|] == log;
  }

  lemma FlaggedStep(log: seq<Event>, e: Event, selected: bool)
    ensures Flagged(log + [e], selected)
         == if e.selected == Some(selected) then Flagged(log, selected) + [e] else Flagged(log, selected)
  {
    assert (log + [e])[..|log|] == log;
  }

  lemma IndicesStep(log: seq<Event>, e: Event)
    ensures Indices(log + [e]) == Indices(log) + [e.matchIndex]
  {
  }

  lemma CountStep(first: int, step: int, n: nat)
    ensures Count(first, step, n + 1) == Count(first, step, n) + [Some(first + step * n)]
  {
  }

  lemma MatchesStep(matches: seq<Event>, n: nat, e: Event)
    requires MatchesHold(matches, n)
    requires e.matchIndex == Some(n + 1) && e.selected == Some(Even(n + 1))
    ensures MatchesHold(matches + [e], n + 1)
  {
    hide Flagged, Indices, Count;
    IndicesStep(matches, e);
    CountStep(1, 1, n);
    FlaggedStep(matches, e, true);
    FlaggedStep(matches, e, false);
    if Even(n + 1) {
      assert (n + 1) / 2 == n / 2 + 1 && (n + 2) / 2 == (n + 1) / 2;
      assert 2 + 2 * (n / 2) == n + 1;
      IndicesStep(Flagged(matches, true), e);
      CountStep(2, 2, n / 2);
    } else {
      assert (n + 1) / 2 == n / 2 && (n + 2) / 2 == (n + 1) / 2 + 1;
      assert 1 + 2 * ((n + 1) / 2) == n + 1;
      IndicesStep(Flagged(matches, false), e);
      CountStep(1, 2, (n + 1) / 2);
    }
  }

  lemma MatchesNumberedStep(matches: seq<Event>, n: nat, setup: Setup, e: Event)
    requires MatchesNumbered(matches, n, setup)
    requires e.matchIndex == Some(n + 1) && e.selected == Some(Selected(setup, n + 1))
    ensures MatchesNumbered(matches + [e], n + 1, setup)
  {
    hide MatchesHold, Indices, Count;
    IndicesStep(matches, e);
    CountStep(1, 1, n);
    if n + 1 <= 2 * setup.rounds + 1 {
      assert Selected(setup, n + 1) == Even(n + 1);
      MatchesStep(matches, n, e);
    }
  }

  lemma RecordedStep(fates: seq<Fate>, kind: Kind, fate: Fate)
    ensures Recorded(fates + [fate], kind)
         == if Reached(fate, kind) then Recorded(fates, kind) + [Some(|fates| + 1)] else Recorded(fates, kind)
  {
    assert (fates + [fate])[..|fates|] == fates;
  }

  lemma TwoProcesses(processes: map<nat, Process>, t: nat, u: nat)
    requires t != u && t in processes && u in processes
    ensures |processes| >= 2
  {
    assert u in processes.Keys - {t};
    assert |processes.Keys - {t}| == |processes.Keys| - 1;
  }

  lemma NumberedStep(log: seq<Event>, e: Event, runId: string)
    requires Numbered(log, runId) && e.seqNo == Some(|log| + 1) && e.runId == Some(runId)
    ensures Numbered(log + [e], runId)
  {
    SeqNosStep(log, e);
    CountStep(1, 1, |log|);
    hide SeqNos, Count;
  }

  lemma SeqNosStep(log: seq<Event>, e: Event)
    ensures SeqNos(log + [e]) == SeqNos(log) + [e.seqNo]
  {
  }

  lemma LostStep(log: seq<Event>, e: Event)
    ensures NothingLost(log + [e]) <==> NothingLost(log) && e.kind != ReleaseTimeout && e.kind != StaleReaped
  {
    assert forall i :: 0 <= i < |log| ==> (log + [e])[i] == log[i];
    assert (log + [e])[|log|] == e;
  }

  lemma FateStep(s: State, setup: Setup, a: Action)
    requires ProcessesHold(s, setup) && Enabled(s, setup, a) && ParityHolds(s.fates, setup)
    ensures ParityHolds(FatesAfter(s, setup, a), setup)
    ensures GivenUp in FatesAfter(s, setup, a) <==> GivenUp in s.fates || a.GiveUp?
  {
    hide Selected;
    var after := FatesAfter(s, setup, a);
    if GivenUp in s.fates {
      var i :| 0 <= i < |s.fates| && s.fates[i] == GivenUp;
      assert after[i] == GivenUp;
    }
    if a.GiveUp? {
      assert after[s.processes[a.token].claim.value - 1] == GivenUp;
    }
  }

  /** Only the target's events after a claim, and its claims, are picked. */
  lemma EventFits(s: State, setup: Setup, a: Action, kind: Kind)
    requires setup.target != "" && ProcessesHold(s, setup) && Enabled(s, setup, a)
    requires kind in {InjectionMatch, Armed, Released, Failure}
    ensures Fits(EventOf(s, setup, a), setup.target, kind) <==> KindOf(a) == kind
  {
  }

  lemma {:induction false} OneMoreReached(fates: seq<Fate>, i: nat, fate: Fate, kind: Kind)
    requires i < |fates| && (Reached(fates[i], kind) ==> Reached(fate, kind))
    ensures |Recorded(fates[i := fate], kind)|
         == |Recorded(fates, kind)| + (if Reached(fate, kind) && !Reached(fates[i], kind) then 1 else 0)
    decreases |fates|
  {
    hide Reached;
    var n := |fates| - 1;
    if i == n {
      assert fates[i := fate][..n] == fates[..n];
    } else {
      assert fates[i := fate][..n] == fates[..n][i := fate];
      OneMoreReached(fates[..n], i, fate, kind);
    }
  }

  /** In every interleaving the log holds as many armed latches as launches came that far. */
  lemma ArmedCountStep(s: State, setup: Setup, a: Action)
    requires setup.target != "" && ProcessesHold(s, setup) && Enabled(s, setup, a)
    requires |Pick(s.log, setup.target, Armed)| == |Recorded(s.fates, Armed)|
    ensures |Pick(s.log + [EventOf(s, setup, a)], setup.target, Armed)| == |Recorded(FatesAfter(s, setup, a), Armed)|
  {
    hide Pick, Recorded, EventOf, Selected;
    PickStep(s.log, EventOf(s, setup, a), setup.target, Armed);
    EventFits(s, setup, a, Armed);
    if a.Claim? {
      RecordedStep(s.fates, Armed, if Selected(setup, |s.fates| + 1) then Chosen else NotSelected);
    } else if Moves(a) {
      OneMoreReached(s.fates, s.processes[a.token].claim.value - 1, FateAfter(a), Armed);
    }
  }

  /** The part of the invariant about the log survives one more event. */
  lemma LogStep(s: State, setup: Setup, a: Action)
    requires setup.target != "" && LogHolds(s, setup) && ProcessesHold(s, setup) && Enabled(s, setup, a)
    ensures LogHolds(Update(s, setup, a), setup)
  {
    var e := EventOf(s, setup, a);
    assert e.seqNo == Some(|s.log| + 1) && e.runId == Some(setup.runId) && e.kind == KindOf(a);
    hide Pick, MatchesNumbered, Numbered, NothingLost, ParityHolds, Recorded, EventOf, Enabled, ProcessesAfter, FatesAfter;
    hide ProcessesHold, KindOf;
    NumberedStep(s.log, e, setup.runId);
    LostStep(s.log, e);
    LostKinds(a);
    FateStep(s, setup, a);
    ArmedCountStep(s, setup, a);
    MatchLogStep(s, setup, a);
  }

  lemma LostKinds(a: Action)
    ensures (KindOf(a) == ReleaseTimeout <==> a.GiveUp?) && (KindOf(a) == StaleReaped <==> a.Reap?)
  {
  }

  lemma MatchLogStep(s: State, setup: Setup, a: Action)
    requires setup.target != "" && ProcessesHold(s, setup) && Enabled(s, setup, a)
    requires MatchesNumbered(Pick(s.log, setup.target, InjectionMatch), |s.fates|, setup)
    ensures MatchesNumbered(Pick(s.log + [EventOf(s, setup, a)], setup.target, InjectionMatch),
                            |FatesAfter(s, setup, a)|, setup)
  {
    hide Pick, MatchesNumbered, Selected;
    var e := EventOf(s, setup, a);
    PickStep(s.log, e, setup.target, InjectionMatch);
    EventFits(s, setup, a, InjectionMatch);
    if a.Claim? {
      MatchesNumberedStep(Pick(s.log, setup.target, InjectionMatch), |s.fates|, setup, e);
    }
  }

  lemma ProcessesStep(s: State, setup: Setup, a: Action)
    requires ProcessesHold(s, setup) && Enabled(s, setup, a)
    ensures ProcessesHold(Update(s, setup, a), setup)
  {
    hide EventOf, FatesAfter, ProcessesAfter, Enabled;
    FatesGrow(s, setup, a);
    TokensStep(s, setup, a);
  }

  lemma FatesGrow(s: State, setup: Setup, a: Action)
    requires ProcessesHold(s, setup) && Enabled(s, setup, a)
    ensures |FatesAfter(s, setup, a)| == |s.fates| + (if a.Claim? then 1 else 0)
  {
    hide Selected;
  }

  lemma TokensStep(s: State, setup: Setup, a: Action)
    requires ProcessesHold(s, setup) && Enabled(s, setup, a)
    ensures forall t :: t in ProcessesAfter(s, setup, a) ==>
      && t < s.nextToken + (if a.Enter? then 1 else 0)
      && var p := ProcessesAfter(s, setup, a)[t];
         p.claim.Some? ==> p.agent == setup.target && 1 <= p.claim.value <= |s.fates| + (if a.Claim? then 1 else 0)
  {
    hide At;
  }

  lemma SerialStep(s: State, setup: Setup, a: Action)
    requires setup.target != "" && ProcessesHold(s, setup) && Enabled(s, setup, a)
    requires s.maxObserved <= 1 && SerialHolds(s, setup) && Update(s, setup, a).maxObserved <= 1
    ensures SerialHolds(Update(s, setup, a), setup)
  {
    hide Pick, Recorded, Indices, EventOf, FatesAfter, ProcessesAfter, Enabled;
    ClaimsStep(s, setup, a);
    ListStep(s, setup, a, Armed);
    ListStep(s, setup, a, Released);
    ListStep(s, setup, a, Failure);
  }

  lemma ClaimsStep(s: State, setup: Setup, a: Action)
    requires ProcessesHold(s, setup) && Enabled(s, setup, a) && s.maxObserved <= 1
    requires forall t :: t in s.processes && s.processes[t].claim.Some? ==> s.processes[t].claim.value == |s.fates|
    ensures forall t :: t in ProcessesAfter(s, setup, a) && ProcessesAfter(s, setup, a)[t].claim.Some? ==>
      ProcessesAfter(s, setup, a)[t].claim.value == |FatesAfter(s, setup, a)|
  {
    var after := ProcessesAfter(s, setup, a);
    forall t | t in after && after[t].claim.Some?
      ensures after[t].claim.value == |FatesAfter(s, setup, a)|
    {
      if a.Claim? && t != a.token {
        TwoProcesses(s.processes, t, a.token);
      }
    }
  }

  lemma ListStep(s: State, setup: Setup, a: Action, kind: Kind)
    requires setup.target != "" && ProcessesHold(s, setup) && Enabled(s, setup, a) && kind in {Armed, Released, Failure}
    requires forall t :: t in s.processes && s.processes[t].claim.Some? ==> s.processes[t].claim.value == |s.fates|
    requires Indices(Pick(s.log, setup.target, kind)) == Recorded(s.fates, kind)
    ensures Indices(Pick(s.log + [EventOf(s, setup, a)], setup.target, kind)) == Recorded(FatesAfter(s, setup, a), kind)
  {
    hide Pick, Recorded, Indices, Selected;
    var e, picked := EventOf(s, setup, a), Pick(s.log, setup.target, kind);
    PickStep(s.log, e, setup.target, kind);
    EventFits(s, setup, a, kind);
    if a.Claim? {
      RecordedStep(s.fates, kind, if Selected(setup, |s.fates| + 1) then Chosen else NotSelected);
    } else if Moves(a) {
      var n := |s.fates|;
      assert s.processes[a.token] == Process(setup.target, Some(n)) && e.matchIndex == Some(n);
      LastMoves(picked, e, s.fates, kind, FateAfter(a));
    }
  }

  lemma LastMoves(picked: seq<Event>, e: Event, fates: seq<Fate>, kind: Kind, fate: Fate)
    requires fates != [] && Indices(picked) == Recorded(fates, kind) && e.matchIndex == Some(|fates|)
    requires Reached(fates[|fates| - 1], kind) ==> Reached(fate, kind)
    ensures Recorded(fates[|fates| - 1 := fate], kind)
         == if Reached(fate, kind) && !Reached(fates[|fates| - 1], kind) then Indices(picked + [e]) else Indices(picked)
  {
    hide Recorded, Indices;
    var n := |fates|;
    var before := fates[..n - 1];
    assert fates == before + [fates[n - 1]];
    assert fates[n - 1 := fate] == before + [fate];
    RecordedStep(before, kind, fates[n - 1]);
    RecordedStep(before, kind, fate);
    IndicesStep(picked, e);
  }

  lemma InvStep(s: State, setup: Setup, a: Action)
    requires setup.target != "" && Inv(s, setup)
    ensures Inv(Next(s, setup, a), setup)
  {
    hide LogHolds, SerialHolds, ProcessesHold, Update;
    if Enabled(s, setup, a) {
      LogStep(s, setup, a);
      ProcessesStep(s, setup, a);
      MaxOnlyGrows(s, setup, a);
      if Update(s, setup, a).maxObserved <= 1 {
        SerialStep(s, setup, a);
      }
    }
  }

  lemma MaxOnlyGrows(s: State, setup: Setup, a: Action)
    requires Enabled(s, setup, a)
    ensures s.maxObserved <= Update(s, setup, a).maxObserved
  {
    hide EventOf, FatesAfter, ProcessesAfter;
  }

  lemma {:induction false} RunKeepsInv(s: State, setup: Setup, actions: seq<Action>)
    requires setup.target != "" && Inv(s, setup)
    ensures Inv(Run(s, setup, actions), setup)
  {
    hide Inv, Next;
    if actions != [] {
      RunKeepsInv(s, setup, actions[..|actions| - 1]);
      InvStep(Run(s, setup, actions[..|actions| - 1]), setup, actions[|actions| - 1]);
    }
  }

  lemma InitialHolds(setup: Setup)
    ensures Inv(INITIAL, setup)
  {
  }

  // ---------- which runs pass which checkpoint ----------

  datatype Checkpoint = RestartPending | LatchPending | FailureDone | RecoveryDone

  function ExpectedAt(c: Checkpoint, k: nat): Expected
    requires k >= 1
  {
    match c
    case RestartPending => BeforeRestart(k)
    case LatchPending => LatchArmed(k)
    case FailureDone => AfterFailure(k)
    case RecoveryDone => AfterRecovery(k)
  }

  /** The first n launches went as planned: every selected one failed after its release. */
  predicate FailedAsPlanned(fates: seq<Fate>, n: nat)
    requires n <= |fates|
  {
    forall i :: 0 <= i < n && Even(i + 1) ==> fates[i] == Failed
  }

  /** Launches never overlapped, no process was lost, and the target stands exactly at the checkpoint of round k. */
  predicate StandsAt(s: State, c: Checkpoint, k: nat)
    requires k >= 1
  {
    && s.maxObserved == 1 && s.reaped == 0
    && match c
       case RestartPending => |s.fates| == 2 * k - 1 && s.processes == map[] && FailedAsPlanned(s.fates, 2 * k - 1)
       case LatchPending =>
         |s.fates| == 2 * k && |s.processes| == 1 && FailedAsPlanned(s.fates, 2 * k - 1)
         && s.fates[2 * k - 1] == LatchHeld
       case FailureDone => |s.fates| == 2 * k && s.processes == map[] && FailedAsPlanned(s.fates, 2 * k)
       case RecoveryDone => |s.fates| == 2 * k + 1 && s.processes == map[] && FailedAsPlanned(s.fates, 2 * k + 1)
  }

  lemma {:induction false} RecordedBelow(fates: seq<Fate>, kind: Kind)
    ensures forall i :: 0 <= i < |Recorded(fates, kind)| ==>
      Recorded(fates, kind)[i].Some? && Recorded(fates, kind)[i].value <= |fates|
  {
    if fates != [] {
      RecordedBelow(fates[..|fates| - 1], kind);
    }
  }

  /** The record reads 2, 4, .., 2j exactly when those launches, and no others, got that far. */
  lemma {:induction false} RecordedIsEvens(fates: seq<Fate>, kind: Kind, j: nat)
    requires 2 * j <= |fates|
    ensures Recorded(fates, kind) == Evens(j) <==> ReachedUpTo(fates, kind, j)
    decreases |fates|
  {
    if fates != [] {
      var n := |fates|;
      var before := fates[..n - 1];
      assert fates == before + [fates[n - 1]];
      if 2 * j < n {
        RecordedIsEvens(before, kind, j);
        OneMoreBeyond(before, fates[n - 1], kind, j);
      } else {
        RecordedIsEvens(before, kind, j - 1);
        OneMoreWithin(before, fates[n - 1], kind, j);
      }
    }
  }

  predicate ReachedUpTo(fates: seq<Fate>, kind: Kind, j: nat) {
    forall i :: 0 <= i < |fates| ==> (Reached(fates[i], kind) <==> Even(i + 1) && i + 1 <= 2 * j)
  }

  lemma OneMoreBeyond(fates: seq<Fate>, fate: Fate, kind: Kind, j: nat)
    requires 2 * j <= |fates|
    requires Recorded(fates, kind) == Evens(j) <==> ReachedUpTo(fates, kind, j)
    ensures Recorded(fates + [fate], kind) == Evens(j) <==> ReachedUpTo(fates + [fate], kind, j)
  {
    hide Recorded, Evens, Reached;
    RecordedStep(fates, kind, fate);
    EvensBelow(j);
    if Reached(fate, kind) {
      assert Recorded(fates + [fate], kind)[|Recorded(fates, kind)|] == Some(|fates| + 1);
      assert (fates + [fate])[|fates|] == fate;
    } else {
      ReachedStep(fates, fate, kind, j);
    }
  }

  lemma ReachedStep(fates: seq<Fate>, fate: Fate, kind: Kind, j: nat)
    ensures ReachedUpTo(fates + [fate], kind, j) <==>
      ReachedUpTo(fates, kind, j) && (Reached(fate, kind) <==> Even(|fates| + 1) && |fates| + 1 <= 2 * j)
  {
    hide Reached;
    var after := fates + [fate];
    assert forall i :: 0 <= i < |fates| ==> after[i] == fates[i];
    assert after[|fates|] == fate;
  }

  lemma OneMoreWithin(fates: seq<Fate>, fate: Fate, kind: Kind, j: nat)
    requires 2 * j == |fates| + 1
    requires Recorded(fates, kind) == Evens(j - 1) <==> ReachedUpTo(fates, kind, j - 1)
    ensures Recorded(fates + [fate], kind) == Evens(j) <==> ReachedUpTo(fates + [fate], kind, j)
  {
    hide Recorded, Evens, Reached;
    RecordedStep(fates, kind, fate);
    RecordedBelow(fates, kind);
    EvensStep(j);
    ReachedStep(fates, fate, kind, j);
    assert ReachedUpTo(fates, kind, j) <==> ReachedUpTo(fates, kind, j - 1);
    if Reached(fate, kind) {
      AppendAgrees(Recorded(fates, kind), Evens(j - 1), Some(|fates| + 1));
    } else {
      EvensBelow(j);
      assert Evens(j)[j - 1] == Some(|fates| + 1);
    }
  }

  lemma EvensStep(j: nat)
    requires j >= 1
    ensures Evens(j) == Evens(j - 1) + [Some(2 * j)]
  {
    CountStep(2, 2, j - 1);
  }

  lemma EvensBelow(j: nat)
    ensures |Evens(j)| == j && forall i :: 0 <= i < j ==> Evens(j)[i] == Some(2 * i + 2)
  {
  }

  lemma AppendAgrees(a: seq<Option<int>>, b: seq<Option<int>>, x: Option<int>)
    ensures a + [x] == b + [x] <==> a == b
  {
    if a + [x] == b + [x] {
      assert (a + [x])[..|a|] == a && (b + [x])[..|b|] == b;
    }
  }

  /** With every selected launch so far failed, each injection is recorded for all of them. */
  lemma AllFailed(fates: seq<Fate>, setup: Setup)
    requires ParityHolds(fates, setup) && |fates| <= 2 * setup.rounds + 1
    ensures var j := |fates| / 2;
      FailedAsPlanned(fates, |fates|)
      <==> ReachedUpTo(fates, Failure, j) && ReachedUpTo(fates, Armed, j) && ReachedUpTo(fates, Released, j)
           && GivenUp !in fates
  {
  }

  /** With the last launch waiting at its latch, it alone is armed and no more. */
  lemma AllButLatch(fates: seq<Fate>, setup: Setup, k: nat)
    requires ParityHolds(fates, setup) && 1 <= k <= setup.rounds && |fates| == 2 * k
    ensures FailedAsPlanned(fates, 2 * k - 1) && fates[2 * k - 1] == LatchHeld
      <==> ReachedUpTo(fates, Failure, k - 1) && ReachedUpTo(fates, Armed, k) && ReachedUpTo(fates, Released, k - 1)
           && GivenUp !in fates
  {
    assert Even(2 * k - 1 + 1) && Selected(setup, 2 * k - 1 + 1);
  }

  /** The records of the injections are what the checkpoint expects exactly when the launches stand there. */
  lemma RecordsStand(s: State, setup: Setup, c: Checkpoint, k: nat)
    requires 1 <= k <= setup.rounds && ParityHolds(s.fates, setup) && s.maxObserved == 1
    requires |s.fates| == ExpectedAt(c, k).matches && |s.processes| == ExpectedAt(c, k).active
    ensures s.reaped == 0 && GivenUp !in s.fates
        && Recorded(s.fates, Failure) == Evens(ExpectedAt(c, k).failures)
        && Recorded(s.fates, Armed) == Evens(ExpectedAt(c, k).armed)
        && Recorded(s.fates, Released) == Evens(ExpectedAt(c, k).released)
      <==> StandsAt(s, c, k)
  {
    hide Recorded, Evens, ParityHolds, ReachedUpTo, FailedAsPlanned;
    var x := ExpectedAt(c, k);
    RecordedIsEvens(s.fates, Failure, x.failures);
    RecordedIsEvens(s.fates, Armed, x.armed);
    RecordedIsEvens(s.fates, Released, x.released);
    if c == LatchPending {
      AllButLatch(s.fates, setup, k);
    } else {
      AllFailed(s.fates, setup);
    }
  }

  /** What a passing probe comes to in a state that keeps the invariant. */
  lemma ProbeOfState(s: State, setup: Setup, x: Expected)
    requires Inv(s, setup) && x.matches <= 2 * setup.rounds + 1
    requires x.failures <= x.matches / 2 && x.armed <= x.matches / 2 && x.released <= x.matches / 2
    ensures ProbePasses(ProbeOf(s, setup), setup.runId, setup.target, x) <==>
      && s.maxObserved == 1 && |s.processes| == x.active && |s.fates| == x.matches
      && s.reaped == 0 && GivenUp !in s.fates
      && Recorded(s.fates, Failure) == Evens(x.failures) && Recorded(s.fates, Armed) == Evens(x.armed)
      && Recorded(s.fates, Released) == Evens(x.released)
  {
    hide Pick, Recorded, Evens, Count, SeqNos, Indices, MatchesHold, ProbePasses, ParityHolds, ProcessesHold;
    ProbeMeans(ProbeOf(s, setup), setup.runId, setup.target, x);
    MatchesCount(Pick(s.log, setup.target, InjectionMatch), |s.fates|, x.matches, setup);
  }

  /** Of every run, with any launches interleaved in any way, the probe check passes a checkpoint of round k exactly when
      launches never overlapped, none timed out or was killed, and the target has made the launches of that checkpoint
      with every earlier selected one armed, released and failed. */
  lemma CheckpointPassed(actions: seq<Action>, setup: Setup, c: Checkpoint, k: nat)
    requires setup.target != "" && 1 <= k <= setup.rounds
    ensures var s := Run(INITIAL, setup, actions);
      ProbePasses(ProbeOf(s, setup), setup.runId, setup.target, ExpectedAt(c, k)) <==> StandsAt(s, c, k)
  {
    hide Run, Inv, Recorded, Evens, ProbePasses, StandsAt;
    var s := Run(INITIAL, setup, actions);
    InitialHolds(setup);
    RunKeepsInv(INITIAL, setup, actions);
    var x := ExpectedAt(c, k);
    ProbeOfState(s, setup, x);
    ParityOf(s, setup);
    if StandsAt(s, c, k) {
      StandsMeans(s, c, k);
    }
    if |s.fates| == x.matches && |s.processes| == x.active && s.maxObserved == 1 {
      RecordsStand(s, setup, c, k);
    }
  }

  lemma ParityOf(s: State, setup: Setup)
    requires Inv(s, setup)
    ensures ParityHolds(s.fates, setup)
  {
  }

  lemma StandsMeans(s: State, c: Checkpoint, k: nat)
    requires k >= 1 && StandsAt(s, c, k)
    ensures s.maxObserved == 1 && |s.processes| == ExpectedAt(c, k).active && |s.fates| == ExpectedAt(c, k).matches
  {
  }

  lemma MatchesCount(matches: seq<Event>, n: nat, m: nat, setup: Setup)
    requires MatchesNumbered(matches, n, setup) && m <= 2 * setup.rounds + 1
    ensures MatchesHold(matches, m) <==> n == m
  {
    hide Flagged;
    assert |Count(1, 1, n)| == n && |Count(1, 1, m)| == m;
  }

  // ---------- a loss is never forgotten ----------

  predicate Spoiled(s: State) {
    s.maxObserved > 1 || s.reaped > 0 || GivenUp in s.fates
  }

  lemma {:induction false} StaysSpoiled(s: State, setup: Setup, actions: seq<Action>)
    requires Spoiled(s)
    ensures Spoiled(Run(s, setup, actions))
  {
    if actions != [] {
      StaysSpoiled(s, setup, actions[..|actions| - 1]);
      SpoiledStep(Run(s, setup, actions[..|actions| - 1]), setup, actions[|actions| - 1]);
    }
  }

  lemma SpoiledStep(s: State, setup: Setup, a: Action)
    requires Spoiled(s)
    ensures Spoiled(Next(s, setup, a))
  {
    if GivenUp in s.fates {
      var i :| 0 <= i < |s.fates| && s.fates[i] == GivenUp;
      assert Next(s, setup, a).fates[i] == GivenUp;
    }
  }

  lemma {:induction false} RunSplits(s: State, setup: Setup, first: seq<Action>, more: seq<Action>)
    ensures Run(s, setup, first + more) == Run(Run(s, setup, first), setup, more)
    decreases |more|
  {
    hide Next;
    if more == [] {
      assert first + more == first;
    } else {
      var shorter := more[..|more| - 1];
      assert (first + more)[..|first + more| - 1] == first + shorter;
      RunSplits(s, setup, first, shorter);
    }
  }

  /** Once launches overlapped, a wait timed out or a process was lost, no checkpoint of any round passes again. */
  lemma LossIsFinal(actions: seq<Action>, more: seq<Action>, setup: Setup, c: Checkpoint, k: nat)
    requires setup.target != "" && 1 <= k <= setup.rounds && Spoiled(Run(INITIAL, setup, actions))
    ensures !ProbePasses(ProbeOf(Run(INITIAL, setup, actions + more), setup), setup.runId, setup.target, ExpectedAt(c, k))
  {
    hide Run, ProbePasses, Inv;
    RunSplits(INITIAL, setup, actions, more);
    StaysSpoiled(Run(INITIAL, setup, actions), setup, more);
    CheckpointPassed(actions + more, setup, c, k);
    InitialHolds(setup);
    RunKeepsInv(INITIAL, setup, actions + more);
    var s := Run(INITIAL, setup, actions + more);
    ParityOf(s, setup);
    if StandsAt(s, c, k) {
      NothingSpoiled(s, setup, c, k);
    }
  }

  lemma NothingSpoiled(s: State, setup: Setup, c: Checkpoint, k: nat)
    requires 1 <= k <= setup.rounds && ParityHolds(s.fates, setup) && StandsAt(s, c, k)
    ensures !Spoiled(s)
  {
    hide Recorded, Evens;
    StandsMeans(s, c, k);
    RecordsStand(s, setup, c, k);
  }

  // ---------- the planned rounds pass every checkpoint ----------

  /** What a state is but for its log and its record of the most processes seen. */
  predicate Is(s: State, processes: map<nat, Process>, token: nat, fates: seq<Fate>) {
    && s.processes == processes && s.nextToken == token && s.fates == fates
    && s.maxObserved == 1 && s.reaped == 0
  }

  function Planned(k: nat): seq<Fate> {
    seq(2 * k + 1, i => if Even(i + 1) then Failed else NotSelected)
  }

  /** Up to the armed latch of round k; from the release to the end of that launch; the launch that recovers. */
  function Arming(target: string, k: nat): seq<Action>
    requires k >= 1
  {
    [Enter(target), Claim(2 * k - 1), Arm(2 * k - 1)]
  }

  function Failing(k: nat): seq<Action>
    requires k >= 1
  {
    [Release(2 * k - 1), Fail(2 * k - 1), Leave(2 * k - 1)]
  }

  function Recovering(target: string, k: nat): seq<Action> {
    [Enter(target), Claim(2 * k), Complete(2 * k), Leave(2 * k)]
  }

  /** The launch that primes the scenario, then k rounds. */
  function Rounds(target: string, k: nat): seq<Action> {
    if k == 0 then Recovering(target, 0)
    else Rounds(target, k - 1) + Arming(target, k) + Failing(k) + Recovering(target, k)
  }

  lemma RunThree(s: State, setup: Setup, a: Action, b: Action, c: Action)
    ensures Run(s, setup, [a, b, c])
         == Next(Next(Next(s, setup, a), setup, b), setup, c)
  {
    hide Next;
    assert [a, b, c][..2] == [a, b] && [a, b][..1] == [a] && [a][..0] == [];
    assert Run(s, setup, [a]) == Next(Run(s, setup, []), setup, a);
  }

  lemma RunOnce(s: State, setup: Setup, a: Action)
    ensures Run(s, setup, [a]) == Next(s, setup, a)
  {
    hide Next;
    assert [a][..0] == [];
  }

  function Only(setup: Setup, t: nat, claim: Option<nat>): map<nat, Process> {
    map[t := Process(setup.target, claim)]
  }

  lemma Enters(s: State, setup: Setup, t: nat, fates: seq<Fate>)
    requires Is(s, map[], t, fates) || (s == INITIAL && t == 0 && fates == [])
    ensures Is(Next(s, setup, Enter(setup.target)), Only(setup, t, None), t + 1, fates)
  {
    hide EventOf;
    assert map[][t := Process(setup.target, None)] == Only(setup, t, None);
  }

  lemma Claims(s: State, setup: Setup, t: nat, fates: seq<Fate>)
    requires Is(s, Only(setup, t, None), t + 1, fates)
    ensures Is(Next(s, setup, Claim(t)), Only(setup, t, Some(|fates| + 1)), t + 1,
               fates + [if Selected(setup, |fates| + 1) then Chosen else NotSelected])
  {
    hide EventOf, Selected;
    assert s.processes[t := Process(setup.target, Some(|fates| + 1))] == Only(setup, t, Some(|fates| + 1));
  }

  lemma MovesOn(s: State, setup: Setup, a: Action, before: seq<Fate>, fate: Fate)
    requires Moves(a) && Is(s, Only(setup, a.token, Some(|before| + 1)), a.token + 1, before + [fate])
    requires fate == if a.Arm? then Chosen else if a.Fail? then LatchFreed else LatchHeld
    ensures Is(Next(s, setup, a), Only(setup, a.token, Some(|before| + 1)), a.token + 1, before + [FateAfter(a)])
  {
    hide EventOf;
    assert (before + [fate])[|before| := FateAfter(a)] == before + [FateAfter(a)];
    assert At(s, a.token, fate);
  }

  lemma Leaves(s: State, setup: Setup, t: nat, claim: Option<nat>, fates: seq<Fate>)
    requires Is(s, Only(setup, t, claim), t + 1, fates)
    ensures Is(Next(s, setup, Leave(t)), map[], t + 1, fates)
  {
    hide EventOf;
    assert Only(setup, t, claim) - {t} == map[];
  }

  lemma Completes(s: State, setup: Setup, t: nat, before: seq<Fate>)
    requires Is(s, Only(setup, t, Some(|before| + 1)), t + 1, before + [NotSelected])
    ensures Is(Next(s, setup, Complete(t)), Only(setup, t, Some(|before| + 1)), t + 1, before + [NotSelected])
  {
    hide EventOf;
  }

  lemma ArmingRuns(s: State, setup: Setup, k: nat)
    requires 1 <= k <= setup.rounds && Is(s, map[], 2 * k - 1, Planned(k - 1))
    ensures Is(Run(s, setup, Arming(setup.target, k)), Only(setup, 2 * k - 1, Some(2 * k)), 2 * k,
               Planned(k - 1) + [LatchHeld])
  {
    var t, fates := 2 * k - 1, Planned(k - 1);
    assert |fates| + 1 == 2 * k && Selected(setup, |fates| + 1);
    assert Arming(setup.target, k) == [Enter(setup.target), Claim(t), Arm(t)];
    hide *;
    RunThree(s, setup, Enter(setup.target), Claim(t), Arm(t));
    Enters(s, setup, t, fates);
    var s1 := Next(s, setup, Enter(setup.target));
    ClaimsSelected(s1, setup, t, fates);
    ArmsNext(Next(s1, setup, Claim(t)), setup, t, fates);
  }

  lemma ClaimsSelected(s: State, setup: Setup, t: nat, fates: seq<Fate>)
    requires Is(s, Only(setup, t, None), t + 1, fates) && Selected(setup, |fates| + 1)
    ensures Is(Next(s, setup, Claim(t)), Only(setup, t, Some(|fates| + 1)), t + 1, fates + [Chosen])
  {
    hide Is, Next, Only;
    Claims(s, setup, t, fates);
  }

  lemma ArmsNext(s: State, setup: Setup, t: nat, fates: seq<Fate>)
    requires Is(s, Only(setup, t, Some(|fates| + 1)), t + 1, fates + [Chosen])
    ensures Is(Next(s, setup, Arm(t)), Only(setup, t, Some(|fates| + 1)), t + 1, fates + [LatchHeld])
  {
    hide Is, Next, Only;
    MovesOn(s, setup, Arm(t), fates, Chosen);
  }

  lemma FailingRuns(s: State, setup: Setup, k: nat)
    requires 1 <= k <= setup.rounds
    requires Is(s, Only(setup, 2 * k - 1, Some(2 * k)), 2 * k, Planned(k - 1) + [LatchHeld])
    ensures Is(Run(s, setup, Failing(k)), map[], 2 * k, Planned(k - 1) + [Failed])
  {
    var t, fates := 2 * k - 1, Planned(k - 1);
    assert |fates| + 1 == 2 * k;
    hide Run, Next, Is, Planned, Only;
    RunThree(s, setup, Release(t), Fail(t), Leave(t));
    MovesOn(s, setup, Release(t), fates, LatchHeld);
    var s1 := Next(s, setup, Release(t));
    MovesOn(s1, setup, Fail(t), fates, LatchFreed);
    Leaves(Next(s1, setup, Fail(t)), setup, t, Some(2 * k), fates + [Failed]);
  }

  lemma RecoveringRuns(s: State, setup: Setup, k: nat, fates: seq<Fate>)
    requires Is(s, map[], 2 * k, fates) || (s == INITIAL && k == 0 && fates == [])
    requires |fates| == 2 * k && fates + [NotSelected] == Planned(k)
    ensures Is(Run(s, setup, Recovering(setup.target, k)), map[], 2 * k + 1, Planned(k))
  {
    hide *;
    var t := 2 * k;
    RunFour(s, setup, k);
    var s1 := Next(s, setup, Enter(setup.target));
    var s2 := Next(s1, setup, Claim(t));
    Enters(s, setup, t, fates);
    ClaimsUnselected(s1, setup, t, fates);
    Completes(s2, setup, t, fates);
    Leaves(Next(s2, setup, Complete(t)), setup, t, Some(t + 1), fates + [NotSelected]);
  }

  lemma ClaimsUnselected(s: State, setup: Setup, t: nat, fates: seq<Fate>)
    requires Is(s, Only(setup, t, None), t + 1, fates) && Even(|fates|)
    ensures Is(Next(s, setup, Claim(t)), Only(setup, t, Some(|fates| + 1)), t + 1, fates + [NotSelected])
  {
    hide Is, Next, Only;
    Claims(s, setup, t, fates);
  }

  lemma RunFour(s: State, setup: Setup, k: nat)
    ensures Even(2 * k)
    ensures Run(s, setup, Recovering(setup.target, k))
         == Next(Next(Next(Next(s, setup, Enter(setup.target)), setup, Claim(2 * k)), setup, Complete(2 * k)), setup,
                 Leave(2 * k))
  {
    hide Run, Next;
    var t := 2 * k;
    assert Recovering(setup.target, k) == [Enter(setup.target), Claim(t), Complete(t)] + [Leave(t)];
    RunSplits(s, setup, [Enter(setup.target), Claim(t), Complete(t)], [Leave(t)]);
    RunThree(s, setup, Enter(setup.target), Claim(t), Complete(t));
    RunOnce(Next(Next(Next(s, setup, Enter(setup.target)), setup, Claim(t)), setup, Complete(t)), setup, Leave(t));
  }

  lemma {:induction false} RoundsRun(setup: Setup, k: nat)
    requires k <= setup.rounds
    ensures Is(Run(INITIAL, setup, Rounds(setup.target, k)), map[], 2 * k + 1, Planned(k))
  {
    hide Run, Is;
    if k == 0 {
      assert [] + [NotSelected] == Planned(0);
      RecoveringRuns(INITIAL, setup, 0, []);
    } else {
      RoundsRun(setup, k - 1);
      var s := Run(INITIAL, setup, Rounds(setup.target, k - 1));
      RoundRuns(s, setup, k);
      RunSplits(INITIAL, setup, Rounds(setup.target, k - 1), Arming(setup.target, k));
      RunSplits(INITIAL, setup, Rounds(setup.target, k - 1) + Arming(setup.target, k), Failing(k));
      RunSplits(INITIAL, setup, Rounds(setup.target, k - 1) + Arming(setup.target, k) + Failing(k), Recovering(setup.target, k));
    }
  }

  lemma RoundRuns(s: State, setup: Setup, k: nat)
    requires 1 <= k <= setup.rounds && Is(s, map[], 2 * k - 1, Planned(k - 1))
    ensures Is(Run(Run(Run(s, setup, Arming(setup.target, k)), setup, Failing(k)), setup,
                   Recovering(setup.target, k)), map[], 2 * k + 1, Planned(k))
  {
    hide Run;
    ArmingRuns(s, setup, k);
    var s1 := Run(s, setup, Arming(setup.target, k));
    FailingRuns(s1, setup, k);
    var s2 := Run(s1, setup, Failing(k));
    assert Planned(k - 1) + [Failed] + [NotSelected] == Planned(k);
    RecoveringRuns(s2, setup, k, Planned(k - 1) + [Failed]);
  }

  /** Where the planned run stands at each checkpoint of round k. */
  function UpTo(target: string, c: Checkpoint, k: nat): seq<Action>
    requires k >= 1
  {
    match c
    case RestartPending => Rounds(target, k - 1)
    case LatchPending => Rounds(target, k - 1) + Arming(target, k)
    case FailureDone => Rounds(target, k - 1) + Arming(target, k) + Failing(k)
    case RecoveryDone => Rounds(target, k)
  }

  lemma StandsBetween(s: State, k: nat)
    requires Is(s, map[], 2 * k + 1, Planned(k))
    ensures StandsAt(s, RestartPending, k + 1) && (k >= 1 ==> StandsAt(s, RecoveryDone, k))
  {
  }

  lemma StandsAtLatch(s: State, setup: Setup, k: nat)
    requires k >= 1 && Is(s, Only(setup, 2 * k - 1, Some(2 * k)), 2 * k, Planned(k - 1) + [LatchHeld])
    ensures StandsAt(s, LatchPending, k)
  {
  }

  lemma StandsFailed(s: State, k: nat)
    requires k >= 1 && Is(s, map[], 2 * k, Planned(k - 1) + [Failed])
    ensures StandsAt(s, FailureDone, k)
  {
  }

  lemma PlannedRunArms(setup: Setup, k: nat)
    requires 1 <= k <= setup.rounds
    ensures Is(Run(INITIAL, setup, Rounds(setup.target, k - 1) + Arming(setup.target, k)),
               Only(setup, 2 * k - 1, Some(2 * k)), 2 * k, Planned(k - 1) + [LatchHeld])
  {
    hide *;
    RoundsRun(setup, k - 1);
    ArmingRuns(Run(INITIAL, setup, Rounds(setup.target, k - 1)), setup, k);
    RunSplits(INITIAL, setup, Rounds(setup.target, k - 1), Arming(setup.target, k));
  }

  lemma PlannedRunStands(setup: Setup, c: Checkpoint, k: nat)
    requires 1 <= k <= setup.rounds
    ensures StandsAt(Run(INITIAL, setup, UpTo(setup.target, c, k)), c, k)
  {
    hide Run, Is, StandsAt, Rounds, Arming, Failing, Planned, Only;
    match c
    case RestartPending =>
      RoundsRun(setup, k - 1);
      StandsBetween(Run(INITIAL, setup, Rounds(setup.target, k - 1)), k - 1);
    case LatchPending =>
      PlannedRunArms(setup, k);
      StandsAtLatch(Run(INITIAL, setup, UpTo(setup.target, c, k)), setup, k);
    case FailureDone =>
      PlannedRunArms(setup, k);
      var first := Rounds(setup.target, k - 1) + Arming(setup.target, k);
      FailingRuns(Run(INITIAL, setup, first), setup, k);
      RunSplits(INITIAL, setup, first, Failing(k));
      StandsFailed(Run(INITIAL, setup, UpTo(setup.target, c, k)), k);
    case RecoveryDone =>
      RoundsRun(setup, k);
      StandsBetween(Run(INITIAL, setup, Rounds(setup.target, k)), k);
  }

  /** The planned run passes every checkpoint of every round. */
  lemma PlannedRunPasses(setup: Setup, c: Checkpoint, k: nat)
    requires setup.target != "" && 1 <= k <= setup.rounds
    ensures var s := Run(INITIAL, setup, UpTo(setup.target, c, k));
      ProbePasses(ProbeOf(s, setup), setup.runId, setup.target, ExpectedAt(c, k))
  {
    hide *;
    PlannedRunStands(setup, c, k);
    CheckpointPassed(UpTo(setup.target, c, k), setup, c, k);
  }

  // ---------- the decision to release the latch ----------

  /** The harness writes the release token of round k on three counts of the probe, whether or not the probe passes. */
  predicate WritesToken(p: Probe, target: string, k: nat) {
    && |Pick(EventsOf(p), target, InjectionMatch)| == 2 * k
    && |Pick(EventsOf(p), target, Armed)| == k
    && p.active == Some(1)
  }

  /** At most half the launches are armed, and half of an even number exactly when every even one is. */
  lemma {:induction false} HalfArmed(fates: seq<Fate>)
    requires forall i :: 0 <= i < |fates| && !Even(i + 1) ==> fates[i] == NotSelected
    ensures |Recorded(fates, Armed)| <= |fates| / 2
    ensures |Recorded(fates, Armed)| == |fates| / 2
      <==> forall i :: 0 <= i < |fates| && Even(i + 1) ==> Reached(fates[i], Armed)
    decreases |fates|
  {
    if fates != [] {
      var n := |fates| - 1;
      var before := fates[..n];
      assert forall i :: 0 <= i < n ==> before[i] == fates[i];
      HalfArmed(before);
      assert Even(n + 1) ==> |fates| / 2 == n / 2 + 1;
      assert !Even(n + 1) ==> |fates| / 2 == n / 2;
      assert fates[n] == NotSelected ==> !Reached(fates[n], Armed);
    }
  }

  /** In every run, with any launches interleaved in any way, the token of round k is written exactly in the states where
      the target made 2k launches, each selected one came at least to its latch, and one process of any agent is
      registered; and there the latch checkpoint passes exactly when also no launches overlapped, nothing was reaped, every
      earlier selected launch failed and the last one still waits. */
  lemma TokenWrittenWhen(actions: seq<Action>, setup: Setup, k: nat)
    requires setup.target != "" && 1 <= k <= setup.rounds
    ensures var s := Run(INITIAL, setup, actions);
      && (WritesToken(ProbeOf(s, setup), setup.target, k) <==>
            |s.fates| == 2 * k && |s.processes| == 1
            && forall i :: 0 <= i < 2 * k && Even(i + 1) ==> Reached(s.fates[i], Armed))
      && (WritesToken(ProbeOf(s, setup), setup.target, k) ==>
            (ProbePasses(ProbeOf(s, setup), setup.runId, setup.target, LatchArmed(k)) <==>
               s.maxObserved == 1 && s.reaped == 0 && FailedAsPlanned(s.fates, 2 * k - 1)
               && s.fates[2 * k - 1] == LatchHeld))
  {
    hide Run, ProbePasses, Inv, Recorded, Pick, Reached, FailedAsPlanned;
    var s := Run(INITIAL, setup, actions);
    InitialHolds(setup);
    RunKeepsInv(INITIAL, setup, actions);
    CountsOf(s, setup);
    if |s.fates| == 2 * k {
      OddsNotSelected(s, setup);
      HalfArmed(s.fates);
    }
    CheckpointPassed(actions, setup, LatchPending, k);
  }

  lemma CountsOf(s: State, setup: Setup)
    requires Inv(s, setup)
    ensures |Pick(s.log, setup.target, InjectionMatch)| == |s.fates|
    ensures |Pick(s.log, setup.target, Armed)| == |Recorded(s.fates, Armed)|
  {
    hide Pick, Recorded, Flagged, MatchesHold;
    var matches := Pick(s.log, setup.target, InjectionMatch);
    assert |Indices(matches)| == |matches| && |Count(1, 1, |s.fates|)| == |s.fates|;
  }

  lemma OddsNotSelected(s: State, setup: Setup)
    requires Inv(s, setup)
    ensures forall i :: 0 <= i < |s.fates| && !Even(i + 1) ==> s.fates[i] == NotSelected
  {
    hide Pick, Recorded, Flagged, MatchesHold, Indices;
  }

  /** The token can be written although the probe does not pass: in every round, if another agent starts and stops while
      the latch is held. */
  lemma TokenDespiteOverlap(setup: Setup, k: nat, other: string)
    requires setup.target != "" && 1 <= k <= setup.rounds && other != setup.target
    ensures var actions := UpTo(setup.target, LatchPending, k) + [Enter(other), Leave(2 * k)];
      var p := ProbeOf(Run(INITIAL, setup, actions), setup);
      WritesToken(p, setup.target, k) && !ProbePasses(p, setup.runId, setup.target, LatchArmed(k))
  {
    var before := UpTo(setup.target, LatchPending, k);
    var actions := before + [Enter(other), Leave(2 * k)];
    hide Run, ProbePasses, WritesToken, Rounds, Arming, Is, Reached;
    PlannedRunArms(setup, k);
    PlannedRunStands(setup, LatchPending, k);
    CheckpointPassed(before, setup, LatchPending, k);
    TokenWrittenWhen(before, setup, k);
    TokenWrittenWhen(actions, setup, k);
    RunSplits(INITIAL, setup, before, [Enter(other), Leave(2 * k)]);
    Visited(Run(INITIAL, setup, before), setup, k, other);
    LatchHolds(Run(INITIAL, setup, before), setup, k);
  }

  /** Another agent's visit leaves everything but the log and the most processes seen. */
  lemma Visited(s: State, setup: Setup, k: nat, other: string)
    requires k >= 1 && Is(s, Only(setup, 2 * k - 1, Some(2 * k)), 2 * k, Planned(k - 1) + [LatchHeld])
    ensures var t := Run(s, setup, [Enter(other), Leave(2 * k)]);
      t.fates == s.fates && |t.processes| == 1 && t.maxObserved == 2
  {
    hide EventOf, Planned, Run;
    RunTwo(s, setup, Enter(other), Leave(2 * k));
    var s1 := Next(s, setup, Enter(other));
    var s2 := Next(s1, setup, Leave(2 * k));
    assert s.processes.Keys == {2 * k - 1} && |s.processes| == |s.processes.Keys|;
    assert s1.processes.Keys == {2 * k - 1, 2 * k} && |s1.processes| == |s1.processes.Keys|;
    assert s1.maxObserved == 2 && s1.fates == s.fates;
    assert s2.processes == s.processes;
  }

  lemma RunTwo(s: State, setup: Setup, a: Action, b: Action)
    ensures Run(s, setup, [a, b]) == Next(Next(s, setup, a), setup, b)
  {
    hide Next;
    RunOnce(s, setup, a);
    assert [a, b][..1] == [a];
  }

  lemma LatchHolds(s: State, setup: Setup, k: nat)
    requires k >= 1 && Is(s, Only(setup, 2 * k - 1, Some(2 * k)), 2 * k, Planned(k - 1) + [LatchHeld])
    ensures |s.fates| == 2 * k && forall i :: 0 <= i < 2 * k && Even(i + 1) ==> Reached(s.fates[i], Armed)
  {
  }
}
