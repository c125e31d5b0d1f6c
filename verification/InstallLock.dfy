/**
 * The npm install lock, as interleaved steps of any number of installer processes.
 *
 * Assumed of the environment: each installer has its own pid and its own random token, a directory is created and
 * removed in one step, the owner record is written in one step within the grace period after the directory is made
 * (clock ticks that would break this do not happen), and the pid of a live installer is seen as alive.  The pid of a
 * dead one may be seen as alive too, because pids are reused.
 *
 * Reclaiming a stale lock reads the owner, reads the age and removes the directory.  The machine runs in two modes:
 * reclaim as one step, or split into reading and removing.
 */
module InstallLock {
  import opened Wrappers

  const GRACE_MS: int := 30000

  datatype Owner = Owner(pid: nat, token: nat)

  datatype Lock = Lock(owner: Option<Owner>, mtime: int)

  datatype Pc =
    | Starting | Waiting | ReclaimChosen | Made
    | Locked | Checked | MayDownload | Downloading | Wiped | CheckingRuntime | Bootstrapping | Releasing | Removing
    | Done

  datatype Proc = Proc(pc: Pc, alive: bool, token: nat, madeAt: int)

  /** released says a complete release of this version is unpacked, ready that its runtime is usable. */
  datatype State = State(lock: Option<Lock>, procs: map<nat, Proc>, now: int, released: bool, ready: bool, atomic: bool)

  datatype Action =
    | CheckFirst | TryMkdir | WriteOwner | WriteFails | GiveUp
    | Reclaim(reused: bool) | ChooseReclaim(reused: bool) | RemoveReclaimed
    | CheckAgain | CheckRelease(skip: bool) | StartDownload | Wipe | Extract(complete: bool) | DownloadFails
    | CheckRuntime | Bootstrap(usable: bool)
    | ReadForRelease | RemoveOwn
    | Die

  datatype Step = Tick(ms: nat) | By(pid: nat, action: Action)

  predicate Holding(pc: Pc) {
    pc in {Locked, Checked, MayDownload, Downloading, Wiped, CheckingRuntime, Bootstrapping, Releasing, Removing}
  }

  /** Between making the directory and giving it up. */
  predicate Critical(pc: Pc) {
    pc == Made || Holding(pc)
  }

  predicate Live(s: State, p: nat) {
    p in s.procs && s.procs[p].alive
  }

  predicate LiveHolder(s: State, p: nat) {
    Live(s, p) && Holding(s.procs[p].pc)
  }

  predicate LiveCritical(s: State, p: nat) {
    Live(s, p) && Critical(s.procs[p].pc)
  }

  /** The lock may be taken for stale: its recorded owner is not seen alive, or it has no record and is old enough. */
  predicate LooksStale(s: State, reused: bool) {
    s.lock.Some? &&
    match s.lock.value.owner
    case Some(o) => !Live(s, o.pid) && !reused
    case None => s.now - s.lock.value.mtime >= GRACE_MS
  }

  /** A tick may not carry a live installer past the grace period between making the lock and recording itself. */
  predicate TickAllowed(s: State, ms: nat) {
    forall p :: p in s.procs && s.procs[p].alive && s.procs[p].pc == Made ==> s.now + ms - s.procs[p].madeAt < GRACE_MS
  }

  /** One step; a step that is not enabled changes nothing. */
  function Next(s: State, step: Step): State {
    match step
    case Tick(ms) => if TickAllowed(s, ms) then s.(now := s.now + ms) else s
    case By(p, action) => if Live(s, p) then Act(s, p, action) else s
  }

  /** What a step of a process does: its own record, and what all processes share. */
  datatype Effect = Effect(proc: Proc, lock: Option<Lock>, released: bool, ready: bool)

  function To(e: Effect, pc: Pc): Effect {
    e.(proc := e.proc.(pc := pc))
  }

  function EffectOf(s: State, p: nat, action: Action): Effect
    requires Live(s, p)
  {
    var e := Effect(s.procs[p], s.lock, s.released, s.ready);
    match (s.procs[p].pc, action)
    case (_, Die) => e.(proc := e.proc.(alive := false))
    case (Starting, CheckFirst) => To(e, if s.released && s.ready then Done else Waiting)
    case (Waiting, TryMkdir) =>
      if s.lock.Some? then e
      else e.(lock := Some(Lock(None, s.now)), proc := e.proc.(pc := Made, madeAt := s.now))
    case (Waiting, Reclaim(reused)) => if s.atomic && LooksStale(s, reused) then e.(lock := None) else e
    case (Waiting, ChooseReclaim(reused)) => if !s.atomic && LooksStale(s, reused) then To(e, ReclaimChosen) else e
    case (ReclaimChosen, RemoveReclaimed) => To(e, Waiting).(lock := None)
    case (Waiting, GiveUp) => To(e, Done)
    case (Made, WriteOwner) =>
      if s.lock.None? then To(e, Done)
      else To(e, Locked).(lock := Some(s.lock.value.(owner := Some(Owner(p, s.procs[p].token)))))
    case (Made, WriteFails) => To(e, Done).(lock := None)
    case (Locked, CheckAgain) => To(e, if s.released && s.ready then Releasing else Checked)
    case (Checked, CheckRelease(skip)) =>
      To(e, if s.released then CheckingRuntime else if skip then Releasing else MayDownload)
    case (MayDownload, StartDownload) => To(e, Downloading)
    case (Downloading, DownloadFails) => To(e, Releasing)
    case (Downloading, Wipe) => To(e, Wiped).(released := false, ready := false)
    case (Wiped, DownloadFails) => To(e, Releasing)
    case (Wiped, Extract(complete)) => To(e, CheckingRuntime).(released := complete)
    case (CheckingRuntime, CheckRuntime) => To(e, if s.ready then Releasing else Bootstrapping)
    case (Bootstrapping, Bootstrap(usable)) =>
      if s.released then To(e, Releasing).(ready := usable) else To(e, Releasing)
    case (Releasing, ReadForRelease) =>
      To(e, if s.lock.Some? && s.lock.value.owner.Some? && s.lock.value.owner.value.token == s.procs[p].token
            then Removing else Done)
    case (Removing, RemoveOwn) => To(e, Done).(lock := None)
    case _ => e
  }

  function Act(s: State, p: nat, action: Action): State
    requires Live(s, p)
  {
    var e := EffectOf(s, p, action);
    s.(procs := s.procs[p := e.proc], lock := e.lock, released := e.released, ready := e.ready)
  }

  function Exec(s: State, steps: seq<Step>): State
    decreases |steps|
  {
    if steps == [] then s else Exec(Next(s, steps[0]), steps[1..])
  }

  ghost predicate Initial(s: State) {
    && (forall p :: p in s.procs ==> s.procs[p].pc == Starting && s.procs[p].alive)
    && (forall p, q :: p in s.procs && q in s.procs && s.procs[p].token == s.procs[q].token ==> p == q)
    && s.lock.None?
  }

  // ---------- the invariant ----------

  ghost predicate TokensDiffer(s: State) {
    forall p, q :: p in s.procs && q in s.procs && s.procs[p].token == s.procs[q].token ==> p == q
  }

  /** The lock is as a process in the critical section left it. */
  predicate Owns(p: nat, proc: Proc, lock: Option<Lock>, now: int) {
    && (proc.pc == Made ==> lock == Some(Lock(None, proc.madeAt)) && now - proc.madeAt < GRACE_MS)
    && (Holding(proc.pc) ==> lock.Some? && lock.value.owner == Some(Owner(p, proc.token)))
  }

  ghost predicate OwnsLock(s: State, p: nat)
    requires p in s.procs
  {
    Owns(p, s.procs[p], s.lock, s.now)
  }

  /** What a live holder has seen of the release stays true while it holds the lock. */
  ghost predicate Remembers(s: State, p: nat)
    requires p in s.procs
  {
    && (s.procs[p].pc in {MayDownload, Downloading, Wiped} ==> !s.released)
    && (s.procs[p].pc == Checked ==> !(s.released && s.ready))
  }

  ghost predicate Inv(s: State) {
    && TokensDiffer(s)
    && (forall p, q :: LiveCritical(s, p) && LiveCritical(s, q) ==> p == q)
    && (forall p :: LiveCritical(s, p) ==> OwnsLock(s, p) && Remembers(s, p))
  }

  /** The one step that breaks the invariant: an installer that judged some lock stale earlier removes the lock that is
      there now, while a live process has it. */
  ghost predicate RemovesLiveLock(s: State, step: Step) {
    && step.By? && Live(s, step.pid) && s.procs[step.pid].pc == ReclaimChosen && step.action == RemoveReclaimed
    && exists q :: LiveCritical(s, q)
  }

  lemma OthersStay(s: State, p: nat, action: Action, q: nat)
    requires Live(s, p) && q != p
    ensures q in Act(s, p, action).procs <==> q in s.procs
    ensures q in s.procs ==> Act(s, p, action).procs[q] == s.procs[q]
  {
    hide EffectOf;
  }

  lemma SelfStays(s: State, p: nat, action: Action)
    requires Live(s, p)
    ensures p in Act(s, p, action).procs && Act(s, p, action).procs[p].token == s.procs[p].token
    ensures Act(s, p, action).now == s.now && Act(s, p, action).atomic == s.atomic
    ensures Live(Act(s, p, action), p) && Critical(Act(s, p, action).procs[p].pc) ==>
      Critical(s.procs[p].pc) || (s.procs[p].pc == Waiting && s.lock.None?)
  {
  }

  /** A process outside the critical section can touch the shared state only by removing a stale lock. */
  lemma OutsiderTouchesNothing(s: State, p: nat, action: Action)
    requires Live(s, p) && !Critical(s.procs[p].pc) && s.lock.Some? && !LooksStale(s, false)
    requires !(s.procs[p].pc == ReclaimChosen && action == RemoveReclaimed)
    ensures var e := EffectOf(s, p, action);
      e.lock == s.lock && e.released == s.released && e.ready == s.ready
  {
  }

  /** Any other step of p leaves the claim of another live critical process alone. */
  lemma OthersKeep(s: State, p: nat, action: Action, q: nat)
    requires Inv(s) && Live(s, p) && q != p && LiveCritical(s, q) && !RemovesLiveLock(s, By(p, action))
    ensures q in Act(s, p, action).procs && OwnsLock(Act(s, p, action), q) && Remembers(Act(s, p, action), q)
    ensures s.lock.Some? && Act(s, p, action).lock == s.lock && Act(s, p, action).released == s.released
    ensures Act(s, p, action).ready == s.ready
  {
    hide EffectOf;
    assert !LiveCritical(s, p) && OwnsLock(s, q) && Remembers(s, q);
    if s.lock.value.owner.Some? {
      assert s.lock.value.owner.value.pid == q;
    }
    OutsiderTouchesNothing(s, p, action);
  }

  lemma SelfOwns(s: State, p: nat, action: Action)
    requires Live(s, p) && (Critical(s.procs[p].pc) ==> Owns(p, s.procs[p], s.lock, s.now))
    ensures var e := EffectOf(s, p, action);
      Critical(e.proc.pc) ==> Owns(p, e.proc, e.lock, s.now)
  {
    hide LooksStale;
  }

  lemma SelfRemembers(s: State, p: nat, action: Action)
    requires Live(s, p) && LiveCritical(Act(s, p, action), p)
    requires LiveCritical(s, p) ==> Remembers(s, p)
    ensures Remembers(Act(s, p, action), p)
  {
  }

  lemma SelfKeeps(s: State, p: nat, action: Action)
    requires Inv(s) && Live(s, p) && LiveCritical(Act(s, p, action), p)
    ensures OwnsLock(Act(s, p, action), p) && Remembers(Act(s, p, action), p)
  {
    hide EffectOf, Owns, Remembers;
    assert Critical(s.procs[p].pc) ==> LiveCritical(s, p);
    SelfOwns(s, p, action);
    SelfRemembers(s, p, action);
  }

  lemma InvAct(s: State, p: nat, action: Action)
    requires Inv(s) && Live(s, p) && !RemovesLiveLock(s, By(p, action))
    ensures Inv(Act(s, p, action))
  {
    hide Act, OwnsLock, Remembers, RemovesLiveLock;
    var s' := Act(s, p, action);
    forall q | q != p ensures q in s'.procs <==> q in s.procs
      ensures q in s.procs ==> s'.procs[q] == s.procs[q]
    {
      OthersStay(s, p, action, q);
    }
    SelfStays(s, p, action);
    forall q | LiveCritical(s', q) ensures OwnsLock(s', q) && Remembers(s', q)
    {
      if q == p {
        SelfKeeps(s, p, action);
      } else {
        assert LiveCritical(s, q);
        OthersKeep(s, p, action, q);
      }
    }
    forall q, r | LiveCritical(s', q) && LiveCritical(s', r) ensures q == r
    {
      if q != p { assert LiveCritical(s, q); OthersKeep(s, p, action, q); }
      if r != p { assert LiveCritical(s, r); OthersKeep(s, p, action, r); }
      assert Critical(s.procs[p].pc) ==> LiveCritical(s, p);
    }
  }

  /** That step leaves a live process in the critical section without its lock. */
  lemma RemovalBreaks(s: State, step: Step)
    requires RemovesLiveLock(s, step)
    ensures !Inv(Next(s, step))
  {
    var q :| LiveCritical(s, q);
    assert q != step.pid && LiveCritical(Next(s, step), q) && Next(s, step).lock.None?;
    assert !OwnsLock(Next(s, step), q);
  }

  lemma InvTick(s: State, ms: nat)
    requires Inv(s) && TickAllowed(s, ms)
    ensures Inv(s.(now := s.now + ms))
  {
    var s' := s.(now := s.now + ms);
    forall q ensures Live(s', q) == Live(s, q) && LiveCritical(s', q) == LiveCritical(s, q) {
    }
    forall q | LiveCritical(s', q) ensures OwnsLock(s', q) && Remembers(s', q) {
      assert OwnsLock(s, q) && Remembers(s, q);
    }
  }

  /** Whether reclaim is one step or split, every step keeps the invariant but the one above, which breaks it. */
  lemma InvStep(s: State, step: Step)
    requires Inv(s)
    ensures Inv(Next(s, step)) <==> !RemovesLiveLock(s, step)
  {
    hide Inv, Act, RemovesLiveLock;
    if RemovesLiveLock(s, step) {
      RemovalBreaks(s, step);
    } else {
      match step
      case Tick(ms) => if TickAllowed(s, ms) { InvTick(s, ms); }
      case By(p, action) => if Live(s, p) { InvAct(s, p, action); }
    }
  }

  lemma InvInitially(s: State)
    requires Initial(s)
    ensures Inv(s)
  {
  }

  /** No step of the run removes a live lock. */
  ghost predicate Orderly(s: State, steps: seq<Step>)
    decreases |steps|
  {
    steps == [] || (!RemovesLiveLock(s, steps[0]) && Orderly(Next(s, steps[0]), steps[1..]))
  }

  /** The invariant holds at every point of the run. */
  ghost predicate Throughout(s: State, steps: seq<Step>)
    decreases |steps|
  {
    Inv(s) && (steps != [] ==> Throughout(Next(s, steps[0]), steps[1..]))
  }

  /** The runs that keep the invariant throughout are exactly those in which no live lock is removed. */
  lemma {:induction false} ThroughoutWhen(s: State, steps: seq<Step>)
    requires Inv(s)
    ensures Throughout(s, steps) <==> Orderly(s, steps)
    ensures Orderly(s, steps) ==> Inv(Exec(s, steps))
    decreases |steps|
  {
    hide Inv, Act, RemovesLiveLock, Next;
    if steps != [] {
      InvStep(s, steps[0]);
      if !RemovesLiveLock(s, steps[0]) {
        ThroughoutWhen(Next(s, steps[0]), steps[1..]);
      }
    }
  }

  /** With reclaim as one step every run is orderly. */
  lemma {:induction false} OneStepReclaimIsOrderly(s: State, steps: seq<Step>)
    requires s.atomic && forall p :: p in s.procs ==> s.procs[p].pc != ReclaimChosen
    ensures Orderly(s, steps)
    decreases |steps|
  {
    if steps != [] {
      NeverChosen(s, steps[0]);
      OneStepReclaimIsOrderly(Next(s, steps[0]), steps[1..]);
    }
  }

  lemma NeverChosen(s: State, step: Step)
    requires s.atomic && forall p :: p in s.procs ==> s.procs[p].pc != ReclaimChosen
    ensures Next(s, step).atomic && forall p :: p in Next(s, step).procs ==> Next(s, step).procs[p].pc != ReclaimChosen
  {
    hide Act;
    if step.By? && Live(s, step.pid) {
      SelfStays(s, step.pid, step.action);
      NotChosen(s, step.pid, step.action);
      forall q | q != step.pid
        ensures q in Act(s, step.pid, step.action).procs <==> q in s.procs
        ensures q in s.procs ==> Act(s, step.pid, step.action).procs[q] == s.procs[q]
      {
        OthersStay(s, step.pid, step.action, q);
      }
    }
  }

  lemma NotChosen(s: State, p: nat, action: Action)
    requires Live(s, p) && s.atomic && s.procs[p].pc != ReclaimChosen
    ensures p in Act(s, p, action).procs && Act(s, p, action).procs[p].pc != ReclaimChosen
  {
  }

  // ---------- safety over every run ----------

  /** Whatever the orderly interleaving, at most one live process is between making the lock and giving it up, and a live
      holder's own record is in the lock. */
  lemma MutualExclusion(init: State, steps: seq<Step>)
    requires Initial(init) && Orderly(init, steps)
    ensures var s := Exec(init, steps);
      && (forall p, q :: LiveCritical(s, p) && LiveCritical(s, q) ==> p == q)
      && (forall p :: LiveHolder(s, p) ==> s.lock.Some? && s.lock.value.owner == Some(Owner(p, s.procs[p].token)))
  {
    InvInitially(init);
    ThroughoutWhen(init, steps);
    var s := Exec(init, steps);
    forall p | LiveHolder(s, p)
      ensures s.lock.Some? && s.lock.value.owner == Some(Owner(p, s.procs[p].token))
    {
      assert LiveCritical(s, p);
    }
  }

  /** The lock of a live holder is removed or changed by nothing but its own release, or by the one step. */
  lemma OnlyOwnRelease(init: State, steps: seq<Step>, step: Step, p: nat)
    requires Initial(init) && Orderly(init, steps)
    requires LiveHolder(Exec(init, steps), p)
    ensures Next(Exec(init, steps), step).lock != Exec(init, steps).lock ==>
      step == By(p, RemoveOwn) || RemovesLiveLock(Exec(init, steps), step)
  {
    InvInitially(init);
    ThroughoutWhen(init, steps);
    var s := Exec(init, steps);
    assert LiveCritical(s, p);
    if step.By? && Live(s, step.pid) && !RemovesLiveLock(s, step) {
      if step.pid != p {
        OthersKeep(s, step.pid, step.action, p);
      } else {
        assert OwnsLock(s, p);
      }
    }
  }

  /** No download starts once the release is installed: whoever is about to start one sees none installed, and the
      release only changes by steps of the one live holder. */
  lemma NoNeedlessDownload(init: State, steps: seq<Step>, p: nat)
    requires Initial(init) && Orderly(init, steps)
    requires Live(Exec(init, steps), p) && Exec(init, steps).procs[p].pc == MayDownload
    ensures !Exec(init, steps).released
  {
    InvInitially(init);
    ThroughoutWhen(init, steps);
    assert LiveCritical(Exec(init, steps), p);
  }

  lemma ReleaseChangesUnderLock(init: State, steps: seq<Step>, step: Step)
    requires Initial(init) && Orderly(init, steps)
    requires var s := Exec(init, steps);
      Next(s, step).released != s.released || Next(s, step).ready != s.ready
    ensures step.By? && LiveHolder(Exec(init, steps), step.pid)
    ensures forall q :: q != step.pid ==> !LiveCritical(Exec(init, steps), q)
  {
    MutualExclusion(init, steps);
    var s := Exec(init, steps);
    assert step.By? && LiveHolder(s, step.pid);
    assert LiveCritical(s, step.pid);
  }

  function TakeOver(s: State, p: nat): seq<Step> {
    (if s.atomic then [By(p, Reclaim(false))] else [By(p, ChooseReclaim(false)), By(p, RemoveReclaimed)])
    + [By(p, TryMkdir)]
  }

  /** A lock left behind never blocks for good: if its owner is dead and its pid not reused, or it has no record and is
      past the grace period, a waiting installer that is not disturbed gets it. */
  lemma StaleLockIsTaken(s: State, p: nat)
    requires Live(s, p) && s.procs[p].pc == Waiting && LooksStale(s, false)
    ensures var t := Exec(s, TakeOver(s, p));
      Live(t, p) && t.procs[p].pc == Made && t.lock == Some(Lock(None, s.now))
  {
    if s.atomic {
      TakenInOne(s, p);
    } else {
      TakenInTwo(s, p);
    }
  }

  function Taken(s: State, p: nat): State
    requires p in s.procs
  {
    s.(lock := Some(Lock(None, s.now)), procs := s.procs[p := s.procs[p].(pc := Made, madeAt := s.now)])
  }

  lemma Makes(s: State, p: nat)
    requires Live(s, p) && s.procs[p].pc == Waiting && s.lock.None?
    ensures Next(s, By(p, TryMkdir)) == Taken(s, p)
  {
  }

  lemma TakenInOne(s: State, p: nat)
    requires Live(s, p) && s.procs[p].pc == Waiting && LooksStale(s, false) && s.atomic
    ensures Exec(s, TakeOver(s, p)) == Taken(s, p)
  {
    var freed := s.(lock := None);
    assert Next(s, By(p, Reclaim(false))) == freed by {
      assert s.procs[p := s.procs[p]] == s.procs;
    }
    Makes(freed, p);
    Chain2(s, [By(p, Reclaim(false))] + [By(p, TryMkdir)], Taken(s, p));
  }

  lemma TakenInTwo(s: State, p: nat)
    requires Live(s, p) && s.procs[p].pc == Waiting && LooksStale(s, false) && !s.atomic
    ensures Exec(s, TakeOver(s, p)) == Taken(s, p)
  {
    var chosen := s.(procs := s.procs[p := s.procs[p].(pc := ReclaimChosen)]);
    var freed := s.(lock := None);
    var first := [By(p, ChooseReclaim(false)), By(p, RemoveReclaimed)];
    assert Next(s, first[0]) == chosen;
    assert Next(chosen, first[1]) == freed by {
      assert chosen.procs[p := s.procs[p]] == s.procs;
    }
    Chain2(s, first, freed);
    Makes(freed, p);
    Chain1(freed, By(p, TryMkdir));
    ExecJoin(s, first, [By(p, TryMkdir)]);
  }

  // ---------- nothing is left behind ----------

  /** A lock always has a process behind it, possibly a dead one, that made it and has not given it up. */
  ghost predicate Backed(s: State) {
    s.lock.Some? ==> exists p :: p in s.procs && Critical(s.procs[p].pc)
  }

  lemma BackedAct(s: State, p: nat, action: Action)
    requires Inv(s) && Backed(s) && Live(s, p)
    ensures Backed(Act(s, p, action))
  {
    var s' := Act(s, p, action);
    if s'.lock.Some? {
      if s.lock.None? {
        assert s'.procs[p].pc == Made;
      } else {
        var w :| w in s.procs && Critical(s.procs[w].pc);
        if w != p {
          OthersStay(s, p, action, w);
          assert w in s'.procs && Critical(s'.procs[w].pc);
        } else {
          assert LiveCritical(s, p) && OwnsLock(s, p);
          StaysCritical(s, p, action);
        }
      }
    }
  }

  lemma StaysCritical(s: State, p: nat, action: Action)
    requires Live(s, p) && Critical(s.procs[p].pc) && s.lock.Some? && Act(s, p, action).lock.Some?
    requires s.procs[p].pc == Releasing ==> s.lock.value.owner == Some(Owner(p, s.procs[p].token))
    ensures p in Act(s, p, action).procs && Critical(Act(s, p, action).procs[p].pc)
  {
  }

  lemma {:induction false} BackedAlways(s: State, steps: seq<Step>)
    requires Inv(s) && Orderly(s, steps) && Backed(s)
    ensures Backed(Exec(s, steps))
    decreases |steps|
  {
    if steps != [] {
      hide Inv, Act, RemovesLiveLock;
      InvStep(s, steps[0]);
      if steps[0].By? && Live(s, steps[0].pid) { BackedAct(s, steps[0].pid, steps[0].action); }
      BackedAlways(Next(s, steps[0]), steps[1..]);
    }
  }

  /** When every installer has run to its end alive, the lock is gone. */
  lemma NothingLeftBehind(init: State, steps: seq<Step>)
    requires Initial(init) && Orderly(init, steps)
    requires forall p :: p in Exec(init, steps).procs ==> Exec(init, steps).procs[p].pc == Done
    ensures Exec(init, steps).lock.None?
  {
    hide Inv, Act;
    InvInitially(init);
    BackedAlways(init, steps);
  }

  // ---------- what an installer achieves ----------

  /** The state after steps of p alone that came to this effect. */
  function With(s: State, p: nat, e: Effect): State {
    s.(procs := s.procs[p := e.proc], lock := e.lock, released := e.released, ready := e.ready)
  }

  lemma OneFurther(s: State, p: nat, steps: seq<Step>, e: Effect, action: Action)
    requires Exec(s, steps) == With(s, p, e) && e.proc.alive
    ensures Exec(s, steps + [By(p, action)]) == With(s, p, EffectOf(With(s, p, e), p, action))
  {
    hide EffectOf;
    var t := With(s, p, e);
    var after := EffectOf(t, p, action);
    ExecJoin(s, steps, [By(p, action)]);
    Chain1(t, By(p, action));
    assert t.procs[p := after.proc] == s.procs[p := after.proc];
  }

  /** The effect of an installer at a point of its work, with the lock it holds or with none. */
  function Point(s: State, p: nat, pc: Pc, held: bool, released: bool, ready: bool): Effect
    requires p in s.procs
  {
    Effect(s.procs[p].(pc := pc, madeAt := s.now),
           if held then Some(Lock(Some(Owner(p, s.procs[p].token)), s.now)) else None, released, ready)
  }

  function Acquiring(p: nat): seq<Step> {
    [By(p, CheckFirst)] + [By(p, TryMkdir)] + [By(p, WriteOwner)] + [By(p, CheckAgain)]
  }

  function Downloaded(p: nat): seq<Step> {
    [By(p, CheckRelease(false))] + [By(p, StartDownload)] + [By(p, Wipe)] + [By(p, Extract(true))]
  }

  function MadeReady(p: nat): seq<Step> {
    [By(p, CheckRuntime)] + [By(p, Bootstrap(true))]
  }

  function Freeing(p: nat): seq<Step> {
    [By(p, ReadForRelease)] + [By(p, RemoveOwn)]
  }

  ghost predicate Begins(s: State, p: nat) {
    Live(s, p) && s.procs[p].pc == Starting && s.lock.None? && !(s.released && s.ready)
  }

  lemma Acquires(s: State, p: nat)
    requires Begins(s, p)
    ensures Exec(s, Acquiring(p)) == With(s, p, Point(s, p, Checked, true, s.released, s.ready))
  {
    var first := Effect(s.procs[p], None, s.released, s.ready);
    var made := Effect(s.procs[p].(pc := Made, madeAt := s.now), Some(Lock(None, s.now)), s.released, s.ready);
    AcquirePoints(s, p);
    assert s.procs[p := s.procs[p]] == s.procs;
    assert Exec(s, []) == With(s, p, first);
    hide EffectOf, With, Exec, Point;
    OneFurther(s, p, [], first, CheckFirst);
    assert [] + [By(p, CheckFirst)] == [By(p, CheckFirst)];
    OneFurther(s, p, [By(p, CheckFirst)], To(first, Waiting), TryMkdir);
    OneFurther(s, p, [By(p, CheckFirst)] + [By(p, TryMkdir)], made, WriteOwner);
    OneFurther(s, p, [By(p, CheckFirst)] + [By(p, TryMkdir)] + [By(p, WriteOwner)],
               Point(s, p, Locked, true, s.released, s.ready), CheckAgain);
  }

  lemma AcquirePoints(s: State, p: nat)
    requires Begins(s, p)
    ensures var first := Effect(s.procs[p], None, s.released, s.ready);
      var made := Effect(s.procs[p].(pc := Made, madeAt := s.now), Some(Lock(None, s.now)), s.released, s.ready);
      && EffectOf(With(s, p, first), p, CheckFirst) == To(first, Waiting)
      && EffectOf(With(s, p, To(first, Waiting)), p, TryMkdir) == made
      && EffectOf(With(s, p, made), p, WriteOwner) == Point(s, p, Locked, true, s.released, s.ready)
      && EffectOf(With(s, p, Point(s, p, Locked, true, s.released, s.ready)), p, CheckAgain)
         == Point(s, p, Checked, true, s.released, s.ready)
      && Point(s, p, Locked, true, s.released, s.ready).proc.alive
  {
  }

  /** One step of an installer that holds the lock, from point to point. */
  lemma PointStep(s: State, p: nat, steps: seq<Step>, pc: Pc, released: bool, ready: bool, action: Action, e: Effect)
    requires Live(s, p) && Exec(s, steps) == With(s, p, Point(s, p, pc, true, released, ready))
    requires EffectOf(With(s, p, Point(s, p, pc, true, released, ready)), p, action) == e
    ensures Exec(s, steps + [By(p, action)]) == With(s, p, e)
  {
    hide EffectOf, With, Exec;
    OneFurther(s, p, steps, Point(s, p, pc, true, released, ready), action);
  }

  lemma DownloadPoints(s: State, p: nat, ready: bool)
    requires Live(s, p)
    ensures EffectOf(With(s, p, Point(s, p, Checked, true, false, ready)), p, CheckRelease(false))
         == Point(s, p, MayDownload, true, false, ready)
    ensures EffectOf(With(s, p, Point(s, p, MayDownload, true, false, ready)), p, StartDownload)
         == Point(s, p, Downloading, true, false, ready)
    ensures EffectOf(With(s, p, Point(s, p, Downloading, true, false, ready)), p, Wipe)
         == Point(s, p, Wiped, true, false, false)
    ensures EffectOf(With(s, p, Point(s, p, Wiped, true, false, false)), p, Extract(true))
         == Point(s, p, CheckingRuntime, true, true, false)
  {
  }

  lemma Downloads(s: State, p: nat, steps: seq<Step>)
    requires Live(s, p) && !s.released && Exec(s, steps) == With(s, p, Point(s, p, Checked, true, false, s.ready))
    ensures Exec(s, steps + Downloaded(p)) == With(s, p, Point(s, p, CheckingRuntime, true, true, false))
  {
    hide EffectOf, With, Exec, Point;
    var a := steps + [By(p, CheckRelease(false))];
    var b := a + [By(p, StartDownload)];
    var c := b + [By(p, Wipe)];
    assert steps + Downloaded(p) == c + [By(p, Extract(true))];
    DownloadPoints(s, p, s.ready);
    PointStep(s, p, steps, Checked, false, s.ready, CheckRelease(false), Point(s, p, MayDownload, true, false, s.ready));
    PointStep(s, p, a, MayDownload, false, s.ready, StartDownload, Point(s, p, Downloading, true, false, s.ready));
    PointStep(s, p, b, Downloading, false, s.ready, Wipe, Point(s, p, Wiped, true, false, false));
    PointStep(s, p, c, Wiped, false, false, Extract(true), Point(s, p, CheckingRuntime, true, true, false));
  }

  lemma ReadyPoints(s: State, p: nat)
    requires Live(s, p)
    ensures EffectOf(With(s, p, Point(s, p, CheckingRuntime, true, true, false)), p, CheckRuntime)
         == Point(s, p, Bootstrapping, true, true, false)
    ensures EffectOf(With(s, p, Point(s, p, Bootstrapping, true, true, false)), p, Bootstrap(true))
         == Point(s, p, Releasing, true, true, true)
  {
  }

  lemma MakesReady(s: State, p: nat, steps: seq<Step>)
    requires Live(s, p) && Exec(s, steps) == With(s, p, Point(s, p, CheckingRuntime, true, true, false))
    ensures Exec(s, steps + MadeReady(p)) == With(s, p, Point(s, p, Releasing, true, true, true))
  {
    hide EffectOf, With, Exec, Point;
    var a := steps + [By(p, CheckRuntime)];
    assert steps + MadeReady(p) == a + [By(p, Bootstrap(true))];
    ReadyPoints(s, p);
    PointStep(s, p, steps, CheckingRuntime, true, false, CheckRuntime, Point(s, p, Bootstrapping, true, true, false));
    PointStep(s, p, a, Bootstrapping, true, false, Bootstrap(true), Point(s, p, Releasing, true, true, true));
  }

  lemma FreePoints(s: State, p: nat, released: bool, ready: bool)
    requires Live(s, p)
    ensures EffectOf(With(s, p, Point(s, p, Releasing, true, released, ready)), p, ReadForRelease)
         == Point(s, p, Removing, true, released, ready)
    ensures EffectOf(With(s, p, Point(s, p, Removing, true, released, ready)), p, RemoveOwn)
         == Point(s, p, Done, false, released, ready)
  {
  }

  lemma Frees(s: State, p: nat, steps: seq<Step>, released: bool, ready: bool)
    requires Live(s, p) && Exec(s, steps) == With(s, p, Point(s, p, Releasing, true, released, ready))
    ensures Exec(s, steps + Freeing(p)) == With(s, p, Point(s, p, Done, false, released, ready))
  {
    hide EffectOf, With, Exec, Point;
    var a := steps + [By(p, ReadForRelease)];
    assert steps + Freeing(p) == a + [By(p, RemoveOwn)];
    FreePoints(s, p, released, ready);
    PointStep(s, p, steps, Releasing, released, ready, ReadForRelease, Point(s, p, Removing, true, released, ready));
    PointStep(s, p, a, Removing, released, ready, RemoveOwn, Point(s, p, Done, false, released, ready));
  }

  /** An undisturbed installer that finds the lock free and nothing installed downloads, makes the runtime usable, frees the
      lock and ends, if the download completes and the runtime can be made usable. */
  lemma InstallsFromNothing(s: State, p: nat)
    requires Begins(s, p) && !s.released
    ensures var t := Exec(s, Acquiring(p) + Downloaded(p) + MadeReady(p) + Freeing(p));
      p in t.procs && t.procs[p].pc == Done && t.released && t.ready && t.lock.None?
  {
    hide *;
    var steps := Acquiring(p) + Downloaded(p);
    Unpacks(s, p);
    Acquires(s, p);
    Downloads(s, p, Acquiring(p));
    MakesReady(s, p, steps);
    Frees(s, p, steps + MadeReady(p), true, true);
    PointReads(s, p, Done, true, true);
  }

  lemma Unpacks(s: State, p: nat)
    requires Begins(s, p)
    ensures Live(s, p) && p in s.procs
  {
  }

  lemma PointReads(s: State, p: nat, pc: Pc, released: bool, ready: bool)
    requires p in s.procs
    ensures var t := With(s, p, Point(s, p, pc, false, released, ready));
      && p in t.procs && t.procs[p].pc == pc && t.released == released && t.ready == ready && t.lock.None?
  {
  }

  /** One that finds a release whose runtime is not usable makes it usable without a download. */
  lemma RepairsRuntime(s: State, p: nat)
    requires Begins(s, p) && s.released
    ensures forall skip: bool ::
      var t := Exec(s, Acquiring(p) + [By(p, CheckRelease(skip))] + MadeReady(p) + Freeing(p));
      p in t.procs && t.procs[p].pc == Done && t.released && t.ready && t.lock.None?
  {
    forall skip: bool
      ensures var t := Exec(s, Acquiring(p) + [By(p, CheckRelease(skip))] + MadeReady(p) + Freeing(p));
        p in t.procs && t.procs[p].pc == Done && t.released && t.ready && t.lock.None?
    {
      Acquires(s, p);
      OneFurther(s, p, Acquiring(p), Point(s, p, Checked, true, true, false), CheckRelease(skip));
      var steps := Acquiring(p) + [By(p, CheckRelease(skip))];
      hide Acquiring, MadeReady, Freeing, With, Exec;
      MakesReady(s, p, steps);
      Frees(s, p, steps + MadeReady(p), true, true);
      PointReads(s, p, Done, true, true);
    }
  }

  /** One that is told to skip and finds nothing released frees the lock and ends, and nothing else has changed. */
  lemma SkipsDownload(s: State, p: nat)
    requires Begins(s, p) && !s.released
    ensures var t := Exec(s, Acquiring(p) + [By(p, CheckRelease(true))] + Freeing(p));
      p in t.procs && t.procs[p].pc == Done && !t.released && t.ready == s.ready && t.lock.None?
  {
    Acquires(s, p);
    OneFurther(s, p, Acquiring(p), Point(s, p, Checked, true, false, s.ready), CheckRelease(true));
    hide Acquiring, Freeing, With, Exec;
    Frees(s, p, Acquiring(p) + [By(p, CheckRelease(true))], false, s.ready);
    PointReads(s, p, Done, false, s.ready);
  }

  lemma FailurePoints(s: State, p: nat, ready: bool)
    requires Live(s, p)
    ensures EffectOf(With(s, p, Point(s, p, Downloading, true, false, ready)), p, DownloadFails)
         == Point(s, p, Releasing, true, false, ready)
    ensures EffectOf(With(s, p, Point(s, p, Wiped, true, false, ready)), p, DownloadFails)
         == Point(s, p, Releasing, true, false, ready)
    ensures EffectOf(With(s, p, Point(s, p, Bootstrapping, true, true, false)), p, Bootstrap(false))
         == Point(s, p, Releasing, true, true, false)
  {
  }

  /** One whose download fails, before or after the old release is wiped, or whose runtime does not become usable, frees
      the lock and ends, with what was installed by then. */
  lemma FailureFrees(s: State, p: nat, steps: seq<Step>, pc: Pc, ready: bool)
    requires Live(s, p) && pc in {Downloading, Wiped, Bootstrapping} && (pc == Bootstrapping ==> !ready)
    requires Exec(s, steps) == With(s, p, Point(s, p, pc, true, pc == Bootstrapping, ready))
    ensures var fails := if pc == Bootstrapping then Bootstrap(false) else DownloadFails;
      var t := Exec(s, steps + [By(p, fails)] + Freeing(p));
      p in t.procs && t.procs[p].pc == Done && t.released == (pc == Bootstrapping) && t.ready == ready && t.lock.None?
  {
    hide EffectOf, With, Exec, Point, Freeing;
    var fails := if pc == Bootstrapping then Bootstrap(false) else DownloadFails;
    FailurePoints(s, p, ready);
    PointStep(s, p, steps, pc, pc == Bootstrapping, ready, fails, Point(s, p, Releasing, true, pc == Bootstrapping, ready));
    Frees(s, p, steps + [By(p, fails)], pc == Bootstrapping, ready);
    PointReads(s, p, Done, pc == Bootstrapping, ready);
  }

  /** One that finds everything installed leaves at once, and one that finds it so with the lock in hand frees the lock. */
  lemma LeavesInstalled(s: State, p: nat)
    requires Live(s, p) && s.released && s.ready
    ensures s.procs[p].pc == Starting ==> Next(s, By(p, CheckFirst)) == s.(procs := s.procs[p := s.procs[p].(pc := Done)])
    ensures s.procs[p].pc == Locked && s.procs[p].madeAt == s.now
            && s.lock == Some(Lock(Some(Owner(p, s.procs[p].token)), s.now)) ==>
      var t := Exec(s, [By(p, CheckAgain)] + Freeing(p));
      p in t.procs && t.procs[p].pc == Done && t.released && t.ready && t.lock.None?
  {
    if s.procs[p].pc == Locked && s.procs[p].madeAt == s.now
       && s.lock == Some(Lock(Some(Owner(p, s.procs[p].token)), s.now))
    {
      var first := Point(s, p, Locked, true, true, true);
      assert s.procs[p := s.procs[p]] == s.procs;
      assert Exec(s, []) == With(s, p, first);
      OneFurther(s, p, [], first, CheckAgain);
      assert [] + [By(p, CheckAgain)] == [By(p, CheckAgain)];
      Frees(s, p, [By(p, CheckAgain)], true, true);
      PointReads(s, p, Done, true, true);
    }
  }

  /** Told to skip, an installer in no interleaving comes near a download: none of its steps changes the release, and it
      makes a runtime usable only of a release that is there. */
  lemma {:induction false} SkipNeverDownloads(init: State, steps: seq<Step>, p: nat, step: Step)
    requires p in init.procs && init.procs[p].pc == Starting
    requires By(p, CheckRelease(false)) !in steps && step.By? && step.pid == p && step.action != CheckRelease(false)
    ensures var s := Exec(init, steps);
      && p in s.procs && !NearDownload(s.procs[p].pc)
      && Next(s, step).released == s.released && (Next(s, step).ready == s.ready || s.released)
  {
    NoDownloadPoint(init, steps, p);
    StaysAway(Exec(init, steps), step, p);
  }

  lemma {:induction false} NoDownloadPoint(s: State, steps: seq<Step>, p: nat)
    requires p in s.procs && !NearDownload(s.procs[p].pc) && By(p, CheckRelease(false)) !in steps
    ensures p in Exec(s, steps).procs && !NearDownload(Exec(s, steps).procs[p].pc)
    decreases |steps|
  {
    if steps != [] {
      hide Next;
      assert steps[0] in steps;
      StaysAway(s, steps[0], p);
      NoDownloadPoint(Next(s, steps[0]), steps[1..], p);
    }
  }

  predicate NearDownload(pc: Pc) {
    pc == MayDownload || pc == Downloading || pc == Wiped
  }

  lemma StaysAway(s: State, step: Step, p: nat)
    requires p in s.procs && !NearDownload(s.procs[p].pc) && step != By(p, CheckRelease(false))
    ensures p in Next(s, step).procs && !NearDownload(Next(s, step).procs[p].pc)
    ensures step.By? && step.pid == p ==>
      Next(s, step).released == s.released && (Next(s, step).ready == s.ready || s.released)
  {
    hide EffectOf;
    if step.By? && Live(s, step.pid) {
      if step.pid == p {
        SelfAway(s, p, step.action);
      } else {
        OthersStay(s, step.pid, step.action, p);
      }
    }
  }

  lemma SelfAway(s: State, p: nat, action: Action)
    requires Live(s, p) && !NearDownload(s.procs[p].pc) && action != CheckRelease(false)
    ensures var e := EffectOf(s, p, action);
      !NearDownload(e.proc.pc) && e.released == s.released && (e.ready == s.ready || s.released)
  {
  }

  // ---------- reclaim split into reading and removing ----------

  const FRESH := Proc(Starting, true, 0, 0)

  function Three(): State {
    State(None, map[1 := FRESH.(token := 1), 2 := FRESH.(token := 2), 3 := FRESH.(token := 3)], 0, false, false, false)
  }

  function OwnedBy(p: nat): Option<Lock> {
    Some(Lock(Some(Owner(p, p)), 0))
  }

  /** A process waiting before a free lock makes it and records itself. */
  lemma Takes(s: State, p: nat)
    requires Live(s, p) && s.procs[p] == FRESH.(pc := Waiting, token := p) && s.lock.None? && s.now == 0
    ensures Exec(s, [By(p, TryMkdir), By(p, WriteOwner)])
      == s.(lock := OwnedBy(p), procs := s.procs[p := FRESH.(pc := Locked, token := p)])
  {
    var t := s.(lock := Some(Lock(None, 0)), procs := s.procs[p := FRESH.(pc := Made, token := p)]);
    assert Next(s, By(p, TryMkdir)) == t;
    var u := s.(lock := OwnedBy(p), procs := s.procs[p := FRESH.(pc := Locked, token := p)]);
    assert Next(t, By(p, WriteOwner)) == u by { assert t.procs[p := u.procs[p]] == u.procs; }
    Chain2(s, [By(p, TryMkdir), By(p, WriteOwner)], u);
  }

  /** With reclaim split, exclusion fails: two waiting installers judge the lock of a dead one stale, the first takes it
      over, and the second then removes the first one's live lock and takes it too. */
  lemma SplitReclaimBreaksExclusion()
    ensures Initial(Three())
    ensures exists steps :: LiveHolder(Exec(Three(), steps), 2) && LiveHolder(Exec(Three(), steps), 3)
  {
    var a := FirstDies();
    var b := BothChoose();
    var c := [By(2, RemoveReclaimed)] + [By(2, TryMkdir), By(2, WriteOwner)];
    var d := [By(3, RemoveReclaimed)] + [By(3, TryMkdir), By(3, WriteOwner)];
    hide *;
    BothTake(Exec(Exec(Three(), a), b));
    ExecJoin(Three(), a, b);
    ExecJoin(Three(), a + b, c);
    ExecJoin(Three(), a + b + c, d);
    assert LiveHolder(Exec(Three(), a + b + c + d), 2) && LiveHolder(Exec(Three(), a + b + c + d), 3);
    ThreeIsInitial();
  }

  lemma ThreeIsInitial()
    ensures Initial(Three())
  {
  }

  /** One after the other, both remove the lock and take it. */
  lemma BothTake(s: State)
    requires s.now == 0 && Live(s, 2) && Live(s, 3)
    requires s.procs[2] == FRESH.(pc := ReclaimChosen, token := 2) && s.procs[3] == FRESH.(pc := ReclaimChosen, token := 3)
    ensures var c := [By(2, RemoveReclaimed)] + [By(2, TryMkdir), By(2, WriteOwner)];
      var d := [By(3, RemoveReclaimed)] + [By(3, TryMkdir), By(3, WriteOwner)];
      LiveHolder(Exec(Exec(s, c), d), 2) && LiveHolder(Exec(Exec(s, c), d), 3)
  {
    hide Act, EffectOf, Exec, Next;
    TakesOver(s, 2);
    TakesOver(Exec(s, [By(2, RemoveReclaimed)] + [By(2, TryMkdir), By(2, WriteOwner)]), 3);
  }

  /** A process that has judged some lock stale removes whatever lock is there and takes it. */
  lemma TakesOver(s: State, p: nat)
    requires Live(s, p) && s.procs[p] == FRESH.(pc := ReclaimChosen, token := p) && s.now == 0
    ensures Exec(s, [By(p, RemoveReclaimed)] + [By(p, TryMkdir), By(p, WriteOwner)])
      == s.(lock := OwnedBy(p), procs := s.procs[p := FRESH.(pc := Locked, token := p)])
  {
    var t := s.(lock := None, procs := s.procs[p := FRESH.(pc := Waiting, token := p)]);
    assert Next(s, By(p, RemoveReclaimed)) == t;
    Takes(t, p);
    assert t.procs[p := FRESH.(pc := Locked, token := p)] == s.procs[p := FRESH.(pc := Locked, token := p)];
    Chain1(s, By(p, RemoveReclaimed));
    ExecJoin(s, [By(p, RemoveReclaimed)], [By(p, TryMkdir), By(p, WriteOwner)]);
  }

  /** Installer 1 takes the lock and dies. */
  lemma FirstDies() returns (steps: seq<Step>)
    ensures Exec(Three(), steps)
      == Three().(lock := OwnedBy(1), procs := Three().procs[1 := Proc(Locked, false, 1, 0)])
  {
    var s := Three();
    var t := s.(procs := s.procs[1 := FRESH.(pc := Waiting, token := 1)]);
    assert Next(s, By(1, CheckFirst)) == t;
    Takes(t, 1);
    var u := t.(lock := OwnedBy(1), procs := t.procs[1 := FRESH.(pc := Locked, token := 1)]);
    var v := s.(lock := OwnedBy(1), procs := s.procs[1 := Proc(Locked, false, 1, 0)]);
    assert Next(u, By(1, Die)) == v by { assert u.procs[1 := v.procs[1]] == v.procs; }
    var ab := [By(1, CheckFirst)] + [By(1, TryMkdir), By(1, WriteOwner)];
    Chain1(s, By(1, CheckFirst));
    ExecJoin(s, [By(1, CheckFirst)], [By(1, TryMkdir), By(1, WriteOwner)]);
    Chain1(u, By(1, Die));
    ExecJoin(s, ab, [By(1, Die)]);
    steps := ab + [By(1, Die)];
  }

  /** Installers 2 and 3 find the dead one's lock and both judge it stale. */
  lemma BothChoose() returns (steps: seq<Step>)
    ensures var s := Three().(lock := OwnedBy(1), procs := Three().procs[1 := Proc(Locked, false, 1, 0)]);
      var t := Exec(s, steps);
      && t.now == 0 && Live(t, 2) && Live(t, 3)
      && t.procs[2] == FRESH.(pc := ReclaimChosen, token := 2) && t.procs[3] == FRESH.(pc := ReclaimChosen, token := 3)
  {
    var s := Three().(lock := OwnedBy(1), procs := Three().procs[1 := Proc(Locked, false, 1, 0)]);
    Chooses(s, 2);
    var t := Exec(s, [By(2, CheckFirst), By(2, ChooseReclaim(false))]);
    Chooses(t, 3);
    ExecJoin(s, [By(2, CheckFirst), By(2, ChooseReclaim(false))], [By(3, CheckFirst), By(3, ChooseReclaim(false))]);
    steps := [By(2, CheckFirst), By(2, ChooseReclaim(false))] + [By(3, CheckFirst), By(3, ChooseReclaim(false))];
  }

  lemma Chooses(s: State, p: nat)
    requires Live(s, p) && s.procs[p] == FRESH.(token := p) && !s.atomic && !s.released
    requires s.lock == OwnedBy(1) && p != 1 && !Live(s, 1)
    ensures Exec(s, [By(p, CheckFirst), By(p, ChooseReclaim(false))])
      == s.(procs := s.procs[p := FRESH.(pc := ReclaimChosen, token := p)])
  {
    var t := s.(procs := s.procs[p := FRESH.(pc := Waiting, token := p)]);
    assert Next(s, By(p, CheckFirst)) == t;
    var u := s.(procs := s.procs[p := FRESH.(pc := ReclaimChosen, token := p)]);
    assert Next(t, By(p, ChooseReclaim(false))) == u by { assert t.procs[p := u.procs[p]] == u.procs; }
    Chain2(s, [By(p, CheckFirst), By(p, ChooseReclaim(false))], u);
  }

  lemma {:induction false} ExecJoin(s: State, a: seq<Step>, b: seq<Step>)
    ensures Exec(s, a + b) == Exec(Exec(s, a), b)
    decreases |a|
  {
    if a == [] {
      assert a + b == b;
    } else {
      assert (a + b)[1..] == a[1..] + b;
      ExecJoin(Next(s, a[0]), a[1..], b);
    }
  }

  lemma Chain1(s: State, step: Step)
    ensures Exec(s, [step]) == Next(s, step)
  {
    assert [step][1..] == [];
  }

  lemma Chain2(s: State, a: seq<Step>, t: State)
    requires |a| == 2 && Next(Next(s, a[0]), a[1]) == t
    ensures Exec(s, a) == t
  {
    assert a == [a[0]] + [a[1]];
    Chain1(s, a[0]);
    Chain1(Next(s, a[0]), a[1]);
    ExecJoin(s, [a[0]], [a[1]]);
  }
}
