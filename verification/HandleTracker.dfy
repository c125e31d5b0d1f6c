/**
 * The bounded cache of /proc/<pid>/io descriptors kept during one profile window.
 *
 * The operating system is an environment: each operation is told what the kernel would answer (which process
 * instance a path leads to, which opens fail, whether the stat text parses, what a read returns).  Assumed of it:
 * files acquired relative to a directory descriptor belong to the process instance the directory was acquired for, an
 * open returns a number not in use, and a close always releases its number.
 */
module HandleTracker {
  import opened Wrappers
  import opened ResourceSpec

  const MAX_HANDLES: nat := 256

  datatype File = Directory(process: Identity) | IoFile(process: Identity) | StatFile(process: Identity)

  /** The kernel's answers to one validated open: the instance found at the path, if any, and which steps succeed. */
  datatype OpenEnv = OpenEnv(process: Option<Identity>, ioOpens: bool, statOpens: bool, statParses: bool)

  datatype Failure = LimitExceeded | OsError | IdentityMismatch | ReadError

  datatype Result<+T> = Success(value: T) | Failed(failure: Failure)

  type IoValues = map<Field, int>

  /** The failure of the kernel steps of a validated open, or the identity they lead to. */
  function Reached(env: OpenEnv): Option<Identity> {
    if env.ioOpens && env.statOpens && env.statParses then env.process else None
  }

  lemma {:induction false} SomeUnused(s: set<nat>) returns (n: nat)
    ensures n !in s && forall k :: k in s ==> k < n
  {
    n := 0;
    var rest := s;
    while rest != {}
      invariant forall j :: j in s && j !in rest ==> j < n
      decreases rest
    {
      var k :| k in rest;
      rest := rest - {k};
      n := if n <= k then k + 1 else n;
    }
  }

  /** Each identity holds a descriptor of that very process, and nothing else is open. */
  ghost predicate Matches(handles: map<Identity, nat>, kernel: map<nat, File>) {
    && (forall id :: id in handles ==> handles[id] in kernel && kernel[handles[id]] == IoFile(id))
    && (forall fd :: fd in kernel ==> kernel[fd].IoFile? && kernel[fd].process in handles
                                      && handles[kernel[fd].process] == fd)
  }

  lemma StillValid(handles: map<Identity, nat>, kernel: map<nat, File>, id: Identity, fd: nat)
    requires Matches(handles, kernel) && id !in handles && fd !in kernel
    ensures Matches(handles[id := fd], kernel[fd := IoFile(id)])
    ensures |handles[id := fd]| == |handles| + 1
  {
  }

  class ProcIoHandleTracker {
    var handles: map<Identity, nat>
    var openCount: nat
    var readCount: nat
    var readFailureCount: nat
    var reusedReadCount: nat
    var openFailureCount: nat
    var limitExceededCount: nat
    var mismatchCount: nat
    var primeSuccessCount: nat
    var primeFailureCount: nat

    /** Descriptors acquired through this object and not yet closed, with what they refer to. */
    var kernel: map<nat, File>

    ghost predicate Valid()
      reads this
    {
      |handles| <= MAX_HANDLES && Matches(handles, kernel)
    }

    constructor ()
      ensures Valid() && handles == map[] && kernel == map[] && openCount == 0
      ensures readCount == readFailureCount == reusedReadCount == openFailureCount == limitExceededCount == 0
      ensures mismatchCount == primeSuccessCount == primeFailureCount == 0
    {
      handles, kernel, openCount := map[], map[], 0;
      readCount, readFailureCount, reusedReadCount, openFailureCount, limitExceededCount := 0, 0, 0, 0, 0;
      mismatchCount, primeSuccessCount, primeFailureCount := 0, 0, 0;
    }

    method KernelOpen(file: File) returns (fd: nat)
      modifies `kernel
      ensures fd !in old(kernel) && kernel == old(kernel)[fd := file]
    {
      ghost var unused := SomeUnused(kernel.Keys);
      fd :| fd !in kernel;
      kernel := kernel[fd := file];
    }

    method KernelClose(fd: nat)
      modifies `kernel
      ensures kernel == old(kernel) - {fd}
    {
      kernel := kernel - {fd};
    }

    /** Opens and validates one handle.  Succeeds exactly when the identity is already held, or the limit leaves room
        and the kernel leads to a process that is the expected one; only a process not held before adds a handle. */
    method OpenValidated(env: OpenEnv, expected: Option<Identity>) returns (r: Result<(Identity, nat)>)
      requires Valid()
      modifies `handles, `kernel, `openCount, `openFailureCount, `limitExceededCount, `mismatchCount
      ensures Valid()
      ensures forall id :: id in old(handles) ==> id in handles && handles[id] == old(handles)[id]
      ensures r.Success? <==>
        || (expected.Some? && expected.value in old(handles))
        || (|old(handles)| < MAX_HANDLES && Reached(env).Some? && (expected.None? || Reached(env) == expected))
      ensures r.Success? ==>
        && var (id, fd) := r.value;
        && handles.Keys == old(handles).Keys + {id} && handles[id] == fd
        && Some(id) == (if expected.Some? then expected else Reached(env))
      ensures r.Failed? ==> handles == old(handles)
      ensures openCount == old(openCount) + |handles| - |old(handles)|
      ensures openFailureCount == old(openFailureCount) + (if r.Failed? then 1 else 0)
      ensures limitExceededCount == old(limitExceededCount) + (if r == Failed(LimitExceeded) then 1 else 0)
      ensures mismatchCount == old(mismatchCount) + (if r == Failed(IdentityMismatch) then 1 else 0)
      ensures r == Failed(LimitExceeded) <==>
        |old(handles)| >= MAX_HANDLES && !(expected.Some? && expected.value in old(handles))
      ensures r == Failed(IdentityMismatch) ==> expected.Some? && Reached(env).Some? && Reached(env) != expected
    {
      if expected.Some? && expected.value in handles {
        return Success((expected.value, handles[expected.value]));
      }
      if |handles| >= MAX_HANDLES {
        openFailureCount := openFailureCount + 1;
        limitExceededCount := limitExceededCount + 1;
        return Failed(LimitExceeded);
      }
      r := OpenFresh(env, expected);
      openFailureCount := openFailureCount + (if r.Failed? then 1 else 0);
    }

    /** The open proper, with room for one more handle: three files are acquired, at most the I/O file is kept. */
    method OpenFresh(env: OpenEnv, expected: Option<Identity>) returns (r: Result<(Identity, nat)>)
      requires Valid() && |handles| < MAX_HANDLES
      requires expected.Some? ==> expected.value !in handles
      modifies `handles, `kernel, `openCount, `mismatchCount
      ensures Valid()
      ensures r.Success? <==> Reached(env).Some? && (expected.None? || Reached(env) == expected)
      ensures r.Success? ==> Some(r.value.0) == Reached(env) && r.value.0 in handles && handles[r.value.0] == r.value.1
      ensures handles == if r.Success? && r.value.0 !in old(handles) then old(handles)[r.value.0 := r.value.1] else old(handles)
      ensures openCount == old(openCount) + |handles| - |old(handles)|
      ensures mismatchCount == old(mismatchCount) + (if r == Failed(IdentityMismatch) then 1 else 0)
      ensures r.Failed? ==> r == Failed(if Reached(env).Some? then IdentityMismatch else OsError)
    {
      var directoryFd, ioFd, statFd := OpenFiles(env);
      var retained := false;
      if !(ioFd.Some? && statFd.Some? && env.statParses) {
        r := Failed(OsError);
      } else {
        var identity := env.process.value;
        if expected.Some? && identity != expected.value {
          mismatchCount := mismatchCount + 1;
          r := Failed(IdentityMismatch);
        } else if identity in handles {
          r := Success((identity, handles[identity]));
        } else {
          handles := handles[identity := ioFd.value];
          retained := true;
          openCount := openCount + 1;
          r := Success((identity, ioFd.value));
        }
      }
      CloseFiles(statFd, if retained then None else ioFd, directoryFd);
      if retained { StillValid(old(handles), old(kernel), env.process.value, ioFd.value); }
    }

    /** The directory, then "io" and "stat" relative to it, as far as the kernel lets them open. */
    method OpenFiles(env: OpenEnv) returns (directoryFd: Option<nat>, ioFd: Option<nat>, statFd: Option<nat>)
      modifies `kernel
      ensures directoryFd.Some? <==> env.process.Some?
      ensures ioFd.Some? <==> env.process.Some? && env.ioOpens
      ensures statFd.Some? <==> env.process.Some? && env.ioOpens && env.statOpens
      ensures kernel - (Numbers(statFd) + Numbers(ioFd) + Numbers(directoryFd)) == old(kernel)
      ensures ioFd.Some? ==> ioFd.value !in old(kernel)
      ensures ioFd.Some? ==>
        kernel - (Numbers(statFd) + Numbers(None) + Numbers(directoryFd))
        == old(kernel)[ioFd.value := IoFile(env.process.value)]
    {
      directoryFd, ioFd, statFd := None, None, None;
      if env.process.Some? {
        var process := env.process.value;
        var fd := KernelOpen(Directory(process));
        directoryFd := Some(fd);
        if env.ioOpens {
          fd := KernelOpen(IoFile(process));
          ioFd := Some(fd);
          if env.statOpens {
            fd := KernelOpen(StatFile(process));
            statFd := Some(fd);
          }
        }
      }
    }

    method CloseFiles(a: Option<nat>, b: Option<nat>, c: Option<nat>)
      modifies `kernel
      ensures kernel == old(kernel) - (Numbers(a) + Numbers(b) + Numbers(c))
    {
      if a.Some? { KernelClose(a.value); }
      if b.Some? { KernelClose(b.value); }
      if c.Some? { KernelClose(c.value); }
    }

    /** Opens the foreground handle; the identity returned is the one the kernel leads to. */
    method Prime(env: OpenEnv) returns (r: Result<Identity>)
      requires Valid()
      modifies `handles, `kernel, `openCount, `openFailureCount, `limitExceededCount, `mismatchCount, `primeSuccessCount, `primeFailureCount
      ensures Valid() && GrewBy(old(handles), handles, if r.Success? then Some(r.value) else None)
      ensures r.Success? <==> |old(handles)| < MAX_HANDLES && Reached(env).Some?
      ensures r.Success? ==> Some(r.value) == Reached(env)
      ensures openCount == old(openCount) + |handles| - |old(handles)|
      ensures primeSuccessCount == old(primeSuccessCount) + (if r.Success? then 1 else 0)
      ensures primeFailureCount == old(primeFailureCount) + (if r.Failed? then 1 else 0)
      ensures openFailureCount == old(openFailureCount) + (if r.Failed? then 1 else 0)
    {
      var acquired := OpenValidated(env, None);
      if acquired.Failed? {
        primeFailureCount := primeFailureCount + 1;
        r := Failed(acquired.failure);
      } else {
        primeSuccessCount := primeSuccessCount + 1;
        r := Success(acquired.value.0);
      }
    }

    /** Acquires a handle for the identity unless one is held; errors are reported to the caller. */
    method Ensure(env: OpenEnv, id: Identity) returns (r: Result<()>)
      requires Valid()
      modifies `handles, `kernel, `openCount, `openFailureCount, `limitExceededCount, `mismatchCount
      ensures Valid() && GrewBy(old(handles), handles, if r.Success? then Some(id) else None)
      ensures r.Success? <==> id in old(handles) || (|old(handles)| < MAX_HANDLES && Reached(env) == Some(id))
      ensures openCount == old(openCount) + |handles| - |old(handles)|
      ensures openFailureCount == old(openFailureCount) + (if r.Failed? then 1 else 0)
    {
      r := Success(());
      if id !in handles {
        var acquired := OpenValidated(env, Some(id));
        if acquired.Failed? {
          r := Failed(acquired.failure);
        }
      }
    }

    /** Reads the counters of the identity through a held or newly acquired handle.  What comes back is what the
        kernel shows for that very process, even if its pid now belongs to another one. */
    method Read(env: OpenEnv, id: Identity, shows: map<Identity, IoValues>) returns (r: Result<IoValues>)
      requires Valid()
      modifies `handles, `kernel, `openCount, `openFailureCount, `limitExceededCount, `mismatchCount,
        `reusedReadCount, `readCount, `readFailureCount
      ensures Valid()
      ensures GrewBy(old(handles), handles,
        if id in old(handles) || (|old(handles)| < MAX_HANDLES && Reached(env) == Some(id)) then Some(id) else None)
      ensures r.Success? <==> id in handles && id in shows
      ensures r.Success? ==> r.value == shows[id]
      ensures openCount == old(openCount) + |handles| - |old(handles)|
      ensures reusedReadCount == old(reusedReadCount) + (if id in old(handles) then 1 else 0)
      ensures readCount == old(readCount) + (if r.Success? then 1 else 0)
      ensures readFailureCount == old(readFailureCount) + (if r.Failed? && id in handles then 1 else 0)
      ensures openFailureCount == old(openFailureCount) + (if id in handles then 0 else 1)
    {
      var held := Handle(env, id);
      if held.Failed? {
        return Failed(held.failure);
      }
      var process := kernel[held.value].process;
      if process in shows {
        readCount := readCount + 1;
        r := Success(shows[process]);
      } else {
        readFailureCount := readFailureCount + 1;
        r := Failed(ReadError);
      }
    }

    /** The descriptor to read the identity through, opening one if none is held. */
    method Handle(env: OpenEnv, id: Identity) returns (r: Result<nat>)
      requires Valid()
      modifies `handles, `kernel, `openCount, `openFailureCount, `limitExceededCount, `mismatchCount, `reusedReadCount
      ensures Valid() && GrewBy(old(handles), handles, if r.Success? then Some(id) else None)
      ensures r.Success? <==> id in old(handles) || (|old(handles)| < MAX_HANDLES && Reached(env) == Some(id))
      ensures r.Success? ==> r.value == handles[id]
      ensures openCount == old(openCount) + |handles| - |old(handles)|
      ensures openFailureCount == old(openFailureCount) + (if r.Success? then 0 else 1)
      ensures reusedReadCount == old(reusedReadCount) + (if id in old(handles) then 1 else 0)
    {
      if id in handles {
        reusedReadCount := reusedReadCount + 1;
        r := Success(handles[id]);
      } else {
        var acquired := OpenValidated(env, Some(id));
        r := if acquired.Failed? then Failed(acquired.failure) else Success(acquired.value.1);
      }
    }

    method CloseAll(fds: set<nat>)
      modifies `kernel
      ensures kernel == old(kernel) - fds
    {
      var rest := fds;
      while rest != {}
        invariant rest <= fds && kernel == old(kernel) - (fds - rest)
        decreases rest
      {
        var fd :| fd in rest;
        KernelClose(fd);
        rest := rest - {fd};
      }
    }

    /** Closes every handle. */
    method Close()
      requires Valid()
      modifies `handles, `kernel
      ensures Valid() && handles == map[] && kernel == map[]
    {
      assert forall fd :: fd in kernel ==> handles[kernel[fd].process] == fd;
      var closing := handles;
      handles := map[];
      CloseAll(closing.Values);
    }
  }

  /** Handles are kept, and the only one added, if any, is that of id. */
  ghost predicate GrewBy(before: map<Identity, nat>, after: map<Identity, nat>, id: Option<Identity>) {
    && after.Keys == before.Keys + (if id.Some? then {id.value} else {})
    && forall k :: k in before ==> after[k] == before[k]
  }

  function Numbers(fd: Option<nat>): set<nat> {
    if fd.Some? then {fd.value} else {}
  }

  // ---------- whole runs ----------

  datatype Op =
    | PrimeOp(env: OpenEnv)
    | EnsureOp(env: OpenEnv, id: Identity)
    | ReadOp(env: OpenEnv, id: Identity, shows: map<Identity, IoValues>)
    | CloseOp

  function Primes(ops: seq<Op>): nat {
    if ops == [] then 0 else Primes(Init(ops)) + (if Last(ops).PrimeOp? then 1 else 0)
  }

  function Reads(ops: seq<Op>): nat {
    if ops == [] then 0 else Reads(Init(ops)) + (if Last(ops).ReadOp? then 1 else 0)
  }

  /** One operation of a run, with its effect on the figures that are reported. */
  method Apply(t: ProcIoHandleTracker, op: Op)
    requires t.Valid()
    modifies t
    ensures t.Valid()
    ensures !op.CloseOp? ==> t.openCount - |t.handles| == old(t.openCount - |t.handles|)
    ensures op.CloseOp? ==> t.handles == map[] && t.kernel == map[]
    ensures t.primeSuccessCount + t.primeFailureCount
      == old(t.primeSuccessCount + t.primeFailureCount) + (if op.PrimeOp? then 1 else 0)
    ensures t.reusedReadCount - old(t.reusedReadCount)
      <= t.readCount + t.readFailureCount - old(t.readCount + t.readFailureCount)
      <= if op.ReadOp? then 1 else 0
    ensures t.readCount + t.readFailureCount + t.openFailureCount
      >= old(t.readCount + t.readFailureCount + t.openFailureCount) + (if op.ReadOp? then 1 else 0)
  {
    hide GrewBy, Matches, Reached;
    match op {
      case PrimeOp(env) => var _ := t.Prime(env);
      case EnsureOp(env, id) => var _ := t.Ensure(env, id);
      case ReadOp(env, id, shows) => var _ := t.Read(env, id, shows);
      case CloseOp => t.Close();
    }
  }

  /** Any sequence of operations on a fresh tracker, under any answers of the kernel, including pid reuse. */
  method Run(ops: seq<Op>) returns (t: ProcIoHandleTracker)
    ensures fresh(t) && t.Valid()
    ensures CloseOp !in ops ==> t.openCount == |t.handles|
    ensures ops != [] && Last(ops) == CloseOp ==> t.handles == map[] && t.kernel == map[]
    ensures t.primeSuccessCount + t.primeFailureCount == Primes(ops)
    ensures t.readCount + t.readFailureCount <= Reads(ops)
      <= t.readCount + t.readFailureCount + t.openFailureCount
    ensures t.reusedReadCount <= t.readCount + t.readFailureCount
  {
    t := new ProcIoHandleTracker();
    for i := 0 to |ops|
      invariant fresh(t) && t.Valid()
      invariant CloseOp !in ops[..i] ==> t.openCount == |t.handles|
      invariant i > 0 && ops[i - 1] == CloseOp ==> t.handles == map[] && t.kernel == map[]
      invariant t.primeSuccessCount + t.primeFailureCount == Primes(ops[..i])
      invariant t.readCount + t.readFailureCount <= Reads(ops[..i])
      invariant Reads(ops[..i]) <= t.readCount + t.readFailureCount + t.openFailureCount
      invariant t.reusedReadCount <= t.readCount + t.readFailureCount
    {
      assert Init(ops[..i + 1]) == ops[..i] && Last(ops[..i + 1]) == ops[i];
      Apply(t, ops[i]);
    }
    assert ops[..|ops|] == ops;
  }
}
