/** The summary of all construction manifests of a benchmark, and the counting argument behind its verdict. */
module ConstructionSummary {
  import opened Wrappers
  import opened Json
  import opened EvidenceChain
  import opened ReasonCodes
  import opened EvidenceTheorems
  import opened EvidenceMeaning
  import opened HonestRun

  /** Directories in which a run was started: those holding a before phase. */
  function AttemptedDirs(files: Files): set<string> {
    set key | key in files && key.name == PhaseName("before") :: key.dir
  }

  function ReferenceOf(run: Json): Json {
    Get(run, "scenario_construction")
  }

  function References(runs: seq<Json>): seq<Json> {
    if runs == [] then []
    else (if ReferenceOf(runs[0]).Obj? then [ReferenceOf(runs[0])] else []) + References(runs[1..])
  }

  predicate IsValid(c: Codec, files: Files, special: Json -> Reasons, run: Json) {
    ReferenceOf(run).Obj? && Passes(c, files, ReferenceOf(run), run, special)
  }

  function ValidReferences(c: Codec, files: Files, special: Json -> Reasons, runs: seq<Json>): seq<Json> {
    if runs == [] then []
    else
      (if IsValid(c, files, special, runs[0]) then [ReferenceOf(runs[0])] else [])
      + ValidReferences(c, files, special, runs[1..])
  }

  function AuditReasons(c: Codec, files: Files, special: Json -> Reasons, runs: seq<Json>): Reasons {
    if runs == [] then {}
    else
      (if ReferenceOf(runs[0]).Obj? then Audit(c, files, ReferenceOf(runs[0]), runs[0], special) else {})
      + AuditReasons(c, files, special, runs[1..])
  }

  function CountStatus(references: seq<Json>, status: string): nat {
    if references == [] then 0
    else (if Get(references[0], "status") == Str(status) then 1 else 0) + CountStatus(references[1..], status)
  }

  /** The components of an artifact path, the root of an absolute one counting as "/". */
  function PathParts(reference: Json): seq<string> {
    var path := TextOf(Get(reference, "artifact"));
    (if IsAbsolute(path) then ["/"] else []) + Parts(path)
  }

  function ReferencedDirs(references: seq<Json>): set<string> {
    set r | r in references && |PathParts(r)| == 2 :: PathParts(r)[0]
  }

  datatype Summary = Summary(status: string, expected: nat, present: nat, valid: nat, passed: nat, failed: nat,
                             attempts: nat, orphans: set<string>, reasons: Reasons)

  function Summarize(c: Codec, files: Files, special: Json -> Reasons, runs: seq<Json>): Summary {
    var attempted := AttemptedDirs(files);
    var expected := if |runs| < |attempted| then |attempted| else |runs|;
    var references := References(runs);
    var valid := ValidReferences(c, files, special, runs);
    var passed := CountStatus(valid, "pass");
    var orphans := attempted - ReferencedDirs(references);
    Summary(
      if expected > 0 && |valid| == expected && passed == expected then "pass"
      else if references != [] then "failed" else "missing",
      expected, |references|, |valid|, passed, CountStatus(valid, "failed"), |attempted|, orphans,
      AuditReasons(c, files, special, runs)
      + When(|references| != expected, "scenario_manifest_missing")
      + When(orphans != {}, "scenario_manifest_orphan_attempt")
      + When(|valid| != |references|, "scenario_manifest_reference_invalid")
      + When(passed != expected, "scenario_manifest_validation_failed"))
  }

  // ---------- what "pass" means ----------

  /** The run holds a valid reference with status pass. */
  predicate RunPasses(c: Codec, files: Files, special: Json -> Reasons, run: Json) {
    IsValid(c, files, special, run) && Get(ReferenceOf(run), "status") == Str("pass")
  }

  lemma ValidIsReferenced(c: Codec, files: Files, special: Json -> Reasons, run: Json)
    ensures IsValid(c, files, special, run) ==> ReferenceOf(run).Obj?
  {
  }

  lemma {:induction false} Counting(c: Codec, files: Files, special: Json -> Reasons, runs: seq<Json>)
    ensures CountStatus(ValidReferences(c, files, special, runs), "pass")
      <= |ValidReferences(c, files, special, runs)| <= |References(runs)| <= |runs|
    ensures CountStatus(ValidReferences(c, files, special, runs), "pass") == |runs|
      <==> forall i :: 0 <= i < |runs| ==> RunPasses(c, files, special, runs[i])
  {
    hide Passes, Get, IsValid, ReferenceOf;
    if runs != [] {
      ValidIsReferenced(c, files, special, runs[0]);
      Counting(c, files, special, runs[1..]);
      var rest := ValidReferences(c, files, special, runs[1..]);
      if IsValid(c, files, special, runs[0]) {
        assert ([ReferenceOf(runs[0])] + rest)[1..] == rest;
      } else {
        assert [] + rest == rest;
      }
      assert (forall i :: 0 <= i < |runs| ==> RunPasses(c, files, special, runs[i]))
        <==> RunPasses(c, files, special, runs[0])
             && forall i :: 0 <= i < |runs[1..]| ==> RunPasses(c, files, special, runs[1..][i]);
    }
  }

  /** The verdict is pass exactly when there are runs, all of them pass, and no more directories were attempted. */
  lemma PassMeans(c: Codec, files: Files, special: Json -> Reasons, runs: seq<Json>)
    ensures Summarize(c, files, special, runs).status == "pass" <==>
      && runs != [] && |AttemptedDirs(files)| <= |runs|
      && forall i :: 0 <= i < |runs| ==> RunPasses(c, files, special, runs[i])
  {
    hide RunPasses;
    Counting(c, files, special, runs);
  }

  /** In terms of the runs and files themselves: every run ended ok, and its reference and manifests vouch for it. */
  lemma PassVouches(c: Codec, files: Files, special: Json -> Reasons, runs: seq<Json>)
    ensures Summarize(c, files, special, runs).status == "pass" <==>
      && runs != [] && |AttemptedDirs(files)| <= |runs|
      && forall i :: 0 <= i < |runs| ==> RunVouched(c, files, special, runs[i])
  {
    hide *;
    PassMeans(c, files, special, runs);
    forall i | 0 <= i < |runs|
      ensures RunPasses(c, files, special, runs[i]) <==> RunVouched(c, files, special, runs[i])
    {
      RunPassesWhen(c, files, special, runs[i]);
    }
  }

  ghost predicate RunVouched(c: Codec, files: Files, special: Json -> Reasons, run: Json) {
    var reference := Get(run, "scenario_construction");
    reference.Obj? && Get(run, "status") == Str("ok") && Vouches(c, files, reference, run, special)
  }

  lemma RunPassesWhen(c: Codec, files: Files, special: Json -> Reasons, run: Json)
    ensures RunPasses(c, files, special, run) <==> RunVouched(c, files, special, run)
  {
    hide Passes, Vouches, Get;
    PassesWhen(c, files, ReferenceOf(run), run, special);
    if Vouches(c, files, ReferenceOf(run), run, special) {
      VouchedStatus(c, files, ReferenceOf(run), run, special);
    }
  }

  lemma VouchedStatus(c: Codec, files: Files, reference: Json, run: Json, special: Json -> Reasons)
    requires Vouches(c, files, reference, run, special)
    ensures Get(reference, "status") == Str("pass") <==> Get(run, "status") == Str("ok")
  {
    hide ChainFits, PathIs, IsDirName, IsHex64, IsScenarioOf, Get;
  }

  // ---------- the figures of the summary ----------

  ghost function Places(runs: seq<Json>, holds: Json -> bool): set<int> {
    set i | 0 <= i < |runs| && holds(runs[i])
  }

  lemma OnePlaceMore(runs: seq<Json>, holds: Json -> bool)
    requires runs != []
    ensures |Places(runs, holds)| == |Places(runs[1..], holds)| + (if holds(runs[0]) then 1 else 0)
  {
    var rest := Places(runs[1..], holds);
    var moved := Moved(rest);
    MovedSize(rest);
    assert forall i :: 1 <= i < |runs| ==> runs[i] == runs[1..][i - 1];
    assert Places(runs, holds) == moved + (if holds(runs[0]) then {0} else {}) by {
      forall i
        ensures i in Places(runs, holds) <==> i in moved || (i == 0 && holds(runs[0]))
      {
        if i in Places(runs, holds) && i > 0 {
          assert i - 1 in rest;
        }
      }
    }
    assert 0 !in moved;
  }

  function Moved(places: set<int>): set<int> {
    set i | i in places :: i + 1
  }

  lemma MovedHas(places: set<int>, i: int)
    ensures i in Moved(places) <==> i - 1 in places
  {
    if i - 1 in places {
      assert i == i - 1 + 1;
    }
  }

  lemma OneOf<T>(s: set<T>) returns (x: T)
    requires s != {}
    ensures x in s
  {
    x :| x in s;
  }

  lemma {:induction false} MovedSize(places: set<int>)
    ensures |Moved(places)| == |places|
    decreases |places|
  {
    if places != {} {
      var k := OneOf(places);
      MovedSize(places - {k});
      forall i
        ensures i in Moved(places) <==> i in Moved(places - {k}) + {k + 1}
      {
        MovedHas(places, i);
        MovedHas(places - {k}, i);
      }
      MovedHas(places - {k}, k + 1);
      assert Moved(places) == Moved(places - {k}) + {k + 1};
    } else {
      assert Moved(places) == {};
    }
  }

  /** How many runs hold a reference, hold a valid one, and hold a valid one with a given status. */
  lemma {:induction false} FiguresAre(c: Codec, files: Files, special: Json -> Reasons, runs: seq<Json>, status: string)
    ensures |References(runs)| == |Places(runs, (run: Json) => ReferenceOf(run).Obj?)|
    ensures |ValidReferences(c, files, special, runs)|
      == |Places(runs, (run: Json) => IsValid(c, files, special, run))|
    ensures CountStatus(ValidReferences(c, files, special, runs), status)
      == |Places(runs, (run: Json) => IsValid(c, files, special, run) && Get(ReferenceOf(run), "status") == Str(status))|
  {
    hide IsValid, ReferenceOf, Get;
    var present := (run: Json) => ReferenceOf(run).Obj?;
    var valid := (run: Json) => IsValid(c, files, special, run);
    var counted := (run: Json) => IsValid(c, files, special, run) && Get(ReferenceOf(run), "status") == Str(status);
    if runs != [] {
      hide Places;
      FiguresAre(c, files, special, runs[1..], status);
      OnePlaceMore(runs, present);
      OnePlaceMore(runs, valid);
      OnePlaceMore(runs, counted);
      var rest := ValidReferences(c, files, special, runs[1..]);
      assert ([ReferenceOf(runs[0])] + rest)[1..] == rest && [] + rest == rest;
    } else {
      assert Places(runs, present) == {} && Places(runs, valid) == {} && Places(runs, counted) == {};
    }
  }

  predicate Tells(c: Codec, files: Files, special: Json -> Reasons, run: Json, reason: string) {
    ReferenceOf(run).Obj? && reason in Audit(c, files, ReferenceOf(run), run, special)
  }

  lemma {:induction false} AuditReasonsAre(c: Codec, files: Files, special: Json -> Reasons, runs: seq<Json>, reason: string)
    ensures reason in AuditReasons(c, files, special, runs) <==>
      exists i :: 0 <= i < |runs| && Tells(c, files, special, runs[i], reason)
  {
    hide Audit, ReferenceOf, Tells;
    if runs != [] {
      hide AuditReasons;
      AuditReasonsAre(c, files, special, runs[1..], reason);
      FirstTells(c, files, special, runs, reason);
      if i :| 0 <= i < |runs[1..]| && Tells(c, files, special, runs[1..][i], reason) {
        assert Tells(c, files, special, runs[i + 1], reason);
      }
      if i :| 1 <= i < |runs| && Tells(c, files, special, runs[i], reason) {
        assert Tells(c, files, special, runs[1..][i - 1], reason);
      }
    }
  }

  lemma FirstTells(c: Codec, files: Files, special: Json -> Reasons, runs: seq<Json>, reason: string)
    requires runs != []
    ensures reason in AuditReasons(c, files, special, runs) <==>
      Tells(c, files, special, runs[0], reason) || reason in AuditReasons(c, files, special, runs[1..])
  {
    hide Audit, ReferenceOf;
  }

  /** Without a pass, the verdict is failed when some run holds a reference, and missing when none does. */
  lemma FailedOrMissing(c: Codec, files: Files, special: Json -> Reasons, runs: seq<Json>)
    ensures var status := Summarize(c, files, special, runs).status;
      && (status == "missing" <==> forall i :: 0 <= i < |runs| ==> !ReferenceOf(runs[i]).Obj?)
      && (status == "pass" || status == "failed" || status == "missing")
  {
    hide AttemptedDirs, ReferencedDirs, AuditReasons, CountStatus, ReferenceOf, IsValid;
    Counting(c, files, special, runs);
    NoReferences(runs);
    assert Summarize(c, files, special, runs).status == "pass" ==> References(runs) != [];
  }

  /** The figures count runs, and a reason is told exactly when some audit gives it or the figures do. */
  lemma SummaryTells(c: Codec, files: Files, special: Json -> Reasons, runs: seq<Json>, reason: string)
    ensures var s, attempts := Summarize(c, files, special, runs), |AttemptedDirs(files)|;
      && s.attempts == attempts && s.expected == (if attempts > |runs| then attempts else |runs|)
      && s.present == |Places(runs, (run: Json) => ReferenceOf(run).Obj?)|
      && s.valid == |Places(runs, (run: Json) => IsValid(c, files, special, run))|
      && s.passed
         == |Places(runs, (run: Json) => IsValid(c, files, special, run) && Get(ReferenceOf(run), "status") == Str("pass"))|
      && s.failed
         == |Places(runs, (run: Json) => IsValid(c, files, special, run) && Get(ReferenceOf(run), "status") == Str("failed"))|
    ensures var s := Summarize(c, files, special, runs);
      reason in s.reasons <==>
        || (exists i :: 0 <= i < |runs| && Tells(c, files, special, runs[i], reason))
        || (reason == "scenario_manifest_missing" && s.present != s.expected)
        || (reason == "scenario_manifest_orphan_attempt" && s.orphans != {})
        || (reason == "scenario_manifest_reference_invalid" && s.valid != s.present)
        || (reason == "scenario_manifest_validation_failed" && s.passed != s.expected)
  {
    hide AttemptedDirs, ReferencedDirs, References, ValidReferences, AuditReasons, CountStatus, Places, IsValid, ReferenceOf,
         Tells, Get;
    FiguresAre(c, files, special, runs, "pass");
    FiguresAre(c, files, special, runs, "failed");
    AuditReasonsAre(c, files, special, runs, reason);
  }

  lemma {:induction false} NoReferences(runs: seq<Json>)
    ensures References(runs) == [] <==> forall i :: 0 <= i < |runs| ==> !ReferenceOf(runs[i]).Obj?
  {
    if runs != [] {
      hide ReferenceOf;
      NoReferences(runs[1..]);
      assert forall i :: 1 <= i < |runs| ==> runs[i] == runs[1..][i - 1];
    }
  }

  function RunDir(run: Json): string {
    if |PathParts(ReferenceOf(run))| == 2 then PathParts(ReferenceOf(run))[0] else ""
  }

  /** A valid reference points into a directory that was attempted, and its final manifest carries the run's ordinal. */
  lemma ValidRunDir(c: Codec, files: Files, special: Json -> Reasons, run: Json)
    requires IsValid(c, files, special, run)
    ensures |PathParts(ReferenceOf(run))| == 2 && RunDir(run) in AttemptedDirs(files)
    ensures var key := FileKey(RunDir(run), FINAL_NAME);
      && key in files && files[key].Content? && c.parse(files[key].bytes).Some?
      && Get(c.parse(files[key].bytes).value, "round_ordinal") == Get(run, "ordinal")
  {
    PassingIsBound(c, files, ReferenceOf(run), run, special);
    hide Passes, Parts, IsDirName;
    var key := FileKey(RunDir(run), PhaseName("before"));
    assert key in files;
  }

  ghost predicate DistinctOrdinals(runs: seq<Json>) {
    forall i, j :: 0 <= i < j < |runs| ==> Get(runs[i], "ordinal") != Get(runs[j], "ordinal")
  }

  lemma OrdinalsOfRest(runs: seq<Json>)
    requires DistinctOrdinals(runs) && runs != []
    ensures DistinctOrdinals(runs[1..])
  {
  }

  function DirsOf(runs: seq<Json>): set<string> {
    set run | run in runs :: RunDir(run)
  }

  lemma {:induction false} AsManyDirs(c: Codec, files: Files, special: Json -> Reasons, runs: seq<Json>)
    requires forall i :: 0 <= i < |runs| ==> IsValid(c, files, special, runs[i])
    requires DistinctOrdinals(runs)
    ensures |DirsOf(runs)| == |runs|
  {
    hide IsValid, RunDir, Get, AttemptedDirs;
    if runs == [] {
      assert DirsOf(runs) == {};
    } else {
      var run, rest := runs[0], runs[1..];
      assert runs == [run] + rest;
      OrdinalsOfRest(runs);
      AsManyDirs(c, files, special, rest);
      NewDir(c, files, special, runs);
      OneMoreDir(run, rest);
    }
  }

  /** The first run's directory is not that of a later one: the one final manifest in it has one ordinal. */
  lemma NewDir(c: Codec, files: Files, special: Json -> Reasons, runs: seq<Json>)
    requires runs != [] && DistinctOrdinals(runs)
    requires forall i :: 0 <= i < |runs| ==> IsValid(c, files, special, runs[i])
    ensures RunDir(runs[0]) !in DirsOf(runs[1..])
  {
    hide IsValid, RunDir, Get, AttemptedDirs;
    ValidRunDir(c, files, special, runs[0]);
    forall run | run in runs[1..]
      ensures RunDir(run) != RunDir(runs[0])
    {
      var j :| 1 <= j < |runs| && runs[j] == run;
      ValidRunDir(c, files, special, runs[j]);
    }
  }

  lemma OneMoreDir(run: Json, rest: seq<Json>)
    ensures DirsOf([run] + rest) == {RunDir(run)} + DirsOf(rest)
  {
    hide RunDir;
    assert forall r :: r in [run] + rest <==> r == run || r in rest;
  }

  lemma SameSizeSubset<T>(a: set<T>, b: set<T>)
    requires a <= b && |b| <= |a|
    ensures a == b
  {
    if x :| x in b && x !in a {
      assert |b| == |b - {x}| + 1 && a <= b - {x};
      SubsetSize(a, b - {x});
    }
  }

  lemma {:induction false} SubsetSize<T>(a: set<T>, b: set<T>)
    requires a <= b
    ensures |a| <= |b|
    decreases a
  {
    if a != {} {
      var x :| x in a;
      SubsetSize(a - {x}, b - {x});
    }
  }

  lemma {:induction false} ReferenceInList(runs: seq<Json>, i: nat)
    requires i < |runs| && ReferenceOf(runs[i]).Obj?
    ensures ReferenceOf(runs[i]) in References(runs)
  {
    if i > 0 {
      ReferenceInList(runs[1..], i - 1);
    }
  }

  lemma {:induction false} ReferenceFromRun(runs: seq<Json>, reference: Json)
    requires reference in References(runs)
    ensures exists i :: 0 <= i < |runs| && ReferenceOf(runs[i]) == reference
  {
    if ReferenceOf(runs[0]) != reference {
      ReferenceFromRun(runs[1..], reference);
      var i :| 0 <= i < |runs[1..]| && ReferenceOf(runs[1..][i]) == reference;
      assert ReferenceOf(runs[i + 1]) == reference;
    }
  }

  lemma DirsAreReferenced(c: Codec, files: Files, special: Json -> Reasons, runs: seq<Json>)
    requires forall i :: 0 <= i < |runs| ==> IsValid(c, files, special, runs[i])
    ensures DirsOf(runs) == ReferencedDirs(References(runs))
  {
    hide IsValid, PathParts, ReferenceOf, AttemptedDirs, Get, References;
    forall dir
      ensures dir in DirsOf(runs) <==> dir in ReferencedDirs(References(runs))
    {
      if dir in DirsOf(runs) {
        var i :| 0 <= i < |runs| && RunDir(runs[i]) == dir;
        ValidRunDir(c, files, special, runs[i]);
        ValidIsReferenced(c, files, special, runs[i]);
        ReferenceInList(runs, i);
      }
      if dir in ReferencedDirs(References(runs)) {
        var r :| r in References(runs) && |PathParts(r)| == 2 && PathParts(r)[0] == dir;
        ReferenceFromRun(runs, r);
        var i :| 0 <= i < |runs| && ReferenceOf(runs[i]) == r;
        assert RunDir(runs[i]) == dir;
      }
    }
  }

  lemma PassingIsValid(c: Codec, files: Files, special: Json -> Reasons, run: Json)
    requires RunPasses(c, files, special, run)
    ensures IsValid(c, files, special, run)
  {
  }

  /** Exactly when a pass leaves no orphan: when the runs point into as many directories as were attempted. */
  lemma PassHidesOrphanWhen(c: Codec, files: Files, special: Json -> Reasons, runs: seq<Json>)
    requires Summarize(c, files, special, runs).status == "pass"
    ensures Summarize(c, files, special, runs).orphans == {} <==> |DirsOf(runs)| == |AttemptedDirs(files)|
    ensures Summarize(c, files, special, runs).orphans == {} <==> ReferencedDirs(References(runs)) == AttemptedDirs(files)
  {
    hide *;
    PassMeans(c, files, special, runs);
    forall i | 0 <= i < |runs| ensures IsValid(c, files, special, runs[i]) {
      PassingIsValid(c, files, special, runs[i]);
    }
    DirsAreAttempted(c, files, special, runs);
    DirsAreReferenced(c, files, special, runs);
    OrphansAre(c, files, special, runs);
    SubsetWhole(DirsOf(runs), AttemptedDirs(files));
  }

  lemma SubsetWhole<T>(a: set<T>, b: set<T>)
    requires a <= b
    ensures (b - a == {} <==> a == b) && (a == b <==> |a| == |b|)
  {
    if |a| == |b| {
      SameSizeSubset(a, b);
    }
    assert b == a + (b - a);
  }

  lemma DirsAreAttempted(c: Codec, files: Files, special: Json -> Reasons, runs: seq<Json>)
    requires forall i :: 0 <= i < |runs| ==> IsValid(c, files, special, runs[i])
    ensures DirsOf(runs) <= AttemptedDirs(files)
  {
    hide IsValid, RunDir, AttemptedDirs;
    forall dir | dir in DirsOf(runs)
      ensures dir in AttemptedDirs(files)
    {
      var i :| 0 <= i < |runs| && RunDir(runs[i]) == dir;
      ValidRunDir(c, files, special, runs[i]);
    }
  }

  /** Distinct run ordinals are enough for that, so with them the referenced directories are exactly the attempted ones. */
  lemma PassHasNoOrphan(c: Codec, files: Files, special: Json -> Reasons, runs: seq<Json>)
    requires Summarize(c, files, special, runs).status == "pass" && DistinctOrdinals(runs)
    ensures ReferencedDirs(References(runs)) == AttemptedDirs(files)
    ensures Summarize(c, files, special, runs).orphans == {}
  {
    hide *;
    PassMeans(c, files, special, runs);
    forall i | 0 <= i < |runs| ensures IsValid(c, files, special, runs[i]) {
      PassingIsValid(c, files, special, runs[i]);
    }
    AsManyDirs(c, files, special, runs);
    DirsAreAttempted(c, files, special, runs);
    SubsetSize(DirsOf(runs), AttemptedDirs(files));
    PassHidesOrphanWhen(c, files, special, runs);
  }

  lemma OrphansAre(c: Codec, files: Files, special: Json -> Reasons, runs: seq<Json>)
    ensures Summarize(c, files, special, runs).orphans == AttemptedDirs(files) - ReferencedDirs(References(runs))
  {
    hide References, ValidReferences, AuditReasons, AttemptedDirs, ReferencedDirs;
  }

  // ---------- a pass with an orphan ----------

  lemma PhaseIgnores(c: Codec, files: Files, key: FileKey, entry: Entry, chain: Json, dir: string, phase: string,
                     predecessor: Json, run: Json)
    requires key.dir != dir
    ensures AuditPhase(c, files[key := entry], chain, dir, phase, predecessor, run)
         == AuditPhase(c, files, chain, dir, phase, predecessor, run)
  {
    hide ContentReasons, Parts, IsAbsolute;
  }

  lemma ChainIgnores(c: Codec, files: Files, key: FileKey, entry: Entry, payload: Json, dir: string, run: Json)
    requires key.dir != dir
    ensures ChainReasons(c, files[key := entry], payload, dir, run) == ChainReasons(c, files, payload, dir, run)
  {
    hide AuditPhase;
    var chain := Get(payload, "phase_chain");
    PhaseIgnores(c, files, key, entry, chain, dir, "before", Null, run);
    PhaseIgnores(c, files, key, entry, chain, dir, "ready", AuditPhase(c, files, chain, dir, "before", Null, run).sha256, run);
  }

  lemma ArtifactsIgnore(c: Codec, files: Files, key: FileKey, entry: Entry, dir: string, reference: Json, run: Json,
                        special: Json -> Reasons)
    requires key.dir != dir
    ensures ArtifactReasons(c, files[key := entry], dir, reference, run, special)
         == ArtifactReasons(c, files, dir, reference, run, special)
  {
    hide PayloadReasons, ChainReasons, Get, When;
    var final := FileKey(dir, FINAL_NAME);
    if final in files && files[final].Content? && c.parse(files[final].bytes).Some? {
      ChainIgnores(c, files, key, entry, c.parse(files[final].bytes).value, dir, run);
    }
  }

  /** The audit of a reference reads no file outside the directory that the reference names. */
  lemma AuditIgnores(c: Codec, files: Files, key: FileKey, entry: Entry, reference: Json, run: Json,
                     special: Json -> Reasons)
    requires ArtifactPathOk(TextOf(Get(reference, "artifact"))) && key.dir != DirOf(reference)
    ensures Audit(c, files[key := entry], reference, run, special) == Audit(c, files, reference, run, special)
  {
    hide ReferenceReasons, ArtifactReasons, ArtifactPathOk, Parts;
    ArtifactsIgnore(c, files, key, entry, DirOf(reference), reference, run, special);
  }

  /** Listing one passing run twice hides one other attempt from the verdict. */
  lemma RepeatedRunHides(c: Codec, files: Files, special: Json -> Reasons, run: Json, other: string)
    requires RunPasses(c, files, special, run) && AttemptedDirs(files) == {RunDir(run), other} && other != RunDir(run)
    ensures var s := Summarize(c, files, special, [run, run]);
      s.status == "pass" && s.orphans == {other} && "scenario_manifest_orphan_attempt" in s.reasons
  {
    hide *;
    var runs := [run, run];
    PassMeans(c, files, special, runs);
    PassingIsValid(c, files, special, run);
    DirsAreReferenced(c, files, special, runs);
    TwiceOneDir(run);
    OrphansAre(c, files, special, runs);
    OrphansAreTold(c, files, special, runs);
  }

  lemma OrphansAreTold(c: Codec, files: Files, special: Json -> Reasons, runs: seq<Json>)
    ensures var s := Summarize(c, files, special, runs);
      s.orphans != {} ==> "scenario_manifest_orphan_attempt" in s.reasons
  {
    hide References, ValidReferences, AuditReasons, AttemptedDirs, ReferencedDirs, CountStatus;
  }

  lemma TwiceOneDir(run: Json)
    ensures DirsOf([run, run]) == {RunDir(run)}
  {
    hide RunDir;
  }

  /** The store of a recorded run in dir, with a further attempt in other that got no further than its first phase. */
  function WithAttempt(c: Codec, dir: string, other: string): Files {
    Write(c, dir).three.files[FileKey(other, PhaseName("before")) := Content(c.render(Obj(Manifest())))]
  }

  lemma DirOfRun(c: Codec, files: Files, special: Json -> Reasons, run: Json)
    requires IsValid(c, files, special, run)
    ensures ArtifactPathOk(TextOf(Get(ReferenceOf(run), "artifact"))) && DirOf(ReferenceOf(run)) == RunDir(run)
  {
    PassingParts(c, files, ReferenceOf(run), run, special);
    hide Passes, Parts, IsDirName;
  }

  /** A file in another directory does not change whether a run passes. */
  lemma StillPasses(c: Codec, files: Files, key: FileKey, entry: Entry, run: Json, special: Json -> Reasons)
    requires RunPasses(c, files, special, run) && key.dir != RunDir(run)
    ensures RunPasses(c, files[key := entry], special, run)
  {
    hide Audit, ArtifactPathOk, RunDir;
    DirOfRun(c, files, special, run);
    AuditIgnores(c, files, key, entry, ReferenceOf(run), run, special);
  }

  lemma AttemptsOf(files: Files, dir: string, key: FileKey, entry: Entry)
    requires (forall k :: k in files ==> k.dir == dir) && dir in AttemptedDirs(files) && key.name == PhaseName("before")
    ensures AttemptedDirs(files[key := entry]) == {dir, key.dir}
  {
    hide PhaseName;
  }

  lemma OnlyDir(files: Files, dir: string, found: string)
    requires (forall k :: k in files ==> k.dir == dir) && found in AttemptedDirs(files)
    ensures found == dir
  {
  }

  lemma RecordedRunIn(c: Codec, dir: string, special: Json -> Reasons)
    requires Faithful(c) && IsDirName(dir) && forall j :: special(j) == {}
    ensures var w := Write(c, dir);
      var run := RunEntry(w.three.reference);
      && RunPasses(c, w.three.files, special, run) && RunDir(run) == dir && dir in AttemptedDirs(w.three.files)
  {
    hide Write, Passes, RunEntry, Get, RunDir, AttemptedDirs, Faithful;
    var w := Write(c, dir);
    var run := RunEntry(w.three.reference);
    RecordedRunPasses(c, dir, special);
    EntryReads(w.three.reference);
    ReferenceIsObject(c, dir);
    ValidRunDir(c, w.three.files, special, run);
    OnlyDir(w.three.files, dir, RunDir(run));
  }

  lemma ReferenceIsObject(c: Codec, dir: string)
    ensures Write(c, dir).three.reference.Obj?
  {
    hide Manifest, Marked;
  }

  lemma AttemptIsAdded(c: Codec, dir: string, other: string)
    ensures WithAttempt(c, dir, other)
      == Write(c, dir).three.files[FileKey(other, PhaseName("before")) := Content(c.render(Obj(Manifest())))]
  {
  }

  /** It happens: for every codec and any two directory names, the summary of that store over the run listed twice says
      pass although the other attempt is an orphan. */
  lemma RepeatedRunHidesOrphan(c: Codec, dir: string, other: string, special: Json -> Reasons)
    requires Faithful(c) && IsDirName(dir) && dir != other && forall j :: special(j) == {}
    ensures var run := RunEntry(Write(c, dir).three.reference);
      var s := Summarize(c, WithAttempt(c, dir, other), special, [run, run]);
      s.status == "pass" && s.orphans == {other} && "scenario_manifest_orphan_attempt" in s.reasons
  {
    var files := Write(c, dir).three.files;
    var run, key := RunEntry(Write(c, dir).three.reference), FileKey(other, PhaseName("before"));
    var entry := Content(c.render(Obj(Manifest())));
    hide *;
    AttemptIsAdded(c, dir, other);
    RecordedRunPasses(c, dir, special);
    RecordedRunIn(c, dir, special);
    StillPasses(c, files, key, entry, run, special);
    AttemptsOf(files, dir, key, entry);
    RepeatedRunHides(c, files[key := entry], special, run, other);
  }
}
