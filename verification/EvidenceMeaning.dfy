/**
 * What a passing audit has found, said of the reference, the run and the three manifests themselves, without the reason
 * codes by which the auditor comes to its result.
 */
module EvidenceMeaning {
  import opened Wrappers
  import opened Json
  import opened EvidenceChain
  import opened EvidenceTheorems
  import opened ReasonCodes

  /** The scenarios a manifest can be made for, by their name on the command line and their identifier. */
  const SCENARIOS: set<(string, string)> :=
    {("cli-only", "S0"), ("warm", "S1"), ("mixed-recovery", "S3"), ("full-cold", "S4"), ("pristine", "S5a")}

  /** The run is of a known scenario, and this is its identifier. */
  predicate IsScenarioOf(id: Json, run: Json) {
    id.Str? && Get(run, "scenario").Str? && (Get(run, "scenario").text, id.text) in SCENARIOS
  }

  function OutcomeOf(run: Json): Json {
    Str(if Get(run, "status") == Str("ok") then "pass" else "failed")
  }

  /** A null reads as an empty list. */
  predicate SameReasonCodes(j: Json, k: Json) {
    (if j.Arr? then j.items else []) == (if k.Arr? then k.items else [])
  }

  /** The reference is well formed, and it is about this run and its outcome. */
  predicate ReferenceFits(reference: Json, run: Json) {
    var all :=
      && Get(reference, "record_type") == Str("ccb_startup_scenario_construction")
      && Get(reference, "schema_version") == Num(1)
      && Get(reference, "sha256").Str? && IsHex64(Get(reference, "sha256").text)
      && Get(reference, "snapshot") == Str("scenario-construction.json")
      && Get(reference, "status") == OutcomeOf(run)
      && Get(reference, "benchmark_id") == Get(run, "benchmark_id")
      && Get(reference, "round_ordinal") == Get(run, "ordinal")
      && Get(reference, "scenario") == Get(run, "scenario") && IsScenarioOf(Get(reference, "scenario_id"), run)
      && Get(reference, "variant") == Get(run, "round_role")
      && Get(reference, "instrumentation_arm") == Get(run, "instrumentation_arm")
      && Get(reference, "reason_codes").Arr?
      && (Get(run, "status") == Str("ok") ==> Get(reference, "reason_codes") == Arr([]));
    all
  }

  /** The manifest names the run it was made for, and keeps nothing private. */
  predicate ManifestNames(m: Json, run: Json) {
    var scenario, privacy := Get(m, "scenario"), Get(m, "privacy");
    var all :=
      && Get(m, "record_type") == Str("ccb_startup_scenario_construction") && Get(m, "schema_version") == Num(1)
      && Get(m, "benchmark_id") == Get(run, "benchmark_id") && Get(m, "round_ordinal") == Get(run, "ordinal")
      && IsScenarioOf(Get(scenario, "id"), run) && Get(scenario, "cli_name") == Get(run, "scenario")
      && Get(scenario, "variant") == Get(run, "round_role")
      && Get(m, "expectation").Obj?
      && Get(Get(m, "expectation"), "instrumentation_arm") == Get(run, "instrumentation_arm")
      && Get(privacy, "agent_names_persisted") == Bool(false) && Get(privacy, "process_ids_persisted") == Bool(false)
      && Get(privacy, "provider_prompts_persisted") == Bool(false)
      && Get(privacy, "raw_runtime_records_persisted") == Bool(false);
    all
  }

  /** A passing manifest tells of a construction, a readiness and an observation that went well. */
  predicate WentWell(m: Json) {
    var ready, observation := Get(m, "ready_for_measurement"), Get(m, "observation");
    && Get(Get(m, "construction"), "status") == Str("ok")
    && Get(ready, "status") == Str("ready") && Get(ready, "reason_codes") == Arr([])
    && Get(observation, "status") == Str("matched")
    && Get(observation, "startup_report_sha256").Str? && IsHex64(Get(observation, "startup_report_sha256").text)
  }

  /** The final manifest reports the run's outcome. */
  predicate ManifestConcludes(m: Json, reference: Json, run: Json, special: Json -> Reasons) {
    var validation := Get(m, "validation");
    && Get(validation, "status") == OutcomeOf(run)
    && SameReasonCodes(Get(validation, "reason_codes"), Get(reference, "reason_codes"))
    && (Get(run, "status") == Str("ok") ==> WentWell(m) && special(m) == {})
  }

  /** The status an earlier phase may have. */
  predicate EarlierStatus(phase: string, status: Json) {
    if phase == "before" then status == Str("pending")
    else status == Str("ready_for_measurement") || status == Str("failed")
  }

  /** The file of an earlier phase is where the chain says, unchanged, in its place of the chain, and about this run. */
  ghost predicate PhaseFits(c: Codec, files: Files, chain: Json, dir: string, phase: string, predecessor: Json, run: Json) {
    var reference, key := Get(chain, phase), FileKey(dir, PhaseName(phase));
    && PathIs(Get(reference, "artifact"), dir, PhaseName(phase))
    && PhaseBound(c, files, chain, dir, phase, predecessor)
    && var m := c.parse(files[key].bytes).value;
       ManifestNames(m, run)
       && EarlierStatus(phase, Get(Get(m, "validation"), "status"))
       && Get(Get(m, "validation"), "status") == Get(reference, "status")
  }

  /** A relative path of two components. */
  predicate PathIs(path: Json, dir: string, name: string) {
    path.Str? && !IsAbsolute(path.text) && Parts(path.text) == [dir, name]
  }

  /** The marker and the chain of a final manifest lead back through the ready manifest to the first. */
  ghost predicate ChainHolds(c: Codec, files: Files, m: Json, dir: string, run: Json) {
    var chain, marker := Get(m, "phase_chain"), Get(m, "audit_phase");
    && Get(marker, "name") == Str("final")
    && Get(marker, "predecessor_sha256") == Get(Get(chain, "ready"), "sha256")
    && PhaseFits(c, files, chain, dir, "before", Null, run)
    && PhaseFits(c, files, chain, dir, "ready", Get(Get(chain, "before"), "sha256"), run)
  }

  /** The three manifests of the directory are this run's, chained by their digests, and the last one concludes as it did. */
  ghost predicate ChainFits(c: Codec, files: Files, dir: string, reference: Json, run: Json, special: Json -> Reasons) {
    var key := FileKey(dir, FINAL_NAME);
    && key in files && files[key].Content? && Get(reference, "sha256") == Str(c.sha256(files[key].bytes))
    && c.parse(files[key].bytes).Some?
    && var m := c.parse(files[key].bytes).value;
       ManifestNames(m, run) && ManifestConcludes(m, reference, run, special) && ChainHolds(c, files, m, dir, run)
  }

  ghost predicate Vouches(c: Codec, files: Files, reference: Json, run: Json, special: Json -> Reasons) {
    && ReferenceFits(reference, run)
    && exists dir :: IsDirName(dir) && PathIs(Get(reference, "artifact"), dir, FINAL_NAME)
         && ChainFits(c, files, dir, reference, run, special)
  }

  // ---------- one group of checks at a time ----------

  lemma ScenarioKnown(id: Json, run: Json)
    ensures IsScenarioOf(id, run) <==> id == SpecId(TextOf(Get(run, "scenario"))) && id != Null
  {
    hide Get;
    assert ("?", "") !in SCENARIOS;
  }

  lemma ScenarioListed(run: Json)
    ensures var id := SpecId(TextOf(Get(run, "scenario")));
      && (id == Null || id in {Str("S0"), Str("S1"), Str("S3"), Str("S4"), Str("S5a")})
      && (id != Null ==> Get(run, "scenario") == Str(TextOf(Get(run, "scenario"))))
  {
    hide Get;
  }

  lemma TextIs(j: Json)
    ensures if j.Str? then TextOf(j) == j.text else |TextOf(j)| <= 1
    ensures IsHex64(TextOf(j)) <==> j.Str? && IsHex64(j.text)
  {
  }

  lemma NoneOf(a: Reasons, b: Reasons)
    ensures a + b == {} <==> a == {} && b == {}
  {
  }

  lemma ReferenceFitsWhen(reference: Json, run: Json)
    ensures ReferenceReasons(reference, run) == {} <==> ReferenceFits(reference, run)
  {
    TextIs(Get(reference, "sha256"));
    TextIs(Get(reference, "snapshot"));
    TextIs(Get(reference, "scenario_id"));
    TextIs(Get(reference, "status"));
    ScenarioKnown(Get(reference, "scenario_id"), run);
    ScenarioListed(run);
    hide Get, TextOf, SpecId, IsHex64, IsScenarioOf;
  }

  lemma PrivacyKept(m: Json)
    ensures var privacy := Get(m, "privacy");
      !PrivacyBroken(m) <==>
        && Get(privacy, "agent_names_persisted") == Bool(false) && Get(privacy, "process_ids_persisted") == Bool(false)
        && Get(privacy, "provider_prompts_persisted") == Bool(false)
        && Get(privacy, "raw_runtime_records_persisted") == Bool(false)
  {
    hide Get;
  }

  lemma WellWhen(m: Json)
    ensures PassSemantics(m) <==> WentWell(m)
  {
    TextIs(Get(Get(m, "observation"), "startup_report_sha256"));
    hide Get, TextOf, IsHex64;
  }

  lemma PartsNeedObjects(j: Json, key: string)
    ensures Get(j, key) != Null ==> j.Obj?
  {
  }

  lemma RoundReasonsNone(m: Json, reference: Json, run: Json)
    ensures RoundReasons(m, reference, run) == {} <==>
      && Get(m, "record_type") == Str(RECORD_TYPE) && Get(m, "schema_version") == Num(SCHEMA_VERSION)
      && Get(m, "benchmark_id") == Get(reference, "benchmark_id") && Get(m, "round_ordinal") == Get(run, "ordinal")
  {
    hide Get;
  }

  lemma ScenarioReasonsNone(m: Json, reference: Json, run: Json)
    ensures var scenario := Get(m, "scenario");
      ScenarioReasons(m, reference, run) == {} <==>
        && scenario.Obj? && Get(scenario, "id") == Get(reference, "scenario_id")
        && Get(scenario, "variant") == Get(reference, "variant")
        && Get(scenario, "cli_name") == Str(TextOf(Get(run, "scenario")))
  {
    hide Get, TextOf;
  }

  lemma OutcomeReasonsNone(m: Json, reference: Json, run: Json)
    ensures var validation := Get(m, "validation");
      OutcomeReasons(m, reference, run) == {} <==>
        && Get(m, "expectation").Obj?
        && Get(Get(m, "expectation"), "instrumentation_arm") == Get(run, "instrumentation_arm")
        && validation.Obj? && Get(validation, "status") == Get(reference, "status")
        && ReasonList(Get(validation, "reason_codes")) == ReasonList(Get(reference, "reason_codes"))
        && (Get(reference, "status") == Str("pass") ==> PassSemantics(m))
        && !PrivacyBroken(m)
  {
    hide Get, PrivacyBroken, PassSemantics, ReasonList;
  }

  lemma PayloadReasonsNone(m: Json, reference: Json, run: Json, special: Json -> Reasons)
    ensures var scenario, validation := Get(m, "scenario"), Get(m, "validation");
      PayloadReasons(m, reference, run, special) == {} <==>
        && Get(m, "record_type") == Str(RECORD_TYPE) && Get(m, "schema_version") == Num(SCHEMA_VERSION)
        && Get(m, "benchmark_id") == Get(reference, "benchmark_id") && Get(m, "round_ordinal") == Get(run, "ordinal")
        && scenario.Obj? && Get(scenario, "id") == Get(reference, "scenario_id")
        && Get(scenario, "variant") == Get(reference, "variant")
        && Get(scenario, "cli_name") == Str(TextOf(Get(run, "scenario")))
        && Get(m, "expectation").Obj?
        && Get(Get(m, "expectation"), "instrumentation_arm") == Get(run, "instrumentation_arm")
        && validation.Obj? && Get(validation, "status") == Get(reference, "status")
        && ReasonList(Get(validation, "reason_codes")) == ReasonList(Get(reference, "reason_codes"))
        && (Get(reference, "status") == Str("pass") ==> PassSemantics(m) && special(m) == {})
        && !PrivacyBroken(m)
  {
    hide RoundReasons, ScenarioReasons, OutcomeReasons, Get, TextOf, PrivacyBroken, PassSemantics, ReasonList;
    RoundReasonsNone(m, reference, run);
    ScenarioReasonsNone(m, reference, run);
    OutcomeReasonsNone(m, reference, run);
  }

  lemma PayloadFitsWhen(m: Json, reference: Json, run: Json, special: Json -> Reasons)
    requires ReferenceFits(reference, run)
    ensures PayloadReasons(m, reference, run, special) == {} <==>
      ManifestNames(m, run) && ManifestConcludes(m, reference, run, special)
  {
    hide Get, TextOf, SpecId, IsHex64, IsScenarioOf, PrivacyBroken, PassSemantics, WentWell, PayloadReasons;
    PayloadReasonsNone(m, reference, run, special);
    PrivacyKept(m);
    WellWhen(m);
    ScenarioKnown(Get(reference, "scenario_id"), run);
    ScenarioKnown(Get(Get(m, "scenario"), "id"), run);
    ScenarioListed(run);
    PartsNeedObjects(Get(m, "scenario"), "id");
    PartsNeedObjects(Get(m, "validation"), "status");
  }

  lemma StatusFits(phase: string, status: Json)
    requires phase in {"before", "ready"}
    ensures EarlierStatus(phase, status) <==>
      && (phase == "before" ==> status == Str("pending"))
      && (phase == "ready" ==> status == Str("ready_for_measurement") || status == Str("failed"))
    ensures EarlierStatus(phase, status) ==> status != Null
  {
    assert "before" != "ready";
  }

  lemma ContentFitsWhen(phase: string, m: Json, run: Json)
    requires phase in {"before", "ready"} && SpecId(TextOf(Get(run, "scenario"))) != Null
    ensures ContentReasons(phase, m, run) == {} <==>
      ManifestNames(m, run) && EarlierStatus(phase, Get(Get(m, "validation"), "status"))
  {
    hide Get, TextOf, SpecId, IsScenarioOf, PrivacyBroken, PhaseReason, EarlierStatus;
    PrivacyKept(m);
    ScenarioKnown(Get(Get(m, "scenario"), "id"), run);
    ScenarioListed(run);
    PartsNeedObjects(Get(m, "scenario"), "id");
    PartsNeedObjects(Get(m, "validation"), "status");
    StatusFits(phase, Get(Get(m, "validation"), "status"));
  }

  lemma PathIsText(path: Json, dir: string, name: string)
    ensures PathIs(path, dir, name) <==> !IsAbsolute(TextOf(path)) && Parts(TextOf(path)) == [dir, name]
  {
    assert |Parts("")| == 0;
    assert |Parts("?")| == 1 by {
      PartsOfName("?", "");
      assert "" + "?" == "?";
    }
  }

  /** The file of the phase can be audited at all. */
  ghost predicate PhaseFound(c: Codec, files: Files, chain: Json, dir: string, phase: string) {
    var key := FileKey(dir, PhaseName(phase));
    && Get(chain, phase).Obj? && PathIs(Get(Get(chain, phase), "artifact"), dir, PhaseName(phase))
    && key in files && files[key].Content? && c.parse(files[key].bytes).Some?
    && c.parse(files[key].bytes).value.Obj?
  }

  lemma PhaseNotFound(c: Codec, files: Files, chain: Json, dir: string, phase: string, predecessor: Json, run: Json)
    requires !PhaseFound(c, files, chain, dir, phase)
    ensures AuditPhase(c, files, chain, dir, phase, predecessor, run).reasons != {}
  {
    PathIsText(Get(Get(chain, phase), "artifact"), dir, PhaseName(phase));
    hide ContentReasons, IsAbsolute, Parts, PhaseReason, PhaseName, PathIs, Get, TextOf;
  }

  lemma PhaseWasFound(c: Codec, files: Files, chain: Json, dir: string, phase: string, predecessor: Json, run: Json)
    requires PhaseFound(c, files, chain, dir, phase)
    ensures var key := FileKey(dir, PhaseName(phase));
      var m, audit := c.parse(files[key].bytes).value, AuditPhase(c, files, chain, dir, phase, predecessor, run);
      && audit.sha256 == Str(c.sha256(files[key].bytes))
      && (audit.reasons == {} <==>
            && audit.sha256 == Get(Get(chain, phase), "sha256")
            && Get(Get(m, "audit_phase"), "name") == Str(phase)
            && Get(Get(m, "audit_phase"), "predecessor_sha256") == predecessor
            && Get(Get(m, "validation"), "status") == Get(Get(chain, phase), "status")
            && ContentReasons(phase, m, run) == {})
  {
    PathIsText(Get(Get(chain, phase), "artifact"), dir, PhaseName(phase));
    hide ContentReasons, IsAbsolute, Parts, PhaseReason, PhaseName, PathIs, Get, TextOf;
  }

  lemma PhaseFitsWhen(c: Codec, files: Files, chain: Json, dir: string, phase: string, predecessor: Json, run: Json)
    requires phase in {"before", "ready"} && SpecId(TextOf(Get(run, "scenario"))) != Null
    ensures var audit := AuditPhase(c, files, chain, dir, phase, predecessor, run);
      && (audit.reasons == {} <==> PhaseFits(c, files, chain, dir, phase, predecessor, run))
      && (audit.reasons == {} ==> audit.sha256 == Get(Get(chain, phase), "sha256"))
  {
    hide ContentReasons, AuditPhase, ManifestNames, EarlierStatus, PathIs, Get, PhaseName, PhaseFits, PhaseFound, SpecId;
    if PhaseFound(c, files, chain, dir, phase) {
      var key := FileKey(dir, PhaseName(phase));
      assert key in files && files[key].Content? && c.parse(files[key].bytes).Some? by {
        FoundFile(c, files, chain, dir, phase);
      }
      PhaseWasFound(c, files, chain, dir, phase, predecessor, run);
      ContentFitsWhen(phase, c.parse(files[key].bytes).value, run);
      FoundFitsWhen(c, files, chain, dir, phase, predecessor, run);
    } else {
      PhaseNotFound(c, files, chain, dir, phase, predecessor, run);
      if PhaseFits(c, files, chain, dir, phase, predecessor, run) {
        PhaseFitsFound(c, files, chain, dir, phase, predecessor, run);
      }
    }
  }

  lemma FoundFile(c: Codec, files: Files, chain: Json, dir: string, phase: string)
    requires PhaseFound(c, files, chain, dir, phase)
    ensures var key := FileKey(dir, PhaseName(phase));
      key in files && files[key].Content? && c.parse(files[key].bytes).Some?
  {
    hide PathIs, Get, PhaseName;
  }

  lemma FoundFitsWhen(c: Codec, files: Files, chain: Json, dir: string, phase: string, predecessor: Json, run: Json)
    requires PhaseFound(c, files, chain, dir, phase)
    ensures var key := FileKey(dir, PhaseName(phase));
      var m := c.parse(files[key].bytes).value;
      PhaseFits(c, files, chain, dir, phase, predecessor, run) <==>
        && Str(c.sha256(files[key].bytes)) == Get(Get(chain, phase), "sha256")
        && Get(Get(m, "audit_phase"), "name") == Str(phase)
        && Get(Get(m, "audit_phase"), "predecessor_sha256") == predecessor
        && Get(Get(m, "validation"), "status") == Get(Get(chain, phase), "status")
        && ManifestNames(m, run) && EarlierStatus(phase, Get(Get(m, "validation"), "status"))
  {
    hide ManifestNames, EarlierStatus, PathIs, PhaseName, Get;
  }

  lemma PhaseFitsFound(c: Codec, files: Files, chain: Json, dir: string, phase: string, predecessor: Json, run: Json)
    requires PhaseFits(c, files, chain, dir, phase, predecessor, run)
    ensures PhaseFound(c, files, chain, dir, phase)
  {
    hide ManifestNames, EarlierStatus, PathIs, PhaseName, IsHex64, Get, Parts;
    var key := FileKey(dir, PhaseName(phase));
    var m := c.parse(files[key].bytes).value;
    PartsNeedObjects(Get(chain, phase), "sha256");
    PartsNeedObjects(m, "audit_phase");
    PartsNeedObjects(Get(m, "audit_phase"), "name");
    NullHasNothing("name");
  }

  lemma NullHasNothing(key: string)
    ensures Get(Null, key) == Null
  {
  }

  lemma ChainFitsWhen(c: Codec, files: Files, m: Json, dir: string, run: Json)
    requires SpecId(TextOf(Get(run, "scenario"))) != Null
    ensures ChainReasons(c, files, m, dir, run) == {} <==> ChainHolds(c, files, m, dir, run)
  {
    hide AuditPhase, PhaseFits, Get, ChainReasons, SpecId;
    ChainReasonsNone(c, files, m, dir, run);
    var chain, marker := Get(m, "phase_chain"), Get(m, "audit_phase");
    var before := AuditPhase(c, files, chain, dir, "before", Null, run);
    PhaseFitsWhen(c, files, chain, dir, "before", Null, run);
    PhaseFitsWhen(c, files, chain, dir, "ready", before.sha256, run);
    PartsNeedObjects(marker, "name");
    if PhaseFits(c, files, chain, dir, "before", Null, run) {
      PhaseNeedsChain(c, files, chain, dir, "before", Null, run);
    }
  }

  lemma ChainReasonsNone(c: Codec, files: Files, m: Json, dir: string, run: Json)
    ensures var chain, marker := Get(m, "phase_chain"), Get(m, "audit_phase");
      var before := AuditPhase(c, files, chain, dir, "before", Null, run);
      var ready := AuditPhase(c, files, chain, dir, "ready", before.sha256, run);
      ChainReasons(c, files, m, dir, run) == {} <==>
        && Get(marker, "name") == Str("final") && chain.Obj? && before.reasons == {} && ready.reasons == {}
        && (marker.Obj? ==> Get(marker, "predecessor_sha256") == ready.sha256)
  {
    hide AuditPhase, Get;
  }

  lemma PhaseNeedsChain(c: Codec, files: Files, chain: Json, dir: string, phase: string, predecessor: Json, run: Json)
    requires PhaseFits(c, files, chain, dir, phase, predecessor, run)
    ensures chain.Obj?
  {
    hide IsAbsolute, Parts, ManifestNames, EarlierStatus, PhaseName, PhaseBound;
  }

  lemma KnownRun(reference: Json, run: Json)
    requires ReferenceFits(reference, run)
    ensures SpecId(TextOf(Get(run, "scenario"))) != Null
  {
    hide Get, TextOf, SpecId, IsHex64, IsScenarioOf;
    ScenarioKnown(Get(reference, "scenario_id"), run);
  }

  lemma ArtifactFitsWhen(c: Codec, files: Files, dir: string, reference: Json, run: Json, special: Json -> Reasons)
    requires ReferenceFits(reference, run)
    ensures ArtifactReasons(c, files, dir, reference, run, special) == {} <==>
      ChainFits(c, files, dir, reference, run, special)
  {
    hide ArtifactReasons, PayloadReasons, ChainReasons, ChainHolds, ManifestNames, ManifestConcludes, ReferenceFits, Get, SpecId;
    ArtifactReasonsNone(c, files, dir, reference, run, special);
    var key := FileKey(dir, FINAL_NAME);
    KnownRun(reference, run);
    if key in files && files[key].Content? && c.parse(files[key].bytes).Some? {
      var m := c.parse(files[key].bytes).value;
      PayloadFitsWhen(m, reference, run, special);
      ChainFitsWhen(c, files, m, dir, run);
      if ChainHolds(c, files, m, dir, run) {
        ChainNeedsObject(c, files, m, dir, run);
      }
    }
  }

  lemma ArtifactReasonsNone(c: Codec, files: Files, dir: string, reference: Json, run: Json, special: Json -> Reasons)
    ensures var key := FileKey(dir, FINAL_NAME);
      ArtifactReasons(c, files, dir, reference, run, special) == {} <==>
        && key in files && files[key].Content? && Get(reference, "sha256") == Str(c.sha256(files[key].bytes))
        && c.parse(files[key].bytes).Some? && c.parse(files[key].bytes).value.Obj?
        && PayloadReasons(c.parse(files[key].bytes).value, reference, run, special) == {}
        && ChainReasons(c, files, c.parse(files[key].bytes).value, dir, run) == {}
  {
    hide PayloadReasons, ChainReasons, Get;
  }

  lemma ChainNeedsObject(c: Codec, files: Files, m: Json, dir: string, run: Json)
    requires ChainHolds(c, files, m, dir, run)
    ensures m.Obj?
  {
    hide PhaseFits, Get;
    PartsNeedObjects(m, "audit_phase");
    NullHasNothing("name");
  }

  lemma PathFitsWhen(reference: Json, dir: string)
    ensures PathFits(reference, dir) <==> IsDirName(dir) && PathIs(Get(reference, "artifact"), dir, FINAL_NAME)
  {
    PathIsText(Get(reference, "artifact"), dir, FINAL_NAME);
    if IsDirName(dir) {
      NotDotDot(dir);
    }
    hide PathIs, Parts, IsAbsolute, IsDirName, Get, TextOf;
  }

  /** A reference is valid exactly when it and the three manifests of its directory are about this run, are chained to one
      another by their digests, and tell of the run's own outcome. */
  lemma PassesWhen(c: Codec, files: Files, reference: Json, run: Json, special: Json -> Reasons)
    ensures Passes(c, files, reference, run, special) <==> Vouches(c, files, reference, run, special)
  {
    hide *;
    AuditFindsNothingWhen(c, files, reference, run, special);
    ReferenceFitsWhen(reference, run);
    forall dir: string
      ensures PathFits(reference, dir) <==> IsDirName(dir) && PathIs(Get(reference, "artifact"), dir, FINAL_NAME)
    {
      PathFitsWhen(reference, dir);
    }
    if ReferenceFits(reference, run) {
      forall dir: string
        ensures ArtifactReasons(c, files, dir, reference, run, special) == {} <==>
          ChainFits(c, files, dir, reference, run, special)
      {
        ArtifactFitsWhen(c, files, dir, reference, run, special);
      }
    }
    VouchesWhen(c, files, reference, run, special);
  }

  /** The path of the reference leads to the final manifest of this directory. */
  predicate PathFits(reference: Json, dir: string) {
    var path := TextOf(Get(reference, "artifact"));
    ArtifactPathOk(path) && Parts(path)[0] == dir
  }

  lemma AuditFindsNothingWhen(c: Codec, files: Files, reference: Json, run: Json, special: Json -> Reasons)
    ensures Passes(c, files, reference, run, special) <==>
      && ReferenceReasons(reference, run) == {}
      && exists dir :: PathFits(reference, dir) && ArtifactReasons(c, files, dir, reference, run, special) == {}
  {
    hide ReferenceReasons, ArtifactReasons, ArtifactPathOk, Parts, Get, TextOf, Audit;
    var path := TextOf(Get(reference, "artifact"));
    AuditNone(c, files, reference, run, special);
    if ArtifactPathOk(path) {
      PathHasDir(path);
      assert PathFits(reference, Parts(path)[0]);
    }
  }

  lemma AuditNone(c: Codec, files: Files, reference: Json, run: Json, special: Json -> Reasons)
    ensures var path := TextOf(Get(reference, "artifact"));
      Audit(c, files, reference, run, special) == {} <==>
        && ReferenceReasons(reference, run) == {} && ArtifactPathOk(path)
        && (|Parts(path)| == 2 ==> ArtifactReasons(c, files, Parts(path)[0], reference, run, special) == {})
  {
    hide ReferenceReasons, ArtifactReasons, Parts, Get, TextOf, IsDirName, IsAbsolute;
  }

  lemma PathHasDir(path: string)
    requires ArtifactPathOk(path)
    ensures |Parts(path)| == 2
  {
  }

  lemma VouchesWhen(c: Codec, files: Files, reference: Json, run: Json, special: Json -> Reasons)
    ensures Vouches(c, files, reference, run, special) <==>
      && ReferenceFits(reference, run)
      && exists dir :: IsDirName(dir) && PathIs(Get(reference, "artifact"), dir, FINAL_NAME)
           && ChainFits(c, files, dir, reference, run, special)
  {
    hide ReferenceFits, PathIs, ChainFits, IsDirName, Get;
  }

  // ---------- which reason is told ----------

  /** Each way in which a reference can fail to be about its run is told by its own reason. */
  lemma MismatchesAreTold(c: Codec, files: Files, reference: Json, run: Json, special: Json -> Reasons)
    ensures var reasons := Audit(c, files, reference, run, special);
      && (Get(reference, "status") != OutcomeOf(run) ==> "scenario_manifest_reference_run_status_mismatch" in reasons)
      && (Get(reference, "benchmark_id") != Get(run, "benchmark_id") ==>
            "scenario_manifest_reference_run_benchmark_mismatch" in reasons)
      && (Get(reference, "round_ordinal") != Get(run, "ordinal") ==>
            "scenario_manifest_reference_run_ordinal_mismatch" in reasons)
      && (Get(run, "scenario").Str? && Get(reference, "scenario") != Get(run, "scenario") ==>
            "scenario_manifest_reference_run_scenario_mismatch" in reasons)
      && (Get(run, "scenario").Str? && Get(reference, "scenario_id").Str?
          && !IsScenarioOf(Get(reference, "scenario_id"), run) ==>
            "scenario_manifest_reference_run_scenario_id_mismatch" in reasons)
      && (Get(reference, "variant") != Get(run, "round_role") ==>
            "scenario_manifest_reference_run_variant_mismatch" in reasons)
      && (Get(reference, "instrumentation_arm") != Get(run, "instrumentation_arm") ==>
            "scenario_manifest_reference_run_instrumentation_mismatch" in reasons)
  {
    hide When, Get, SpecId, TextOf, Audit, IsScenarioOf, IsHex64;
    var scenario := TextOf(Get(run, "scenario"));
    TextIs(Get(run, "scenario"));
    ScenarioKnown(Get(reference, "scenario_id"), run);
    WhenTells(Get(reference, "status") != Str(if Get(run, "status") == Str("ok") then "pass" else "failed"),
              "scenario_manifest_reference_run_status_mismatch");
    WhenTells(Get(reference, "benchmark_id") != Get(run, "benchmark_id"),
              "scenario_manifest_reference_run_benchmark_mismatch");
    WhenTells(Get(reference, "round_ordinal") != Get(run, "ordinal"), "scenario_manifest_reference_run_ordinal_mismatch");
    WhenTells(Get(reference, "scenario") != Str(scenario), "scenario_manifest_reference_run_scenario_mismatch");
    WhenTells(Get(reference, "scenario_id") != SpecId(scenario), "scenario_manifest_reference_run_scenario_id_mismatch");
    WhenTells(Get(reference, "variant") != Get(run, "round_role"), "scenario_manifest_reference_run_variant_mismatch");
    WhenTells(Get(reference, "instrumentation_arm") != Get(run, "instrumentation_arm"),
              "scenario_manifest_reference_run_instrumentation_mismatch");
    AuditTellsReference(c, files, reference, run, special);
  }

  lemma AuditTellsReference(c: Codec, files: Files, reference: Json, run: Json, special: Json -> Reasons)
    ensures MismatchReasons(reference, run) <= Audit(c, files, reference, run, special)
  {
    hide MismatchReasons, ShapeReasons, ArtifactReasons, ArtifactPathOk, Parts, Get;
  }

  /** Each way in which a readable final manifest can fail to be about its run is told by its own reason. */
  lemma RoundFaultsAreTold(m: Json, reference: Json, run: Json)
    ensures var reasons := RoundReasons(m, reference, run);
      && (Get(m, "record_type") != Str("ccb_startup_scenario_construction") ==>
            "scenario_manifest_artifact_record_type_invalid" in reasons)
      && (Get(m, "schema_version") != Num(1) ==> "scenario_manifest_artifact_schema_invalid" in reasons)
      && (Get(m, "benchmark_id") != Get(reference, "benchmark_id") ==>
            "scenario_manifest_artifact_benchmark_mismatch" in reasons)
      && (Get(m, "round_ordinal") != Get(run, "ordinal") ==> "scenario_manifest_artifact_ordinal_mismatch" in reasons)
  {
    hide Get, When;
    WhenTells(Get(m, "record_type") != Str(RECORD_TYPE), "scenario_manifest_artifact_record_type_invalid");
    WhenTells(Get(m, "schema_version") != Num(SCHEMA_VERSION), "scenario_manifest_artifact_schema_invalid");
    WhenTells(Get(m, "benchmark_id") != Get(reference, "benchmark_id"), "scenario_manifest_artifact_benchmark_mismatch");
    WhenTells(Get(m, "round_ordinal") != Get(run, "ordinal"), "scenario_manifest_artifact_ordinal_mismatch");
  }

  lemma ScenarioFaultsAreTold(m: Json, reference: Json, run: Json)
    ensures var reasons, scenario := ScenarioReasons(m, reference, run), Get(m, "scenario");
      && (!scenario.Obj? ==> "scenario_manifest_artifact_scenario_missing" in reasons)
      && (scenario.Obj? && Get(scenario, "id") != Get(reference, "scenario_id") ==>
            "scenario_manifest_artifact_scenario_mismatch" in reasons)
      && (scenario.Obj? && Get(scenario, "variant") != Get(reference, "variant") ==>
            "scenario_manifest_artifact_variant_mismatch" in reasons)
      && (scenario.Obj? && Get(run, "scenario").Str? && Get(scenario, "cli_name") != Get(run, "scenario") ==>
            "scenario_manifest_artifact_cli_scenario_mismatch" in reasons)
  {
    hide Get, TextOf, IsHex64, When;
    TextIs(Get(run, "scenario"));
    var scenario := Get(m, "scenario");
    WhenTells(!scenario.Obj?, "scenario_manifest_artifact_scenario_missing");
    WhenTells(scenario.Obj? && Get(scenario, "id") != Get(reference, "scenario_id"),
              "scenario_manifest_artifact_scenario_mismatch");
    WhenTells(scenario.Obj? && Get(scenario, "variant") != Get(reference, "variant"),
              "scenario_manifest_artifact_variant_mismatch");
    WhenTells(scenario.Obj? && Get(scenario, "cli_name") != Str(TextOf(Get(run, "scenario"))),
              "scenario_manifest_artifact_cli_scenario_mismatch");
  }
}
