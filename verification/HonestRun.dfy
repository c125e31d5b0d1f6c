/** One run as the harness would record it: its manifests through the three phases, and its entry in the list of runs. */
module HonestRun {
  import opened EvidenceChain
  import opened EvidenceTheorems
  import opened Json
  import opened ReasonCodes
  import opened Wrappers

  function Digest(): string {
    seq(64, i => '0')
  }

  function Privacy(): Json {
    Obj(map["agent_names_persisted" := Bool(false), "process_ids_persisted" := Bool(false),
            "provider_prompts_persisted" := Bool(false), "raw_runtime_records_persisted" := Bool(false)])
  }

  function Validation(status: string): Json {
    Obj(map["status" := Str(status), "reason_codes" := Arr([])])
  }

  function Scenario(): Json {
    Obj(map["id" := Str("S1"), "cli_name" := Str("warm"), "variant" := Str("measured")])
  }

  function Matched(): Json {
    Obj(map["status" := Str("matched"), "startup_report_sha256" := Str(Digest())])
  }

  function Ready(): Json {
    Obj(map["status" := Str("ready"), "reason_codes" := Arr([])])
  }

  /** What the manifest says of the run it is for. */
  function Heading(): Doc {
    map["record_type" := Str(RECORD_TYPE), "schema_version" := Num(SCHEMA_VERSION), "benchmark_id" := Str("b"),
        "round_ordinal" := Num(1), "scenario" := Scenario(), "expectation" := Obj(map[]), "privacy" := Privacy()]
  }

  /** What it says of how the run went. */
  function Outcome(): Doc {
    map["construction" := Obj(map["status" := Str("ok")]), "ready_for_measurement" := Ready(), "observation" := Matched()]
  }

  function Manifest(): Doc {
    (Heading() + Outcome())["validation" := Validation("pending")]
  }

  /** The run's entry in the report, with the reference to its final manifest. */
  function RunEntry(reference: Json): Json {
    Obj(map["scenario" := Str("warm"), "status" := Str("ok"), "benchmark_id" := Str("b"), "ordinal" := Num(1),
            "round_role" := Str("measured"), "scenario_construction" := reference])
  }

  datatype Written = Written(one: Persisted, doc1: Doc, two: Persisted, doc2: Doc, three: Persisted)

  /** The three phases, with the validation brought up to date between them. */
  function Write(c: Codec, dir: string): Written {
    var one := Persist(c, map[], dir, Manifest(), "before");
    var doc1 := one.doc["validation" := Validation("ready_for_measurement")];
    var two := Persist(c, one.files, dir, doc1, "ready");
    var doc2 := two.doc["validation" := Validation("pass")];
    Written(one, doc1, two, doc2, Persist(c, two.files, dir, doc2, "final"))
  }

  // ---------- what the manifest reads ----------

  lemma HeadingReads(reference: Json)
    ensures var m, run := Obj(Heading()), RunEntry(reference);
      && Get(m, "record_type") == Str(RECORD_TYPE) && Get(m, "schema_version") == Num(SCHEMA_VERSION)
      && Get(m, "benchmark_id") == Get(run, "benchmark_id") && Get(m, "round_ordinal") == Get(run, "ordinal")
      && Get(m, "scenario") == Scenario() && Get(m, "expectation") == Obj(map[]) && Get(m, "privacy") == Privacy()
  {
  }

  lemma EntryReads(reference: Json)
    ensures var run := RunEntry(reference);
      && Get(run, "scenario") == Str("warm") && Get(run, "status") == Str("ok")
      && Get(run, "round_role") == Str("measured") && Get(run, "scenario_construction") == reference
      && Get(run, "instrumentation_arm") == Null
  {
  }

  lemma ScenarioReads()
    ensures Get(Scenario(), "id") == SpecId("warm") == Str("S1")
    ensures Get(Scenario(), "cli_name") == Str("warm") && Get(Scenario(), "variant") == Str("measured")
  {
  }

  lemma PrivacyReads(m: Json)
    requires Get(m, "privacy") == Privacy()
    ensures !PrivacyBroken(m)
  {
  }

  lemma PartsApart()
    ensures Heading().Keys !! Outcome().Keys && "validation" !in Heading() && "validation" !in Outcome()
    ensures "phase_chain" !in Heading() && "phase_chain" !in Outcome()
  {
    assert Outcome().Keys == {"construction", "ready_for_measurement", "observation"};
    assert Heading().Keys == {"record_type", "schema_version", "benchmark_id", "round_ordinal", "scenario", "expectation",
                              "privacy"};
  }

  lemma OutcomeReads()
    ensures var m := Obj(Outcome());
      && Get(m, "construction") == Obj(map["status" := Str("ok")]) && Get(m, "ready_for_measurement") == Ready()
      && Get(m, "observation") == Matched()
  {
  }

  /** The manifest with any marks and chain, and any validation. */
  ghost predicate IsManifest(doc: Doc, status: string) {
    && Get(Obj(doc), "validation") == Validation(status)
    && (forall k :: k in Heading() ==> k in doc && doc[k] == Heading()[k])
    && (forall k :: k in Outcome() ==> k in doc && doc[k] == Outcome()[k])
  }

  lemma StillManifest(doc: Doc, status: string, k: string, v: Json)
    requires IsManifest(doc, status) && k !in Heading() && k !in Outcome()
    requires k != "validation"
    ensures IsManifest(doc[k := v], status)
  {
    hide Heading, Outcome, Validation;
  }

  lemma Revalidated(doc: Doc, status: string, other: string)
    requires IsManifest(doc, status)
    ensures IsManifest(doc["validation" := Validation(other)], other)
  {
    PartsApart();
    hide Heading, Outcome, Validation;
  }

  lemma FirstManifest()
    ensures IsManifest(Manifest(), "pending") && "phase_chain" !in Manifest()
  {
    PartsApart();
    hide Heading, Outcome;
    assert "phase_chain" != "validation";
  }

  lemma DescribesEntry(doc: Doc, status: string, reference: Json)
    requires IsManifest(doc, status)
    ensures Describes(doc, RunEntry(reference)) && StatusOf(doc) == Str(status)
  {
    HeadingReads(reference);
    EntryReads(reference);
    ScenarioReads();
    HeadingKeys();
    hide Heading, Outcome, RunEntry, Scenario, Privacy, SpecId, PrivacyBroken;
    PrivacyReads(Obj(doc));
  }

  lemma HeadingKeys()
    ensures {"record_type", "schema_version", "benchmark_id", "round_ordinal", "scenario", "expectation", "privacy"}
      <= Heading().Keys
    ensures {"construction", "ready_for_measurement", "observation"} <= Outcome().Keys
  {
  }

  lemma DigestIsHex()
    ensures IsHex64(Digest())
  {
  }

  lemma SemanticsHold(doc: Doc, status: string)
    requires IsManifest(doc, status)
    ensures PassSemantics(Obj(doc))
  {
    OutcomeReads();
    HeadingKeys();
    DigestIsHex();
    hide Heading, Outcome, IsHex64, Digest;
    assert Get(Obj(doc), "construction") == Get(Obj(Outcome()), "construction");
    assert Get(Obj(doc), "ready_for_measurement") == Get(Obj(Outcome()), "ready_for_measurement");
    assert Get(Obj(doc), "observation") == Get(Obj(Outcome()), "observation");
  }

  lemma ConcludesEntry(doc: Doc, reference: Json, special: Json -> Reasons)
    requires IsManifest(doc, "pass") && special(Obj(doc)) == {}
    ensures Concludes(doc, RunEntry(reference), special)
  {
    hide Heading, Outcome, RunEntry, Scenario, PassSemantics, SpecId;
    EntryReads(reference);
    ScenarioReads();
    SemanticsHold(doc, "pass");
  }

  // ---------- it passes ----------

  lemma WrittenManifests(c: Codec, dir: string)
    ensures var w := Write(c, dir);
      && IsManifest(Manifest(), "pending") && IsManifest(w.doc1, "ready_for_measurement")
      && IsManifest(w.doc2, "pass") && IsManifest(w.three.doc, "pass")
  {
    hide Persist, Manifest, Validation, IsManifest;
    var w := Write(c, dir);
    FirstManifest();
    PhaseKeepsManifest(c, map[], dir, Manifest(), "before", "pending");
    Revalidated(w.one.doc, "pending", "ready_for_measurement");
    PhaseKeepsManifest(c, w.one.files, dir, w.doc1, "ready", "ready_for_measurement");
    Revalidated(w.two.doc, "ready_for_measurement", "pass");
    PhaseKeepsManifest(c, w.two.files, dir, w.doc2, "final", "pass");
  }

  lemma WriteIsInOrder(c: Codec, dir: string)
    ensures var w := Write(c, dir);
      WrittenInOrder(c, map[], dir, Manifest(), w.doc1, w.doc2, w.one, w.two, w.three)
  {
    FirstManifest();
    MarksApart();
    hide Persist, Manifest, Validation;
  }

  lemma MarksApart()
    ensures forall k :: k in {"audit_phase", "phase_chain", "validation"} ==> k !in Heading() && k !in Outcome()
    ensures "audit_phase" != "validation" && "phase_chain" != "validation"
  {
    PartsApart();
  }

  lemma PhaseKeepsManifest(c: Codec, files: Files, dir: string, doc: Doc, phase: string, status: string)
    requires IsManifest(doc, status)
    ensures IsManifest(Persist(c, files, dir, doc, phase).doc, status)
  {
    hide Heading, Outcome, Validation, ReferenceTo, ChainOf, IsManifest, PhaseReference;
    MarksApart();
    var marked := Marked(doc, phase);
    StillManifest(doc, status, "audit_phase", marked["audit_phase"]);
    if phase != "final" {
      StillManifest(marked, status, "phase_chain", Persist(c, files, dir, doc, phase).doc["phase_chain"]);
    }
  }

  /** For every codec and directory name the recorded run passes its audit with status pass, in a store that holds
      nothing else. */
  lemma RecordedRunPasses(c: Codec, dir: string, special: Json -> Reasons)
    requires Faithful(c) && IsDirName(dir) && forall j :: special(j) == {}
    ensures var w := Write(c, dir);
      && Passes(c, w.three.files, w.three.reference, RunEntry(w.three.reference), special)
      && Get(w.three.reference, "status") == Str("pass")
      && forall key :: key in w.three.files ==> key.dir == dir
  {
    var w := Write(c, dir);
    var run := RunEntry(w.three.reference);
    WrittenManifests(c, dir);
    WriteIsInOrder(c, dir);
    FinalReference(c, map[], dir, Manifest(), w.doc1, w.doc2, w.one, w.two, w.three);
    FilesOfOneDir(c, dir);
    hide *;
    DescribesEntry(Manifest(), "pending", w.three.reference);
    DescribesEntry(w.doc1, "ready_for_measurement", w.three.reference);
    DescribesEntry(w.doc2, "pass", w.three.reference);
    ConcludesEntry(w.three.doc, w.three.reference, special);
    HonestRunPasses(c, map[], dir, Manifest(), w.doc1, w.doc2, w.one, w.two, w.three, run, special);
    DescribesEntry(w.three.doc, "pass", w.three.reference);
    StatusOfReference(c, dir, w.three.doc);
  }

  lemma StatusOfReference(c: Codec, dir: string, doc: Doc)
    ensures Get(ReferenceTo(c, dir, FINAL_NAME, doc), "status") == StatusOf(doc)
  {
    ReferenceFields(c, dir, FINAL_NAME, doc);
    hide ReferenceTo;
  }

  lemma FilesOfOneDir(c: Codec, dir: string)
    ensures forall key :: key in Write(c, dir).three.files ==> key.dir == dir
  {
    hide ReferenceTo, ChainOf, Marked, PhaseReference;
  }
}
