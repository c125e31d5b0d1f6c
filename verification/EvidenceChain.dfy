/**
 * The construction manifest of a run is written in three phases (before, ready, final), each naming the digest of the
 * one before, and audited from the final reference alone.
 *
 * SHA-256 and the JSON encoding are parameters: assumed are that the digest is a 64-digit hexadecimal text and that
 * parsing what was rendered gives it back; that two different contents at hand do not share a digest is assumed where it
 * is needed.  A file is readable content, or unreadable.
 */
module EvidenceChain {
  import opened ReasonCodes
  import opened Wrappers
  import opened Json

  type Bytes = seq<bv8>

  datatype Codec = Codec(render: Json -> Bytes, parse: Bytes -> Option<Json>, sha256: Bytes -> string)

  ghost predicate Faithful(c: Codec) {
    && (forall j :: c.parse(c.render(j)) == Some(j))
    && (forall a :: IsHex64(c.sha256(a)))
  }

  /** No file of f and file of g hold different contents with the same digest. */
  ghost predicate CollisionFree(c: Codec, f: Files, g: Files) {
    forall k, l :: k in f && l in g && f[k].Content? && g[l].Content? && c.sha256(f[k].bytes) == c.sha256(g[l].bytes)
      ==> f[k].bytes == g[l].bytes
  }

  datatype FileKey = FileKey(dir: string, name: string)

  datatype Entry = Content(bytes: Bytes) | Unreadable

  type Files = map<FileKey, Entry>

  type Doc = map<string, Json>

  const RECORD_TYPE := "ccb_startup_scenario_construction"
  const SCHEMA_VERSION := 1
  const FINAL_NAME := "scenario-construction.json"

  function PhaseName(phase: string): string {
    "scenario-construction." + phase + ".json"
  }

  // ---------- writing ----------

  function ChainOf(doc: Doc): map<string, Json> {
    if Get(Obj(doc), "phase_chain").Obj? then Get(Obj(doc), "phase_chain").fields else map[]
  }

  /** The manifest as a phase writes it: marked with the phase and the digest of its predecessor. */
  function Marked(doc: Doc, phase: string): Doc {
    var predecessor := Get(Obj(ChainOf(doc)), if phase == "final" then "ready" else "before");
    doc["audit_phase" := Obj(map["name" := Str(phase), "predecessor_sha256" := Get(predecessor, "sha256")])]
  }

  function ReasonList(j: Json): Json {
    if j.Arr? then j else Arr([])
  }

  /** The reference to a manifest just written under dir/name. */
  function ReferenceTo(c: Codec, dir: string, name: string, doc: Doc): Json {
    var m := Obj(doc);
    Obj(map[
      "record_type" := Get(m, "record_type"), "benchmark_id" := Get(m, "benchmark_id"),
      "round_ordinal" := Get(m, "round_ordinal"), "artifact" := Str(dir + "/" + name), "snapshot" := Str(name),
      "sha256" := Str(c.sha256(c.render(m))), "schema_version" := Get(m, "schema_version"),
      "scenario_id" := Get(Get(m, "scenario"), "id"), "scenario" := Get(Get(m, "scenario"), "cli_name"),
      "variant" := Get(Get(m, "scenario"), "variant"),
      "instrumentation_arm" := Get(Get(m, "expectation"), "instrumentation_arm"),
      "status" := Get(Get(m, "validation"), "status"),
      "reason_codes" := ReasonList(Get(Get(m, "validation"), "reason_codes"))])
  }

  /** The part of a reference kept in the chain: all but the reason codes. */
  function PhaseReference(reference: Json): Json {
    if reference.Obj? then Obj(reference.fields - {"reason_codes"}) else reference
  }

  datatype Persisted = Persisted(files: Files, doc: Doc, reference: Json)

  function Persist(c: Codec, files: Files, dir: string, doc: Doc, phase: string): Persisted {
    var marked := Marked(doc, phase);
    if phase == "final" then
      Persisted(files[FileKey(dir, FINAL_NAME) := Content(c.render(Obj(marked)))], marked,
                ReferenceTo(c, dir, FINAL_NAME, marked))
    else
      var reference := ReferenceTo(c, dir, PhaseName(phase), marked);
      var linked := marked["phase_chain" := Obj(ChainOf(doc)[phase := PhaseReference(reference)])];
      Persisted(files[FileKey(dir, PhaseName(phase)) := Content(c.render(Obj(marked)))]
                     [FileKey(dir, FINAL_NAME) := Content(c.render(Obj(linked)))],
                linked, reference)
  }

  /** A phase leaves the current manifest on file, changes it only in its mark and its chain, and writes no other file but
      that of an earlier phase. */
  lemma PhaseChanges(c: Codec, files: Files, dir: string, doc: Doc, phase: string)
    ensures var p := Persist(c, files, dir, doc, phase);
      && FileKey(dir, FINAL_NAME) in p.files && p.files[FileKey(dir, FINAL_NAME)] == Content(c.render(Obj(p.doc)))
      && SameOutside(files, p.files, FilesOf(dir, phase)) && KeepsRest(doc, p.doc)
  {
    hide ReferenceTo, PhaseReference, ChainOf, PhaseName;
  }

  lemma NothingChanges(files: Files, doc: Doc, written: set<FileKey>)
    ensures SameOutside(files, files, written) && KeepsRest(doc, doc)
  {
  }

  function FilesOf(dir: string, phase: string): set<FileKey> {
    {FileKey(dir, FINAL_NAME)} + (if phase == "final" then {} else {FileKey(dir, PhaseName(phase))})
  }

  ghost predicate KeepsRest(doc: Doc, doc': Doc) {
    forall k :: k != "audit_phase" && k != "phase_chain" ==> (k in doc <==> k in doc') && (k in doc ==> doc'[k] == doc[k])
  }

  ghost predicate SameOutside(f: Files, g: Files, written: set<FileKey>) {
    forall key :: key !in written ==> (key in f <==> key in g) && (key in f ==> g[key] == f[key])
  }

  /** The run directory and the manifest dictionary that the phases update in place. */
  class ScenarioRun {
    const dir: string
    var files: Files
    var doc: Doc

    constructor (dir: string, files: Files, doc: Doc)
      ensures this.dir == dir && this.files == files && this.doc == doc
    {
      this.dir, this.files, this.doc := dir, files, doc;
    }

    method WriteManifest(c: Codec, name: string)
      modifies `files
      ensures files == old(files)[FileKey(dir, name) := Content(c.render(Obj(doc)))]
    {
      files := files[FileKey(dir, name) := Content(c.render(Obj(doc)))];
    }

    /** Writes one phase; an unknown phase is refused and changes nothing. */
    method PersistPhase(c: Codec, phase: string) returns (reference: Option<Json>)
      modifies this
      ensures reference.Some? <==> phase in {"before", "ready", "final"}
      ensures reference.None? ==> files == old(files) && doc == old(doc)
      ensures reference.Some? ==>
        Persisted(files, doc, reference.value) == Persist(c, old(files), dir, old(doc), phase)
      ensures reference.Some? ==>
        FileKey(dir, FINAL_NAME) in files && files[FileKey(dir, FINAL_NAME)] == Content(c.render(Obj(doc)))
      ensures SameOutside(old(files), files, FilesOf(dir, phase)) && KeepsRest(old(doc), doc)
    {
      PhaseChanges(c, files, dir, doc, phase);
      hide SameOutside, FilesOf, KeepsRest, ReferenceTo, PhaseReference;
      if phase !in {"before", "ready", "final"} {
        NothingChanges(files, doc, FilesOf(dir, phase));
        return None;
      }
      var chain := ChainOf(doc);
      var predecessor := Get(Obj(chain), if phase == "final" then "ready" else "before");
      doc := doc["audit_phase" :=
        Obj(map["name" := Str(phase), "predecessor_sha256" := Get(predecessor, "sha256")])];
      if phase == "final" {
        WriteManifest(c, FINAL_NAME);
        return Some(ReferenceTo(c, dir, FINAL_NAME, doc));
      }
      WriteManifest(c, PhaseName(phase));
      var written := ReferenceTo(c, dir, PhaseName(phase), doc);
      chain := chain[phase := PhaseReference(written)];
      doc := doc["phase_chain" := Obj(chain)];
      WriteManifest(c, FINAL_NAME);
      reference := Some(written);
    }
  }

  // ---------- paths and digests as the auditor reads them ----------

  predicate IsHexDigit(ch: char) {
    '0' <= ch <= '9' || 'a' <= ch <= 'f'
  }

  predicate IsHex64(s: string) {
    |s| == 64 && forall i :: 0 <= i < 64 ==> IsHexDigit(s[i])
  }

  predicate IsAlphanumeric(ch: char) {
    'a' <= ch <= 'z' || 'A' <= ch <= 'Z' || '0' <= ch <= '9'
  }

  predicate IsDirName(s: string) {
    && 1 <= |s| <= 128 && IsAlphanumeric(s[0])
    && forall i :: 0 <= i < |s| ==> IsAlphanumeric(s[i]) || s[i] in {'.', '_', '-'}
  }

  /** The components of a POSIX path; empty ones and "." do not count. */
  function Parts(path: string, part: string := ""): seq<string> {
    if path == "" then Component(part)
    else if path[0] == '/' then Component(part) + Parts(path[1..], "")
    else Parts(path[1..], part + [path[0]])
  }

  function Component(part: string): seq<string> {
    if part == "" || part == "." then [] else [part]
  }

  predicate IsAbsolute(path: string) {
    path != "" && path[0] == '/'
  }

  lemma {:induction false} PartsOfName(name: string, part: string)
    requires '/' !in name
    ensures Parts(name, part) == Component(part + name)
  {
    if name == "" {
      assert part + name == part;
    } else {
      PartsOfName(name[1..], part + [name[0]]);
      assert part + [name[0]] + name[1..] == part + name;
    }
  }

  lemma {:induction false} PartsOfPair(dir: string, name: string, part: string)
    requires '/' !in dir && '/' !in name
    ensures Parts(dir + "/" + name, part) == Component(part + dir) + Component(name)
  {
    if dir == "" {
      assert dir + "/" + name == "/" + name && ("/" + name)[1..] == name && part + dir == part;
      PartsOfName(name, "");
      assert "" + name == name;
    } else {
      assert (dir + "/" + name)[1..] == dir[1..] + "/" + name;
      PartsOfPair(dir[1..], name, part + [dir[0]]);
      assert part + [dir[0]] + dir[1..] == part + dir;
    }
  }

  /** The components of a joined path are those of its two sides, whatever these are. */
  lemma {:induction false} PartsOfJoin(path: string, rest: string, part: string)
    ensures Parts(path + "/" + rest, part) == Parts(path, part) + Parts(rest, "")
  {
    if path == "" {
      assert path + "/" + rest == "/" + rest && ("/" + rest)[1..] == rest;
    } else {
      assert (path + "/" + rest)[0] == path[0] && (path + "/" + rest)[1..] == path[1..] + "/" + rest;
      PartsOfJoin(path[1..], rest, if path[0] == '/' then "" else part + [path[0]]);
    }
  }

  /** The path of a file in a run directory reads back as the directory and the file name. */
  lemma PathReadsBack(dir: string, name: string)
    requires IsDirName(dir) && '/' !in name && name != "" && name != "."
    ensures Parts(dir + "/" + name) == [dir, name] && !IsAbsolute(dir + "/" + name)
  {
    assert '/' !in dir;
    PartsOfPair(dir, name, "");
    assert "" + dir == dir;
    assert (dir + "/" + name)[0] == dir[0];
  }

  // ---------- auditing ----------

  function SpecId(scenario: string): Json {
    if scenario == "cli-only" then Str("S0")
    else if scenario == "warm" then Str("S1")
    else if scenario == "mixed-recovery" then Str("S3")
    else if scenario == "full-cold" then Str("S4")
    else if scenario == "pristine" then Str("S5a")
    else Null
  }

  /** What a reference must be, whatever run holds it. */
  function ShapeReasons(reference: Json): Reasons {
    When(Get(reference, "record_type") != Str(RECORD_TYPE), "scenario_manifest_reference_record_type_invalid")
    + When(Get(reference, "schema_version") != Num(SCHEMA_VERSION), "scenario_manifest_reference_schema_invalid")
    + When(!IsHex64(TextOf(Get(reference, "sha256"))), "scenario_manifest_reference_digest_invalid")
    + When(TextOf(Get(reference, "snapshot")) != FINAL_NAME, "scenario_manifest_reference_snapshot_invalid")
    + When(TextOf(Get(reference, "scenario_id")) !in {"S0", "S1", "S3", "S4", "S5a"},
           "scenario_manifest_reference_scenario_invalid")
    + When(TextOf(Get(reference, "status")) !in {"pass", "failed"}, "scenario_manifest_reference_status_invalid")
    + When(!Get(reference, "reason_codes").Arr?, "scenario_manifest_reference_reason_codes_invalid")
    + When(Get(reference, "status") == Str("pass") && Get(reference, "reason_codes").Arr?
           && Get(reference, "reason_codes") != Arr([]), "scenario_manifest_reference_pass_has_reasons")
  }

  /** What it must share with the run that holds it. */
  function MismatchReasons(reference: Json, run: Json): Reasons {
    var scenario := TextOf(Get(run, "scenario"));
    When(Get(reference, "status") != Str(if Get(run, "status") == Str("ok") then "pass" else "failed"),
         "scenario_manifest_reference_run_status_mismatch")
    + When(Get(reference, "benchmark_id") != Get(run, "benchmark_id"),
           "scenario_manifest_reference_run_benchmark_mismatch")
    + When(Get(reference, "round_ordinal") != Get(run, "ordinal"), "scenario_manifest_reference_run_ordinal_mismatch")
    + When(Get(reference, "scenario") != Str(scenario), "scenario_manifest_reference_run_scenario_mismatch")
    + When(Get(reference, "scenario_id") != SpecId(scenario), "scenario_manifest_reference_run_scenario_id_mismatch")
    + When(Get(reference, "variant") != Get(run, "round_role"), "scenario_manifest_reference_run_variant_mismatch")
    + When(Get(reference, "instrumentation_arm") != Get(run, "instrumentation_arm"),
           "scenario_manifest_reference_run_instrumentation_mismatch")
  }

  function ReferenceReasons(reference: Json, run: Json): Reasons {
    ShapeReasons(reference) + MismatchReasons(reference, run)
  }

  function PrivacyBroken(payload: Json): bool {
    var privacy := Get(payload, "privacy");
    || Get(privacy, "agent_names_persisted") != Bool(false)
    || Get(privacy, "process_ids_persisted") != Bool(false)
    || Get(privacy, "provider_prompts_persisted") != Bool(false)
    || Get(privacy, "raw_runtime_records_persisted") != Bool(false)
  }

  predicate PassSemantics(payload: Json) {
    && Get(Get(payload, "construction"), "status") == Str("ok")
    && Get(Get(payload, "ready_for_measurement"), "status") == Str("ready")
    && Get(Get(payload, "ready_for_measurement"), "reason_codes") == Arr([])
    && Get(Get(payload, "observation"), "status") == Str("matched")
    && IsHex64(TextOf(Get(Get(payload, "observation"), "startup_report_sha256")))
  }

  /** What the final manifest must say of its round. */
  function RoundReasons(payload: Json, reference: Json, run: Json): Reasons {
    When(Get(payload, "record_type") != Str(RECORD_TYPE), "scenario_manifest_artifact_record_type_invalid")
    + When(Get(payload, "schema_version") != Num(SCHEMA_VERSION), "scenario_manifest_artifact_schema_invalid")
    + When(Get(payload, "benchmark_id") != Get(reference, "benchmark_id"),
           "scenario_manifest_artifact_benchmark_mismatch")
    + When(Get(payload, "round_ordinal") != Get(run, "ordinal"), "scenario_manifest_artifact_ordinal_mismatch")
  }

  /** What it must say of its scenario. */
  function ScenarioReasons(payload: Json, reference: Json, run: Json): Reasons {
    var scenario := Get(payload, "scenario");
    When(!scenario.Obj?, "scenario_manifest_artifact_scenario_missing")
    + When(scenario.Obj? && Get(scenario, "id") != Get(reference, "scenario_id"),
           "scenario_manifest_artifact_scenario_mismatch")
    + When(scenario.Obj? && Get(scenario, "variant") != Get(reference, "variant"),
           "scenario_manifest_artifact_variant_mismatch")
    + When(scenario.Obj? && Get(scenario, "cli_name") != Str(TextOf(Get(run, "scenario"))),
           "scenario_manifest_artifact_cli_scenario_mismatch")
  }

  /** What it must say of how the run went. */
  function OutcomeReasons(payload: Json, reference: Json, run: Json): Reasons {
    var validation := Get(payload, "validation");
    When(!Get(payload, "expectation").Obj?
         || Get(Get(payload, "expectation"), "instrumentation_arm") != Get(run, "instrumentation_arm"),
         "scenario_manifest_artifact_instrumentation_mismatch")
    + When(!validation.Obj?, "scenario_manifest_artifact_validation_missing")
    + When(validation.Obj? && Get(validation, "status") != Get(reference, "status"),
           "scenario_manifest_artifact_status_mismatch")
    + When(validation.Obj? && ReasonList(Get(validation, "reason_codes")) != ReasonList(Get(reference, "reason_codes")),
           "scenario_manifest_artifact_reason_codes_mismatch")
    + When(Get(reference, "status") == Str("pass") && !PassSemantics(payload),
           "scenario_manifest_artifact_pass_semantics_invalid")
    + When(PrivacyBroken(payload), "scenario_manifest_artifact_privacy_contract_invalid")
  }

  /** The checks of the final manifest itself; special stands for the checks of its scenario when it passed. */
  function PayloadReasons(payload: Json, reference: Json, run: Json, special: Json -> Reasons): Reasons {
    RoundReasons(payload, reference, run) + ScenarioReasons(payload, reference, run)
    + OutcomeReasons(payload, reference, run) + (if Get(reference, "status") == Str("pass") then special(payload) else {})
  }

  datatype PhaseAudit = PhaseAudit(reasons: Reasons, sha256: Json)

  function PhaseReason(phase: string, what: string): string {
    "scenario_manifest_" + phase + "_phase_" + what
  }

  /** What an immutable phase must say about itself, whatever its place in the chain. */
  function ContentReasons(phase: string, payload: Json, run: Json): Reasons {
    var status := Get(Get(payload, "validation"), "status");
    var scenario := TextOf(Get(run, "scenario"));
    When(!Get(payload, "validation").Obj?
         || (phase == "before" && status != Str("pending"))
         || (phase == "ready" && status != Str("ready_for_measurement") && status != Str("failed")),
         PhaseReason(phase, "status_invalid"))
    + When(Get(payload, "record_type") != Str(RECORD_TYPE) || Get(payload, "schema_version") != Num(SCHEMA_VERSION)
           || Get(payload, "benchmark_id") != Get(run, "benchmark_id")
           || Get(payload, "round_ordinal") != Get(run, "ordinal"), PhaseReason(phase, "identity_invalid"))
    + When(!Get(payload, "scenario").Obj? || Get(Get(payload, "scenario"), "id") != SpecId(scenario)
           || Get(Get(payload, "scenario"), "cli_name") != Str(scenario)
           || Get(Get(payload, "scenario"), "variant") != Get(run, "round_role"), PhaseReason(phase, "scenario_invalid"))
    + When(!Get(payload, "expectation").Obj?
           || Get(Get(payload, "expectation"), "instrumentation_arm") != Get(run, "instrumentation_arm"),
           PhaseReason(phase, "instrumentation_invalid"))
    + When(PrivacyBroken(payload), PhaseReason(phase, "privacy_invalid"))
  }

  function AuditPhase(c: Codec, files: Files, chain: Json, dir: string, phase: string, predecessor: Json, run: Json)
    : PhaseAudit
  {
    var reference := Get(chain, phase);
    var path := TextOf(Get(reference, "artifact"));
    var key := FileKey(dir, PhaseName(phase));
    if !reference.Obj? then PhaseAudit({PhaseReason(phase, "reference_missing")}, Null)
    else if IsAbsolute(path) || Parts(path) != [dir, PhaseName(phase)] then
      PhaseAudit({PhaseReason(phase, "path_invalid")}, Null)
    else if key !in files then PhaseAudit({PhaseReason(phase, "missing")}, Null)
    else if files[key].Unreadable? then PhaseAudit({PhaseReason(phase, "unreadable")}, Null)
    else
      var bytes := files[key].bytes;
      var sha := Str(c.sha256(bytes));
      var mismatch := When(sha != Get(reference, "sha256"), PhaseReason(phase, "digest_mismatch"));
      match c.parse(bytes)
      case None => PhaseAudit(mismatch + {PhaseReason(phase, "json_invalid")}, sha)
      case Some(payload) =>
        if !payload.Obj? then PhaseAudit(mismatch + {PhaseReason(phase, "root_invalid")}, sha)
        else
          PhaseAudit(
            mismatch
            + When(Get(Get(payload, "audit_phase"), "name") != Str(phase)
                   || Get(Get(payload, "audit_phase"), "predecessor_sha256") != predecessor,
                   PhaseReason(phase, "chain_invalid"))
            + When(Get(Get(payload, "validation"), "status") != Get(reference, "status"),
                   PhaseReason(phase, "status_invalid"))
            + ContentReasons(phase, payload, run),
            sha)
  }

  function ChainReasons(c: Codec, files: Files, payload: Json, dir: string, run: Json): Reasons {
    var marker, chain := Get(payload, "audit_phase"), Get(payload, "phase_chain");
    When(Get(marker, "name") != Str("final"), "scenario_manifest_final_phase_invalid")
    + (if !chain.Obj? then {"scenario_manifest_phase_chain_missing"}
       else
         var before := AuditPhase(c, files, chain, dir, "before", Null, run);
         var ready := AuditPhase(c, files, chain, dir, "ready", before.sha256, run);
         before.reasons + ready.reasons
         + When(marker.Obj? && Get(marker, "predecessor_sha256") != ready.sha256,
                "scenario_manifest_final_phase_chain_invalid"))
  }

  predicate ArtifactPathOk(path: string) {
    && !IsAbsolute(path) && |Parts(path)| == 2
    && Parts(path)[0] != ".." && Parts(path)[1] == FINAL_NAME && IsDirName(Parts(path)[0])
  }

  /** The checks of the manifests in the directory that a reference names. */
  function ArtifactReasons(c: Codec, files: Files, dir: string, reference: Json, run: Json, special: Json -> Reasons)
    : Reasons
  {
    var key := FileKey(dir, FINAL_NAME);
    if key !in files then {"scenario_manifest_artifact_missing"}
    else if files[key].Unreadable? then {"scenario_manifest_artifact_unreadable"}
    else
      var bytes := files[key].bytes;
      When(Str(c.sha256(bytes)) != Get(reference, "sha256"), "scenario_manifest_artifact_digest_mismatch")
      + (match c.parse(bytes)
         case None => {"scenario_manifest_artifact_json_invalid"}
         case Some(payload) =>
           if !payload.Obj? then {"scenario_manifest_artifact_root_invalid"}
           else PayloadReasons(payload, reference, run, special) + ChainReasons(c, files, payload, dir, run))
  }

  /** The audit of one reference against the run that holds it; no reason means valid. */
  function Audit(c: Codec, files: Files, reference: Json, run: Json, special: Json -> Reasons): Reasons {
    var path := TextOf(Get(reference, "artifact"));
    ReferenceReasons(reference, run)
    + (if ArtifactPathOk(path) then ArtifactReasons(c, files, Parts(path)[0], reference, run, special)
       else {"scenario_manifest_artifact_path_invalid"})
  }
}
