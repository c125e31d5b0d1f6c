/** The phase chain binds the evidence, and honestly written chains pass. */
module EvidenceTheorems {
  import opened Wrappers
  import opened Json
  import opened EvidenceChain
  import opened ReasonCodes

  predicate Passes(c: Codec, files: Files, reference: Json, run: Json, special: Json -> Reasons) {
    Audit(c, files, reference, run, special) == {}
  }

  function DirOf(reference: Json): string
    requires ArtifactPathOk(TextOf(Get(reference, "artifact")))
  {
    Parts(TextOf(Get(reference, "artifact")))[0]
  }

  /** The file of a phase is there, with the digest its reference names, and marked with its predecessor's digest. */
  ghost predicate PhaseBound(c: Codec, files: Files, chain: Json, dir: string, phase: string, predecessor: Json) {
    var key := FileKey(dir, PhaseName(phase));
    && key in files && files[key].Content?
    && Get(Get(chain, phase), "sha256") == Str(c.sha256(files[key].bytes))
    && c.parse(files[key].bytes).Some?
    && var payload := c.parse(files[key].bytes).value;
       Get(Get(payload, "audit_phase"), "name") == Str(phase)
       && Get(Get(payload, "audit_phase"), "predecessor_sha256") == predecessor
  }

  lemma PhaseAuditBinds(c: Codec, files: Files, chain: Json, dir: string, phase: string, predecessor: Json, run: Json)
    requires AuditPhase(c, files, chain, dir, phase, predecessor, run).reasons == {}
    ensures PhaseBound(c, files, chain, dir, phase, predecessor)
    ensures AuditPhase(c, files, chain, dir, phase, predecessor, run).sha256 == Get(Get(chain, phase), "sha256")
  {
    hide ContentReasons, IsAbsolute, Parts;
  }

  /** What a passing audit has established about the files of one run directory. */
  ghost predicate Bound(c: Codec, files: Files, reference: Json, run: Json) {
    && ArtifactPathOk(TextOf(Get(reference, "artifact")))
    && var dir := DirOf(reference);
       var key := FileKey(dir, FINAL_NAME);
    && key in files && files[key].Content?
    && Get(reference, "sha256") == Str(c.sha256(files[key].bytes))
    && c.parse(files[key].bytes).Some?
    && var payload := c.parse(files[key].bytes).value;
       var chain := Get(payload, "phase_chain");
    && Get(payload, "round_ordinal") == Get(run, "ordinal")
    && PhaseBound(c, files, chain, dir, "before", Null)
    && PhaseBound(c, files, chain, dir, "ready", Get(Get(chain, "before"), "sha256"))
    && Get(Get(payload, "audit_phase"), "predecessor_sha256") == Get(Get(chain, "ready"), "sha256")
  }

  lemma PassingParts(c: Codec, files: Files, reference: Json, run: Json, special: Json -> Reasons)
    requires Passes(c, files, reference, run, special)
    ensures ArtifactPathOk(TextOf(Get(reference, "artifact")))
    ensures var key := FileKey(DirOf(reference), FINAL_NAME);
      && key in files && files[key].Content? && c.parse(files[key].bytes).Some?
      && Get(reference, "sha256") == Str(c.sha256(files[key].bytes))
      && var payload := c.parse(files[key].bytes).value;
         PayloadReasons(payload, reference, run, special) == {}
         && ChainReasons(c, files, payload, DirOf(reference), run) == {}
  {
    hide ReferenceReasons, PayloadReasons, ChainReasons, ArtifactPathOk, Parts;
  }

  lemma PayloadOrdinal(payload: Json, reference: Json, run: Json, special: Json -> Reasons)
    requires PayloadReasons(payload, reference, run, special) == {}
    ensures Get(payload, "round_ordinal") == Get(run, "ordinal")
  {
    hide Get, PassSemantics, PrivacyBroken, TextOf, ReasonList;
  }

  lemma PassingIsBound(c: Codec, files: Files, reference: Json, run: Json, special: Json -> Reasons)
    requires Passes(c, files, reference, run, special)
    ensures Bound(c, files, reference, run)
  {
    hide Passes, ArtifactPathOk, AuditPhase, PayloadReasons, PhaseBound, Parts;
    PassingParts(c, files, reference, run, special);
    var dir := DirOf(reference);
    var payload := c.parse(files[FileKey(dir, FINAL_NAME)].bytes).value;
    PayloadOrdinal(payload, reference, run, special);
    var chain := Get(payload, "phase_chain");
    var before := AuditPhase(c, files, chain, dir, "before", Null, run);
    var ready := AuditPhase(c, files, chain, dir, "ready", before.sha256, run);
    assert before.reasons == {} && ready.reasons == {};
    PhaseAuditBinds(c, files, chain, dir, "before", Null, run);
    PhaseAuditBinds(c, files, chain, dir, "ready", before.sha256, run);
  }

  /** Binding: the final reference alone fixes all three manifests, byte for byte.  Two stores that pass the audit for
      the same reference hold the same before, ready and final files. */
  lemma ReferenceBindsChain(c: Codec, f: Files, g: Files, reference: Json, run: Json, run': Json,
                            special: Json -> Reasons, special': Json -> Reasons)
    requires CollisionFree(c, f, g)
    requires Passes(c, f, reference, run, special) && Passes(c, g, reference, run', special')
    ensures ArtifactPathOk(TextOf(Get(reference, "artifact")))
    ensures forall name :: name in {FINAL_NAME, PhaseName("before"), PhaseName("ready")} ==>
      var key := FileKey(DirOf(reference), name);
      key in f && key in g && f[key].Content? && f[key] == g[key]
  {
    hide Passes, ArtifactPathOk, Parts;
    PassingIsBound(c, f, reference, run, special);
    PassingIsBound(c, g, reference, run', special');
    var dir := DirOf(reference);
    var final := FileKey(dir, FINAL_NAME);
    assert f[final].bytes == g[final].bytes;
    var payload := c.parse(f[final].bytes).value;
    var chain := Get(payload, "phase_chain");
    assert f[FileKey(dir, PhaseName("before"))].bytes == g[FileKey(dir, PhaseName("before"))].bytes;
    assert f[FileKey(dir, PhaseName("ready"))].bytes == g[FileKey(dir, PhaseName("ready"))].bytes;
  }

  // ---------- chains as the harness writes them ----------

  lemma PhaseNames()
    ensures '/' !in PhaseName("before") && '/' !in PhaseName("ready") && '/' !in FINAL_NAME
    ensures PhaseName("before") != PhaseName("ready") && PhaseName("before") != FINAL_NAME && PhaseName("ready") != FINAL_NAME
    ensures PhaseName("before") != "" && PhaseName("before") != "." && PhaseName("ready") != "" && PhaseName("ready") != "."
  {
    assert PhaseName("before")[22] == 'b' && PhaseName("ready")[22] == 'r' && FINAL_NAME[22] == 'j';
  }

  /** The parts of a reference, and of the chain entry made from it, that the audit of a phase reads. */
  lemma ReferenceFields(c: Codec, dir: string, name: string, doc: Doc)
    ensures var r := ReferenceTo(c, dir, name, doc);
      && r.Obj? && Get(r, "artifact") == Str(dir + "/" + name) && Get(r, "sha256") == Str(c.sha256(c.render(Obj(doc))))
      && Get(r, "status") == Get(Get(Obj(doc), "validation"), "status")
      && PhaseReference(r).Obj? && Get(PhaseReference(r), "artifact") == Get(r, "artifact")
      && Get(PhaseReference(r), "sha256") == Get(r, "sha256") && Get(PhaseReference(r), "status") == Get(r, "status")
  {
    var r := ReferenceTo(c, dir, name, doc);
    assert "artifact" in r.fields && "sha256" in r.fields && "status" in r.fields;
    assert "artifact" in PhaseReference(r).fields && "sha256" in PhaseReference(r).fields;
  }

  /** The chain keeps all of a reference but its reason codes. */
  lemma ChainEntryKeeps(reference: Json, key: string)
    requires reference.Obj?
    ensures Get(PhaseReference(reference), key) == if key == "reason_codes" then Null else Get(reference, key)
  {
  }

  /** Auditing a phase file that holds what its chain entry was made from leaves only what it says about itself. */
  lemma PhaseAsWritten(c: Codec, files: Files, chain: Json, dir: string, phase: string, predecessor: Json, doc: Doc,
                       run: Json)
    requires Faithful(c) && IsDirName(dir) && phase in {"before", "ready"}
    requires FileKey(dir, PhaseName(phase)) in files
    requires files[FileKey(dir, PhaseName(phase))] == Content(c.render(Obj(doc)))
    requires Get(chain, phase) == PhaseReference(ReferenceTo(c, dir, PhaseName(phase), doc))
    requires Get(Obj(doc), "audit_phase") == Obj(map["name" := Str(phase), "predecessor_sha256" := predecessor])
    ensures AuditPhase(c, files, chain, dir, phase, predecessor, run)
      == PhaseAudit(ContentReasons(phase, Obj(doc), run), Str(c.sha256(c.render(Obj(doc)))))
  {
    hide ContentReasons, Parts, IsAbsolute, ReferenceTo, PhaseReference, IsDirName, PhaseName;
    PhaseNames();
    PathReadsBack(dir, PhaseName(phase));
    ReferenceFields(c, dir, PhaseName(phase), doc);
    assert c.parse(c.render(Obj(doc))) == Some(Obj(doc));
  }

  /** Between phases the harness edits the manifest, but not the chain. */
  predicate KeepsChain(before: Doc, after: Doc) {
    Get(Obj(after), "phase_chain") == Get(Obj(before), "phase_chain")
  }

  /** The three phases in order, with any edits of the manifest in between. */
  ghost predicate WrittenInOrder(c: Codec, files: Files, dir: string, doc: Doc, doc1: Doc, doc2: Doc,
                                 one: Persisted, two: Persisted, three: Persisted)
  {
    && "phase_chain" !in doc
    && one == Persist(c, files, dir, doc, "before") && KeepsChain(one.doc, doc1)
    && two == Persist(c, one.files, dir, doc1, "ready") && KeepsChain(two.doc, doc2)
    && three == Persist(c, two.files, dir, doc2, "final")
  }

  lemma ChainAsWritten(c: Codec, files: Files, dir: string, doc: Doc, doc1: Doc, doc2: Doc,
                       one: Persisted, two: Persisted, three: Persisted)
    requires WrittenInOrder(c, files, dir, doc, doc1, doc2, one, two, three)
    ensures var before, ready := Marked(doc, "before"), Marked(doc1, "ready");
      var chain := Get(Obj(three.doc), "phase_chain");
      && Get(chain, "before") == PhaseReference(ReferenceTo(c, dir, PhaseName("before"), before))
      && Get(chain, "ready") == PhaseReference(ReferenceTo(c, dir, PhaseName("ready"), ready))
      && chain.Obj?
      && Get(Obj(before), "audit_phase") == Obj(map["name" := Str("before"), "predecessor_sha256" := Null])
      && Get(Obj(ready), "audit_phase")
         == Obj(map["name" := Str("ready"), "predecessor_sha256" := Str(c.sha256(c.render(Obj(before))))])
      && Get(Obj(three.doc), "audit_phase")
         == Obj(map["name" := Str("final"), "predecessor_sha256" := Str(c.sha256(c.render(Obj(ready))))])
  {
    hide ReferenceTo, PhaseReference, PhaseName;
    var before, ready := Marked(doc, "before"), Marked(doc1, "ready");
    ReferenceFields(c, dir, PhaseName("before"), before);
    ReferenceFields(c, dir, PhaseName("ready"), ready);
    assert ChainOf(doc) == map[];
    assert ChainOf(doc1) == map["before" := PhaseReference(ReferenceTo(c, dir, PhaseName("before"), before))];
    assert ChainOf(doc2)
      == ChainOf(doc1)["ready" := PhaseReference(ReferenceTo(c, dir, PhaseName("ready"), ready))];
    assert Get(Obj(three.doc), "phase_chain") == Get(Obj(doc2), "phase_chain");
  }

  lemma FilesAsWritten(c: Codec, files: Files, dir: string, doc: Doc, doc1: Doc, doc2: Doc,
                       one: Persisted, two: Persisted, three: Persisted)
    requires WrittenInOrder(c, files, dir, doc, doc1, doc2, one, two, three)
    ensures var f := three.files;
      var b, r, n := FileKey(dir, PhaseName("before")), FileKey(dir, PhaseName("ready")), FileKey(dir, FINAL_NAME);
      && b in f && f[b] == Content(c.render(Obj(Marked(doc, "before"))))
      && r in f && f[r] == Content(c.render(Obj(Marked(doc1, "ready"))))
      && n in f && f[n] == Content(c.render(Obj(three.doc)))
  {
    hide ReferenceTo, Marked;
    PhaseNames();
  }

  /** Completeness: a chain written in order raises no reason about the chain itself.  What remains are the reasons about
      the reference, about the final manifest, and about what the two earlier manifests say of themselves. */
  lemma WrittenChainAudits(c: Codec, files: Files, dir: string, doc: Doc, doc1: Doc, doc2: Doc,
                           one: Persisted, two: Persisted, three: Persisted, run: Json, special: Json -> Reasons)
    requires Faithful(c) && IsDirName(dir)
    requires WrittenInOrder(c, files, dir, doc, doc1, doc2, one, two, three)
    ensures Audit(c, three.files, three.reference, run, special)
      == ReferenceReasons(three.reference, run)
         + PayloadReasons(Obj(three.doc), three.reference, run, special)
         + ContentReasons("before", Obj(Marked(doc, "before")), run)
         + ContentReasons("ready", Obj(Marked(doc1, "ready")), run)
  {
    hide *;
    var payload := Obj(three.doc);
    var chain := Get(payload, "phase_chain");
    var before, ready := Marked(doc, "before"), Marked(doc1, "ready");
    ChainAsWritten(c, files, dir, doc, doc1, doc2, one, two, three);
    FilesAsWritten(c, files, dir, doc, doc1, doc2, one, two, three);
    FinalReference(c, files, dir, doc, doc1, doc2, one, two, three);
    PhaseAsWritten(c, three.files, chain, dir, "before", Null, before, run);
    PhaseAsWritten(c, three.files, chain, dir, "ready", Str(c.sha256(c.render(Obj(before)))), ready, run);
    FinalAsWritten(c, three.files, dir, three.doc, three.reference, run, special);
    ChainReasonsAre(c, three.files, payload, dir, run);
  }

  lemma ChainReasonsAre(c: Codec, files: Files, payload: Json, dir: string, run: Json)
    requires Get(payload, "phase_chain").Obj?
    requires var ready := AuditPhase(c, files, Get(payload, "phase_chain"), dir, "ready",
        AuditPhase(c, files, Get(payload, "phase_chain"), dir, "before", Null, run).sha256, run);
      Get(payload, "audit_phase") == Obj(map["name" := Str("final"), "predecessor_sha256" := ready.sha256])
    ensures ChainReasons(c, files, payload, dir, run)
      == AuditPhase(c, files, Get(payload, "phase_chain"), dir, "before", Null, run).reasons
         + AuditPhase(c, files, Get(payload, "phase_chain"), dir, "ready",
             AuditPhase(c, files, Get(payload, "phase_chain"), dir, "before", Null, run).sha256, run).reasons
  {
    hide AuditPhase;
  }

  lemma FinalReference(c: Codec, files: Files, dir: string, doc: Doc, doc1: Doc, doc2: Doc,
                       one: Persisted, two: Persisted, three: Persisted)
    requires WrittenInOrder(c, files, dir, doc, doc1, doc2, one, two, three)
    ensures three.reference == ReferenceTo(c, dir, FINAL_NAME, three.doc)
  {
    hide ReferenceTo, Marked;
  }

  lemma FinalAsWritten(c: Codec, files: Files, dir: string, doc: Doc, reference: Json, run: Json, special: Json -> Reasons)
    requires Faithful(c) && IsDirName(dir)
    requires FileKey(dir, FINAL_NAME) in files && files[FileKey(dir, FINAL_NAME)] == Content(c.render(Obj(doc)))
    requires reference == ReferenceTo(c, dir, FINAL_NAME, doc)
    ensures Audit(c, files, reference, run, special)
      == ReferenceReasons(reference, run)
         + (PayloadReasons(Obj(doc), reference, run, special) + ChainReasons(c, files, Obj(doc), dir, run))
  {
    hide ReferenceReasons, PayloadReasons, ChainReasons, Parts, IsAbsolute, ReferenceTo, IsDirName;
    PhaseNames();
    PathReadsBack(dir, FINAL_NAME);
    NotDotDot(dir);
    ReferenceFields(c, dir, FINAL_NAME, doc);
    assert TextOf(Get(reference, "artifact")) == dir + "/" + FINAL_NAME;
    assert c.parse(c.render(Obj(doc))) == Some(Obj(doc));
    assert Get(reference, "sha256") == Str(c.sha256(c.render(Obj(doc))));
  }

  lemma NotDotDot(dir: string)
    requires IsDirName(dir)
    ensures dir != ".."
  {
    assert IsAlphanumeric(dir[0]);
  }

  /** The manifest names the run it was made for, in every phase. */
  predicate Describes(doc: Doc, run: Json) {
    var m := Obj(doc);
    && Get(m, "record_type") == Str(RECORD_TYPE) && Get(m, "schema_version") == Num(SCHEMA_VERSION)
    && Get(m, "benchmark_id") == Get(run, "benchmark_id") && Get(m, "round_ordinal") == Get(run, "ordinal")
    && Get(m, "scenario").Obj? && Get(Get(m, "scenario"), "id") == SpecId(TextOf(Get(run, "scenario")))
    && Get(Get(m, "scenario"), "cli_name") == Str(TextOf(Get(run, "scenario")))
    && Get(Get(m, "scenario"), "variant") == Get(run, "round_role")
    && Get(m, "expectation").Obj?
    && Get(Get(m, "expectation"), "instrumentation_arm") == Get(run, "instrumentation_arm")
    && Get(m, "validation").Obj? && !PrivacyBroken(m)
  }

  function StatusOf(doc: Doc): Json {
    Get(Get(Obj(doc), "validation"), "status")
  }

  /** A known scenario whose final manifest reports the run's outcome, with no reason codes and the semantics of a pass
      when it is one. */
  predicate Concludes(doc: Doc, run: Json, special: Json -> Reasons) {
    && SpecId(TextOf(Get(run, "scenario"))) != Null
    && StatusOf(doc) == Str(if Get(run, "status") == Str("ok") then "pass" else "failed")
    && (StatusOf(doc) == Str("pass") ==>
          && ReasonList(Get(Get(Obj(doc), "validation"), "reason_codes")) == Arr([])
          && PassSemantics(Obj(doc)) && special(Obj(doc)) == {})
  }

  lemma MarkKeeps(doc: Doc, phase: string)
    ensures forall key {:trigger Get(Obj(Marked(doc, phase)), key)} :: key != "audit_phase" ==>
      Get(Obj(Marked(doc, phase)), key) == Get(Obj(doc), key)
  {
    hide ChainOf;
  }

  lemma MarkedStillDescribes(doc: Doc, phase: string, run: Json)
    requires Describes(doc, run)
    ensures Describes(Marked(doc, phase), run) && StatusOf(Marked(doc, phase)) == StatusOf(doc)
  {
    hide Marked, Get, TextOf, SpecId;
    MarkKeeps(doc, phase);
  }

  lemma NoContentReasons(phase: string, doc: Doc, run: Json)
    requires Describes(doc, run)
    requires phase == "before" ==> StatusOf(doc) == Str("pending")
    requires phase == "ready" ==> StatusOf(doc) in {Str("ready_for_measurement"), Str("failed")}
    ensures ContentReasons(phase, Obj(doc), run) == {}
  {
    hide PrivacyBroken, SpecId;
  }

  lemma ReferenceIdentity(c: Codec, dir: string, name: string, doc: Doc)
    ensures var r, m := ReferenceTo(c, dir, name, doc), Obj(doc);
      && Get(r, "record_type") == Get(m, "record_type") && Get(r, "schema_version") == Get(m, "schema_version")
  {
    var r := ReferenceTo(c, dir, name, doc);
    assert "record_type" in r.fields && "schema_version" in r.fields;
  }

  lemma ReferenceRound(c: Codec, dir: string, name: string, doc: Doc)
    ensures var r, m := ReferenceTo(c, dir, name, doc), Obj(doc);
      && Get(r, "benchmark_id") == Get(m, "benchmark_id") && Get(r, "round_ordinal") == Get(m, "round_ordinal")
  {
    var r := ReferenceTo(c, dir, name, doc);
    assert "benchmark_id" in r.fields && "round_ordinal" in r.fields;
  }

  lemma ReferenceScenario(c: Codec, dir: string, name: string, doc: Doc)
    ensures var r, m := ReferenceTo(c, dir, name, doc), Get(Obj(doc), "scenario");
      && Get(r, "scenario_id") == Get(m, "id") && Get(r, "scenario") == Get(m, "cli_name")
      && Get(r, "variant") == Get(m, "variant")
  {
    var r := ReferenceTo(c, dir, name, doc);
    assert "scenario_id" in r.fields && "scenario" in r.fields && "variant" in r.fields;
  }

  lemma ReferenceRest(c: Codec, dir: string, name: string, doc: Doc)
    ensures var r, m := ReferenceTo(c, dir, name, doc), Obj(doc);
      && Get(r, "snapshot") == Str(name)
      && Get(r, "instrumentation_arm") == Get(Get(m, "expectation"), "instrumentation_arm")
      && Get(r, "reason_codes") == ReasonList(Get(Get(m, "validation"), "reason_codes"))
  {
    var r := ReferenceTo(c, dir, name, doc);
    assert "snapshot" in r.fields && "instrumentation_arm" in r.fields && "reason_codes" in r.fields;
  }

  /** Everything a reference says, in terms of the manifest it was made from. */
  lemma ReferenceSays(c: Codec, dir: string, doc: Doc)
    ensures var r, m := ReferenceTo(c, dir, FINAL_NAME, doc), Obj(doc);
      && Get(r, "record_type") == Get(m, "record_type") && Get(r, "schema_version") == Get(m, "schema_version")
      && Get(r, "benchmark_id") == Get(m, "benchmark_id") && Get(r, "round_ordinal") == Get(m, "round_ordinal")
      && Get(r, "scenario_id") == Get(Get(m, "scenario"), "id")
      && Get(r, "scenario") == Get(Get(m, "scenario"), "cli_name")
      && Get(r, "variant") == Get(Get(m, "scenario"), "variant") && Get(r, "snapshot") == Str(FINAL_NAME)
      && Get(r, "instrumentation_arm") == Get(Get(m, "expectation"), "instrumentation_arm")
      && Get(r, "reason_codes") == ReasonList(Get(Get(m, "validation"), "reason_codes"))
      && Get(r, "sha256") == Str(c.sha256(c.render(m))) && Get(r, "status") == Get(Get(m, "validation"), "status")
  {
    hide *;
    ReferenceIdentity(c, dir, FINAL_NAME, doc);
    ReferenceRound(c, dir, FINAL_NAME, doc);
    ReferenceScenario(c, dir, FINAL_NAME, doc);
    ReferenceRest(c, dir, FINAL_NAME, doc);
    ReferenceFields(c, dir, FINAL_NAME, doc);
  }

  lemma KnownScenario(scenario: string)
    requires SpecId(scenario) != Null
    ensures TextOf(SpecId(scenario)) in {"S0", "S1", "S3", "S4", "S5a"}
  {
  }

  lemma NoShapeReasons(c: Codec, dir: string, doc: Doc, run: Json, special: Json -> Reasons)
    requires Faithful(c) && Describes(doc, run) && Concludes(doc, run, special)
    ensures ShapeReasons(ReferenceTo(c, dir, FINAL_NAME, doc)) == {}
  {
    hide PrivacyBroken, PassSemantics, ReferenceTo, IsHex64, Get, TextOf, SpecId;
    ReferenceSays(c, dir, doc);
    KnownScenario(TextOf(Get(run, "scenario")));
    assert IsHex64(c.sha256(c.render(Obj(doc))));
    TextOfStrings();
  }

  lemma NoMismatchReasons(c: Codec, dir: string, doc: Doc, run: Json, special: Json -> Reasons)
    requires Describes(doc, run) && Concludes(doc, run, special)
    ensures MismatchReasons(ReferenceTo(c, dir, FINAL_NAME, doc), run) == {}
  {
    hide PrivacyBroken, PassSemantics, ReferenceTo, Get, TextOf, SpecId, ReasonList;
    ReferenceSays(c, dir, doc);
  }

  lemma NoReferenceReasons(c: Codec, dir: string, doc: Doc, run: Json, special: Json -> Reasons)
    requires Faithful(c) && Describes(doc, run) && Concludes(doc, run, special)
    ensures ReferenceReasons(ReferenceTo(c, dir, FINAL_NAME, doc), run) == {}
  {
    hide ShapeReasons, MismatchReasons, ReferenceTo, Faithful, Describes, Concludes;
    NoShapeReasons(c, dir, doc, run, special);
    NoMismatchReasons(c, dir, doc, run, special);
  }

  lemma TextOfStrings()
    ensures forall s :: TextOf(Str(s)) == s
  {
  }

  lemma NoPayloadReasons(c: Codec, dir: string, doc: Doc, run: Json, special: Json -> Reasons)
    requires Describes(doc, run) && Concludes(doc, run, special)
    ensures PayloadReasons(Obj(doc), ReferenceTo(c, dir, FINAL_NAME, doc), run, special) == {}
  {
    hide PrivacyBroken, PassSemantics, ReferenceTo, Get, TextOf;
    ReferenceSays(c, dir, doc);
  }

  /** A run whose manifests describe it in all three phases and conclude as it did passes the audit. */
  lemma HonestRunPasses(c: Codec, files: Files, dir: string, doc: Doc, doc1: Doc, doc2: Doc,
                        one: Persisted, two: Persisted, three: Persisted, run: Json, special: Json -> Reasons)
    requires Faithful(c) && IsDirName(dir)
    requires WrittenInOrder(c, files, dir, doc, doc1, doc2, one, two, three)
    requires Describes(doc, run) && Describes(doc1, run) && Describes(doc2, run)
    requires StatusOf(doc) == Str("pending") && StatusOf(doc1) in {Str("ready_for_measurement"), Str("failed")}
    requires Concludes(three.doc, run, special)
    ensures Passes(c, three.files, three.reference, run, special)
  {
    WrittenChainAudits(c, files, dir, doc, doc1, doc2, one, two, three, run, special);
    FinalReference(c, files, dir, doc, doc1, doc2, one, two, three);
    assert three.doc == Marked(doc2, "final");
    hide *;
    MarkedStillDescribes(doc, "before", run);
    MarkedStillDescribes(doc1, "ready", run);
    MarkedStillDescribes(doc2, "final", run);
    NoContentReasons("before", Marked(doc, "before"), run);
    NoContentReasons("ready", Marked(doc1, "ready"), run);
    NoReferenceReasons(c, dir, three.doc, run, special);
    NoPayloadReasons(c, dir, three.doc, run, special);
    NothingFound(c, three.files, three.reference, run, special);
  }

  lemma NothingFound(c: Codec, files: Files, reference: Json, run: Json, special: Json -> Reasons)
    requires Audit(c, files, reference, run, special) == {}
    ensures Passes(c, files, reference, run, special)
  {
  }
}
