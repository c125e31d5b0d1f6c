/**
 * The phase of a job, decided from its records, and what the decision means for a whole store of records:
 * at most one job per agent is active, at most one is queued, and never both.
 */
module ExecutionPhase {
  import opened Wrappers
  import opened Texts

  type Text = Option<string>

  // ---------- normalised identifiers and statuses ----------

  /** An identifier as compared: missing is empty, and surrounding whitespace does not count. */
  function Identity(t: Text): string {
    match t case None => "" case Some(s) => Strip(s)
  }

  /** A status as compared: an identifier in lower case. */
  function Clean(t: Text): string {
    Lower(Identity(t))
  }

  function Attr(t: Text): Text {
    if Identity(t) == "" then None else Some(Identity(t))
  }

  function EnumAttr(t: Text): Text {
    if Clean(t) == "" then None else Some(Clean(t))
  }

  /** Normalising once when the evidence is gathered and again when it is judged is the same as normalising once. */
  lemma NormalisedTwice(t: Text)
    ensures Identity(Attr(t)) == Identity(t) && Clean(EnumAttr(t)) == Clean(t)
  {
    if t.Some? {
      StripTrims(t.value);
      TrimmedStays(Strip(t.value));
      assert Clean(t) == "" ==> Identity(t) == "";
    }
  }

  // ---------- evidence and phases ----------

  datatype Evidence = Evidence(
    jobId: Text, jobAgent: Text, jobStatus: Text,
    attemptId: Text, attemptJobId: Text, attemptAgent: Text, attemptState: Text,
    inboundId: Text, inboundAttemptId: Text, inboundAgent: Text, inboundStatus: Text,
    mailboxAgent: Text, mailboxState: Text, mailboxHead: Text, mailboxActive: Text,
    leaseAgent: Text, leaseInbound: Text, leaseState: Text,
    completionJobId: Text, completionAgent: Text, anchorSeen: Option<bool>, completionTerminal: Option<bool>,
    providerState: Text, providerCurrent: Option<bool>, orphanSuspected: bool, replyExpected: bool,
    deliveryJobId: Text, deliverySource: Text, deliveryStatus: Text)

  datatype Phase =
    | Unknown | Queued | Injecting | Executing | Orphaned | ProviderIdlePendingTerminal
    | ReplyQueued | ReplyDelivering | Terminal

  datatype Verdict = Verdict(phase: Phase, reason: string)

  const PENDING: set<string> := {"accepted", "queued"}
  const TERMINAL: set<string> := {"completed", "cancelled", "failed", "incomplete"}

  function Derive(e: Evidence): Verdict {
    var status := Clean(e.jobStatus);
    if status == "completed" && e.replyExpected then ReplyPhase(e)
    else if status in TERMINAL then Verdict(Terminal, "job_" + status)
    else if e.completionTerminal == Some(true) then Verdict(Terminal, "completion_terminal")
    else if status in PENDING then
      match QueuedLineageError(e)
      case Some(reason) => Verdict(Unknown, reason)
      case None => Verdict(Queued, "queued_lineage_confirmed")
    else if status != "running" then Verdict(Unknown, "job_status_unknown")
    else
      match ActiveLineageError(e)
      case Some(reason) => Verdict(Unknown, reason)
      case None => ActivePhase(e)
  }

  function ActivePhase(e: Evidence): Verdict {
    if e.anchorSeen == Some(false) then Verdict(Injecting, "request_anchor_not_seen")
    else if e.anchorSeen != Some(true) then Verdict(Unknown, "completion_anchor_unknown")
    else if e.providerCurrent != Some(true) then Verdict(Unknown, "provider_identity_mismatch")
    else if Clean(e.providerState) in {"active", "pending"} then Verdict(Executing, "provider_active")
    else if Clean(e.providerState) == "idle" then
      if e.orphanSuspected then Verdict(Orphaned, "provider_idle_without_terminal")
      else Verdict(ProviderIdlePendingTerminal, "provider_idle_terminal_pending")
    else Verdict(Unknown, "provider_state_unknown")
  }

  function ReplyPhase(e: Evidence): Verdict {
    var status := Clean(e.deliveryStatus);
    if Identity(e.deliveryJobId) == "" && status == "" then Verdict(ReplyQueued, "reply_delivery_pending")
    else if Identity(e.deliveryJobId) == "" then Verdict(Unknown, "reply_delivery_job_missing")
    else if Identity(e.deliverySource) != Identity(e.jobId) then Verdict(Unknown, "reply_delivery_source_mismatch")
    else if status in PENDING then Verdict(ReplyQueued, "reply_delivery_pending")
    else if status == "running" then Verdict(ReplyDelivering, "reply_delivery_running")
    else if status in TERMINAL then Verdict(Terminal, "reply_delivery_" + status)
    else Verdict(Unknown, "reply_delivery_status_unknown")
  }

  function QueuedLineageError(e: Evidence): Option<string> {
    var common := CommonIdentityError(e);
    if common.Some? then common
    else if Clean(e.attemptState) !in {"pending", "delivering"} then Some("attempt_not_pending")
    else if Clean(e.inboundStatus) !in {"created", "queued"} then Some("inbound_not_queued")
    else if Clean(e.mailboxState) != "blocked" then Some("mailbox_state_mismatch")
    else if Identity(e.mailboxHead) != Identity(e.inboundId) then Some("mailbox_head_mismatch")
    else if Identity(e.mailboxActive) != "" then Some("mailbox_active_conflict")
    else if Clean(e.leaseState) == "acquired" || Identity(e.leaseInbound) != "" then Some("queued_lease_conflict")
    else None
  }

  function ActiveLineageError(e: Evidence): Option<string> {
    var common := CommonIdentityError(e);
    if common.Some? then common
    else if Clean(e.attemptState) !in {"delivering", "running", "waiting_completion"} then Some("attempt_not_active")
    else if Clean(e.inboundStatus) != "delivering" then Some("inbound_not_delivering")
    else if Clean(e.mailboxState) != "delivering" then Some("mailbox_state_mismatch")
    else if Identity(e.mailboxActive) != Identity(e.inboundId) then Some("mailbox_active_mismatch")
    else if Identity(e.leaseInbound) != Identity(e.inboundId) then Some("lease_inbound_mismatch")
    else if Identity(e.leaseAgent) != Identity(e.jobAgent) then Some("lease_agent_mismatch")
    else if Clean(e.leaseState) != "acquired" then Some("lease_not_acquired")
    else if Identity(e.completionJobId) != Identity(e.jobId) then Some("completion_job_mismatch")
    else if Identity(e.completionAgent) != Identity(e.jobAgent) then Some("completion_agent_mismatch")
    else None
  }

  function CommonIdentityError(e: Evidence): Option<string> {
    if Identity(e.jobId) == "" then Some("job_id_missing")
    else if Identity(e.jobAgent) == "" then Some("job_agent_missing")
    else if Identity(e.attemptId) == "" then Some("attempt_missing")
    else if Identity(e.attemptJobId) != Identity(e.jobId) then Some("attempt_job_mismatch")
    else if Identity(e.attemptAgent) != Identity(e.jobAgent) then Some("attempt_agent_mismatch")
    else if Identity(e.inboundId) == "" then Some("inbound_missing")
    else if Identity(e.inboundAttemptId) != Identity(e.attemptId) then Some("inbound_attempt_mismatch")
    else if Identity(e.inboundAgent) != Identity(e.jobAgent) then Some("inbound_agent_mismatch")
    else if Identity(e.mailboxAgent) != Identity(e.jobAgent) then Some("mailbox_agent_mismatch")
    else None
  }

  // ---------- records ----------

  datatype Job = Job(id: Text, agent: Text, status: Text)
  datatype Attempt = Attempt(id: Text, job: Text, agent: Text, state: Text)
  datatype Inbound = Inbound(id: Text, attempt: Text, agent: Text, status: Text)
  datatype Mailbox = Mailbox(agent: Text, state: Text, head: Text, active: Text)
  datatype Lease = Lease(agent: Text, inbound: Text, state: Text)

  /** The completion record; its terminal flag comes from its state when it has one, else from its latest decision. */
  datatype Completion = Completion(job: Text, agent: Text, state: Option<CompletionState>, decisionTerminal: Option<bool>)
  datatype CompletionState = CompletionState(anchorSeen: Option<bool>, terminal: Option<bool>)

  /** What the caller says besides the stored records. */
  datatype Context = Context(providerState: Text, providerCurrent: Option<bool>, orphanSuspected: bool,
                             replyExpected: bool, delivery: Option<Job>, deliverySource: Text)

  datatype Records = Records(job: Job, attempt: Option<Attempt>, inbound: Option<Inbound>, mailbox: Option<Mailbox>,
                             lease: Option<Lease>, completion: Option<Completion>)

  function Field<R>(r: Option<R>, read: R -> Text): Text {
    if r.None? then None else read(r.value)
  }

  function EvidenceOf(r: Records, c: Context): Evidence {
    var state := if r.completion.Some? then r.completion.value.state else None;
    Evidence(
      Attr(r.job.id), Attr(r.job.agent), EnumAttr(r.job.status),
      Attr(Field(r.attempt, (a: Attempt) => a.id)), Attr(Field(r.attempt, (a: Attempt) => a.job)),
      Attr(Field(r.attempt, (a: Attempt) => a.agent)), EnumAttr(Field(r.attempt, (a: Attempt) => a.state)),
      Attr(Field(r.inbound, (i: Inbound) => i.id)), Attr(Field(r.inbound, (i: Inbound) => i.attempt)),
      Attr(Field(r.inbound, (i: Inbound) => i.agent)), EnumAttr(Field(r.inbound, (i: Inbound) => i.status)),
      Attr(Field(r.mailbox, (m: Mailbox) => m.agent)), EnumAttr(Field(r.mailbox, (m: Mailbox) => m.state)),
      Attr(Field(r.mailbox, (m: Mailbox) => m.head)), Attr(Field(r.mailbox, (m: Mailbox) => m.active)),
      Attr(Field(r.lease, (l: Lease) => l.agent)), Attr(Field(r.lease, (l: Lease) => l.inbound)),
      EnumAttr(Field(r.lease, (l: Lease) => l.state)),
      Attr(Field(r.completion, (p: Completion) => p.job)), Attr(Field(r.completion, (p: Completion) => p.agent)),
      if state.Some? then state.value.anchorSeen else None,
      if state.Some? then state.value.terminal
      else if r.completion.Some? then r.completion.value.decisionTerminal else None,
      c.providerState, c.providerCurrent, c.orphanSuspected, c.replyExpected,
      Attr(Field(c.delivery, (j: Job) => j.id)), c.deliverySource, EnumAttr(Field(c.delivery, (j: Job) => j.status)))
  }

  predicate Same(a: Text, b: Text) {
    Identity(a) == Identity(b)
  }

  predicate Present(t: Text) {
    Identity(t) != ""
  }

  /** Job, attempt, inbound event and mailbox belong together and to one agent. */
  predicate Linked(r: Records) {
    && r.attempt.Some? && r.inbound.Some? && r.mailbox.Some?
    && Present(r.job.id) && Present(r.job.agent) && Present(r.attempt.value.id) && Present(r.inbound.value.id)
    && Same(r.attempt.value.job, r.job.id) && Same(r.inbound.value.attempt, r.attempt.value.id)
    && Same(r.attempt.value.agent, r.job.agent) && Same(r.inbound.value.agent, r.job.agent)
    && Same(r.mailbox.value.agent, r.job.agent)
  }

  /** The full lineage of an active job: its inbound event is being delivered by its agent's mailbox under its lease. */
  predicate ActiveLineage(r: Records) {
    && Linked(r) && r.lease.Some? && r.completion.Some?
    && Clean(r.attempt.value.state) in {"delivering", "running", "waiting_completion"}
    && Clean(r.inbound.value.status) == "delivering" && Clean(r.mailbox.value.state) == "delivering"
    && Same(r.mailbox.value.active, r.inbound.value.id) && Same(r.lease.value.inbound, r.inbound.value.id)
    && Same(r.lease.value.agent, r.job.agent) && Clean(r.lease.value.state) == "acquired"
    && Same(r.completion.value.job, r.job.id) && Same(r.completion.value.agent, r.job.agent)
  }

  /** The full lineage of a queued job: its inbound event heads its agent's blocked mailbox, and nothing is leased. */
  predicate QueuedLineage(r: Records) {
    && Linked(r)
    && Clean(r.attempt.value.state) in {"pending", "delivering"}
    && Clean(r.inbound.value.status) in {"created", "queued"} && Clean(r.mailbox.value.state) == "blocked"
    && Same(r.mailbox.value.head, r.inbound.value.id) && !Present(r.mailbox.value.active)
    && (r.lease.Some? ==> Clean(r.lease.value.state) != "acquired" && !Present(r.lease.value.inbound))
  }

  lemma AllNormalised()
    ensures forall t :: Identity(Attr(t)) == Identity(t)
    ensures forall t :: Clean(EnumAttr(t)) == Clean(t)
    ensures Identity(None) == "" && Clean(None) == ""
  {
    forall t ensures Identity(Attr(t)) == Identity(t) && Clean(EnumAttr(t)) == Clean(t) {
      NormalisedTwice(t);
    }
  }

  lemma CommonMeans(r: Records, c: Context)
    ensures CommonIdentityError(EvidenceOf(r, c)).None? <==> Linked(r)
  {
    hide Identity, Clean, Attr, EnumAttr;
    AllNormalised();
  }

  /** No active-lineage error is reported exactly when the records form the full active lineage. */
  lemma ActiveMeans(r: Records, c: Context)
    ensures ActiveLineageError(EvidenceOf(r, c)).None? <==> ActiveLineage(r)
  {
    hide Identity, Clean, Attr, EnumAttr;
    AllNormalised();
  }

  lemma QueuedMeans(r: Records, c: Context)
    ensures QueuedLineageError(EvidenceOf(r, c)).None? <==> QueuedLineage(r)
  {
    hide Identity, Clean, Attr, EnumAttr;
    AllNormalised();
  }

  // ---------- which phase, exactly when ----------

  function PhaseOf(r: Records, c: Context): Phase {
    Derive(EvidenceOf(r, c)).phase
  }

  function SaysTerminal(r: Records): bool {
    r.completion.Some? &&
    (if r.completion.value.state.Some? then r.completion.value.state.value.terminal
     else r.completion.value.decisionTerminal) == Some(true)
  }

  function AnchorSeen(r: Records): Option<bool> {
    if r.completion.Some? && r.completion.value.state.Some? then r.completion.value.state.value.anchorSeen else None
  }

  /** The job is running, not known to be finished, and its full active lineage holds. */
  predicate Running(r: Records) {
    Clean(r.job.status) == "running" && !SaysTerminal(r) && ActiveLineage(r)
  }

  lemma Statuses(r: Records, c: Context)
    ensures Clean(EvidenceOf(r, c).jobStatus) == Clean(r.job.status)
    ensures EvidenceOf(r, c).completionTerminal == Some(true) <==> SaysTerminal(r)
    ensures EvidenceOf(r, c).anchorSeen == AnchorSeen(r)
  {
    NormalisedTwice(r.job.status);
  }

  /** The four active phases: each holds exactly when the full lineage holds and the observations single it out. */
  lemma ActivePhases(r: Records, c: Context)
    ensures PhaseOf(r, c) == Injecting <==> Running(r) && AnchorSeen(r) == Some(false)
    ensures PhaseOf(r, c) == Executing <==>
      Running(r) && AnchorSeen(r) == Some(true) && c.providerCurrent == Some(true)
      && Clean(c.providerState) in {"active", "pending"}
    ensures PhaseOf(r, c) == Orphaned <==>
      Running(r) && AnchorSeen(r) == Some(true) && c.providerCurrent == Some(true)
      && Clean(c.providerState) == "idle" && c.orphanSuspected
    ensures PhaseOf(r, c) == ProviderIdlePendingTerminal <==>
      Running(r) && AnchorSeen(r) == Some(true) && c.providerCurrent == Some(true)
      && Clean(c.providerState) == "idle" && !c.orphanSuspected
  {
    hide ActiveLineage, ActiveLineageError, QueuedLineageError, Clean, Identity;
    Statuses(r, c);
    ActiveMeans(r, c);
  }

  /** A pending job is queued exactly when nothing says it finished and its full queued lineage holds. */
  lemma QueuedPhase(r: Records, c: Context)
    ensures PhaseOf(r, c) == Queued <==> Clean(r.job.status) in PENDING && !SaysTerminal(r) && QueuedLineage(r)
  {
    hide QueuedLineage, ActiveLineageError, QueuedLineageError, Clean, Identity;
    Statuses(r, c);
    QueuedMeans(r, c);
  }

  /** The delivery of the reply a completed job owes: pending, on its way, or finished; anything else is not terminal. */
  lemma ReplyPhases(r: Records, c: Context)
    ensures var owed := Clean(r.job.status) == "completed" && c.replyExpected;
      var sent := c.delivery.Some? && Present(c.delivery.value.id) && Same(c.deliverySource, r.job.id);
      && (PhaseOf(r, c) == ReplyDelivering <==> owed && sent && Clean(c.delivery.value.status) == "running")
      && (PhaseOf(r, c) == ReplyQueued <==>
            owed && ((sent && Clean(c.delivery.value.status) in PENDING)
                     || c.delivery.None?
                     || (!Present(c.delivery.value.id) && Clean(c.delivery.value.status) == "")))
      && (PhaseOf(r, c) == Terminal <==>
            if owed then sent && Clean(c.delivery.value.status) in TERMINAL
            else Clean(r.job.status) in TERMINAL || SaysTerminal(r))
  {
    Statuses(r, c);
    var e := EvidenceOf(r, c);
    hide Identity, Clean, Attr, EnumAttr, ActiveLineageError, QueuedLineageError;
    AllNormalised();
    assert Identity(e.jobId) == Identity(r.job.id);
    assert Identity(e.deliveryJobId) == (if c.delivery.Some? then Identity(c.delivery.value.id) else "");
    assert Clean(e.deliveryStatus) == (if c.delivery.Some? then Clean(c.delivery.value.status) else "");
  }

  // ---------- the reason given ----------

  function ReasonOf(r: Records, c: Context): string {
    Derive(EvidenceOf(r, c)).reason
  }

  /** Every phase but unknown has its own reason; a terminal one tells whose status ended it. */
  lemma PhaseReasons(r: Records, c: Context)
    ensures var phase, reason := PhaseOf(r, c), ReasonOf(r, c);
      && (phase == Queued ==> reason == "queued_lineage_confirmed")
      && (phase == Injecting ==> reason == "request_anchor_not_seen")
      && (phase == Executing ==> reason == "provider_active")
      && (phase == Orphaned ==> reason == "provider_idle_without_terminal")
      && (phase == ProviderIdlePendingTerminal ==> reason == "provider_idle_terminal_pending")
      && (phase == ReplyQueued ==> reason == "reply_delivery_pending")
      && (phase == ReplyDelivering ==> reason == "reply_delivery_running")
      && (phase == Terminal ==>
            reason == if Clean(r.job.status) == "completed" && c.replyExpected then
                        "reply_delivery_" + Clean(Field(c.delivery, (j: Job) => j.status))
                      else if Clean(r.job.status) in TERMINAL then "job_" + Clean(r.job.status)
                      else "completion_terminal")
  {
    hide ActiveLineageError, QueuedLineageError, Clean, Identity, Attr, EnumAttr;
    Statuses(r, c);
    AllNormalised();
  }

  /** What else makes a phase unknown: a status of no known kind, observations that single out nothing, and a reply whose
      delivery cannot be followed. */
  lemma UnknownReasons(r: Records, c: Context)
    ensures !(Clean(r.job.status) in TERMINAL + PENDING + {"running"}) && !SaysTerminal(r) ==>
      Derive(EvidenceOf(r, c)) == Verdict(Unknown, "job_status_unknown")
    ensures Running(r) && AnchorSeen(r) == None ==> Derive(EvidenceOf(r, c)) == Verdict(Unknown, "completion_anchor_unknown")
    ensures Running(r) && AnchorSeen(r) == Some(true) && c.providerCurrent != Some(true) ==>
      Derive(EvidenceOf(r, c)) == Verdict(Unknown, "provider_identity_mismatch")
    ensures
      Running(r) && AnchorSeen(r) == Some(true) && c.providerCurrent == Some(true)
      && Clean(c.providerState) !in {"active", "pending", "idle"} ==>
        Derive(EvidenceOf(r, c)) == Verdict(Unknown, "provider_state_unknown")
    ensures Clean(r.job.status) == "completed" && c.replyExpected && c.delivery.Some? ==>
      var id, status := Present(c.delivery.value.id), Clean(c.delivery.value.status);
      && (!id && status != "" ==> Derive(EvidenceOf(r, c)) == Verdict(Unknown, "reply_delivery_job_missing"))
      && (id && !Same(c.deliverySource, r.job.id) ==>
            Derive(EvidenceOf(r, c)) == Verdict(Unknown, "reply_delivery_source_mismatch"))
      && (id && Same(c.deliverySource, r.job.id) && !(status in TERMINAL + PENDING + {"running"}) ==>
            Derive(EvidenceOf(r, c)) == Verdict(Unknown, "reply_delivery_status_unknown"))
  {
    hide ActiveLineageError, ActiveLineage, QueuedLineageError, Clean, Identity, Attr, EnumAttr;
    Statuses(r, c);
    ActiveMeans(r, c);
    AllNormalised();
  }

  /** A link of the lineage between records, and the reason that tells of its being broken. */
  datatype Link = Link(holds: bool, reason: string)

  ghost predicate IsFirstBroken(links: seq<Link>, n: nat) {
    n < |links| && !links[n].holds && forall m :: 0 <= m < n ==> links[m].holds
  }

  /** The links every job's records need, in the order in which they are looked at. */
  function CommonLinks(r: Records): seq<Link> {
    var attempt, inbound := Field(r.attempt, (a: Attempt) => a.id), Field(r.inbound, (i: Inbound) => i.id);
    [Link(Present(r.job.id), "job_id_missing"),
     Link(Present(r.job.agent), "job_agent_missing"),
     Link(Present(attempt), "attempt_missing"),
     Link(Same(Field(r.attempt, (a: Attempt) => a.job), r.job.id), "attempt_job_mismatch"),
     Link(Same(Field(r.attempt, (a: Attempt) => a.agent), r.job.agent), "attempt_agent_mismatch"),
     Link(Present(inbound), "inbound_missing"),
     Link(Same(Field(r.inbound, (i: Inbound) => i.attempt), attempt), "inbound_attempt_mismatch"),
     Link(Same(Field(r.inbound, (i: Inbound) => i.agent), r.job.agent), "inbound_agent_mismatch"),
     Link(Same(Field(r.mailbox, (m: Mailbox) => m.agent), r.job.agent), "mailbox_agent_mismatch")]
  }

  /** What a running job needs besides. */
  function ActiveLinks(r: Records): seq<Link> {
    var inbound := Field(r.inbound, (i: Inbound) => i.id);
    [Link(Clean(Field(r.attempt, (a: Attempt) => a.state)) in {"delivering", "running", "waiting_completion"},
          "attempt_not_active"),
     Link(Clean(Field(r.inbound, (i: Inbound) => i.status)) == "delivering", "inbound_not_delivering"),
     Link(Clean(Field(r.mailbox, (m: Mailbox) => m.state)) == "delivering", "mailbox_state_mismatch"),
     Link(Same(Field(r.mailbox, (m: Mailbox) => m.active), inbound), "mailbox_active_mismatch"),
     Link(Same(Field(r.lease, (l: Lease) => l.inbound), inbound), "lease_inbound_mismatch"),
     Link(Same(Field(r.lease, (l: Lease) => l.agent), r.job.agent), "lease_agent_mismatch"),
     Link(Clean(Field(r.lease, (l: Lease) => l.state)) == "acquired", "lease_not_acquired"),
     Link(Same(Field(r.completion, (p: Completion) => p.job), r.job.id), "completion_job_mismatch"),
     Link(Same(Field(r.completion, (p: Completion) => p.agent), r.job.agent), "completion_agent_mismatch")]
  }

  /** What a pending job needs besides. */
  function QueuedLinks(r: Records): seq<Link> {
    [Link(Clean(Field(r.attempt, (a: Attempt) => a.state)) in {"pending", "delivering"}, "attempt_not_pending"),
     Link(Clean(Field(r.inbound, (i: Inbound) => i.status)) in {"created", "queued"}, "inbound_not_queued"),
     Link(Clean(Field(r.mailbox, (m: Mailbox) => m.state)) == "blocked", "mailbox_state_mismatch"),
     Link(Same(Field(r.mailbox, (m: Mailbox) => m.head), Field(r.inbound, (i: Inbound) => i.id)), "mailbox_head_mismatch"),
     Link(!Present(Field(r.mailbox, (m: Mailbox) => m.active)), "mailbox_active_conflict"),
     Link(Clean(Field(r.lease, (l: Lease) => l.state)) != "acquired" && !Present(Field(r.lease, (l: Lease) => l.inbound)),
          "queued_lease_conflict")]
  }

  lemma CommonTells(r: Records, c: Context, n: nat)
    requires IsFirstBroken(CommonLinks(r), n)
    ensures CommonIdentityError(EvidenceOf(r, c)) == Some(CommonLinks(r)[n].reason)
  {
    hide Identity, Clean, Attr, EnumAttr;
    AllNormalised();
    var links := CommonLinks(r);
    assert n > 0 ==> links[0].holds;
    assert n > 1 ==> links[1].holds;
    assert n > 2 ==> links[2].holds;
    assert n > 3 ==> links[3].holds;
    assert n > 4 ==> links[4].holds;
    assert n > 5 ==> links[5].holds;
    assert n > 6 ==> links[6].holds;
    assert n > 7 ==> links[7].holds;
  }

  lemma ActiveTells(r: Records, c: Context, n: nat)
    requires CommonIdentityError(EvidenceOf(r, c)).None? && IsFirstBroken(ActiveLinks(r), n)
    ensures ActiveLineageError(EvidenceOf(r, c)) == Some(ActiveLinks(r)[n].reason)
  {
    hide Identity, Clean, Attr, EnumAttr, CommonIdentityError;
    AllNormalised();
    var links := ActiveLinks(r);
    assert n > 0 ==> links[0].holds;
    assert n > 1 ==> links[1].holds;
    assert n > 2 ==> links[2].holds;
    assert n > 3 ==> links[3].holds;
    assert n > 4 ==> links[4].holds;
    assert n > 5 ==> links[5].holds;
    assert n > 6 ==> links[6].holds;
    assert n > 7 ==> links[7].holds;
  }

  lemma QueuedTells(r: Records, c: Context, n: nat)
    requires CommonIdentityError(EvidenceOf(r, c)).None? && IsFirstBroken(QueuedLinks(r), n)
    ensures QueuedLineageError(EvidenceOf(r, c)) == Some(QueuedLinks(r)[n].reason)
  {
    hide Identity, Clean, Attr, EnumAttr, CommonIdentityError;
    AllNormalised();
    var links := QueuedLinks(r);
    assert n > 0 ==> links[0].holds;
    assert n > 1 ==> links[1].holds;
    assert n > 2 ==> links[2].holds;
    assert n > 3 ==> links[3].holds;
    assert n > 4 ==> links[4].holds;
  }

  /** An unfinished job whose records do not link up is unknown, for the first link that is broken: first among those every
      job needs, then among those of its status. */
  lemma FirstBrokenIsTold(r: Records, c: Context, n: nat)
    requires !SaysTerminal(r) && Clean(r.job.status) in PENDING + {"running"}
    requires var links := CommonLinks(r) + (if Clean(r.job.status) == "running" then ActiveLinks(r) else QueuedLinks(r));
      IsFirstBroken(links, n)
    ensures var links := CommonLinks(r) + (if Clean(r.job.status) == "running" then ActiveLinks(r) else QueuedLinks(r));
      Derive(EvidenceOf(r, c)) == Verdict(Unknown, links[n].reason)
  {
    hide CommonLinks, ActiveLinks, QueuedLinks, Clean, Identity, CommonIdentityError, Linked;
    Statuses(r, c);
    var common, rest := CommonLinks(r), if Clean(r.job.status) == "running" then ActiveLinks(r) else QueuedLinks(r);
    var links := common + rest;
    if n < |common| {
      assert links[n] == common[n] && forall m :: 0 <= m < n ==> links[m] == common[m];
      CommonTells(r, c, n);
    } else {
      assert forall m :: 0 <= m < |common| ==> common[m] == links[m];
      CommonHolds(r, c);
      var k := n - |common|;
      assert rest[k] == links[n] && forall m :: 0 <= m < k ==> rest[m] == links[|common| + m];
      if Clean(r.job.status) == "running" {
        ActiveTells(r, c, k);
      } else {
        QueuedTells(r, c, k);
      }
    }
  }

  lemma CommonHolds(r: Records, c: Context)
    requires forall m :: 0 <= m < |CommonLinks(r)| ==> CommonLinks(r)[m].holds
    ensures CommonIdentityError(EvidenceOf(r, c)).None?
  {
    hide Identity, Clean, Attr, EnumAttr;
    AllNormalised();
    var links := CommonLinks(r);
    assert links[0].holds && links[1].holds && links[2].holds && links[3].holds && links[4].holds && links[5].holds
      && links[6].holds && links[7].holds && links[8].holds;
  }

  // ---------- a whole store ----------

  datatype Store = Store(jobs: set<Job>, attempts: set<Attempt>, inbounds: set<Inbound>, mailboxes: set<Mailbox>)

  /** Identifiers are unique as compared, and an agent has one mailbox. */
  ghost predicate Unambiguous(s: Store) {
    && (forall a, b :: a in s.jobs && b in s.jobs && Same(a.id, b.id) ==> a == b)
    && (forall a, b :: a in s.attempts && b in s.attempts && Same(a.id, b.id) ==> a == b)
    && (forall a, b :: a in s.inbounds && b in s.inbounds && Same(a.id, b.id) ==> a == b)
    && (forall a, b :: a in s.mailboxes && b in s.mailboxes && Same(a.agent, b.agent) ==> a == b)
  }

  /** The records gathered for one job are records of the store. */
  predicate GatheredFrom(r: Records, s: Store) {
    && r.job in s.jobs
    && (r.attempt.Some? ==> r.attempt.value in s.attempts)
    && (r.inbound.Some? ==> r.inbound.value in s.inbounds)
    && (r.mailbox.Some? ==> r.mailbox.value in s.mailboxes)
  }

  predicate IsActive(p: Phase) {
    p in {Injecting, Executing, Orphaned, ProviderIdlePendingTerminal}
  }

  /** Two linked gatherings of one agent that agree on the inbound event are gatherings of one job. */
  lemma SameInboundSameJob(s: Store, r: Records, q: Records)
    requires Unambiguous(s) && GatheredFrom(r, s) && GatheredFrom(q, s)
    requires Linked(r) && Linked(q) && Same(r.inbound.value.id, q.inbound.value.id)
    ensures r.job == q.job
  {
    hide Identity;
    assert r.inbound.value == q.inbound.value;
    assert r.attempt.value == q.attempt.value;
  }

  /** However the records of two jobs are gathered from a store, and whatever is observed of the providers: among the
      jobs of one agent at most one is active, at most one is queued, and no two are active and queued. */
  lemma OnePerAgent(s: Store, r: Records, c: Context, q: Records, d: Context)
    requires Unambiguous(s) && GatheredFrom(r, s) && GatheredFrom(q, s) && Same(r.job.agent, q.job.agent)
    ensures IsActive(PhaseOf(r, c)) && IsActive(PhaseOf(q, d)) ==> r.job == q.job
    ensures PhaseOf(r, c) == Queued && PhaseOf(q, d) == Queued ==> r.job == q.job
    ensures !(IsActive(PhaseOf(r, c)) && PhaseOf(q, d) == Queued)
  {
    hide Identity, Clean, Derive;
    ActivePhases(r, c);
    ActivePhases(q, d);
    QueuedPhase(r, c);
    QueuedPhase(q, d);
    if IsActive(PhaseOf(r, c)) && IsActive(PhaseOf(q, d)) {
      assert r.mailbox.value == q.mailbox.value;
      SameInboundSameJob(s, r, q);
    }
    if PhaseOf(r, c) == Queued && PhaseOf(q, d) == Queued {
      assert r.mailbox.value == q.mailbox.value;
      SameInboundSameJob(s, r, q);
    }
  }
}
