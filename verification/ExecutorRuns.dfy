/** One `consume` and its company: its own steps, harmless steps of others in between, and the run that succeeds. */
module ExecutorRuns {
  import opened Wrappers
  import opened Incidents
  import opened ApprovalBindings
  import opened RecordOperations
  import opened RecordInvariants
  import opened RecordRuns
  import opened WorkloadLeases
  import opened ProposalPolicy
  import opened InterventionQueues
  import opened Protocol
  import opened ProtocolInvariants
  import opened ProtocolSteps
  import opened ProtocolSafety

  /** An operation of the delivery itself, or a step of anyone else. */
  datatype Own = Step(answers: Answers) | Meanwhile(event: Event)

  function Around(s: Shared, v: Event): Shared {
    if s.history == [] || (v.Publish? && s.decided.None?) then s else EnvironmentStep(s, v)
  }

  function PlayOne(s: Shared, e: Instance, n: nat, m: Own): (Shared, Instance) {
    match m
    case Meanwhile(v) => (Around(s, v), e)
    case Step(a) =>
      if s.history == [] || (e.pc.Guarded? && e.pc.seen.proposal.None?) then (s, e) else Execute(s, n, e, a)
  }

  function Play(s: Shared, e: Instance, n: nat, moves: seq<Own>): (Shared, Instance) {
    if moves == [] then (s, e)
    else
      var (t, f) := Play(s, e, n, moves[..|moves| - 1]);
      PlayOne(t, f, n, moves[|moves| - 1])
  }

  lemma PlayMore(s: Shared, e: Instance, n: nat, moves: seq<Own>, m: Own)
    ensures Play(s, e, n, moves + [m]) ==
            var (t, f) := Play(s, e, n, moves); PlayOne(t, f, n, m)
  {
    assert (moves + [m])[..|moves + [m]| - 1] == moves;
  }

  // ---------------------------------------------------------------- the circumstances of success

  /** The recorded policy decision was made on `state`, from a record with the evidence there still is. */
  ghost predicate EvaluatedOn(r: InvestigationRecord, seen: InvestigationRecord, state: DeploymentState) {
    && r.proposal.Some? && seen.incident.incidentId == r.incident.incidentId
    && seen.evidence == r.evidence && seen.profile == r.profile
    && exists ready, dryRun, now :: r.policy == Some(Evaluate(seen, r.proposal.value, ready, Some(state), dryRun, now))
  }

  /** Nothing changed since review: the request is the built one and the decision still matches. */
  ghost predicate StillCurrent(r: InvestigationRecord, q: InterventionRequest, seen: InvestigationRecord,
                               state: DeploymentState, now: Time)
  {
    && Published(r, q) && RequestHash(q) == q.payloadHash
    && ApprovalMatchesRecord(r, r.approvals[0]) && now < r.approvals[0].expiresAt
    && EvaluatedOn(r, seen, state)
  }

  lemma AuthorityStillHolds(r: InvestigationRecord, q: InterventionRequest, seen: InvestigationRecord,
                            state: DeploymentState, now: Time)
    requires StillCurrent(r, q, seen, state, now)
    ensures r.approvals != [] && FindApproval(r.approvals, q.approvalId) == Some(r.approvals[0])
    ensures AuthorityHolds(r, q, Some(r.approvals[0]), now)
  {
    hide EvaluatedOn;
  }

  /** The executor's own evaluation of the approved state passes and rebuilds the reviewed patch. */
  lemma RevalidationAgrees(r: InvestigationRecord, q: InterventionRequest, seen: InvestigationRecord,
                           state: DeploymentState, read: Time, now: Time, diff: string)
    requires StillCurrent(r, q, seen, state, read)
    ensures var d := Evaluate(r, r.proposal.value, true, Some(state), Accepted(diff), now);
            d.status == PolicyPassed && d.patch == Some(q.patch)
    ensures AtApprovedVersion(r.approvals[0], state)
  {
    hide Evaluate, ApprovalMatchesRecord, BuildPatch, RequestHash;
    var proposal := r.proposal.value;
    var ready, dryRun, at :| r.policy == Some(Evaluate(seen, proposal, ready, Some(state), dryRun, at));
    PolicyVerdict(seen, proposal, ready, Some(state), dryRun, at);
    PolicyVerdict(r, proposal, true, Some(state), Accepted(diff), now);
    DecisionsAreValid(seen, proposal, ready, Some(state), dryRun, at);
    DecisionsAreValid(r, proposal, true, Some(state), Accepted(diff), now);
    PassedHasPatch(r, proposal, true, Some(state), Accepted(diff), now);
    PinnedVersion(r, seen, proposal, ready, state, dryRun, at);
  }

  lemma PassedHasPatch(r: InvestigationRecord, proposal: RemediationProposal, ready: bool,
                       state: Option<DeploymentState>, dryRun: DryRunResult, now: Time)
    requires Evaluate(r, proposal, ready, state, dryRun, now).status == PolicyPassed
    ensures Evaluate(r, proposal, ready, state, dryRun, now).patch.Some?
  {
    hide Preflight, BuildPatch, PatchShapeIsExact;
  }

  lemma PinnedVersion(r: InvestigationRecord, seen: InvestigationRecord, proposal: RemediationProposal, ready: bool,
                      state: DeploymentState, dryRun: DryRunResult, now: Time)
    requires r.policy == Some(Evaluate(seen, proposal, ready, Some(state), dryRun, now))
    requires r.approvals != [] && ApprovalMatchesRecord(r, r.approvals[0])
    ensures AtApprovedVersion(r.approvals[0], state)
  {
    hide Preflight, BuildPatch, PatchShapeIsExact, FirstFailure;
  }

  // ---------------------------------------------------------------- accepted store calls

  function ClaimedRecord(r: InvestigationRecord, i: Intervention, e: AuditEvent): InvestigationRecord {
    r.(incident := Bumped(r.incident.(lifecycle := Mitigating)), interventions := [i], events := Stamped(r, e))
  }

  lemma ClaimedIsValid(r: InvestigationRecord, q: InterventionRequest, e: AuditEvent)
    requires ValidRecord(r) && Published(r, q) && r.interventions == [] && e.incidentId == r.incident.incidentId
    ensures ValidRecord(ClaimedRecord(r, NewIntervention(q), e))
  {
    hide ValidProfile, ValidPolicyDecision, ValidApproval, ValidAssessment;
    var s := ClaimedRecord(r, NewIntervention(q), e);
    assert Grounded(s) by {
      assert forall id :: HasQuery(r, id) == HasQuery(s, id);
      assert forall id :: HasEvidence(r, id) == HasEvidence(s, id);
    }
    assert Authorized(s) by {
      assert PolicyIsPassed(r) == PolicyIsPassed(s);
      assert r.approvals[0] in s.approvals;
      assert forall a <- r.assessments :: HasIntervention(r, a.interventionId);
    }
  }

  lemma ClaimAccepted(r: InvestigationRecord, q: InterventionRequest, e: AuditEvent)
    requires KeepsRecord(r) && Published(r, q) && r.interventions == [] && e.incidentId == r.incident.incidentId
    requires r.incident.lifecycle != Closed
    ensures Apply(r, RecordIntervention(r.incident.version, NewIntervention(q), e)) ==
            Success(ClaimedRecord(r, NewIntervention(q), e))
  {
    hide ValidRecord, ValidApproval;
    ClaimedIsValid(r, q, e);
    assert r.incident.lifecycle == AwaitingApproval;
    assert r.interventions + [NewIntervention(q)] == [NewIntervention(q)];
    assert FindApproval(r.approvals, q.approvalId) == Some(r.approvals[0]);
  }

  /** The record after its one Intervention ended as `done`. */
  function OutcomeRecord(r: InvestigationRecord, done: Intervention, e: AuditEvent): InvestigationRecord {
    r.(incident := Bumped(r.incident.(lifecycle := if done.state == Succeeded then Monitoring else r.incident.lifecycle,
                                      intervention := OutcomeAfter(done.state, r.incident.intervention))),
       interventions := [done], events := Stamped(r, e))
  }

  /** The store accepts every outcome of the running Intervention; a success only while nobody closed the Incident. */
  lemma OutcomeAccepted(r: InvestigationRecord, i: Intervention, state: InterventionState, e: AuditEvent)
    requires KeepsRecord(r) && r.interventions == [i] && i.state == Running && Terminal(state)
    requires state == Succeeded ==> r.incident.lifecycle == Mitigating
    requires e.incidentId == r.incident.incidentId && !HasEvent(r, e.eventId)
    ensures Apply(r, UpdateIntervention(i.(state := state), e)) == Success(OutcomeRecord(r, i.(state := state), e))
  {
    hide ValidRecord;
    var done := i.(state := state);
    OutcomeValid(r, done, e, OutcomeRecord(r, done, e).incident.(version := r.incident.version));
    assert ReplaceIntervention(r.interventions, done) == [done];
    assert FindIntervention(r.interventions, done.interventionId) == Some(i);
  }

  // ---------------------------------------------------------------- steps of a run

  const EXECUTOR := "deterministic-executor"

  /** The names of the executor's own audit events, in order. */
  function Notes(events: seq<AuditEvent>): seq<string> {
    if events == [] then []
    else
      var last := events[|events| - 1];
      Notes(events[..|events| - 1])
      + if last.actor == EXECUTOR && last.eventType.OtherEvent? then [last.eventType.name] else []
  }

  lemma NoteAdded(s: Shared, r: InvestigationRecord, incidentId: Ident, name: string)
    ensures Notes(Stamped(r, FreshEvent(s, incidentId, name))) == Notes(r.events) + [name]
  {
    var events := Stamped(r, FreshEvent(s, incidentId, name));
    assert events[..|events| - 1] == r.events;
  }

  /** Only audit events, leases, time and identifiers differ. */
  predicate Kin(s: Shared, t: Shared) {
    && s.history != [] && t.history != []
    && t == s.(history := t.history, leases := t.leases, clock := t.clock, nextUuid := t.nextUuid)
    && Current(t) == Current(s).(events := Current(t).events)
  }

  /** A record without its logs: what authority and outcomes depend on. */
  function Case(r: InvestigationRecord): InvestigationRecord {
    r.(events := [], queries := [], invocations := [], findings := [], retrievalFailures := [], alertSignals := [])
  }

  lemma StillCurrentCase(r: InvestigationRecord, t: InvestigationRecord, q: InterventionRequest,
                         seen: InvestigationRecord, state: DeploymentState, now: Time)
    requires Case(r) == Case(t) && StillCurrent(r, q, seen, state, now)
    ensures StillCurrent(t, q, seen, state, now)
  {
    hide Evaluate, RequestHash;
    assert Case(t).proposal == t.proposal && Case(t).policy == t.policy && Case(t).evidence == t.evidence;
    assert Case(t).approvals == t.approvals && Case(t).incident == t.incident && Case(t).profile == t.profile;
    assert Case(t).window == t.window;
  }

  lemma LogIsKin(s: Shared, n: nat, q: InterventionRequest, name: string)
    requires SharedInvariant(s) && q in s.queue
    ensures var o := Log(s, q, name);
            && o.accepted && Kin(s, o.shared) && o.shared.leases == s.leases && o.shared.clock == s.clock
            && Notes(Current(o.shared).events) == Notes(Current(s).events) + [name]
  {
    hide HistoryInvariant, DecidedSound, WriteSound, PolicyHonest, OutcomeCounts, ClusterSound, Apply, Stamped;
    var e := FreshEvent(s, q.incidentId, name);
    assert Published(Current(s), q);
    LogAccepted(Current(s), e, s.nextUuid);
    NoteAdded(s, Current(s), q.incidentId, name);
  }

  lemma StepKeeps(s: Shared, n: nat, e: Instance, a: Answers)
    requires SharedInvariant(s) && InstanceInvariant(s, n, e) && AnswersPossible(s, e, a)
    ensures s.history != [] && (e.pc.Guarded? ==> e.pc.seen.proposal.Some?)
    ensures PlayOne(s, e, n, Step(a)) == Execute(s, n, e, a)
    ensures var (t, f) := Execute(s, n, e, a); t.history != [] && SharedInvariant(t) && InstanceInvariant(t, n, f)
  {
    hide Execute, PcInvariant, AnswersPossible, Evolves;
    ExecuteKeeps(s, n, e, a);
  }

  // ---------------------------------------------------------------- receiving and authorising

  /** What one step of the successful run leads to. */
  predicate StepLeads(s: Shared, e: Instance, n: nat, a: Answers, t: Shared, f: Instance) {
    && PlayOne(s, e, n, Step(a)) == (t, f)
    && t.history != [] && SharedInvariant(t) && InstanceInvariant(t, n, f)
  }

  /** A fresh delivery makes a new Intervention; a redelivered one finds its own still running. */
  predicate Receivable(r: InvestigationRecord, q: InterventionRequest, i: Intervention, resuming: bool) {
    if resuming
    then r.interventions == [i] && i.state == Running && i.key == q.key && r.incident.lifecycle == Mitigating
    else r.interventions == [] && i == NewIntervention(q) && r.incident.lifecycle != Closed
  }

  lemma StartsFresh(s: Shared, n: nat, e: Instance, a: Answers, i: Intervention, resuming: bool)
    requires SharedInvariant(s) && InstanceInvariant(s, n, e) && AnswersPossible(s, e, a) && e.pc.Starting?
    requires !a.fault && s.history != [] && Receivable(Current(s), e.request, i, resuming)
    ensures StepLeads(s, e, n, a, s, e.(now := s.clock, pc := Receiving(i, resuming)))
  {
    hide PcInvariant, AnswersPossible, HistoryInvariant, DecidedSound, WriteSound, PolicyHonest, OutcomeCounts;
    assert Published(Current(s), e.request);
    StepKeeps(s, n, e, a);
    assert resuming ==> Current(s).interventions[0] == i;
  }

  lemma Receives(s: Shared, n: nat, e: Instance, a: Answers) returns (t: Shared)
    requires SharedInvariant(s) && InstanceInvariant(s, n, e) && AnswersPossible(s, e, a) && e.pc.Receiving? && !a.fault
    ensures StepLeads(s, e, n, a, t, e.(pc := Acquiring(e.pc.intervention, e.pc.resuming)))
    ensures Kin(s, t) && t.leases == s.leases && t.clock == s.clock
    ensures Notes(Current(t).events) == Notes(Current(s).events) + ["intervention_received"]
  {
    hide PcInvariant, AnswersPossible, SharedInvariant, Log, Kin;
    t := Log(s, e.request, "intervention_received").shared;
    LogIsKin(s, n, e.request, "intervention_received");
    StepKeeps(s, n, e, a);
  }

  lemma AcquiresFree(s: Shared, n: nat, e: Instance, a: Answers) returns (t: Shared, lease: WorkloadLease)
    requires SharedInvariant(s) && InstanceInvariant(s, n, e) && AnswersPossible(s, e, a) && e.pc.Acquiring? && !a.fault
    requires var doc := Lookup(s.leases, LeaseKey(e.request.target)); doc.Some? ==> doc.value.expiresAt <= e.now
    ensures StepLeads(s, e, n, a, t, e.(pc := Rechecking(e.pc.intervention, e.pc.resuming, lease)))
    ensures t == s.(leases := s.leases[LeaseKey(e.request.target) := lease], nextUuid := t.nextUuid)
    ensures lease.target == e.request.target && lease.expiresAt == e.now + s.ttl
  {
    hide PcInvariant, AnswersPossible, SharedInvariant;
    StepKeeps(s, n, e, a);
    lease := Acquired(Lookup(s.leases, LeaseKey(e.request.target)), e.request.target, e.pc.intervention.interventionId,
                      e.owner, e.now, Uuid(s.nextUuid), s.ttl).value;
    t := Execute(s, n, e, a).0;
  }

  lemma RechecksFresh(s: Shared, n: nat, e: Instance, a: Answers, seen: InvestigationRecord, state: DeploymentState)
    requires !a.fault
    requires SharedInvariant(s) && InstanceInvariant(s, n, e) && AnswersPossible(s, e, a) && e.pc.Rechecking?
    requires s.history != [] && StillCurrent(Current(s), e.request, seen, state, e.now)
    ensures StepLeads(s, e, n, a, s, e.(pc := Guarded(e.pc.intervention, e.pc.lease, Current(s),
                                                      Current(s).approvals[0],
                                                      if e.pc.resuming then Resuming else Claiming)))
  {
    hide PcInvariant, AnswersPossible, SharedInvariant, AuthorityHolds, StillCurrent, GuardedStep, InstanceInvariant;
    hide FindApproval, FindByKey, FindIntervention, Acquired, Releasable, CallWithEvent, Log, PlayOne;
    AuthorityStillHolds(Current(s), e.request, seen, state, e.now);
    StepKeeps(s, n, e, a);
  }

  // ---------------------------------------------------------------- claiming, validating, writing, recording

  lemma ClaimsFresh(s: Shared, n: nat, e: Instance, a: Answers) returns (t: Shared)
    requires !a.fault
    requires SharedInvariant(s) && InstanceInvariant(s, n, e) && AnswersPossible(s, e, a)
    requires e.pc.Guarded? && e.pc.stage.Claiming? && s.history != []
    requires e.pc.seen.incident == Current(s).incident
    requires Published(Current(s), e.request) && Current(s).interventions == []
    requires Current(s).incident.lifecycle != Closed
    ensures StepLeads(s, e, n, a, t, e.(pc := e.pc.(stage := Inspecting)))
    ensures t == s.(history := t.history, nextUuid := t.nextUuid)
    ensures Current(t) == ClaimedRecord(Current(s), NewIntervention(e.request),
                                        FreshEvent(s, e.request.incidentId, "intervention_claimed"))
  {
    hide AnswersPossible, Apply, HistoryInvariant, DecidedSound, WriteSound, PolicyHonest, OutcomeCounts;
    hide ClusterSound, EventsPast, KeepsRecord, ClaimedRecord, SeenSound, LeaseSound, Silent, LeasesPast, Published;
    hide FailureStep;
    var event := FreshEvent(s, e.request.incidentId, "intervention_claimed");
    RecordKept(s);
    PublishedOwner(Current(s), e.request);
    ClaimAccepted(Current(s), e.request, event);
    StepKeeps(s, n, e, a);
    t := Execute(s, n, e, a).0;
  }

  lemma PublishedOwner(r: InvestigationRecord, q: InterventionRequest)
    requires Published(r, q)
    ensures q.incidentId == r.incident.incidentId
  {
  }

  /** The state the approval, or the failed action, left is live. */
  lemma InspectsFresh(s: Shared, n: nat, e: Instance, a: Answers, state: DeploymentState)
    requires !a.fault
    requires SharedInvariant(s) && InstanceInvariant(s, n, e) && AnswersPossible(s, e, a) && e.pc.Guarded?
    requires e.pc.stage.Inspecting? || (e.pc.stage.Reinspecting? && e.pc.stage.observed == state)
    requires Inspect(s.cluster, e.request.target) == Some(state)
    requires e.pc.stage.Inspecting? ==> AtApprovedVersion(e.pc.approval, state)
    ensures StepLeads(s, e, n, a, s, e.(pc := e.pc.(stage :=
              if e.pc.stage.Inspecting? then Revalidating(state) else RevalidatingRestore(e.pc.stage.before, state))))
  {
    hide PcInvariant, AnswersPossible, SharedInvariant, Evaluate, Inspect, AtApprovedVersion;
    StepKeeps(s, n, e, a);
  }

  /** What policy judges: the reviewed proposal, or the scale back to the replicas found before. */
  function Judged(pc: Pc): RemediationProposal
    requires pc.Guarded? && pc.seen.proposal.Some? && (pc.stage.Revalidating? || pc.stage.RevalidatingRestore?)
  {
    if pc.stage.Revalidating? then pc.seen.proposal.value
    else RestorationProposal(pc.seen.proposal.value, pc.intervention, pc.stage.before.replicas)
  }

  lemma RevalidatesFresh(s: Shared, n: nat, e: Instance, a: Answers, state: DeploymentState, patch: DeploymentPatch)
    requires !a.fault
    requires SharedInvariant(s) && InstanceInvariant(s, n, e) && AnswersPossible(s, e, a) && e.pc.Guarded?
    requires e.pc.stage == Revalidating(state) || (e.pc.stage.RevalidatingRestore? && e.pc.stage.observed == state)
    requires e.pc.seen.proposal.Some? && e.pc.seen.proposal.value.action.target == e.request.target
    requires Inspect(s.cluster, e.request.target) == Some(state)
    requires var d := Evaluate(e.pc.seen, Judged(e.pc), a.ready, Some(state), a.dryRun, s.clock);
             d.status == PolicyPassed && d.patch == Some(patch)
    requires e.pc.stage.Revalidating? ==> patch == e.request.patch
    ensures StepLeads(s, e, n, a, s, e.(pc := e.pc.(stage :=
              if e.pc.stage.Revalidating? then ReportingValidated(state)
              else ReportingRestore(e.pc.stage.before, state, patch))))
  {
    hide PcInvariant, AnswersPossible, SharedInvariant, Evaluate, Inspect, AtApprovedVersion;
    StepKeeps(s, n, e, a);
  }

  /** The name of the audit event a stage is about to append. */
  function NoteOf(stage: Stage): string {
    match stage
    case Resuming => "intervention_resumed"
    case ReportingValidated(_) => "intervention_validated"
    case ReportingDryRun(_) => "intervention_dry_run_passed"
    case ReportingMutated(_) => "intervention_mutated"
    case ReportingFailed(_, _) => "intervention_action_failed"
    case ReportingRestore(_, _, _) => "intervention_restoration_validated"
    case ReportingRestored(_, _, _) => "intervention_restoration_mutated"
    case _ => ""
  }

  function AfterNote(stage: Stage, action: RemediationAction): Stage {
    match stage
    case Resuming => Inspecting
    case ReportingValidated(b) => ReportingDryRun(b)
    case ReportingDryRun(b) => Renewing(b)
    case ReportingMutated(b) => Verifying(b)
    case ReportingFailed(b, x) => if action.ScaleDeployment? then Reinspecting(b, x) else RecordingFailed
    case ReportingRestore(b, x, p) => RenewingRestore(b, x, p)
    case ReportingRestored(b, x, p) => VerifyingRestored(b, x, p)
    case _ => stage
  }

  /** The audit events of a resumption, around the write, and around a restoration. */
  lemma ReportsFresh(s: Shared, n: nat, e: Instance, a: Answers) returns (t: Shared)
    requires !a.fault
    requires SharedInvariant(s) && InstanceInvariant(s, n, e) && AnswersPossible(s, e, a)
    requires e.pc.Guarded? && NoteOf(e.pc.stage) != "" && e.pc.seen.proposal.Some?
    ensures StepLeads(s, e, n, a, t,
                      e.(pc := e.pc.(stage := AfterNote(e.pc.stage, e.pc.seen.proposal.value.action))))
    ensures Kin(s, t) && t.leases == s.leases && t.clock == s.clock
    ensures Notes(Current(t).events) == Notes(Current(s).events) + [NoteOf(e.pc.stage)]
  {
    hide PcInvariant, AnswersPossible, SharedInvariant, Log, Kin, Notes;
    LogIsKin(s, n, e.request, NoteOf(e.pc.stage));
    t := Log(s, e.request, NoteOf(e.pc.stage)).shared;
    StepKeeps(s, n, e, a);
  }

  /** A renewal extends the document that is still held; only the forward write carries the renewed lease along. */
  lemma RenewsHeld(s: Shared, n: nat, e: Instance, a: Answers) returns (t: Shared, doc: WorkloadLease)
    requires !a.fault
    requires SharedInvariant(s) && InstanceInvariant(s, n, e) && AnswersPossible(s, e, a)
    requires e.pc.Guarded? && (e.pc.stage.Renewing? || e.pc.stage.RenewingRestore?)
    requires var held := Lookup(s.leases, LeaseKey(e.pc.lease.target));
             Holds(held, e.pc.lease) && s.clock < held.value.expiresAt
    ensures StepLeads(s, e, n, a, t, e.(pc :=
              if e.pc.stage.Renewing? then e.pc.(lease := doc, stage := Mutating(e.pc.stage.before))
              else e.pc.(stage := Restoring(e.pc.stage.before, e.pc.stage.observed, e.pc.stage.patch))))
    ensures t == s.(leases := s.leases[LeaseKey(e.pc.lease.target) := doc])
    ensures doc == s.leases[LeaseKey(e.pc.lease.target)].(expiresAt := s.clock + s.ttl)
  {
    hide PcInvariant, AnswersPossible, SharedInvariant;
    StepKeeps(s, n, e, a);
    doc := s.leases[LeaseKey(e.pc.lease.target)].(expiresAt := s.clock + s.ttl);
    t := Execute(s, n, e, a).0;
  }

  /** An answered patch request lands once: the reviewed patch, or the restoring one. */
  lemma MutatesOnce(s: Shared, n: nat, e: Instance, a: Answers, state: DeploymentState) returns (t: Shared)
    requires !a.fault
    requires SharedInvariant(s) && InstanceInvariant(s, n, e) && AnswersPossible(s, e, a)
    requires e.pc.Guarded? && WriteStage(e.pc.stage) && a.reply.Landed?
    requires Inspect(s.cluster, WrittenPatch(e.request, e.pc.stage).target) == Some(state)
    ensures StepLeads(s, e, n, a, t, e.(pc := e.pc.(stage := ReportingStage(e.pc.stage))))
    ensures t == s.(cluster := Installed(s.cluster, a.reply.after),
                    ledger := s.ledger + [Write(n, WriteKindOf(e.pc.stage), WrittenPatch(e.request, e.pc.stage),
                                                state)])
  {
    hide PcInvariant, AnswersPossible, SharedInvariant, Inspect, Installed;
    StepKeeps(s, n, e, a);
    t := Execute(s, n, e, a).0;
  }

  /** What the answer of a convergence check leads to when it raises nothing. */
  predicate Concludes(pc: Pc, c: ConvergenceResult, next: Stage)
    requires pc.Guarded? && pc.seen.proposal.Some?
  {
    var action := pc.seen.proposal.value.action;
    && c.observed.Some?
    && (match pc.stage
        case Verifying(before) =>
          if c.status == DefinitelyFailed then next == ReportingFailed(before, c.observed.value)
          else c.status == Converged && ActionConverged(action, before, c.observed.value) && next.RecordingSucceeded?
        case VerifyingRestored(before, observed, _) =>
          && c.status == Converged && next.RecordingRolledBack?
          && ActionConverged(ScaleDeployment(action.target, before.replicas), observed, c.observed.value)
        case _ => false)
  }

  lemma VerifiesFresh(s: Shared, n: nat, e: Instance, a: Answers, next: Stage)
    requires !a.fault
    requires SharedInvariant(s) && InstanceInvariant(s, n, e) && AnswersPossible(s, e, a)
    requires e.pc.Guarded? && e.pc.seen.proposal.Some? && Concludes(e.pc, a.convergence, next)
    ensures StepLeads(s, e, n, a, s, e.(pc := e.pc.(stage := next)))
  {
    hide PcInvariant, AnswersPossible, SharedInvariant, ActionConverged;
    StepKeeps(s, n, e, a);
  }

  /** The outcome a stage is about to record, and the audit event that goes with it. */
  function OutcomeOf(stage: Stage): (InterventionState, string) {
    match stage
    case RecordingSucceeded => (Succeeded, "intervention_converged")
    case RecordingFailed => (Failed, "intervention_escalated")
    case RecordingRolledBack => (RolledBack, "intervention_restored")
    case _ => (Running, "")
  }

  lemma RecordsOutcome(s: Shared, n: nat, e: Instance, a: Answers) returns (t: Shared)
    requires !a.fault
    requires SharedInvariant(s) && InstanceInvariant(s, n, e) && AnswersPossible(s, e, a)
    requires e.pc.Guarded? && OutcomeOf(e.pc.stage).0 != Running && s.history != []
    requires Current(s).interventions == [e.pc.intervention] && e.pc.intervention.state == Running
    requires e.pc.stage.RecordingSucceeded? ==> Current(s).incident.lifecycle == Mitigating
    ensures StepLeads(s, e, n, a, t, e.(pc :=
              Releasing(e.pc.lease, Settled, Some(e.pc.intervention.(state := OutcomeOf(e.pc.stage).0)))))
    ensures t == s.(history := t.history, nextUuid := t.nextUuid)
    ensures Current(t) == OutcomeRecord(Current(s), e.pc.intervention.(state := OutcomeOf(e.pc.stage).0),
                                        FreshEvent(s, e.request.incidentId, OutcomeOf(e.pc.stage).1))
  {
    hide AnswersPossible, Apply, HistoryInvariant, DecidedSound, WriteSound, PolicyHonest, OutcomeCounts;
    hide ClusterSound, KeepsRecord, OutcomeRecord, SeenSound, LeaseSound, LeasesPast, Published;
    hide PcInvariant;
    var (state, name) := OutcomeOf(e.pc.stage);
    var event := FreshEvent(s, e.request.incidentId, name);
    RecordKept(s);
    PublishedOwner(Current(s), e.request);
    FreshEventIsNew(Current(s), event, s.nextUuid);
    OutcomeAccepted(Current(s), e.pc.intervention, state, event);
    StepKeeps(s, n, e, a);
    t := Execute(s, n, e, a).0;
  }

  lemma ReleasesHeld(s: Shared, n: nat, e: Instance, a: Answers) returns (t: Shared)
    requires SharedInvariant(s) && InstanceInvariant(s, n, e) && AnswersPossible(s, e, a) && e.pc.Releasing? && !a.fault
    requires Holds(Lookup(s.leases, LeaseKey(e.pc.lease.target)), e.pc.lease)
    ensures StepLeads(s, e, n, a, t, e.(pc := Exited(Some(e.pc.lease), e.pc.claim, e.pc.result, false)))
    ensures t == s.(leases := s.leases - {LeaseKey(e.pc.lease.target)})
  {
    hide PcInvariant, AnswersPossible, SharedInvariant;
    StepKeeps(s, n, e, a);
    t := Execute(s, n, e, a).0;
  }

  // ---------------------------------------------------------------- the whole successful run

  /** What anyone else may do to the rest of the world changes nothing an instance relies on. */
  lemma AroundKeeps(s: Shared, n: nat, e: Instance, v: Event)
    requires SharedInvariant(s) && InstanceInvariant(s, n, e) && !v.Deliver? && !v.Run? && !v.Crash?
    requires v.ForeignWrite? ==> Unused(s.cluster, v.state)
    requires v.OtherCall? ==> OtherCallPossible(s, v.op)
    requires v.Publish? ==> s.decided.Some?
    ensures s.history != [] && Around(s, v) == EnvironmentStep(s, v)
    ensures SharedInvariant(Around(s, v)) && InstanceInvariant(Around(s, v), n, e)
  {
    hide InstanceInvariant, Evolves, EnvironmentStep, OtherCallPossible, Unused, HistoryInvariant, DecidedSound;
    hide Published, WriteSound, PolicyHonest, OutcomeCounts, ClusterSound, EventsPast, LeasesPast;
    EnvironmentKeeps(s, v, n + 1);
    InstanceStable(s, EnvironmentStep(s, v), n + 1, n, e);
  }

  lemma PublishedPatch(s: Shared, n: nat, e: Instance)
    requires SharedInvariant(s) && InstanceInvariant(s, n, e)
    ensures e.request.patch.target == e.request.target
  {
    hide HistoryInvariant, DecidedSound, WriteSound, OutcomeCounts, ClusterSound, EventsPast, LeasesPast, PcInvariant;
    assert Published(Current(s), e.request);
  }

  // ---------------------------------------------------------------- harmless steps of others

  /** The part of the shared state that one delivery depends on, and the audit trail it leaves. */
  datatype View = View(record: InvestigationRecord, lease: Option<WorkloadLease>, register: Option<Register>,
                       ledger: seq<Write>, ttl: nat, notes: seq<string>)

  function ViewOf(s: Shared, q: InterventionRequest): View
    requires s.history != []
  {
    View(Case(Current(s)), Lookup(s.leases, LeaseKey(q.target)), Lookup(s.cluster, q.target), s.ledger, s.ttl,
         Notes(Current(s).events))
  }

  lemma ViewNotes(s: Shared, t: Shared, q: InterventionRequest)
    requires s.history != [] && t.history != [] && ViewOf(s, q) == ViewOf(t, q)
    ensures Notes(Current(t).events) == Notes(Current(s).events)
  {
    hide Notes, Case;
  }

  /** Calls that only add to a record's logs: alerts, queries, findings, failures, invocations, others' audit events. */
  predicate Additive(op: StoreOp) {
    match op
    case AppendAlertSignal(_) => true
    case AppendRetrievalFailure(_) => true
    case AppendQuery(_) => true
    case AppendFinding(_) => true
    case AppendInvocation(_) => true
    case AppendEvent(e) => e.actor != EXECUTOR
    case _ => false
  }

  /** Time, the publisher, additions to the record, and everything about other leases and other Deployments. */
  ghost predicate Harmless(s: Shared, v: Event, q: InterventionRequest)
    requires s.history != []
  {
    match v
    case Pass(_) => true
    case OtherCall(op) => Additive(op) && OtherCallPossible(s, op)
    case ForeignWrite(state) => state.target != q.target && Unused(s.cluster, state)
    case ForeignDelete(t) => t != q.target
    case ForeignAcquire(t, _, _, _) => LeaseKey(t) != LeaseKey(q.target)
    case ForeignRenew(lease, _) => LeaseKey(lease.target) != LeaseKey(q.target)
    case ForeignRelease(lease) => LeaseKey(lease.target) != LeaseKey(q.target)
    case Publish => s.decided.Some?
    case _ => false
  }

  lemma AdditiveKeepsCase(r: InvestigationRecord, op: StoreOp)
    requires Additive(op) && Apply(r, op).Success?
    ensures Case(Apply(r, op).value) == Case(r) && Notes(Apply(r, op).value.events) == Notes(r.events)
  {
    hide ValidRecord;
    if op.AppendEvent? {
      assert Stamped(r, op.event)[..|r.events|] == r.events;
    }
  }

  lemma HarmlessKeepsView(s: Shared, v: Event, q: InterventionRequest)
    requires s.history != [] && Harmless(s, v, q)
    ensures Around(s, v).history != [] && ViewOf(Around(s, v), q) == ViewOf(s, q)
  {
    hide Apply, Case, Acquired, Renewed, Releasable, BuildRequest, LeaseKey, OtherCallPossible, Notes;
    if v.OtherCall? && Apply(Current(s), v.op).Success? {
      AdditiveKeepsCase(Current(s), v.op);
    }
  }

  function After(s: Shared, events: seq<Event>): Shared {
    if events == [] then s else Around(After(s, events[..|events| - 1]), events[|events| - 1])
  }

  ghost predicate AllHarmless(s: Shared, events: seq<Event>, q: InterventionRequest) {
    events == [] ||
    var before := events[..|events| - 1];
    AllHarmless(s, before, q) && After(s, before).history != []
    && Harmless(After(s, before), events[|events| - 1], q)
  }

  lemma {:induction false} HarmlessInterlude(s: Shared, n: nat, e: Instance, events: seq<Event>)
    requires s.history != [] && SharedInvariant(s) && InstanceInvariant(s, n, e) && AllHarmless(s, events, e.request)
    ensures var t := After(s, events);
            && t.history != [] && SharedInvariant(t) && InstanceInvariant(t, n, e)
            && ViewOf(t, e.request) == ViewOf(s, e.request)
  {
    hide SharedInvariant, InstanceInvariant, ViewOf, Around;
    if events != [] {
      var before, v := events[..|events| - 1], events[|events| - 1];
      HarmlessInterlude(s, n, e, before);
      AroundKeeps(After(s, before), n, e, v);
      HarmlessKeepsView(After(s, before), v, e.request);
    }
  }

  // ---------------------------------------------------------------- the course of success

  /** Others do something, then one operation of the delivery answers. */
  datatype Turn = Turn(others: seq<Event>, answers: Answers)

  function Interlude(events: seq<Event>): seq<Own> {
    if events == [] then [] else Interlude(events[..|events| - 1]) + [Meanwhile(events[|events| - 1])]
  }

  function Moves(turns: seq<Turn>): seq<Own> {
    if turns == [] then []
    else
      var last := turns[|turns| - 1];
      Moves(turns[..|turns| - 1]) + Interlude(last.others) + [Step(last.answers)]
  }

  /** What a successful delivery starts from, and what it will have written. */
  datatype Course = Course(seen: InvestigationRecord, state: DeploymentState, after: DeploymentState,
                           intervention: Intervention, resuming: bool, start: Time)

  /** The audit events of a successful delivery, and how many of them it has appended after `k` turns. */
  function SuccessNotes(resuming: bool): seq<string> {
    ["intervention_received", if resuming then "intervention_resumed" else "intervention_claimed",
     "intervention_validated", "intervention_dry_run_passed", "intervention_mutated", "intervention_converged"]
  }

  function NotesBy(k: nat): (count: nat)
    ensures count <= 6
  {
    if k < 2 then 0 else if k < 5 then 1 else if k < 8 then 2 else if k < 9 then 3 else if k < 12 then 4
    else if k < 14 then 5 else 6
  }

  /** The audit events appended in `k` turns. */
  predicate NotedBy(b: Shared, g: Course, k: nat, s: Shared)
    requires b.history != [] && s.history != []
  {
    Notes(Current(s).events) == Notes(Current(b).events) + SuccessNotes(g.resuming)[..NotesBy(k)]
  }

  /** A turn appends the next of these events, or none. */
  lemma NotesFollow(b: Shared, g: Course, k: nat, s: Shared, t: Shared)
    requires b.history != [] && s.history != [] && t.history != [] && NotedBy(b, g, k, s)
    requires if NotesBy(k + 1) == NotesBy(k) then Current(t).events == Current(s).events
             else Notes(Current(t).events) == Notes(Current(s).events) + [SuccessNotes(g.resuming)[NotesBy(k)]]
    ensures NotedBy(b, g, k + 1, t)
  {
    hide Notes;
    var all, j := SuccessNotes(g.resuming), NotesBy(k);
    assert j < 6 ==> all[..j + 1] == all[..j] + [all[j]];
  }

  const TURNS := 15
  const RENEWAL := 9

  /** A delivery that may succeed: current authority, approved state, free lease, nothing else running. */
  ghost predicate MaySucceed(b: Shared, q: InterventionRequest, g: Course) {
    && b.history != []
    && StillCurrent(Current(b), q, g.seen, g.state, g.start)
    && Receivable(Current(b), q, g.intervention, g.resuming)
    && (var doc := Lookup(b.leases, LeaseKey(q.target)); doc.Some? ==> doc.value.expiresAt <= g.start)
    && Inspect(b.cluster, q.target) == Some(g.state)
    && Lands(b.cluster, q.patch, g.after)
  }

  /** Healthy answers where they matter: nothing raises, policy passes, the patch lands, convergence is confirmed. */
  predicate Healthy(k: nat, a: Answers, g: Course, action: RemediationAction) {
    && !a.fault && ValidConvergence(a.convergence)
    && (k == 6 ==> a.ready && a.dryRun.Accepted?)
    && (k == 10 ==> a.reply == Landed(g.after))
    && (k == 12 ==>
          && a.convergence.status == Converged && a.convergence.observed.Some?
          && ActionConverged(action, g.state, a.convergence.observed.value))
  }

  /** The register and the ledger as they were, or with the one landed write. */
  predicate Written(b: Shared, q: InterventionRequest, g: Course, n: nat, v: View, written: bool) {
    && v.ttl == b.ttl
    && v.register == Lookup(if written then Installed(b.cluster, g.after) else b.cluster, q.target)
    && v.ledger == b.ledger + if written then [Write(n, Forward, q.patch, g.state)] else []
  }

  /** Claimed and running. */
  predicate Midway(b: Shared, q: InterventionRequest, g: Course, n: nat, v: View, written: bool) {
    Written(b, q, g, n, v, written) && v.record.interventions == [g.intervention]
    && v.record.incident.lifecycle == Mitigating
  }

  /** One landed write of the reviewed patch, a succeeded Intervention, an Incident left monitoring. */
  predicate Accomplished(b: Shared, q: InterventionRequest, g: Course, n: nat, v: View) {
    && Written(b, q, g, n, v, true)
    && v.record.interventions == [g.intervention.(state := Succeeded)]
    && v.record.incident.lifecycle == Monitoring && v.record.incident.intervention == MonitoringOutcome
  }

  predicate StageAt(b: Shared, q: InterventionRequest, g: Course, n: nat, k: nat, v: View, stage: Stage)
    requires b.history != []
  {
    match stage
    case Claiming => k == 4 && v == ViewOf(b, q).(lease := v.lease, notes := v.notes) && !g.resuming
    case Resuming => k == 4 && v == ViewOf(b, q).(lease := v.lease, notes := v.notes) && g.resuming
    case Inspecting => k == 5 && Midway(b, q, g, n, v, false)
    case Revalidating(before) => k == 6 && before == g.state && Midway(b, q, g, n, v, false)
    case ReportingValidated(before) => k == 7 && before == g.state && Midway(b, q, g, n, v, false)
    case ReportingDryRun(before) => k == 8 && before == g.state && Midway(b, q, g, n, v, false)
    case Renewing(before) => k == 9 && before == g.state && Midway(b, q, g, n, v, false)
    case Mutating(before) => k == 10 && before == g.state && Midway(b, q, g, n, v, false)
    case ReportingMutated(before) => k == 11 && before == g.state && Midway(b, q, g, n, v, true)
    case Verifying(before) => k == 12 && before == g.state && Midway(b, q, g, n, v, true)
    case RecordingSucceeded => k == 13 && Midway(b, q, g, n, v, true)
    case _ => false
  }

  /** Where the delivery stands after `k` turns. */
  predicate PcAt(b: Shared, q: InterventionRequest, g: Course, n: nat, k: nat, v: View, e: Instance)
    requires b.history != []
  {
    match e.pc
    case Starting => k == 0 && v == ViewOf(b, q)
    case Receiving(i, resuming) =>
      k == 1 && v == ViewOf(b, q) && e.now == g.start && i == g.intervention && resuming == g.resuming
    case Acquiring(i, resuming) =>
      && k == 2 && v == ViewOf(b, q).(notes := v.notes)
      && e.now == g.start && i == g.intervention && resuming == g.resuming
    case Rechecking(i, resuming, lease) =>
      && k == 3 && v == ViewOf(b, q).(lease := Some(lease), notes := v.notes) && lease.target == q.target
      && lease.expiresAt == g.start + b.ttl
      && e.now == g.start && i == g.intervention && resuming == g.resuming
    case Guarded(i, lease, seen, approval, stage) =>
      && i == g.intervention && v.lease == Some(lease) && lease.target == q.target
      && (k <= RENEWAL ==> lease.expiresAt == g.start + b.ttl)
      && Case(seen) == Case(Current(b)) && Current(b).approvals != [] && approval == Current(b).approvals[0]
      && StageAt(b, q, g, n, k, v, stage)
    case Releasing(lease, claim, result) =>
      && k == 14 && v.lease == Some(lease) && lease.target == q.target && Accomplished(b, q, g, n, v)
      && claim == Settled && result == Some(g.intervention.(state := Succeeded))
    case Exited(held, claim, result, unreleased) =>
      && k == 15 && v.lease == None && Accomplished(b, q, g, n, v)
      && claim == Settled && result == Some(g.intervention.(state := Succeeded)) && !unreleased
    case _ => false
  }

  ghost predicate Tracked(b: Shared, g: Course, n: nat, k: nat, s: Shared, e: Instance)
    requires b.history != []
  {
    && s.history != [] && SharedInvariant(s) && InstanceInvariant(s, n, e) && MaySucceed(b, e.request, g)
    && PcAt(b, e.request, g, n, k, ViewOf(s, e.request), e)
    && NotedBy(b, g, k, s)
  }

  /** The request's facts in every record that differs from the first in its logs only. */
  lemma FactsOf(r: InvestigationRecord, q: InterventionRequest, g: Course)
    requires StillCurrent(r, q, g.seen, g.state, g.start)
    ensures r.approvals != [] && Published(r, q)
    ensures r.proposal.Some? && r.proposal.value.action.target == q.target
  {
    hide EvaluatedOn;
  }

  /** Equal registers inspect alike and take the same patches. */
  lemma RegistersAlike(c: Cluster, d: Cluster, t: WorkloadReference, patch: DeploymentPatch, after: DeploymentState)
    requires Lookup(c, t) == Lookup(d, t) && patch.target == t
    ensures Inspect(c, t) == Inspect(d, t)
    ensures Lands(c, patch, after) <==> Lands(d, patch, after)
  {
    assert t in c <==> t in d;
    assert t in c ==> c[t] == d[t];
  }

  lemma Opening(b: Shared, q: InterventionRequest, g: Course, n: nat, k: nat, v: View, e: Instance)
    requires b.history != [] && PcAt(b, q, g, n, k, v, e) && k < 3
    ensures if k == 0 then e.pc.Starting? else if k == 1 then e.pc.Receiving? else e.pc.Acquiring?
  {
    hide ViewOf, Midway;
  }

  lemma OpeningTurn(b: Shared, g: Course, n: nat, k: nat, s: Shared, e: Instance, a: Answers)
    returns (t: Shared, f: Instance)
    requires b.history != [] && Tracked(b, g, n, k, s, e) && k < 3 && !a.fault && ValidConvergence(a.convergence)
    requires k == 0 ==> s.clock == g.start
    ensures StepLeads(s, e, n, a, t, f) && Tracked(b, g, n, k + 1, t, f)
    ensures f.request == e.request
  {
    hide NotedBy, Notes, SharedInvariant, InstanceInvariant, StillCurrent, Inspect, Lands, Execute, PlayOne;
    hide Accomplished, StageAt;
    hide RequestHash, LeaseKey, Published, Installed;
    Opening(b, e.request, g, n, k, ViewOf(s, e.request), e);
    if k == 0 {
      CaseFields(Current(b), Current(s));
      t := s;
      f := e.(now := s.clock, pc := Receiving(g.intervention, g.resuming));
      StartsFresh(s, n, e, a, g.intervention, g.resuming);
      NotesFollow(b, g, k, s, t);
    } else if k == 1 {
      t := Receives(s, n, e, a);
      f := e.(pc := Acquiring(e.pc.intervention, e.pc.resuming));
      NotesFollow(b, g, k, s, t);
    } else {
      t, f := AcquireTurn(b, g, n, s, e, a);
    }
  }

  lemma AcquireTurn(b: Shared, g: Course, n: nat, s: Shared, e: Instance, a: Answers)
    returns (t: Shared, f: Instance)
    requires b.history != [] && Tracked(b, g, n, 2, s, e) && e.pc.Acquiring? && !a.fault
    requires ValidConvergence(a.convergence)
    ensures StepLeads(s, e, n, a, t, f) && Tracked(b, g, n, 3, t, f)
    ensures f.request == e.request
  {
    hide NotedBy, Notes, SharedInvariant, InstanceInvariant, StillCurrent, Inspect, Lands, Execute, PlayOne;
    hide Accomplished, StageAt;
    hide RequestHash, LeaseKey, Published, Installed, Receivable;
    var lease;
    t, lease := AcquiresFree(s, n, e, a);
    f := e.(pc := Rechecking(e.pc.intervention, e.pc.resuming, lease));
    NotesFollow(b, g, 2, s, t);
  }

  lemma RecheckTurn(b: Shared, g: Course, n: nat, s: Shared, e: Instance, a: Answers)
    returns (t: Shared, f: Instance)
    requires b.history != [] && Tracked(b, g, n, 3, s, e) && !a.fault && ValidConvergence(a.convergence)
    ensures StepLeads(s, e, n, a, t, f) && Tracked(b, g, n, 4, t, f)
    ensures f.request == e.request
  {
    hide NotedBy, Notes, SharedInvariant, InstanceInvariant, StillCurrent, Inspect, Lands, Execute, PlayOne;
    hide Accomplished, Midway;
    hide RequestHash, LeaseKey, Published, Installed, Receivable, Case;
    CaseFields(Current(b), Current(s));
    FactsOf(Current(b), e.request, g);
    StillCurrentCase(Current(b), Current(s), e.request, g.seen, g.state, g.start);
    RechecksFresh(s, n, e, a, g.seen, g.state);
    t := s;
    f := e.(pc := Guarded(e.pc.intervention, e.pc.lease, Current(s), Current(s).approvals[0],
                          if e.pc.resuming then Resuming else Claiming));
    NotesFollow(b, g, 3, s, t);
  }

  lemma CaseFields(r: InvestigationRecord, t: InvestigationRecord)
    ensures Case(r) == Case(t) ==>
              && t.incident == r.incident && t.interventions == r.interventions && t.approvals == r.approvals
              && t.proposal == r.proposal
  {
    assert Case(r).incident == r.incident && Case(t).incident == t.incident;
    assert Case(r).interventions == r.interventions && Case(t).interventions == t.interventions;
    assert Case(r).approvals == r.approvals && Case(t).approvals == t.approvals;
    assert Case(r).proposal == r.proposal && Case(t).proposal == t.proposal;
  }

  /** The claim, or the audit event of a resumption. */
  lemma ClaimingTurn(b: Shared, g: Course, n: nat, s: Shared, e: Instance, a: Answers)
    returns (t: Shared, f: Instance)
    requires b.history != [] && Tracked(b, g, n, 4, s, e) && !a.fault && ValidConvergence(a.convergence)
    ensures StepLeads(s, e, n, a, t, f) && Tracked(b, g, n, 5, t, f)
    ensures f.request == e.request
  {
    hide NotedBy, Notes, SharedInvariant, InstanceInvariant, StillCurrent, Inspect, Lands, Execute, PlayOne;
    hide Published, RequestHash;
    hide LeaseKey;
    FactsOf(Current(b), e.request, g);
    StillCurrentCase(Current(b), Current(s), e.request, g.seen, g.state, g.start);
    FactsOf(Current(s), e.request, g);
    CaseFields(Current(b), Current(s));
    CaseFields(Current(b), e.pc.seen);
    f := e.(pc := e.pc.(stage := Inspecting));
    if g.resuming {
      t := ReportsFresh(s, n, e, a);
    } else {
      t := ClaimsFresh(s, n, e, a);
      NoteAdded(s, Current(s), e.request.incidentId, "intervention_claimed");
    }
    NotesFollow(b, g, 4, s, t);
  }

  /** Inspection and revalidation: the approved state is live, so policy rebuilds the reviewed patch. */
  lemma ValidatingTurn(b: Shared, g: Course, n: nat, k: nat, s: Shared, e: Instance, a: Answers)
    returns (t: Shared, f: Instance)
    requires b.history != [] && Tracked(b, g, n, k, s, e) && 5 <= k <= 6 && !a.fault
    requires ValidConvergence(a.convergence) && (k == 6 ==> a.ready && a.dryRun.Accepted?)
    ensures StepLeads(s, e, n, a, t, f) && Tracked(b, g, n, k + 1, t, f)
    ensures f.request == e.request
  {
    hide NotedBy, Notes, SharedInvariant, InstanceInvariant, StillCurrent, Inspect, Lands, Execute, PlayOne, Evaluate;
    hide Case;
    hide AtApprovedVersion, GuardedStep, Installed, LeaseKey;
    var q, seen := e.request, e.pc.seen;
    StillCurrentCase(Current(b), seen, q, g.seen, g.state, g.start);
    FactsOf(seen, q, g);
    CaseFields(Current(b), seen);
    PublishedPatch(s, n, e);
    RegistersAlike(b.cluster, s.cluster, q.target, q.patch, g.after);
    var diff := if k == 6 then a.dryRun.diff else "";
    RevalidationAgrees(seen, q, g.seen, g.state, g.start, s.clock, diff);
    t := s;
    if k == 5 {
      InspectsFresh(s, n, e, a, g.state);
      f := e.(pc := e.pc.(stage := Revalidating(g.state)));
    } else {
      RevalidatesFresh(s, n, e, a, g.state, q.patch);
      f := e.(pc := e.pc.(stage := ReportingValidated(g.state)));
    }
    NotesFollow(b, g, k, s, t);
  }

  /** The audit events around the write. */
  lemma ReportTurn(b: Shared, g: Course, n: nat, k: nat, s: Shared, e: Instance, a: Answers)
    returns (t: Shared, f: Instance)
    requires b.history != [] && Tracked(b, g, n, k, s, e) && (7 <= k <= 8 || k == 11) && !a.fault
    requires ValidConvergence(a.convergence)
    ensures StepLeads(s, e, n, a, t, f) && Tracked(b, g, n, k + 1, t, f)
    ensures f.request == e.request
  {
    hide NotedBy, Notes, SharedInvariant, InstanceInvariant, StillCurrent, Inspect, Lands, Execute, PlayOne;
    hide Installed, ActionConverged, Published, RequestHash, LeaseKey, MaySucceed, Bumped;
    GuardedHasSeen(s, n, e);
    t := ReportsFresh(s, n, e, a);
    f := e.(pc := e.pc.(stage := if k == 7 then ReportingDryRun(g.state) else if k == 8 then Renewing(g.state)
                                 else Verifying(g.state)));
    NotesFollow(b, g, k, s, t);
  }

  /** The renewal and the write. */
  lemma WritingTurn(b: Shared, g: Course, n: nat, k: nat, s: Shared, e: Instance, a: Answers)
    returns (t: Shared, f: Instance)
    requires b.history != [] && Tracked(b, g, n, k, s, e) && 9 <= k <= 10 && !a.fault
    requires ValidConvergence(a.convergence) && (k == 10 ==> a.reply == Landed(g.after))
    requires k == RENEWAL ==> s.clock < g.start + b.ttl
    ensures StepLeads(s, e, n, a, t, f) && Tracked(b, g, n, k + 1, t, f)
    ensures f.request == e.request
  {
    hide NotedBy, Notes, SharedInvariant, InstanceInvariant, StillCurrent, Inspect, Lands, Execute, PlayOne;
    hide Installed, ActionConverged, Published, RequestHash, LeaseKey, Bumped;
    if k == 9 {
      var lease;
      t, lease := RenewsHeld(s, n, e, a);
      f := e.(pc := e.pc.(lease := lease, stage := Mutating(g.state)));
    } else {
      PublishedPatch(s, n, e);
      RegistersAlike(b.cluster, s.cluster, e.request.target, e.request.patch, g.after);
      t := MutatesOnce(s, n, e, a, g.state);
      InstalledAlike(b.cluster, s.cluster, e.request.patch, g.after);
      f := e.(pc := e.pc.(stage := ReportingMutated(g.state)));
    }
    NotesFollow(b, g, k, s, t);
  }

  lemma InstalledAlike(c: Cluster, d: Cluster, patch: DeploymentPatch, after: DeploymentState)
    requires Lookup(c, patch.target) == Lookup(d, patch.target) && Lands(c, patch, after)
    ensures Lookup(Installed(c, after), patch.target) == Lookup(Installed(d, after), patch.target)
  {
    assert patch.target in c && patch.target in d && c[patch.target] == d[patch.target];
  }

  /** Convergence and the outcome. */
  lemma OutcomeTurn(b: Shared, g: Course, n: nat, k: nat, s: Shared, e: Instance, a: Answers)
    returns (t: Shared, f: Instance)
    requires b.history != [] && Tracked(b, g, n, k, s, e) && 12 <= k <= 13 && !a.fault
    requires ValidConvergence(a.convergence)
    requires Current(b).proposal.Some? && Healthy(k, a, g, Current(b).proposal.value.action)
    ensures StepLeads(s, e, n, a, t, f) && Tracked(b, g, n, k + 1, t, f)
    ensures f.request == e.request
  {
    hide NotedBy, Notes, SharedInvariant, InstanceInvariant, StillCurrent, Inspect, Lands, Execute, PlayOne;
    hide Installed, ActionConverged, Published, RequestHash, LeaseKey, FreshEvent;
    CaseFields(Current(b), e.pc.seen);
    if k == 12 {
      VerifiesFresh(s, n, e, a, RecordingSucceeded);
      t := s;
      f := e.(pc := e.pc.(stage := RecordingSucceeded));
    } else {
      t := RecordsOutcome(s, n, e, a);
      NoteAdded(s, Current(s), e.request.incidentId, "intervention_converged");
      f := e.(pc := Releasing(e.pc.lease, Settled, Some(e.pc.intervention.(state := Succeeded))));
    }
    NotesFollow(b, g, k, s, t);
  }

  lemma ReleasingTurn(b: Shared, g: Course, n: nat, s: Shared, e: Instance, a: Answers)
    returns (t: Shared, f: Instance)
    requires b.history != [] && Tracked(b, g, n, 14, s, e) && !a.fault
    requires ValidConvergence(a.convergence)
    ensures StepLeads(s, e, n, a, t, f) && Tracked(b, g, n, 15, t, f)
    ensures f.request == e.request
  {
    hide NotedBy, Notes, SharedInvariant, InstanceInvariant, StillCurrent, Inspect, Lands, Execute, PlayOne;
    hide Installed, ActionConverged, Published, RequestHash, LeaseKey, MaySucceed, Bumped;
    t := ReleasesHeld(s, n, e, a);
    f := e.(pc := Exited(Some(e.pc.lease), Settled, e.pc.result, false));
    NotesFollow(b, g, 14, s, t);
  }

  lemma ATurn(b: Shared, g: Course, n: nat, k: nat, s: Shared, e: Instance, a: Answers) returns (t: Shared, f: Instance)
    requires b.history != [] && Tracked(b, g, n, k, s, e) && k < TURNS
    requires Current(b).proposal.Some? && Healthy(k, a, g, Current(b).proposal.value.action)
    requires k == 0 ==> s.clock == g.start
    requires k == RENEWAL ==> s.clock < g.start + b.ttl
    ensures StepLeads(s, e, n, a, t, f) && Tracked(b, g, n, k + 1, t, f)
    ensures f.request == e.request
  {
    hide Tracked, StepLeads, ActionConverged;
    if k < 3 {
      t, f := OpeningTurn(b, g, n, k, s, e, a);
    } else if k == 3 {
      t, f := RecheckTurn(b, g, n, s, e, a);
    } else if k == 4 {
      t, f := ClaimingTurn(b, g, n, s, e, a);
    } else if k <= 6 {
      t, f := ValidatingTurn(b, g, n, k, s, e, a);
    } else if k <= 8 || k == 11 {
      t, f := ReportTurn(b, g, n, k, s, e, a);
    } else if k <= 10 {
      t, f := WritingTurn(b, g, n, k, s, e, a);
    } else if k <= 13 {
      t, f := OutcomeTurn(b, g, n, k, s, e, a);
    } else {
      t, f := ReleasingTurn(b, g, n, s, e, a);
    }
  }

  // ---------------------------------------------------------------- any harmless company, any healthy answers

  /** In turn `k` others do no harm, the answer is healthy, and the renewal comes before the lease runs out. */
  ghost predicate FairTurn(b: Shared, n: nat, e: Instance, g: Course, turns: seq<Turn>, k: nat)
    requires b.history != [] && Current(b).proposal.Some? && k < |turns|
  {
    var s, turn := Play(b, e, n, Moves(turns[..k])).0, turns[k];
    && AllHarmless(s, turn.others, e.request)
    && Healthy(k, turn.answers, g, Current(b).proposal.value.action)
    && (k == 0 ==> After(s, turn.others).clock == g.start)
    && (k == RENEWAL ==> After(s, turn.others).clock < g.start + b.ttl)
  }

  ghost predicate Prosperous(b: Shared, n: nat, e: Instance, g: Course, turns: seq<Turn>)
    requires b.history != [] && Current(b).proposal.Some?
  {
    forall k | 0 <= k < |turns| :: FairTurn(b, n, e, g, turns, k)
  }

  lemma {:induction false} PlayInterlude(s: Shared, e: Instance, n: nat, moves: seq<Own>, events: seq<Event>)
    ensures var (t, f) := Play(s, e, n, moves);
            Play(s, e, n, moves + Interlude(events)) == (After(t, events), f)
  {
    hide PlayOne;
    if events == [] {
      assert moves + [] == moves;
    } else {
      var before, v := events[..|events| - 1], events[|events| - 1];
      PlayInterlude(s, e, n, moves, before);
      assert moves + Interlude(events) == (moves + Interlude(before)) + [Meanwhile(v)];
      PlayMore(s, e, n, moves + Interlude(before), Meanwhile(v));
      MeanwhileIs(After(Play(s, e, n, moves).0, before), Play(s, e, n, moves).1, n, v);
    }
  }

  lemma MeanwhileIs(s: Shared, e: Instance, n: nat, v: Event)
    ensures PlayOne(s, e, n, Meanwhile(v)) == (Around(s, v), e)
  {
  }

  lemma MoreTurns(s: Shared, e: Instance, n: nat, turns: seq<Turn>, k: nat)
    requires k < |turns|
    ensures var (t, f) := Play(s, e, n, Moves(turns[..k]));
            Play(s, e, n, Moves(turns[..k + 1]))
            == PlayOne(After(t, turns[k].others), f, n, Step(turns[k].answers))
  {
    hide PlayOne, Play;
    assert turns[..k + 1][..k] == turns[..k];
    var before, last := Moves(turns[..k]), turns[k];
    PlayInterlude(s, e, n, before, last.others);
    PlayMore(s, e, n, before + Interlude(last.others), Step(last.answers));
  }

  lemma {:induction false} Prospers(b: Shared, n: nat, e: Instance, g: Course, turns: seq<Turn>, k: nat)
    requires SharedInvariant(b) && InstanceInvariant(b, n, e) && e.pc.Starting?
    requires b.history != [] && MaySucceed(b, e.request, g) && Current(b).proposal.Some?
    requires Prosperous(b, n, e, g, turns) && k <= |turns| <= TURNS
    ensures var (s, f) := Play(b, e, n, Moves(turns[..k]));
            Tracked(b, g, n, k, s, f) && f.request == e.request
  {
    hide SharedInvariant, InstanceInvariant, MaySucceed, Play, PlayOne, Healthy, AllHarmless, After, PcAt, ViewOf;
    hide Notes;
    if k == 0 {
      assert turns[..0] == [] && Play(b, e, n, Moves([])) == (b, e) by { NoMoves(b, e, n); }
      assert PcAt(b, e.request, g, n, 0, ViewOf(b, e.request), e) by { AtStart(b, g, n, e); }
    } else {
      Prospers(b, n, e, g, turns, k - 1);
      MoreTurns(b, e, n, turns, k - 1);
      assert FairTurn(b, n, e, g, turns, k - 1);
      var (s, f) := Play(b, e, n, Moves(turns[..k - 1]));
      HarmlessInterlude(s, n, f, turns[k - 1].others);
      ViewNotes(s, After(s, turns[k - 1].others), e.request);
      var t, h := ATurn(b, g, n, k - 1, After(s, turns[k - 1].others), f, turns[k - 1].answers);
    }
  }

  lemma NoMoves(s: Shared, e: Instance, n: nat)
    ensures Play(s, e, n, Moves([])) == (s, e)
  {
  }

  lemma AtStart(b: Shared, g: Course, n: nat, e: Instance)
    requires b.history != [] && e.pc.Starting?
    ensures PcAt(b, e.request, g, n, 0, ViewOf(b, e.request), e) && NotedBy(b, g, 0, b)
  {
  }

  /**
   * A fresh or resumed delivery succeeds, whatever harmless things others do before each of its fifteen operations and
   * however long they take, as long as the renewal comes before the lease runs out: it writes once, leaves the
   * Incident monitoring and the lease released, and its audit events tell the course in order.
   */
  lemma HappyPath(b: Shared, n: nat, e: Instance, g: Course, turns: seq<Turn>)
    requires SharedInvariant(b) && InstanceInvariant(b, n, e) && e.pc.Starting?
    requires b.history != [] && MaySucceed(b, e.request, g) && Current(b).proposal.Some?
    requires Prosperous(b, n, e, g, turns) && |turns| == TURNS
    ensures var (t, f) := Play(b, e, n, Moves(turns));
            && f.pc.Exited? && f.pc.claim == Settled && !f.pc.unreleased
            && f.pc.result == Some(g.intervention.(state := Succeeded))
            && t.history != [] && Accomplished(b, e.request, g, n, ViewOf(t, e.request))
            && LeaseKey(e.request.target) !in t.leases
            && Notes(Current(t).events) == Notes(Current(b).events) + SuccessNotes(g.resuming)
  {
    hide SharedInvariant, InstanceInvariant, MaySucceed, Play, Moves, Accomplished, Prosperous, Case, LeaseKey, Notes;
    assert SuccessNotes(g.resuming)[..6] == SuccessNotes(g.resuming);
    assert turns[..TURNS] == turns;
    Prospers(b, n, e, g, turns, TURNS);
  }

  // ---------------------------------------------------------------- the run that finds its key finished

  /** A redelivery of a finished request answers with the recorded Intervention and adds one audit event, no more. */
  lemma DuplicateIsAnswered(b: Shared, n: nat, e: Instance, a: Answers, c: Answers)
    requires SharedInvariant(b) && InstanceInvariant(b, n, e) && e.pc.Starting? && !a.fault && !c.fault
    requires FindByKey(Current(b).interventions, e.request.key).Some?
    requires FindByKey(Current(b).interventions, e.request.key).value.state != Running
    ensures var (t, f) := Play(b, e, n, [] + [Step(a)] + [Step(c)]);
            && f.pc == Exited(None, Unclaimed, FindByKey(Current(b).interventions, e.request.key), false)
            && Kin(b, t) && t.leases == b.leases && t.clock == b.clock
            && Notes(Current(t).events) == Notes(Current(b).events) + ["intervention_duplicate_rejected"]
  {
    hide Kin, Log, Notes, HistoryInvariant, DecidedSound, WriteSound, PolicyHonest, OutcomeCounts, ClusterSound;
    PlayMore(b, e, n, [], Step(a));
    PlayMore(b, e, n, [] + [Step(a)], Step(c));
    assert Published(Current(b), e.request);
    LogIsKin(b, n, e.request, "intervention_duplicate_rejected");
  }

  // ---------------------------------------------------------------- the runs that stop

  /** A safe halt whose calls answer records exactly that, adds one audit event and gives the lease up. */
  lemma HaltIsRecorded(b: Shared, n: nat, e: Instance, h: Answers, w: Answers, r: Answers)
    requires SharedInvariant(b) && InstanceInvariant(b, n, e) && e.pc.Halting? && !h.fault && !w.fault && !r.fault
    requires Current(b).interventions == [e.pc.intervention]
    requires Holds(Lookup(b.leases, LeaseKey(e.pc.lease.target)), e.pc.lease)
    ensures var (t, f) := Play(b, e, n, [] + [Step(h)] + [Step(w)] + [Step(r)]);
            && f.pc == Exited(Some(e.pc.lease), Settled, None, false) && t.history != []
            && Current(t).interventions == [e.pc.intervention.(state := SafeHalted)]
            && Current(t).incident.intervention == SafeHaltedOutcome
            && Current(t).incident.lifecycle == Current(b).incident.lifecycle
            && t.ledger == b.ledger && LeaseKey(e.pc.lease.target) !in t.leases
            && Notes(Current(t).events) == Notes(Current(b).events) + ["intervention_safe_halted"]
  {
    hide SharedInvariant, InstanceInvariant, PlayOne, Notes, LeaseKey;
    PlayMore(b, e, n, [], Step(h));
    PlayMore(b, e, n, [] + [Step(h)], Step(w));
    PlayMore(b, e, n, [] + [Step(h)] + [Step(w)], Step(r));
    var t := RecordsHalt(b, n, e, h, w);
    ReleasesIts(t, n, e.(pc := Releasing(e.pc.lease, Settled, None)), r);
  }

  lemma RecordsHalt(s: Shared, n: nat, e: Instance, h: Answers, w: Answers) returns (t: Shared)
    requires SharedInvariant(s) && InstanceInvariant(s, n, e) && e.pc.Halting? && !h.fault && !w.fault
    requires Current(s).interventions == [e.pc.intervention]
    ensures var halting := e.(pc := RecordingHalt(e.pc.intervention, e.pc.lease));
            && PlayOne(s, e, n, Step(h)) == (s, halting)
            && PlayOne(s, halting, n, Step(w)) == (t, e.(pc := Releasing(e.pc.lease, Settled, None)))
    ensures t.history != [] && t == s.(history := t.history, nextUuid := t.nextUuid)
    ensures Current(t).interventions == [e.pc.intervention.(state := SafeHalted)]
    ensures Current(t).incident.intervention == SafeHaltedOutcome
    ensures Current(t).incident.lifecycle == Current(s).incident.lifecycle
    ensures Notes(Current(t).events) == Notes(Current(s).events) + ["intervention_safe_halted"]
  {
    hide HistoryInvariant, DecidedSound, WriteSound, PolicyHonest, OutcomeCounts, ClusterSound, LeasesPast, Published;
    hide KeepsRecord, LeaseSound, Apply, Notes, GuardedStep, AuthorityHolds;
    var i, event := e.pc.intervention, FreshEvent(s, e.request.incidentId, "intervention_safe_halted");
    RecordKept(s);
    PublishedOwner(Current(s), e.request);
    FreshEventIsNew(Current(s), event, s.nextUuid);
    OutcomeAccepted(Current(s), i, SafeHalted, event);
    NoteAdded(s, Current(s), e.request.incidentId, "intervention_safe_halted");
    assert FindIntervention([i], i.interventionId) == Some(i);
    t := CallWithEvent(s, UpdateIntervention(i.(state := SafeHalted), event)).shared;
  }

  // ---------------------------------------------------------------- the run that fails to stop

  /** Answers of a call that raises. */
  predicate Raising(a: Answers) {
    a.fault && ValidConvergence(a.convergence)
  }

  /**
   * Fail-stop has an exception: when a call raises after the claim and the safe halt's own read raises too, `consume`
   * releases the lease and exits with the Intervention still running.
   */
  lemma LostHaltLeavesItRunning(b: Shared, n: nat, e: Instance, g: Course, turns: seq<Turn>, a: Answers, h: Answers,
                                r: Answers)
    requires SharedInvariant(b) && InstanceInvariant(b, n, e) && e.pc.Starting?
    requires b.history != [] && MaySucceed(b, e.request, g) && Current(b).proposal.Some?
    requires Prosperous(b, n, e, g, turns) && |turns| == 5 && Raising(a) && Raising(h) && !r.fault
    ensures var (t, f) := Play(b, e, n, Moves(turns) + [Step(a)] + [Step(h)] + [Step(r)]);
            && f.pc.Exited? && f.pc.claim == Unhalted && f.pc.result == None && !f.pc.unreleased
            && t.history != [] && Current(t).interventions == [g.intervention] && g.intervention.state == Running
            && t.ledger == b.ledger && LeaseKey(e.request.target) !in t.leases
  {
    hide SharedInvariant, InstanceInvariant, Play, Moves, Prosperous, MaySucceed, PlayOne, Tracked, LeaseKey;
    assert turns[..5] == turns;
    Prospers(b, n, e, g, turns, 5);
    var (s, f) := Play(b, e, n, Moves(turns));
    var m := Moves(turns);
    PlayMore(b, e, n, m, Step(a));
    PlayMore(b, e, n, m + [Step(a)], Step(h));
    PlayMore(b, e, n, m + [Step(a)] + [Step(h)], Step(r));
    LosesHalt(b, g, n, s, f, a, h, r);
  }

  lemma LosesHalt(b: Shared, g: Course, n: nat, s: Shared, e: Instance, a: Answers, h: Answers, r: Answers)
    requires b.history != [] && Tracked(b, g, n, 5, s, e) && a.fault && h.fault && !r.fault
    ensures var (s1, e1) := PlayOne(s, e, n, Step(a));
            var (s2, e2) := PlayOne(s1, e1, n, Step(h));
            var (t, f) := PlayOne(s2, e2, n, Step(r));
            && f.pc.Exited? && f.pc.claim == Unhalted && f.pc.result == None && !f.pc.unreleased
            && t.history != [] && Current(t).interventions == [g.intervention] && g.intervention.state == Running
            && t.ledger == b.ledger && LeaseKey(e.request.target) !in t.leases
  {
    hide SharedInvariant, InstanceInvariant, StillCurrent, Lands, Inspect, Execute, PlayOne, LeaseKey, Installed;
    GuardedHasSeen(s, n, e);
    TwoFaults(s, n, e, a, h);
    ReleasesIts(s, n, e.(pc := Releasing(e.pc.lease, Unhalted, None)), r);
  }

  lemma TwoFaults(s: Shared, n: nat, e: Instance, a: Answers, h: Answers)
    requires s.history != [] && e.pc.Guarded? && e.pc.seen.proposal.Some? && !e.pc.stage.Claiming?
    requires a.fault && h.fault
    ensures var (s1, e1) := PlayOne(s, e, n, Step(a));
            PlayOne(s1, e1, n, Step(h)) == (s, e.(pc := Releasing(e.pc.lease, Unhalted, None)))
  {
    hide Perform;
  }

  lemma ReleasesIts(s: Shared, n: nat, e: Instance, r: Answers)
    requires s.history != [] && e.pc.Releasing? && !r.fault
    requires Holds(Lookup(s.leases, LeaseKey(e.pc.lease.target)), e.pc.lease)
    ensures PlayOne(s, e, n, Step(r)) ==
            (s.(leases := s.leases - {LeaseKey(e.pc.lease.target)}),
             e.(pc := Exited(Some(e.pc.lease), e.pc.claim, e.pc.result, false)))
  {
  }

  lemma GuardedHasSeen(s: Shared, n: nat, e: Instance)
    requires s.history != [] && InstanceInvariant(s, n, e)
    ensures e.pc.Guarded? ==> e.pc.seen.proposal.Some?
  {
    hide StageInvariant, LeaseSound, ClaimedAs;
  }
}
