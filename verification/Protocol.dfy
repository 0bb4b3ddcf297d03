/** The intervention protocol as a step machine: executors, leases, the Kubernetes register and every other caller. */
module Protocol {
  import opened Wrappers
  import opened Incidents
  import opened ApprovalBindings
  import opened RecordOperations
  import opened RecordInvariants
  import opened RecordRuns
  import opened WorkloadLeases
  import opened ProposalPolicy
  import opened InterventionQueues

  // ---------------------------------------------------------------- the Kubernetes register

  /** Every version the Deployment ever had, and the one it has now. A version determines the state. */
  datatype Register = Register(current: Option<Version>, versions: map<Version, DeploymentState>)

  type Cluster = map<WorkloadReference, Register>

  function Inspect(c: Cluster, t: WorkloadReference): Option<DeploymentState> {
    if t in c && c[t].current.Some? && c[t].current.value in c[t].versions
    then Some(c[t].versions[c[t].current.value])
    else None
  }

  predicate Known(c: Cluster, state: DeploymentState) {
    && state.target in c
    && state.resourceVersion in c[state.target].versions
    && c[state.target].versions[state.resourceVersion] == state
  }

  function Installed(c: Cluster, state: DeploymentState): Cluster {
    var versions := if state.target in c then c[state.target].versions else map[];
    c[state.target := Register(Some(state.resourceVersion), versions[state.resourceVersion := state])]
  }

  function Deleted(c: Cluster, t: WorkloadReference): Cluster {
    if t in c then c[t := c[t].(current := None)] else c
  }

  predicate Unused(c: Cluster, state: DeploymentState) {
    state.target in c ==> state.resourceVersion !in c[state.target].versions
  }

  /** The contract of an accepted patch: the version compared equal, and the result has a never-used one. */
  predicate Lands(c: Cluster, patch: DeploymentPatch, after: DeploymentState) {
    var before := Inspect(c, patch.target);
    && before.Some?
    && before.value.resourceVersion == patch.resourceVersion
    && after.target == patch.target
    && Unused(c, after)
    && before.value.generation < after.generation
    && (RequestedReplicas(patch).Some? ==> after.replicas == RequestedReplicas(patch).value)
  }

  // ---------------------------------------------------------------- state

  datatype WriteKind = Forward | Restoration

  /** One patch an executor landed, with the state it landed on. */
  datatype Write = Write(instance: nat, kind: WriteKind, patch: DeploymentPatch, onto: DeploymentState)

  /** A decision whose publication may still follow: the record it returned, and the approval. */
  datatype Decided = Decided(recorded: InvestigationRecord, approval: Approval)

  datatype Shared =
    Shared(history: seq<InvestigationRecord>, leases: map<string, WorkloadLease>, ttl: nat, cluster: Cluster,
           queue: set<InterventionRequest>, decided: Option<Decided>, clock: Time, nextUuid: nat, ledger: seq<Write>)

  function Current(s: Shared): InvestigationRecord
    requires s.history != []
  {
    s.history[|s.history| - 1]
  }

  /** Where a guarded run of `consume` stands, with the locals it still needs. */
  datatype Stage =
    | Claiming
    | Resuming
    | Inspecting
    | Revalidating(before: DeploymentState)
    | ReportingValidated(before: DeploymentState)
    | ReportingDryRun(before: DeploymentState)
    | Renewing(before: DeploymentState)
    | Mutating(before: DeploymentState)
    | ReportingMutated(before: DeploymentState)
    | Verifying(before: DeploymentState)
    | ReportingFailed(before: DeploymentState, observed: DeploymentState)
    | RecordingFailed
    | RecordingSucceeded
    | Reinspecting(before: DeploymentState, observed: DeploymentState)
    | RevalidatingRestore(before: DeploymentState, observed: DeploymentState)
    | ReportingRestore(before: DeploymentState, observed: DeploymentState, patch: DeploymentPatch)
    | RenewingRestore(before: DeploymentState, observed: DeploymentState, patch: DeploymentPatch)
    | Restoring(before: DeploymentState, observed: DeploymentState, patch: DeploymentPatch)
    | ReportingRestored(before: DeploymentState, observed: DeploymentState, patch: DeploymentPatch)
    | VerifyingRestored(before: DeploymentState, observed: DeploymentState, patch: DeploymentPatch)
    | RecordingRolledBack

  /** What a `consume` did about its claim: none made, settled in the record, or the safe halt itself raised. */
  datatype Claim = Unclaimed | Settled | Unhalted

  /** The program counter of one `consume`; `seen` is the record its authority checks read. */
  datatype Pc =
    | Starting
    | RejectingDuplicate(found: Intervention)
    | Receiving(intervention: Intervention, resuming: bool)
    | Acquiring(intervention: Intervention, resuming: bool)
    | ReportingBusy
    | Rechecking(intervention: Intervention, resuming: bool, lease: WorkloadLease)
    | Guarded(intervention: Intervention, lease: WorkloadLease, seen: InvestigationRecord, approval: Approval,
              stage: Stage)
    | Halting(intervention: Intervention, lease: WorkloadLease)
    | RecordingHalt(intervention: Intervention, lease: WorkloadLease)
    | Refusing(lease: WorkloadLease)
    | Releasing(lease: WorkloadLease, claim: Claim, result: Option<Intervention>)
    | ReportingSkipped(lease: WorkloadLease, claim: Claim, result: Option<Intervention>)
    | Exited(held: Option<WorkloadLease>, claim: Claim, result: Option<Intervention>, unreleased: bool)
    | Crashed

  datatype Instance = Instance(request: InterventionRequest, owner: string, now: Time, pc: Pc)

  datatype System = System(shared: Shared, instances: seq<Instance>)

  // ---------------------------------------------------------------- answers from outside

  /** A patch request may land without its reply arriving. */
  datatype ApplyReply = Landed(after: DeploymentState) | LandedUnanswered(after: DeploymentState) | NotLanded

  /** A `fault` is any exception from a call that had no effect; every call of `consume` may answer with one. */
  datatype Answers =
    Answers(fault: bool, ready: bool, dryRun: DryRunResult, reply: ApplyReply, convergence: ConvergenceResult)

  // ---------------------------------------------------------------- atomic operations on the shared state

  datatype Outcome = Outcome(shared: Shared, accepted: bool)

  function Call(s: Shared, op: StoreOp): Outcome
    requires s.history != []
  {
    var result := Apply(Current(s), op);
    if result.Success? then Outcome(s.(history := s.history + [result.value]), true) else Outcome(s, false)
  }

  function FreshEvent(s: Shared, incidentId: Ident, name: string): AuditEvent {
    AuditEvent(Uuid(s.nextUuid), incidentId, OtherEvent(name), "deterministic-executor", None, 0)
  }

  /** A store call that carries a freshly identified audit event. */
  function CallWithEvent(s: Shared, op: StoreOp): Outcome
    requires s.history != []
  {
    Call(s.(nextUuid := s.nextUuid + 1), op)
  }

  function Log(s: Shared, q: InterventionRequest, name: string): Outcome
    requires s.history != []
  {
    CallWithEvent(s, AppendEvent(FreshEvent(s, q.incidentId, name)))
  }

  function RenewLease(s: Shared, lease: WorkloadLease): Result<(Shared, WorkloadLease), LeaseError> {
    var renewed := Renewed(Lookup(s.leases, LeaseKey(lease.target)), lease, s.clock, s.ttl);
    if renewed.Failure? then Failure(renewed.error)
    else Success((s.(leases := s.leases[LeaseKey(lease.target) := renewed.value]), renewed.value))
  }

  function Wrote(s: Shared, i: nat, kind: WriteKind, patch: DeploymentPatch, after: DeploymentState): Shared {
    var onto := Inspect(s.cluster, patch.target);
    if onto.None? then s
    else s.(cluster := Installed(s.cluster, after), ledger := s.ledger + [Write(i, kind, patch, onto.value)])
  }

  // ---------------------------------------------------------------- one atomic step of `consume`

  predicate ActionConverged(action: RemediationAction, previous: DeploymentState, observed: DeploymentState) {
    && observed.target == action.target
    && observed.resourceVersion != previous.resourceVersion
    && previous.generation < observed.generation
    && (match action
        case RollbackDeployment(_, revision) => observed.revision == revision
        case ScaleDeployment(_, replicas) => observed.replicas == replicas && observed.revision == previous.revision
        case RestartDeployment(_, _) => previous.revision < observed.revision)
  }

  function NewIntervention(q: InterventionRequest): Intervention {
    Intervention(InterventionOf(q.key), q.incidentId, q.proposalId, q.approvalId, q.target, Running, q.requestedAt,
                 q.key)
  }

  /** Every authority the executor re-checks on the record before it claims or resumes. */
  predicate AuthorityHolds(r: InvestigationRecord, q: InterventionRequest, approval: Option<Approval>, now: Time) {
    && RequestHash(q) == q.payloadHash
    && approval.Some? && approval.value.decision == Approved
    && now < approval.value.expiresAt && ApprovalMatchesRecord(r, approval.value)
    && r.proposal.Some? && PolicyIsPassed(r)
    && r.proposal.value.proposalId == q.proposalId
    && r.proposal.value.action.target == q.target
    && r.policy.value.patch == Some(q.patch)
  }

  function RestorationProposal(p: RemediationProposal, i: Intervention, replicas: nat): RemediationProposal {
    p.(proposalId := RestorationOf(p.proposalId, i.interventionId),
       action := ScaleDeployment(p.action.target, replicas))
  }

  predicate AtApprovedVersion(a: Approval, state: DeploymentState) {
    a.resourceVersion == state.resourceVersion && a.generation == state.generation && a.revision == state.revision
  }

  /** What a guarded step leads to: the next stage, a terminal result, or a raised exception. */
  datatype Move = Continue(lease: WorkloadLease, stage: Stage) | Finish(result: Intervention) | Raise

  function Proceed(o: Outcome, lease: WorkloadLease, stage: Stage): (Shared, Move) {
    (o.shared, if o.accepted then Continue(lease, stage) else Raise)
  }

  function Record(s: Shared, q: InterventionRequest, i: Intervention, state: InterventionState, name: string)
    : (Shared, Move)
    requires s.history != []
  {
    var done := i.(state := state);
    var o := CallWithEvent(s, UpdateIntervention(done, FreshEvent(s, q.incidentId, name)));
    (o.shared, if o.accepted then Finish(done) else Raise)
  }

  function SendPatch(s: Shared, n: nat, kind: WriteKind, patch: DeploymentPatch, reply: ApplyReply,
                     lease: WorkloadLease, stage: Stage): (Shared, Move)
  {
    match reply
    case Landed(after) => (Wrote(s, n, kind, patch, after), Continue(lease, stage))
    case LandedUnanswered(after) => (Wrote(s, n, kind, patch, after), Raise)
    case NotLanded => (s, Raise)
  }

  function ForwardStep(s: Shared, n: nat, q: InterventionRequest, pc: Pc, a: Answers): (Shared, Move)
    requires s.history != [] && pc.Guarded? && pc.seen.proposal.Some?
  {
    var i, lease, seen := pc.intervention, pc.lease, pc.seen;
    var action := seen.proposal.value.action;
    match pc.stage
    case Claiming =>
      Proceed(CallWithEvent(s, RecordIntervention(seen.incident.version, i,
                                                FreshEvent(s, q.incidentId, "intervention_claimed"))),
            lease, Inspecting)
    case Resuming => Proceed(Log(s, q, "intervention_resumed"), lease, Inspecting)
    case Inspecting =>
      var state := Inspect(s.cluster, q.target);
      if state.Some? && AtApprovedVersion(pc.approval, state.value)
      then (s, Continue(lease, Revalidating(state.value)))
      else (s, Raise)
    case Revalidating(before) =>
      var d := Evaluate(seen, seen.proposal.value, a.ready, Inspect(s.cluster, action.target), a.dryRun, s.clock);
      if d.status == PolicyPassed && d.patch == Some(q.patch)
      then (s, Continue(lease, ReportingValidated(before)))
      else (s, Raise)
    case ReportingValidated(before) => Proceed(Log(s, q, "intervention_validated"), lease, ReportingDryRun(before))
    case ReportingDryRun(before) => Proceed(Log(s, q, "intervention_dry_run_passed"), lease, Renewing(before))
    case Renewing(before) =>
      var renewed := RenewLease(s, lease);
      if renewed.Failure? then (s, Raise) else (renewed.value.0, Continue(renewed.value.1, Mutating(before)))
    case Mutating(before) => SendPatch(s, n, Forward, q.patch, a.reply, lease, ReportingMutated(before))
    case ReportingMutated(before) => Proceed(Log(s, q, "intervention_mutated"), lease, Verifying(before))
    case Verifying(before) =>
      var observed := a.convergence.observed;
      if a.convergence.status == Ambiguous || observed.None? then (s, Raise)
      else if a.convergence.status == DefinitelyFailed
      then (s, Continue(lease, ReportingFailed(before, observed.value)))
      else if ActionConverged(action, before, observed.value) then (s, Continue(lease, RecordingSucceeded))
      else (s, Raise)
    case RecordingSucceeded => Record(s, q, i, Succeeded, "intervention_converged")
    case _ => (s, Raise)
  }

  function FailureStep(s: Shared, n: nat, q: InterventionRequest, pc: Pc, a: Answers): (Shared, Move)
    requires s.history != [] && pc.Guarded? && pc.seen.proposal.Some?
  {
    var i, lease, seen := pc.intervention, pc.lease, pc.seen;
    var proposal := seen.proposal.value;
    match pc.stage
    case ReportingFailed(before, observed) =>
      Proceed(Log(s, q, "intervention_action_failed"), lease,
            if proposal.action.ScaleDeployment? then Reinspecting(before, observed) else RecordingFailed)
    case RecordingFailed => Record(s, q, i, Failed, "intervention_escalated")
    case Reinspecting(before, observed) =>
      if Inspect(s.cluster, q.target) == Some(observed)
      then (s, Continue(lease, RevalidatingRestore(before, observed)))
      else (s, Raise)
    case RevalidatingRestore(before, observed) =>
      var restore := RestorationProposal(proposal, i, before.replicas);
      var d := Evaluate(seen, restore, a.ready, Inspect(s.cluster, proposal.action.target), a.dryRun, s.clock);
      if d.status == PolicyPassed && d.patch.Some?
      then (s, Continue(lease, ReportingRestore(before, observed, d.patch.value)))
      else (s, Raise)
    case ReportingRestore(before, observed, patch) =>
      Proceed(Log(s, q, "intervention_restoration_validated"), lease, RenewingRestore(before, observed, patch))
    case RenewingRestore(before, observed, patch) =>
      var renewed := RenewLease(s, lease);
      if renewed.Failure? then (s, Raise)
      else (renewed.value.0, Continue(lease, Restoring(before, observed, patch)))
    case Restoring(before, observed, patch) =>
      SendPatch(s, n, Restoration, patch, a.reply, lease, ReportingRestored(before, observed, patch))
    case ReportingRestored(before, observed, patch) =>
      Proceed(Log(s, q, "intervention_restoration_mutated"), lease, VerifyingRestored(before, observed, patch))
    case VerifyingRestored(before, observed, patch) =>
      if a.convergence.status == Converged && a.convergence.observed.Some?
         && ActionConverged(ScaleDeployment(proposal.action.target, before.replicas), observed,
                            a.convergence.observed.value)
      then (s, Continue(lease, RecordingRolledBack))
      else (s, Raise)
    case RecordingRolledBack => Record(s, q, i, RolledBack, "intervention_restored")
    case _ => (s, Raise)
  }

  predicate FailureStage(stage: Stage) {
    match stage
    case ReportingFailed(_, _) => true
    case RecordingFailed => true
    case Reinspecting(_, _) => true
    case RevalidatingRestore(_, _) => true
    case ReportingRestore(_, _, _) => true
    case RenewingRestore(_, _, _) => true
    case Restoring(_, _, _) => true
    case ReportingRestored(_, _, _) => true
    case VerifyingRestored(_, _, _) => true
    case RecordingRolledBack => true
    case _ => false
  }

  function GuardedStep(s: Shared, n: nat, q: InterventionRequest, pc: Pc, a: Answers): (Shared, Move)
    requires s.history != [] && pc.Guarded? && pc.seen.proposal.Some?
  {
    if FailureStage(pc.stage) then FailureStep(s, n, q, pc, a) else ForwardStep(s, n, q, pc, a)
  }

  /** An exception is a refusal before the claim and a safe halt after it. */
  function Moved(pc: Pc, m: Move): Pc
    requires pc.Guarded?
  {
    match m
    case Continue(lease, stage) => pc.(lease := lease, stage := stage)
    case Finish(result) => Releasing(pc.lease, Settled, Some(result))
    case Raise => if pc.stage.Claiming? then Refusing(pc.lease) else Halting(pc.intervention, pc.lease)
  }

  /** Where an exception leads. Those of the halt, the refusal and the release themselves leave `consume`. */
  function Faulted(pc: Pc): Pc {
    match pc
    case Rechecking(i, resuming, lease) => if resuming then Halting(i, lease) else Refusing(lease)
    case Guarded(_, _, _, _, _) => Moved(pc, Raise)
    case Halting(_, lease) => Releasing(lease, Unhalted, None)
    case RecordingHalt(_, lease) => Releasing(lease, Unhalted, None)
    case Refusing(lease) => Releasing(lease, Unclaimed, None)
    case Releasing(lease, claim, _) => Exited(Some(lease), claim, None, true)
    case ReportingSkipped(lease, claim, _) => Exited(Some(lease), claim, None, false)
    case Exited(_, _, _, _) => pc
    case Crashed => Crashed
    case _ => Exited(None, Unclaimed, None, false)
  }

  /** One atomic operation that answers. */
  function Perform(s: Shared, n: nat, e: Instance, a: Answers): (Shared, Instance)
    requires s.history != [] && (e.pc.Guarded? ==> e.pc.seen.proposal.Some?)
  {
    var q := e.request;
    match e.pc
    case Starting =>
      var r := Current(s);
      var found := FindByKey(r.interventions, q.key);
      if q.incidentId != r.incident.incidentId then (s, e.(now := s.clock, pc := Exited(None, Unclaimed, None, false)))
      else if found.Some? && found.value.state != Running
      then (s, e.(now := s.clock, pc := RejectingDuplicate(found.value)))
      else
        var intervention := if found.Some? then found.value else NewIntervention(q);
        (s, e.(now := s.clock, pc := Receiving(intervention, found.Some?)))
    case RejectingDuplicate(found) =>
      var o := Log(s, q, "intervention_duplicate_rejected");
      (o.shared, e.(pc := Exited(None, Unclaimed, if o.accepted then Some(found) else None, false)))
    case Receiving(i, resuming) =>
      var o := Log(s, q, "intervention_received");
      (o.shared, e.(pc := if o.accepted then Acquiring(i, resuming) else Exited(None, Unclaimed, None, false)))
    case Acquiring(i, resuming) =>
      var lease := Acquired(Lookup(s.leases, LeaseKey(q.target)), q.target, i.interventionId, e.owner, e.now,
                            Uuid(s.nextUuid), s.ttl);
      var t := s.(nextUuid := s.nextUuid + 1);
      if lease.None? then (t, e.(pc := ReportingBusy))
      else (t.(leases := s.leases[LeaseKey(q.target) := lease.value]),
            e.(pc := Rechecking(i, resuming, lease.value)))
    case ReportingBusy =>
      (Log(s, q, "intervention_refused").shared, e.(pc := Exited(None, Unclaimed, None, false)))
    case Rechecking(i, resuming, lease) =>
      var r := Current(s);
      var approval := FindApproval(r.approvals, q.approvalId);
      if AuthorityHolds(r, q, approval, e.now)
      then (s, e.(pc := Guarded(i, lease, r, approval.value, if resuming then Resuming else Claiming)))
      else (s, e.(pc := if resuming then Halting(i, lease) else Refusing(lease)))
    case Guarded(_, _, _, _, _) =>
      var (t, m) := GuardedStep(s, n, q, e.pc, a);
      (t, e.(pc := Moved(e.pc, m)))
    case Halting(i, lease) =>
      var stored := FindIntervention(Current(s).interventions, i.interventionId);
      if stored.None? || stored.value.state != Running then (s, e.(pc := Releasing(lease, Settled, None)))
      else (s, e.(pc := RecordingHalt(i, lease)))
    case RecordingHalt(i, lease) =>
      var op := UpdateIntervention(i.(state := SafeHalted), FreshEvent(s, q.incidentId, "intervention_safe_halted"));
      (CallWithEvent(s, op).shared, e.(pc := Releasing(lease, Settled, None)))
    case Refusing(lease) =>
      (Log(s, q, "intervention_refused").shared, e.(pc := Releasing(lease, Unclaimed, None)))
    case Releasing(lease, claim, result) =>
      if Releasable(Lookup(s.leases, LeaseKey(lease.target)), lease)
      then (s.(leases := s.leases - {LeaseKey(lease.target)}), e.(pc := Exited(Some(lease), claim, result, false)))
      else (s, e.(pc := ReportingSkipped(lease, claim, result)))
    case ReportingSkipped(lease, claim, result) =>
      var o := Log(s, q, "intervention_lease_release_skipped");
      (o.shared, e.(pc := Exited(Some(lease), claim, if o.accepted then result else None, false)))
    case Exited(_, _, _, _) => (s, e)
    case Crashed => (s, e)
  }

  /** The next atomic operation of instance `n`: it answers, or raises without any effect. */
  function Execute(s: Shared, n: nat, e: Instance, a: Answers): (Shared, Instance)
    requires s.history != [] && (e.pc.Guarded? ==> e.pc.seen.proposal.Some?)
  {
    if a.fault then (s, e.(pc := Faulted(e.pc))) else Perform(s, n, e, a)
  }

  // ---------------------------------------------------------------- the whole system

  datatype Event =
    | Deliver(request: InterventionRequest, owner: string)
    | Run(instance: nat, answers: Answers)
    | Crash(instance: nat)
    | Pass(elapsed: nat)
    | ForeignWrite(state: DeploymentState)
    | ForeignDelete(target: WorkloadReference)
    | ForeignAcquire(target: WorkloadReference, interventionId: Ident, owner: string, now: Time)
    | ForeignRenew(lease: WorkloadLease, now: Time)
    | ForeignRelease(lease: WorkloadLease)
    | OtherCall(op: StoreOp)
    | Publish

  predicate NotFuture(id: Ident, next: nat) {
    id.Uuid? ==> id.serial <= next
  }

  function EventOf(op: StoreOp): Option<AuditEvent> {
    match op
    case RecordApproval(_, _, event, _) => Some(event)
    case RecordIntervention(_, _, event) => Some(event)
    case UpdateIntervention(_, event) => Some(event)
    case RecordAssessment(_, _, event) => Some(event)
    case AppendEvent(event) => Some(event)
    case _ => None
  }

  ghost predicate MadeByPolicy(history: seq<InvestigationRecord>, d: PolicyDecision) {
    exists seen <- history | seen.proposal.Some? :: exists ready, state, dryRun, now ::
      d == Evaluate(seen, seen.proposal.value, ready, state, dryRun, now)
  }

  /** Calls by everyone but the executors: Interventions are claimed and updated by executors only. */
  ghost predicate OtherCallPossible(s: Shared, op: StoreOp)
    requires s.history != []
  {
    && Admissible(s.history, op)
    && !op.RecordIntervention? && !op.UpdateIntervention?
    && (op.RecordPolicyDecision? ==> MadeByPolicy(s.history, op.policy))
    && (EventOf(op).Some? ==> NotFuture(EventOf(op).value.eventId, s.nextUuid))
  }

  predicate AnswersPossible(s: Shared, e: Instance, a: Answers) {
    && ValidConvergence(a.convergence)
    && (e.pc.Guarded? && e.pc.stage.Mutating? && !a.reply.NotLanded? ==>
          Lands(s.cluster, e.request.patch, a.reply.after))
    && (e.pc.Guarded? && e.pc.stage.Restoring? && !a.reply.NotLanded? ==>
          Lands(s.cluster, e.pc.stage.patch, a.reply.after))
  }

  ghost predicate Possible(y: System, v: Event)
    requires y.shared.history != []
  {
    var s := y.shared;
    match v
    case Deliver(q, _) => q in s.queue
    case Run(i, answers) =>
      && i < |y.instances|
      && AnswersPossible(s, y.instances[i], answers)
      && (y.instances[i].pc.Guarded? ==> y.instances[i].pc.seen.proposal.Some?)
    case Crash(i) => i < |y.instances| && !y.instances[i].pc.Exited?
    case Pass(_) => true
    case ForeignWrite(state) => Unused(s.cluster, state)
    case ForeignDelete(_) => true
    case ForeignAcquire(_, _, _, _) => true
    case ForeignRenew(_, _) => true
    case ForeignRelease(_) => true
    case OtherCall(op) => OtherCallPossible(s, op)
    case Publish => s.decided.Some?
  }

  /** Another caller's operation; an approved decision leaves its record to the publisher. */
  function OtherStep(s: Shared, op: StoreOp): Shared
    requires s.history != []
  {
    var o := CallWithEvent(s, op);
    if op.RecordApproval? && o.accepted && op.approval.decision == Approved
    then o.shared.(decided := Some(Decided(Current(o.shared), op.approval)))
    else o.shared
  }

  function PublishStep(s: Shared): Shared
    requires s.decided.Some?
  {
    var d := s.decided.value;
    var q := BuildRequest(d.recorded, d.approval, d.approval.decidedAt);
    if q.Success? then s.(queue := s.queue + {q.value}) else s
  }

  function EnvironmentStep(s: Shared, v: Event): Shared
    requires s.history != [] && (v.Publish? ==> s.decided.Some?)
  {
    match v
    case Pass(elapsed) => s.(clock := s.clock + elapsed)
    case ForeignWrite(state) => s.(cluster := Installed(s.cluster, state))
    case ForeignDelete(t) => s.(cluster := Deleted(s.cluster, t))
    case ForeignAcquire(t, interventionId, owner, now) =>
      var lease := Acquired(Lookup(s.leases, LeaseKey(t)), t, interventionId, owner, now, Uuid(s.nextUuid), s.ttl);
      var u := s.(nextUuid := s.nextUuid + 1);
      if lease.None? then u else u.(leases := s.leases[LeaseKey(t) := lease.value])
    case ForeignRenew(lease, now) =>
      var renewed := Renewed(Lookup(s.leases, LeaseKey(lease.target)), lease, now, s.ttl);
      if renewed.Failure? then s else s.(leases := s.leases[LeaseKey(lease.target) := renewed.value])
    case ForeignRelease(lease) =>
      if Releasable(Lookup(s.leases, LeaseKey(lease.target)), lease)
      then s.(leases := s.leases - {LeaseKey(lease.target)})
      else s
    case OtherCall(op) => OtherStep(s, op)
    case Publish => PublishStep(s)
    case _ => s
  }

  function Next(y: System, v: Event): System
    requires y.shared.history != [] && Possible(y, v)
  {
    match v
    case Deliver(q, owner) => y.(instances := y.instances + [Instance(q, owner, y.shared.clock, Starting)])
    case Run(i, answers) =>
      var (t, e) := Execute(y.shared, i, y.instances[i], answers);
      System(t, y.instances[i := e])
    case Crash(i) => y.(instances := y.instances[i := y.instances[i].(pc := Crashed)])
    case _ => y.(shared := EnvironmentStep(y.shared, v))
  }
}
