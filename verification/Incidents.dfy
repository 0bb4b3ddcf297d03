/** The strict domain contracts: values, their validators, and the three coupled transition tables. */
module Incidents {
  import opened Wrappers

  type Time = int
  type Version = string

  // ---------------------------------------------------------------- identities and hashes

  datatype WorkloadReference = WorkloadReference(namespace: string, name: string)

  /** Identifiers are free text, a fresh uuid, or text derived from other identifiers. Derivation is injective. */
  datatype Ident =
    | Name(text: string)
    | Uuid(serial: nat)
    | InterventionOf(key: IdempotencyKey)
    | RequestOf(key: IdempotencyKey)
    | RestorationOf(proposalId: Ident, interventionId: Ident)

  /** The canonical hash of the four facts that identify one approved mutation. */
  datatype IdempotencyKey =
    IdempotencyKey(incidentId: Ident, proposalId: Ident, approvalId: Ident, target: WorkloadReference)

  /** The canonical hash as a free, hence injective, constructor for every kind of hashed material. */
  datatype Digest =
    | OfProposal(proposal: RemediationProposal)
    | OfEvidence(window: EvidenceWindow, evidence: seq<EvidenceObservation>)
    | OfPolicy(policy: PolicyDecision)
    | OfText(text: string)
    | OfCriteria(criteria: RecoveryCriteria)

  /** The hash of a request without its own payload hash. */
  datatype PayloadHash =
    PayloadHash(requestId: Ident, incidentId: Ident, proposalId: Ident, approvalId: Ident,
                target: WorkloadReference, patch: DeploymentPatch, requestedAt: Time, key: IdempotencyKey)

  // ---------------------------------------------------------------- enumerations

  datatype IncidentLifecycle = Open | Investigating | AwaitingApproval | Mitigating | Monitoring | Resolved | Closed

  datatype InvestigationOutcome = NotInvestigated | ProposalReady | NeedsMoreEvidence | NoSafeAction | Inconclusive

  datatype InterventionOutcome =
    | NotIntervened | MonitoringOutcome | SucceededOutcome | RolledBackOutcome | FailedOutcome | SafeHaltedOutcome

  datatype SpecialistRole = Health | Logs | Metrics | Change

  datatype EvidenceSource = Kubernetes | CloudLogging | CloudMonitoring | Manual

  datatype EvidenceQueryKind = WorkloadState | PodEvents | PodLogs | MetricsQuery | ChangeHistory | AlertPolicy

  datatype PolicyStatus = PolicyPassed | PolicyRejected | DryRunFailed

  datatype PolicyCheckCode =
    | ProposalScoped | EvidenceCurrent | EnrollmentReady | TargetEnrolled | TargetExecutable | ActionAllowed
    | LiveStateAvailable | NoActiveIntervention | RevisionAvailable | RestorationSafe | ReplicaBoundsCheck
    | ReplicaQuota | PatchShape | ServerDryRun

  datatype ApprovalDecision = Approved | Rejected

  datatype InterventionState = Pending | Running | Succeeded | RolledBack | Failed | SafeHalted

  datatype ConvergenceStatus = Converged | DefinitelyFailed | Ambiguous

  datatype ActionType = RollbackType | ScaleType | RestartType

  datatype ProviderState = AlertOpen | AlertClosed

  // ---------------------------------------------------------------- the application profile

  datatype ReplicaBounds = ReplicaBounds(minimum: nat, maximum: nat)

  datatype ManagedWorkload =
    ManagedWorkload(reference: WorkloadReference, bounds: ReplicaBounds, executable: bool,
                    protectedDependency: bool, allowedActions: seq<ActionType>, dependencies: seq<string>)

  datatype SyntheticProbe = SyntheticProbe(name: string, repetitions: nat)

  datatype CriticalJourney =
    CriticalJourney(name: string, successRateMinimum: real, latencyMaximum: nat, minimumRequestCount: nat,
                    syntheticProbe: Option<SyntheticProbe>)

  datatype EvidenceBudget =
    EvidenceBudget(queriesPerSpecialist: nat, logLines: nat, metricSeries: nat, windowMinutes: nat)

  datatype EvidenceMapping =
    EvidenceMapping(source: EvidenceSource, kind: EvidenceQueryKind, scope: WorkloadReference, identifier: string)

  datatype RecoveryCriteria =
    RecoveryCriteria(journeyName: string, requiredStableWindows: nat, windowSeconds: nat, syntheticFallback: bool)

  datatype ApplicationProfile =
    ApplicationProfile(applicationId: string, version: string, namespaces: seq<string>,
                       workloads: seq<ManagedWorkload>, journeys: seq<CriticalJourney>,
                       evidenceMappings: seq<EvidenceMapping>, evidenceBudget: EvidenceBudget,
                       recoveryCriteria: RecoveryCriteria)

  predicate ValidWorkload(w: ManagedWorkload) {
    && 1 <= w.bounds.maximum
    && w.bounds.minimum <= w.bounds.maximum
    && w.executable != w.protectedDependency
    && (w.executable <==> w.allowedActions != [])
  }

  predicate ValidProfile(p: ApplicationProfile) {
    && (forall w <- p.workloads :: ValidWorkload(w))
    && (forall i, j | 0 <= i < j < |p.workloads| :: p.workloads[i].reference.name != p.workloads[j].reference.name)
    && (forall i, j | 0 <= i < j < |p.journeys| :: p.journeys[i].name != p.journeys[j].name)
    && (forall i, j | 0 <= i < j < |p.evidenceMappings| ::
          p.evidenceMappings[i].identifier != p.evidenceMappings[j].identifier)
    && (forall m <- p.evidenceMappings :: m.scope in Enrolled(p))
    && (exists j <- p.journeys :: j.name == p.recoveryCriteria.journeyName)
    && (forall j <- p.journeys :: 100 <= j.minimumRequestCount)
    && 2 <= p.recoveryCriteria.requiredStableWindows
    && 60 <= p.recoveryCriteria.windowSeconds
    && p.evidenceBudget.queriesPerSpecialist <= 2
  }

  function Enrolled(p: ApplicationProfile): set<WorkloadReference> {
    set w <- p.workloads :: w.reference
  }

  function FindWorkload(workloads: seq<ManagedWorkload>, target: WorkloadReference): (r: Option<ManagedWorkload>)
    ensures r.Some? ==> r.value in workloads && r.value.reference == target
    ensures r.None? <==> forall w <- workloads :: w.reference != target
  {
    if workloads == [] then None
    else if workloads[0].reference == target then Some(workloads[0])
    else
      assert workloads == [workloads[0]] + workloads[1..];
      FindWorkload(workloads[1..], target)
  }

  function FindJourney(journeys: seq<CriticalJourney>, name: string): (r: Option<CriticalJourney>)
    ensures r.Some? ==> r.value in journeys && r.value.name == name
    ensures r.None? <==> forall j <- journeys :: j.name != name
  {
    if journeys == [] then None
    else if journeys[0].name == name then Some(journeys[0])
    else
      assert journeys == [journeys[0]] + journeys[1..];
      FindJourney(journeys[1..], name)
  }

  // ---------------------------------------------------------------- signals, evidence, findings

  datatype AlertSignal =
    AlertSignal(signalId: Ident, applicationId: string, namespace: string, workloadName: string, observedAt: Time,
                windowStart: Option<Time>, windowEnd: Option<Time>, providerIncidentId: Option<string>)

  datatype AlertSignalEvidence =
    AlertSignalEvidence(notificationId: Ident, incidentId: Ident, signal: AlertSignal, providerState: ProviderState)

  datatype Incident =
    Incident(incidentId: Ident, applicationId: string, profileVersion: string, openedAt: Time,
             lifecycle: IncidentLifecycle, investigation: InvestigationOutcome, intervention: InterventionOutcome,
             version: nat)

  datatype EvidenceWindow =
    EvidenceWindow(windowId: Ident, incidentId: Ident, startedAt: Time, endedAt: Time, capturedAt: Time)

  datatype EvidenceObservation =
    EvidenceObservation(evidenceId: Ident, incidentId: Ident, query: EvidenceQueryKind, queryId: Option<Ident>,
                        windowId: Ident, observedAt: Time, scope: WorkloadReference, contentHash: string)

  datatype EvidenceRetrievalFailure = EvidenceRetrievalFailure(failureId: Ident, incidentId: Ident)

  datatype EvidenceQuery =
    EvidenceQuery(queryId: Ident, incidentId: Ident, specialist: SpecialistRole, kind: EvidenceQueryKind,
                  target: WorkloadReference, round: nat)

  datatype SpecialistFinding =
    SpecialistFinding(findingId: Ident, incidentId: Ident, specialist: SpecialistRole, citations: seq<Ident>)

  datatype ModelInvocation =
    ModelInvocation(invocationId: Ident, incidentId: Ident, role: Option<SpecialistRole>, toolCount: nat,
                    outputValid: bool)

  datatype RootCauseHypothesis =
    RootCauseHypothesis(hypothesisId: Ident, incidentId: Ident, rank: nat, citations: seq<Ident>)

  // ---------------------------------------------------------------- proposals and policy

  datatype RemediationAction =
    | RollbackDeployment(target: WorkloadReference, revision: nat)
    | ScaleDeployment(target: WorkloadReference, replicas: nat)
    | RestartDeployment(target: WorkloadReference, restartToken: string)
  {
    function ActionType(): ActionType {
      match this
      case RollbackDeployment(_, _) => RollbackType
      case ScaleDeployment(_, _) => ScaleType
      case RestartDeployment(_, _) => RestartType
    }
  }

  datatype RemediationProposal =
    RemediationProposal(proposalId: Ident, incidentId: Ident, action: RemediationAction,
                        recoveryCriteria: RecoveryCriteria, rollbackStrategy: string,
                        evidenceHash: multiset<string>)

  datatype ManualGuidance = ManualGuidance(incidentId: Ident, outcome: InvestigationOutcome)

  datatype CoordinatorOutput =
    CoordinatorOutput(outcome: InvestigationOutcome, hypotheses: seq<RootCauseHypothesis>,
                      proposal: Option<RemediationProposal>, guidance: Option<ManualGuidance>)

  predicate ValidOutput(o: CoordinatorOutput) {
    && (forall i | 0 <= i < |o.hypotheses| :: o.hypotheses[i].rank == i + 1)
    && (match o.outcome
        case NotInvestigated => false
        case ProposalReady => o.proposal.Some? && o.guidance.None?
        case NeedsMoreEvidence => o.proposal.None? && o.guidance.Some? && o.guidance.value.outcome == o.outcome
        case NoSafeAction => o.proposal.None? && o.guidance.Some? && o.guidance.value.outcome == o.outcome
        case Inconclusive => o.proposal.None? && o.guidance.None?)
    && (o.outcome != Inconclusive ==> o.hypotheses != [])
  }

  /** A Kubernetes document fragment. */
  datatype Json = Text(text: string) | Number(value: int) | Object(fields: map<string, Json>) | OtherJson

  datatype DeploymentRevision =
    DeploymentRevision(revision: nat, podTemplate: map<string, Json>, restorable: bool, implicated: bool)

  datatype DeploymentState =
    DeploymentState(target: WorkloadReference, resourceVersion: Version, generation: nat, replicas: nat,
                    revision: nat, availableRevisions: seq<DeploymentRevision>, activeIntervention: bool,
                    headroom: nat)

  datatype DeploymentPatch =
    DeploymentPatch(actionType: ActionType, target: WorkloadReference, resourceVersion: Version,
                    body: map<string, Json>)

  datatype ConvergenceResult = ConvergenceResult(status: ConvergenceStatus, observed: Option<DeploymentState>)

  predicate ValidConvergence(c: ConvergenceResult) {
    c.status != Ambiguous ==> c.observed.Some?
  }

  datatype DryRunResult = Accepted(diff: string) | Refused

  datatype PolicyCheck = PolicyCheck(code: PolicyCheckCode, passed: bool)

  /** A rejection reason is the code of the check whose message the source reports. */
  datatype PolicyDecision =
    PolicyDecision(incidentId: Ident, proposalId: Ident, status: PolicyStatus, checks: seq<PolicyCheck>,
                   evaluatedAt: Time, resourceVersion: Option<Version>, generation: Option<nat>,
                   revision: Option<nat>, patch: Option<DeploymentPatch>, dryRunDiff: Option<string>,
                   rejectionReason: Option<PolicyCheckCode>)

  predicate AllPassed(checks: seq<PolicyCheck>) {
    forall c <- checks :: c.passed
  }

  predicate ValidPolicyDecision(d: PolicyDecision) {
    && d.checks != []
    && (if d.status == PolicyPassed
        then AllPassed(d.checks) && d.patch.Some? && d.dryRunDiff.Some? && d.rejectionReason.None?
        else !AllPassed(d.checks) && d.rejectionReason.Some? && d.dryRunDiff.None?)
  }

  // ---------------------------------------------------------------- approvals and interventions

  datatype ApprovalBinding =
    ApprovalBinding(incidentVersion: nat, proposalHash: Digest, evidenceHash: Digest, resourceVersion: Version,
                    generation: nat, revision: nat, policyHash: Digest, dryRunHash: Digest, criteriaHash: Digest,
                    strategyHash: Digest, expiresAt: Time)

  datatype Approval =
    Approval(approvalId: Ident, incidentId: Ident, proposalId: Ident, responder: string, decision: ApprovalDecision,
             decidedAt: Time, expiresAt: Time, proposalHash: Digest, evidenceHash: Digest, resourceVersion: Version,
             generation: nat, revision: nat, policyHash: Digest, dryRunHash: Digest, criteriaHash: Digest,
             strategyHash: Digest)

  predicate ValidApproval(a: Approval) {
    a.decidedAt < a.expiresAt
  }

  datatype InterventionRequest =
    InterventionRequest(requestId: Ident, incidentId: Ident, proposalId: Ident, approvalId: Ident,
                        target: WorkloadReference, patch: DeploymentPatch, requestedAt: Time, key: IdempotencyKey,
                        payloadHash: PayloadHash)

  datatype Intervention =
    Intervention(interventionId: Ident, incidentId: Ident, proposalId: Ident, approvalId: Ident,
                 target: WorkloadReference, state: InterventionState, requestedAt: Time, key: IdempotencyKey)

  datatype WorkloadLease =
    WorkloadLease(target: WorkloadReference, interventionId: Ident, owner: string, token: Ident, acquiredAt: Time,
                  expiresAt: Time)

  // ---------------------------------------------------------------- recovery

  datatype RecoveryAssessment =
    RecoveryAssessment(incidentId: Ident, interventionId: Ident, startedAt: Time, endedAt: Time, observedAt: Time,
                       kubernetesConverged: bool, symptomsCleared: bool, journeyName: string,
                       criteriaSatisfied: bool, requestCount: nat, trafficSufficient: bool,
                       availabilitySatisfied: bool, latencySatisfied: bool, probeSuccesses: Option<nat>,
                       probeUsed: bool, sufficientEvidence: bool, stableWindows: nat, requiredStableWindows: nat)

  predicate AllChecksHold(a: RecoveryAssessment) {
    && a.kubernetesConverged && a.symptomsCleared && a.trafficSufficient && a.availabilitySatisfied
    && a.latencySatisfied && a.sufficientEvidence
  }

  predicate ValidAssessment(a: RecoveryAssessment) {
    && a.startedAt < a.endedAt <= a.observedAt
    && 2 <= a.requiredStableWindows
    && (a.criteriaSatisfied <==> 1 <= a.stableWindows)
    && (a.criteriaSatisfied ==> AllChecksHold(a))
    && (a.probeUsed <==> a.probeSuccesses.Some?)
  }

  // ---------------------------------------------------------------- the record

  datatype EventType =
    | RecoveryStabilized | RecoveryWindowSatisfied | RecoveryWindowFailed
    | ProviderAlertClosed | AlertSignalReceived
    | OtherEvent(name: string)

  datatype AuditEvent =
    AuditEvent(eventId: Ident, incidentId: Ident, eventType: EventType, actor: string,
               notificationId: Option<Ident>, cursor: nat)

  datatype InvestigationRecord =
    InvestigationRecord(
      incident: Incident,
      profile: ApplicationProfile,
      window: EvidenceWindow,
      alertSignals: seq<AlertSignalEvidence>,
      evidence: seq<EvidenceObservation>,
      retrievalFailures: seq<EvidenceRetrievalFailure>,
      queries: seq<EvidenceQuery>,
      findings: seq<SpecialistFinding>,
      invocations: seq<ModelInvocation>,
      hypotheses: seq<RootCauseHypothesis>,
      proposal: Option<RemediationProposal>,
      guidance: Option<ManualGuidance>,
      policy: Option<PolicyDecision>,
      approvals: seq<Approval>,
      interventions: seq<Intervention>,
      assessments: seq<RecoveryAssessment>,
      events: seq<AuditEvent>)

  predicate ValidWindow(w: EvidenceWindow) {
    w.startedAt < w.endedAt <= w.capturedAt
  }

  /** Every scoped entry targets a workload the profile declares. */
  predicate Scoped(r: InvestigationRecord) {
    var enrolled := Enrolled(r.profile);
    && (forall e <- r.evidence :: e.scope in enrolled)
    && (forall q <- r.queries :: q.target in enrolled)
    && (r.proposal.Some? ==> r.proposal.value.action.target in enrolled)
    && (forall i <- r.interventions :: i.target in enrolled)
  }

  /** Every entry names the record's own incident. */
  predicate Owned(r: InvestigationRecord) {
    var id := r.incident.incidentId;
    && r.window.incidentId == id
    && (forall x <- r.alertSignals :: x.incidentId == id)
    && (forall x <- r.evidence :: x.incidentId == id)
    && (forall x <- r.retrievalFailures :: x.incidentId == id)
    && (forall x <- r.queries :: x.incidentId == id)
    && (forall x <- r.findings :: x.incidentId == id)
    && (forall x <- r.invocations :: x.incidentId == id)
    && (forall x <- r.hypotheses :: x.incidentId == id)
    && (forall x <- r.approvals :: x.incidentId == id)
    && (forall x <- r.interventions :: x.incidentId == id)
    && (forall x <- r.assessments :: x.incidentId == id)
    && (forall x <- r.events :: x.incidentId == id)
    && (r.proposal.Some? ==> r.proposal.value.incidentId == id)
    && (r.guidance.Some? ==> r.guidance.value.incidentId == id)
  }

  predicate HasEvidence(r: InvestigationRecord, id: Ident) {
    exists e <- r.evidence :: e.evidenceId == id
  }

  predicate HasQuery(r: InvestigationRecord, id: Ident) {
    exists q <- r.queries :: q.queryId == id
  }

  /** Follow-up evidence names a recorded query; findings and hypotheses cite recorded evidence. */
  predicate Grounded(r: InvestigationRecord) {
    && (forall e <- r.evidence :: e.queryId.Some? ==> HasQuery(r, e.queryId.value))
    && (forall f <- r.findings :: forall c <- f.citations :: HasEvidence(r, c))
    && (forall h <- r.hypotheses :: forall c <- h.citations :: HasEvidence(r, c))
  }

  predicate HasApproval(r: InvestigationRecord, id: Ident) {
    exists a <- r.approvals :: a.approvalId == id
  }

  predicate HasIntervention(r: InvestigationRecord, id: Ident) {
    exists i <- r.interventions :: i.interventionId == id
  }

  predicate PolicyIsPassed(r: InvestigationRecord) {
    r.policy.Some? && r.policy.value.status == PolicyPassed
  }

  /** Each link of the authority chain references the link before it. */
  predicate Authorized(r: InvestigationRecord) {
    && !(r.proposal.Some? && r.guidance.Some?)
    && (r.policy.Some? ==>
          && r.proposal.Some?
          && r.policy.value.incidentId == r.incident.incidentId
          && r.policy.value.proposalId == r.proposal.value.proposalId)
    && (r.proposal.Some? ==> forall a <- r.approvals :: a.proposalId == r.proposal.value.proposalId)
    && (r.approvals != [] ==> PolicyIsPassed(r))
    && |r.approvals| <= 1
    && (r.proposal.None? ==> r.interventions == [])
    && (forall i <- r.interventions :: HasApproval(r, i.approvalId))
    && (r.proposal.Some? ==> forall i <- r.interventions :: i.proposalId == r.proposal.value.proposalId)
    && (forall a <- r.assessments :: HasIntervention(r, a.interventionId))
  }

  /** Validation of a parsed document re-runs the validators of the nested values too. */
  predicate NestedValid(r: InvestigationRecord) {
    && ValidProfile(r.profile)
    && ValidWindow(r.window)
    && (r.policy.Some? ==> ValidPolicyDecision(r.policy.value))
    && (forall a <- r.approvals :: ValidApproval(a))
    && (forall a <- r.assessments :: ValidAssessment(a))
  }

  predicate ValidRecord(r: InvestigationRecord) {
    && r.incident.applicationId == r.profile.applicationId
    && NestedValid(r)
    && Scoped(r)
    && Owned(r)
    && Grounded(r)
    && Authorized(r)
  }

  // ---------------------------------------------------------------- transitions

  function NextLifecycles(l: IncidentLifecycle): set<IncidentLifecycle> {
    match l
    case Open => {Investigating, Closed}
    case Investigating => {AwaitingApproval, Monitoring, Closed}
    case AwaitingApproval => {Investigating, Mitigating, Closed}
    case Mitigating => {Monitoring, Closed}
    case Monitoring => {Mitigating, Resolved, Closed}
    case Resolved => {Closed}
    case Closed => {}
  }

  function NextInvestigationOutcomes(o: InvestigationOutcome): set<InvestigationOutcome> {
    match o
    case NotInvestigated => {ProposalReady, NeedsMoreEvidence, NoSafeAction, Inconclusive}
    case NeedsMoreEvidence => {ProposalReady, NoSafeAction, Inconclusive}
    case _ => {}
  }

  function NextInterventionOutcomes(o: InterventionOutcome): set<InterventionOutcome> {
    match o
    case NotIntervened => {MonitoringOutcome, SucceededOutcome, RolledBackOutcome, FailedOutcome, SafeHaltedOutcome}
    case MonitoringOutcome => {SucceededOutcome, RolledBackOutcome, FailedOutcome, SafeHaltedOutcome}
    case _ => {}
  }

  predicate TransitionAllowed(i: Incident, l: IncidentLifecycle, o: InvestigationOutcome, v: InterventionOutcome) {
    && (l == i.lifecycle || l in NextLifecycles(i.lifecycle))
    && (o == i.investigation || o in NextInvestigationOutcomes(i.investigation))
    && (v == i.intervention || v in NextInterventionOutcomes(i.intervention))
  }

  /** A checked transition that keeps the version; the store bumps it. */
  function TransitionIncident(i: Incident, l: IncidentLifecycle, o: InvestigationOutcome, v: InterventionOutcome)
    : (r: Option<Incident>)
    ensures r.Some? <==> TransitionAllowed(i, l, o, v)
    ensures i.lifecycle == Closed && r.Some? ==> r.value.lifecycle == Closed
  {
    if TransitionAllowed(i, l, o, v)
    then Some(i.(lifecycle := l, investigation := o, intervention := v))
    else None
  }
}
