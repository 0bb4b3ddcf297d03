/** The store's step relation: every operation as a checked function of one record. */
module RecordOperations {
  import opened Wrappers
  import opened Incidents
  import opened ApprovalBindings

  datatype StoreError =
    | NoSuchIncident | ForeignEntry | OutsideWindow | NotEnrolled | UnknownQuery | AlreadyRecorded | RoleAlreadyReported
    | UncitedEvidence | InvalidRecord | AlreadyCompleted | InvalidTransition | NoProposal | WrongProposal
    | StaleVersion | AlreadyDecided | ReviewExpired | StaleReview | NotRunning | NotApproved | AlreadyClaimed
    | ActiveIntervention | NotClaimed | CompletedIsImmutable | OnlyStateMayChange | UpdateNotTerminal
    | NotMonitoring | NotSuccessful | ChangedRequirement | ChangedJourney | InconsistentTraffic | FailedCheck
    | WrongWindowLength | OverlappingWindow | WrongProgress | WrongEventType | WrongApplication | WrongProfileVersion

  type Update = Result<InvestigationRecord, StoreError>

  /** One store operation with its arguments; `now` is the wall clock the store itself reads. */
  datatype StoreOp =
    | AppendEvidence(evidence: EvidenceObservation)
    | AppendAlertSignal(signal: AlertSignalEvidence)
    | AppendRetrievalFailure(failure: EvidenceRetrievalFailure)
    | AppendQuery(query: EvidenceQuery)
    | AppendFinding(finding: SpecialistFinding)
    | AppendInvocation(invocation: ModelInvocation)
    | CompleteInvestigation(output: CoordinatorOutput)
    | RecordPolicyDecision(policy: PolicyDecision)
    | RecordApproval(expectedVersion: nat, approval: Approval, event: AuditEvent, now: Time)
    | RecordIntervention(expectedVersion: nat, intervention: Intervention, event: AuditEvent)
    | UpdateIntervention(updated: Intervention, event: AuditEvent)
    | RecordAssessment(expectedVersion: nat, assessment: RecoveryAssessment, event: AuditEvent)
    | AppendEvent(event: AuditEvent)
    | CompareAndSet(expectedVersion: nat, replacement: Incident)

  /** Arguments are values that their own validators accepted when they were built. */
  predicate ValidArguments(op: StoreOp) {
    match op
    case CompleteInvestigation(output) => ValidOutput(output)
    case RecordPolicyDecision(policy) => ValidPolicyDecision(policy)
    case RecordApproval(_, approval, _, _) => ValidApproval(approval)
    case RecordAssessment(_, assessment, _) => ValidAssessment(assessment)
    case _ => true
  }

  // ---------------------------------------------------------------- shared pieces

  function Revalidate(r: InvestigationRecord): Update {
    if ValidRecord(r) then Success(r) else Failure(InvalidRecord)
  }

  function NextCursor(events: seq<AuditEvent>): nat {
    if events == [] then 1 else events[|events| - 1].cursor + 1
  }

  function Stamped(r: InvestigationRecord, event: AuditEvent): seq<AuditEvent> {
    r.events + [event.(cursor := NextCursor(r.events))]
  }

  predicate HasEvent(r: InvestigationRecord, id: Ident) {
    exists e <- r.events :: e.eventId == id
  }

  function Bumped(i: Incident): Incident {
    i.(version := i.version + 1)
  }

  function FindApproval(approvals: seq<Approval>, id: Ident): (r: Option<Approval>)
    ensures r.Some? ==> r.value in approvals && r.value.approvalId == id
    ensures r.None? <==> forall a <- approvals :: a.approvalId != id
  {
    if approvals == [] then None
    else if approvals[0].approvalId == id then Some(approvals[0])
    else
      assert approvals == [approvals[0]] + approvals[1..];
      FindApproval(approvals[1..], id)
  }

  function FindIntervention(interventions: seq<Intervention>, id: Ident): (r: Option<Intervention>)
    ensures r.Some? ==> r.value in interventions && r.value.interventionId == id
    ensures r.None? <==> forall i <- interventions :: i.interventionId != id
  {
    if interventions == [] then None
    else if interventions[0].interventionId == id then Some(interventions[0])
    else
      assert interventions == [interventions[0]] + interventions[1..];
      FindIntervention(interventions[1..], id)
  }

  function FindByKey(interventions: seq<Intervention>, key: IdempotencyKey): (r: Option<Intervention>)
    ensures r.Some? ==> r.value in interventions && r.value.key == key
    ensures r.None? <==> forall i <- interventions :: i.key != key
  {
    if interventions == [] then None
    else if interventions[0].key == key then Some(interventions[0])
    else
      assert interventions == [interventions[0]] + interventions[1..];
      FindByKey(interventions[1..], key)
  }

  // ---------------------------------------------------------------- appends

  function ApplyEvidence(r: InvestigationRecord, e: EvidenceObservation): Update {
    if e.incidentId != r.incident.incidentId then Failure(ForeignEntry)
    else if e.windowId != r.window.windowId then Failure(ForeignEntry)
    else if !(r.window.startedAt <= e.observedAt <= r.window.endedAt) then Failure(OutsideWindow)
    else if e.scope !in Enrolled(r.profile) then Failure(NotEnrolled)
    else if e.queryId.Some? && !HasQuery(r, e.queryId.value) then Failure(UnknownQuery)
    else if HasEvidence(r, e.evidenceId) then Failure(AlreadyRecorded)
    else Success(r.(evidence := r.evidence + [e]))
  }

  function ApplyAlertSignal(r: InvestigationRecord, s: AlertSignalEvidence): Update {
    if s.incidentId != r.incident.incidentId then Failure(ForeignEntry)
    else if s.signal.applicationId != r.incident.applicationId then Failure(ForeignEntry)
    else if exists x <- r.alertSignals :: x.notificationId == s.notificationId then Failure(AlreadyRecorded)
    else Success(r.(alertSignals := r.alertSignals + [s]))
  }

  function ApplyRetrievalFailure(r: InvestigationRecord, f: EvidenceRetrievalFailure): Update {
    if f.incidentId != r.incident.incidentId then Failure(ForeignEntry)
    else if exists x <- r.retrievalFailures :: x.failureId == f.failureId then Failure(AlreadyRecorded)
    else Success(r.(retrievalFailures := r.retrievalFailures + [f]))
  }

  function ApplyQuery(r: InvestigationRecord, q: EvidenceQuery): Update {
    if q.incidentId != r.incident.incidentId then Failure(ForeignEntry)
    else if q.target !in Enrolled(r.profile) then Failure(NotEnrolled)
    else if HasQuery(r, q.queryId) then Failure(AlreadyRecorded)
    else Success(r.(queries := r.queries + [q]))
  }

  function ApplyFinding(r: InvestigationRecord, f: SpecialistFinding): Update {
    if f.incidentId != r.incident.incidentId then Failure(ForeignEntry)
    else if exists x <- r.findings :: x.findingId == f.findingId then Failure(AlreadyRecorded)
    else if exists x <- r.findings :: x.specialist == f.specialist then Failure(RoleAlreadyReported)
    else if exists c <- f.citations :: !HasEvidence(r, c) then Failure(UncitedEvidence)
    else Revalidate(r.(findings := r.findings + [f]))
  }

  function ApplyInvocation(r: InvestigationRecord, m: ModelInvocation): Update {
    if m.incidentId != r.incident.incidentId then Failure(ForeignEntry)
    else if exists x <- r.invocations :: x.invocationId == m.invocationId then Failure(AlreadyRecorded)
    else Revalidate(r.(invocations := r.invocations + [m]))
  }

  function ApplyEvent(r: InvestigationRecord, e: AuditEvent): Update {
    if e.incidentId != r.incident.incidentId then Failure(ForeignEntry)
    else if HasEvent(r, e.eventId) then Failure(AlreadyRecorded)
    else Success(r.(events := Stamped(r, e)))
  }

  // ---------------------------------------------------------------- the authority chain

  function ApplyCompletion(r: InvestigationRecord, o: CoordinatorOutput): Update {
    if r.incident.investigation != NotInvestigated then Failure(AlreadyCompleted)
    else if exists h <- o.hypotheses :: h.incidentId != r.incident.incidentId then Failure(ForeignEntry)
    else
      var next := TransitionIncident(r.incident, Investigating, o.outcome, r.incident.intervention);
      if next.None? then Failure(InvalidTransition)
      else Revalidate(r.(incident := Bumped(next.value), hypotheses := o.hypotheses, proposal := o.proposal,
                         guidance := o.guidance))
  }

  function ApplyPolicy(r: InvestigationRecord, d: PolicyDecision): Update {
    if r.proposal.None? then Failure(NoProposal)
    else if r.policy.Some? then Failure(AlreadyRecorded)
    else if d.incidentId != r.incident.incidentId then Failure(ForeignEntry)
    else if d.proposalId != r.proposal.value.proposalId then Failure(WrongProposal)
    else if d.status != PolicyPassed then Revalidate(r.(policy := Some(d)))
    else
      var next := TransitionIncident(r.incident, AwaitingApproval, r.incident.investigation, r.incident.intervention);
      if next.None? then Failure(InvalidTransition)
      else Revalidate(r.(incident := Bumped(next.value), policy := Some(d)))
  }

  function ApplyApproval(r: InvestigationRecord, version: nat, a: Approval, e: AuditEvent, now: Time): Update {
    if r.incident.version != version then Failure(StaleVersion)
    else if r.approvals != [] then Failure(AlreadyDecided)
    else if a.incidentId != r.incident.incidentId || e.incidentId != r.incident.incidentId then Failure(ForeignEntry)
    else if a.expiresAt <= now then Failure(ReviewExpired)
    else if !ApprovalMatchesRecord(r, a) then Failure(StaleReview)
    else Revalidate(r.(incident := Bumped(r.incident), approvals := [a], events := Stamped(r, e)))
  }

  function ApplyClaim(r: InvestigationRecord, version: nat, i: Intervention, e: AuditEvent): Update {
    if r.incident.version != version then Failure(StaleVersion)
    else if i.incidentId != r.incident.incidentId || e.incidentId != r.incident.incidentId then Failure(ForeignEntry)
    else if i.state != Running then Failure(NotRunning)
    else
      var approval := FindApproval(r.approvals, i.approvalId);
      if approval.None? || approval.value.decision != Approved then Failure(NotApproved)
      else if exists x <- r.interventions :: x.key == i.key then Failure(AlreadyClaimed)
      else if exists x <- r.interventions :: x.state == Running then Failure(ActiveIntervention)
      else
        var next := TransitionIncident(r.incident, Mitigating, r.incident.investigation, r.incident.intervention);
        if next.None? then Failure(InvalidTransition)
        else Revalidate(r.(incident := Bumped(next.value), interventions := r.interventions + [i],
                           events := Stamped(r, e)))
  }

  function ReplaceIntervention(items: seq<Intervention>, i: Intervention): (r: seq<Intervention>)
    ensures |r| == |items|
    ensures forall k | 0 <= k < |items| :: r[k] == if items[k].interventionId == i.interventionId then i else items[k]
  {
    seq(|items|, k requires 0 <= k < |items| => if items[k].interventionId == i.interventionId then i else items[k])
  }

  function OutcomeAfter(s: InterventionState, current: InterventionOutcome): InterventionOutcome {
    match s
    case Succeeded => MonitoringOutcome
    case RolledBack => RolledBackOutcome
    case Failed => FailedOutcome
    case SafeHalted => SafeHaltedOutcome
    case _ => current
  }

  function ApplyOutcome(r: InvestigationRecord, i: Intervention, e: AuditEvent): Update {
    var current := FindIntervention(r.interventions, i.interventionId);
    if current.None? then Failure(NotClaimed)
    else if e.incidentId != r.incident.incidentId then Failure(ForeignEntry)
    else if HasEvent(r, e.eventId) then Failure(AlreadyRecorded)
    else if current.value.state != Running then Failure(CompletedIsImmutable)
    else if i.(state := current.value.state) != current.value then Failure(OnlyStateMayChange)
    else if i.state == Running then Failure(UpdateNotTerminal)
    else
      var lifecycle := if i.state == Succeeded then Monitoring else r.incident.lifecycle;
      var outcome := OutcomeAfter(i.state, r.incident.intervention);
      var next := TransitionIncident(r.incident, lifecycle, r.incident.investigation, outcome);
      if next.None? then Failure(InvalidTransition)
      else Revalidate(r.(incident := Bumped(next.value), interventions := ReplaceIntervention(r.interventions, i),
                         events := Stamped(r, e)))
  }

  // ---------------------------------------------------------------- recovery

  /** The assessments recorded for one Intervention, in order. */
  function AssessmentsOf(items: seq<RecoveryAssessment>, id: Ident): (r: seq<RecoveryAssessment>)
    ensures forall a <- r :: a in items && a.interventionId == id
  {
    if items == [] then []
    else
      var last := items[|items| - 1];
      var rest := AssessmentsOf(items[..|items| - 1], id);
      if last.interventionId == id then rest + [last] else rest
  }

  /** Stabilization progress of a window that follows `previous`. */
  function ExpectedProgress(previous: seq<RecoveryAssessment>, satisfied: bool, startedAt: Time): nat {
    if !satisfied then 0
    else if previous != []
            && previous[|previous| - 1].criteriaSatisfied
            && previous[|previous| - 1].endedAt == startedAt
    then previous[|previous| - 1].stableWindows + 1
    else 1
  }

  function ExpectedEvent(satisfied: bool, stabilized: bool): EventType {
    if !satisfied then RecoveryWindowFailed
    else if stabilized then RecoveryStabilized
    else RecoveryWindowSatisfied
  }

  function ApplyAssessment(r: InvestigationRecord, version: nat, a: RecoveryAssessment, e: AuditEvent): Update {
    var criteria := r.profile.recoveryCriteria;
    var intervention := FindIntervention(r.interventions, a.interventionId);
    var journey := FindJourney(r.profile.journeys, criteria.journeyName);
    var previous := AssessmentsOf(r.assessments, a.interventionId);
    var stabilized := criteria.requiredStableWindows <= a.stableWindows;
    if r.incident.version != version then Failure(StaleVersion)
    else if r.incident.lifecycle != Monitoring then Failure(NotMonitoring)
    else if a.incidentId != r.incident.incidentId || e.incidentId != r.incident.incidentId then Failure(ForeignEntry)
    else if intervention.None? || intervention.value.state != Succeeded then Failure(NotSuccessful)
    else if a.requiredStableWindows != criteria.requiredStableWindows then Failure(ChangedRequirement)
    else if journey.None? || a.journeyName != journey.value.name then Failure(ChangedJourney)
    else if a.trafficSufficient != (journey.value.minimumRequestCount <= a.requestCount)
    then Failure(InconsistentTraffic)
    else if a.criteriaSatisfied && !AllChecksHold(a) then Failure(FailedCheck)
    else if a.endedAt - a.startedAt != criteria.windowSeconds then Failure(WrongWindowLength)
    else if previous != [] && a.startedAt < previous[|previous| - 1].endedAt then Failure(OverlappingWindow)
    else if a.stableWindows != ExpectedProgress(previous, a.criteriaSatisfied, a.startedAt) then Failure(WrongProgress)
    else if e.eventType != ExpectedEvent(a.criteriaSatisfied, stabilized) then Failure(WrongEventType)
    else if HasEvent(r, e.eventId) then Failure(AlreadyRecorded)
    else
      var next := if stabilized
                  then TransitionIncident(r.incident, Resolved, r.incident.investigation, SucceededOutcome)
                  else Some(r.incident);
      if next.None? then Failure(InvalidTransition)
      else Revalidate(r.(incident := Bumped(next.value), assessments := r.assessments + [a], events := Stamped(r, e)))
  }

  // ---------------------------------------------------------------- compare and set

  function ApplyCompareAndSet(r: InvestigationRecord, version: nat, replacement: Incident): Update {
    if r.incident.version != version then Failure(StaleVersion)
    else if replacement.incidentId != r.incident.incidentId then Failure(ForeignEntry)
    else if replacement.version != version then Failure(StaleVersion)
    else if replacement.applicationId != r.incident.applicationId then Failure(WrongApplication)
    else if replacement.profileVersion != r.incident.profileVersion then Failure(WrongProfileVersion)
    else Revalidate(r.(incident := replacement.(version := version + 1)))
  }

  function Apply(r: InvestigationRecord, op: StoreOp): Update {
    match op
    case AppendEvidence(evidence) => ApplyEvidence(r, evidence)
    case AppendAlertSignal(signal) => ApplyAlertSignal(r, signal)
    case AppendRetrievalFailure(failure) => ApplyRetrievalFailure(r, failure)
    case AppendQuery(query) => ApplyQuery(r, query)
    case AppendFinding(finding) => ApplyFinding(r, finding)
    case AppendInvocation(invocation) => ApplyInvocation(r, invocation)
    case CompleteInvestigation(output) => ApplyCompletion(r, output)
    case RecordPolicyDecision(policy) => ApplyPolicy(r, policy)
    case RecordApproval(version, approval, event, now) => ApplyApproval(r, version, approval, event, now)
    case RecordIntervention(version, intervention, event) => ApplyClaim(r, version, intervention, event)
    case UpdateIntervention(intervention, event) => ApplyOutcome(r, intervention, event)
    case RecordAssessment(version, assessment, event) => ApplyAssessment(r, version, assessment, event)
    case AppendEvent(event) => ApplyEvent(r, event)
    case CompareAndSet(version, replacement) => ApplyCompareAndSet(r, version, replacement)
  }
}
