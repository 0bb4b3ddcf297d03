/** One recovery window: what the verifier computes is what the store accepts. */
module RecoveryVerifier {
  import opened Wrappers
  import opened Incidents
  import opened RecordOperations
  import opened RecordInvariants
  import opened Stabilization
  import opened RecordRuns
  import opened IncidentStores
  import opened ProtocolInvariants
  import opened Hosts

  // ---------------------------------------------------------------- observations

  datatype DeploymentObservation =
    DeploymentObservation(target: WorkloadReference, generation: nat, observedGeneration: nat, activeRevision: nat,
                          desired: nat, updated: nat, available: nat, unavailable: nat, oomTerminations: nat,
                          restartDelta: nat)

  datatype JourneyObservation =
    JourneyObservation(journeyName: string, requestCount: nat, successRate: Option<real>, p95Latency: Option<nat>,
                       baselineSuccessRate: real, baselineLatency: nat)

  datatype RecoveryObservation = RecoveryObservation(deployment: DeploymentObservation, journey: JourneyObservation)

  datatype ProbeObservation = ProbeObservation(probeName: string, attempts: nat, successes: nat)

  datatype VerificationError =
    | NoSuchIncidentError | NotMonitoringError | NoSuccessfulIntervention | NoRecordedProposal | NoRecordedApproval
    | UndeclaredJourney | OverlappingEvidence | NoObservation | EscapedWorkload | EscapedJourney | NoProbeResult
    | ChangedProbe | RefusedByStore(error: StoreError)

  // ---------------------------------------------------------------- the assessment

  function LastSucceeded(items: seq<Intervention>): (r: Option<Intervention>)
    ensures r.Some? ==> r.value in items && r.value.state == Succeeded
    ensures r.None? <==> forall i <- items :: i.state != Succeeded
  {
    if items == [] then None
    else if items[|items| - 1].state == Succeeded then Some(items[|items| - 1])
    else
      assert items == items[..|items| - 1] + [items[|items| - 1]];
      LastSucceeded(items[..|items| - 1])
  }

  predicate ActionReached(action: RemediationAction, a: Approval, d: DeploymentObservation) {
    match action
    case RollbackDeployment(_, revision) => d.activeRevision == revision
    case ScaleDeployment(_, replicas) => d.activeRevision == a.revision && d.desired == replicas
    case RestartDeployment(_, _) => a.revision < d.activeRevision
  }

  predicate DeploymentReached(action: RemediationAction, a: Approval, d: DeploymentObservation) {
    && a.generation < d.generation && d.observedGeneration == d.generation
    && ActionReached(action, a, d)
    && d.updated == d.desired && d.available == d.desired && d.unavailable == 0
  }

  predicate SymptomsCleared(d: DeploymentObservation) {
    d.oomTerminations == 0 && d.restartDelta == 0
  }

  predicate RateHolds(j: CriticalJourney, m: JourneyObservation) {
    m.successRate.Some? && j.successRateMinimum <= m.successRate.value && m.baselineSuccessRate <= m.successRate.value
  }

  predicate LatencyHolds(j: CriticalJourney, m: JourneyObservation) {
    m.p95Latency.Some? && m.p95Latency.value <= j.latencyMaximum && m.p95Latency.value <= m.baselineLatency
  }

  /** Probes are run only when traffic is short and the profile declares the fallback and a probe. */
  predicate WantsProbe(c: RecoveryCriteria, j: CriticalJourney, m: JourneyObservation) {
    m.requestCount < j.minimumRequestCount && c.syntheticFallback && j.syntheticProbe.Some?
  }

  predicate ProbeMatches(p: SyntheticProbe, o: ProbeObservation) {
    o.probeName == p.name && o.attempts == p.repetitions
  }

  function Assessed(r: InvestigationRecord, i: Intervention, a: Approval, j: CriticalJourney, o: RecoveryObservation,
                    probe: Option<ProbeObservation>, endedAt: Time): RecoveryAssessment
    requires r.proposal.Some?
  {
    var c := r.profile.recoveryCriteria;
    var startedAt := endedAt - c.windowSeconds;
    var previous := AssessmentsOf(r.assessments, i.interventionId);
    var converged := DeploymentReached(r.proposal.value.action, a, o.deployment);
    var cleared := SymptomsCleared(o.deployment);
    var traffic := j.minimumRequestCount <= o.journey.requestCount;
    var availability := if traffic then RateHolds(j, o.journey)
                        else probe.Some? && probe.value.successes == probe.value.attempts;
    var latency := traffic && LatencyHolds(j, o.journey);
    var sufficient := traffic && o.journey.successRate.Some? && o.journey.p95Latency.Some?;
    var satisfied := converged && cleared && traffic && availability && latency && sufficient;
    RecoveryAssessment(r.incident.incidentId, i.interventionId, startedAt, endedAt, endedAt, converged, cleared, j.name,
                       satisfied, o.journey.requestCount, traffic, availability, latency,
                       if probe.Some? then Some(probe.value.successes) else None, probe.Some?, sufficient,
                       ExpectedProgress(previous, satisfied, startedAt), c.requiredStableWindows)
  }

  /** What the verifier does with a record, given what the evidence provider and the probe runner would answer. */
  function Verification(r: InvestigationRecord, observation: Option<RecoveryObservation>,
                        probe: Option<ProbeObservation>, endedAt: Time): Result<RecoveryAssessment, VerificationError>
  {
    var c := r.profile.recoveryCriteria;
    var intervention := LastSucceeded(r.interventions);
    var journey := FindJourney(r.profile.journeys, c.journeyName);
    if r.incident.lifecycle != Monitoring then Failure(NotMonitoringError)
    else if intervention.None? then Failure(NoSuccessfulIntervention)
    else if r.proposal.None? then Failure(NoRecordedProposal)
    else
      var i := intervention.value;
      var approval := FindApproval(r.approvals, i.approvalId);
      var previous := AssessmentsOf(r.assessments, i.interventionId);
      if approval.None? then Failure(NoRecordedApproval)
      else if journey.None? then Failure(UndeclaredJourney)
      else if previous != [] && endedAt - c.windowSeconds < previous[|previous| - 1].endedAt
      then Failure(OverlappingEvidence)
      else if observation.None? then Failure(NoObservation)
      else if observation.value.deployment.target != i.target then Failure(EscapedWorkload)
      else if observation.value.journey.journeyName != journey.value.name then Failure(EscapedJourney)
      else if !WantsProbe(c, journey.value, observation.value.journey)
      then Success(Assessed(r, i, approval.value, journey.value, observation.value, None, endedAt))
      else if probe.None? then Failure(NoProbeResult)
      else if !ProbeMatches(journey.value.syntheticProbe.value, probe.value) then Failure(ChangedProbe)
      else Success(Assessed(r, i, approval.value, journey.value, observation.value, probe, endedAt))
  }

  function EventTypeOf(a: RecoveryAssessment): EventType {
    ExpectedEvent(a.criteriaSatisfied, a.requiredStableWindows <= a.stableWindows)
  }

  // ---------------------------------------------------------------- equal versions, equal authority

  /** Decisions, Interventions and assessments change only together with the version. */
  predicate SameAuthority(a: InvestigationRecord, b: InvestigationRecord) {
    a.approvals == b.approvals && a.interventions == b.interventions && a.assessments == b.assessments
  }

  lemma VersionGuardsAuthority(r: InvestigationRecord, op: StoreOp)
    requires Apply(r, op).Success?
    ensures r.incident.version <= Apply(r, op).value.incident.version
    ensures Apply(r, op).value.incident.version == r.incident.version ==> SameAuthority(r, Apply(r, op).value)
  {
    hide ValidRecord, AssessmentsOf, ExpectedProgress, Stamped, ReplaceIntervention;
  }

  lemma {:induction false} EqualVersionsEqualAuthority(initial: InvestigationRecord, ops: seq<StoreOp>, i: nat, j: nat)
    requires i <= j < |Replay(initial, ops)|
    ensures Replay(initial, ops)[i].incident.version <= Replay(initial, ops)[j].incident.version
    ensures Replay(initial, ops)[i].incident.version == Replay(initial, ops)[j].incident.version ==>
              SameAuthority(Replay(initial, ops)[i], Replay(initial, ops)[j])
  {
    hide Apply, SameAuthority;
    if ops == [] {
      assert SameAuthority(initial, initial) by {
        Reflexive(initial);
      }
    } else {
      var before, op := ops[..|ops| - 1], ops[|ops| - 1];
      var history := Replay(initial, before);
      if j < |history| {
        EqualVersionsEqualAuthority(initial, before, i, j);
      } else if i == j {
        Reflexive(Replay(initial, ops)[j]);
      } else {
        EqualVersionsEqualAuthority(initial, before, i, j - 1);
        VersionGuardsAuthority(history[j - 1], op);
        SameTransitive(history[i], history[j - 1], Replay(initial, ops)[j]);
      }
    }
  }

  lemma Reflexive(r: InvestigationRecord)
    ensures SameAuthority(r, r)
  {
  }

  lemma SameTransitive(a: InvestigationRecord, b: InvestigationRecord, c: InvestigationRecord)
    ensures SameAuthority(a, b) && SameAuthority(b, c) ==> SameAuthority(a, c)
  {
  }

  // ---------------------------------------------------------------- verifier and store agree

  lemma AssessedIsValid(r: InvestigationRecord, observation: Option<RecoveryObservation>,
                        probe: Option<ProbeObservation>, endedAt: Time)
    requires ValidProfile(r.profile) && Verification(r, observation, probe, endedAt).Success?
    requires forall a <- r.assessments :: a.criteriaSatisfied <==> 1 <= a.stableWindows
    ensures var a := Verification(r, observation, probe, endedAt).value;
            && ValidAssessment(a) && (a.criteriaSatisfied ==> AllChecksHold(a))
            && (1 <= a.stableWindows <==> a.criteriaSatisfied)
  {
  }

  lemma WithAssessmentValid(r: InvestigationRecord, a: RecoveryAssessment, e: AuditEvent, header: Incident)
    requires ValidRecord(r) && ValidAssessment(a) && HasIntervention(r, a.interventionId)
    requires a.incidentId == r.incident.incidentId && e.incidentId == r.incident.incidentId
    requires header.incidentId == r.incident.incidentId && header.applicationId == r.incident.applicationId
    ensures ValidRecord(r.(incident := Bumped(header), assessments := r.assessments + [a], events := Stamped(r, e)))
  {
    hide ValidProfile, ValidPolicyDecision, ValidApproval, ValidAssessment, Enrolled, ValidWindow, NextCursor;
    var s := r.(incident := Bumped(header), assessments := r.assessments + [a], events := Stamped(r, e));
    assert Grounded(s) by {
      assert forall id :: HasQuery(r, id) == HasQuery(s, id);
      assert forall id :: HasEvidence(r, id) == HasEvidence(s, id);
    }
    assert Authorized(s) by {
      hide Scoped, Owned, NestedValid, HasQuery, HasEvidence;
      assert PolicyIsPassed(r) == PolicyIsPassed(s);
      assert forall id :: HasApproval(r, id) == HasApproval(s, id);
      assert forall id :: HasIntervention(r, id) == HasIntervention(s, id);
    }
  }

  /** Everything about an assessment that the store re-checks against the record. */
  predicate AcceptableTo(r: InvestigationRecord, a: RecoveryAssessment) {
    var c := r.profile.recoveryCriteria;
    var found := FindIntervention(r.interventions, a.interventionId);
    var journey := FindJourney(r.profile.journeys, c.journeyName);
    var previous := AssessmentsOf(r.assessments, a.interventionId);
    && r.incident.lifecycle == Monitoring
    && a.incidentId == r.incident.incidentId
    && found.Some? && found.value.state == Succeeded
    && a.requiredStableWindows == c.requiredStableWindows
    && journey.Some? && a.journeyName == journey.value.name
    && a.trafficSufficient == (journey.value.minimumRequestCount <= a.requestCount)
    && (a.criteriaSatisfied ==> AllChecksHold(a))
    && a.endedAt - a.startedAt == c.windowSeconds
    && (previous != [] ==> previous[|previous| - 1].endedAt <= a.startedAt)
    && a.stableWindows == ExpectedProgress(previous, a.criteriaSatisfied, a.startedAt)
  }

  lemma VerifiedIsAcceptable(r: InvestigationRecord, observation: Option<RecoveryObservation>,
                             probe: Option<ProbeObservation>, endedAt: Time)
    requires Verification(r, observation, probe, endedAt).Success? && |r.interventions| <= 1
    ensures AcceptableTo(r, Verification(r, observation, probe, endedAt).value)
    ensures HasIntervention(r, Verification(r, observation, probe, endedAt).value.interventionId)
  {
    hide AssessmentsOf, ExpectedProgress, RateHolds, LatencyHolds, DeploymentReached, SymptomsCleared, ProbeMatches;
    var i := LastSucceeded(r.interventions).value;
    assert r.interventions == [i];
    assert FindIntervention([i], i.interventionId) == Some(i);
  }

  lemma AcceptableLater(seen: InvestigationRecord, r: InvestigationRecord, a: RecoveryAssessment)
    requires Extends(seen, r) && SameAuthority(seen, r) && seen.incident.version == r.incident.version
    requires AcceptableTo(seen, a) && HasIntervention(seen, a.interventionId)
    ensures AcceptableTo(r, a) && HasIntervention(r, a.interventionId) && seen.incident == r.incident
  {
    hide AssessmentsOf, ExpectedProgress, FindJourney, FindIntervention, AllChecksHold;
  }

  lemma AcceptableIsAccepted(r: InvestigationRecord, a: RecoveryAssessment, e: AuditEvent)
    requires AcceptableTo(r, a) && ValidRecord(r) && ValidAssessment(a) && HasIntervention(r, a.interventionId)
    requires r.incident.intervention == MonitoringOutcome
    requires e.incidentId == r.incident.incidentId && !HasEvent(r, e.eventId) && e.eventType == EventTypeOf(a)
    ensures ApplyAssessment(r, r.incident.version, a, e).Success?
  {
    hide ValidRecord, AssessmentsOf, ExpectedProgress, FindJourney, FindIntervention, AllChecksHold, ValidAssessment;
    hide Stamped, HasEvent, HasIntervention;
    WithAssessmentValid(r, a, e, r.incident);
    WithAssessmentValid(r, a, e, r.incident.(lifecycle := Resolved, intervention := SucceededOutcome));
  }

  /** What the store re-checks still holds, given that only appends happened since the verifier's read. */
  lemma StoreAccepts(seen: InvestigationRecord, r: InvestigationRecord, observation: Option<RecoveryObservation>,
                     probe: Option<ProbeObservation>, endedAt: Time, e: AuditEvent)
    requires RecordInvariant(seen) && RecordInvariant(r) && Extends(seen, r) && SameAuthority(seen, r)
    requires seen.incident.version == r.incident.version
    requires Verification(seen, observation, probe, endedAt).Success?
    requires e.incidentId == r.incident.incidentId && !HasEvent(r, e.eventId)
    requires e.eventType == EventTypeOf(Verification(seen, observation, probe, endedAt).value)
    ensures var a := Verification(seen, observation, probe, endedAt).value;
            ValidAssessment(a) && Apply(r, RecordAssessment(seen.incident.version, a, e)).Success?
  {
    hide RecordInvariant, Extends, Verification, ValidRecord, AcceptableTo, SameAuthority, HasIntervention, HasEvent;
    hide ValidAssessment, EventTypeOf, ApplyAssessment, ValidProfile;
    var a := Verification(seen, observation, probe, endedAt).value;
    ValidParts(seen);
    ValidParts(r);
    AssessedIsValid(seen, observation, probe, endedAt);
    VerifiedIsAcceptable(seen, observation, probe, endedAt);
    AcceptableLater(seen, r, a);
    MonitoringMeansMonitoring(r, a);
    AcceptableIsAccepted(r, a, e);
  }

  lemma MonitoringMeansMonitoring(r: InvestigationRecord, a: RecoveryAssessment)
    requires RecordInvariant(r) && AcceptableTo(r, a)
    ensures r.incident.intervention == MonitoringOutcome
  {
    hide AssessmentsOf, ExpectedProgress, FindJourney, FindIntervention, ValidRecord;
    CoupledRecordsAgree(r);
  }

  lemma ValidParts(r: InvestigationRecord)
    requires RecordInvariant(r)
    ensures ValidRecord(r) && ValidProfile(r.profile) && |r.interventions| <= 1
    ensures forall a <- r.assessments :: a.criteriaSatisfied <==> 1 <= a.stableWindows
  {
    AssessmentsAreValid(r);
  }

  /** In every run: if the version has not moved since the verifier's read, the store accepts what it computed. */
  lemma VerifierAndStoreAgree(initial: InvestigationRecord, ops: seq<StoreOp>, i: nat, j: nat,
                              observation: Option<RecoveryObservation>, probe: Option<ProbeObservation>,
                              endedAt: Time, e: AuditEvent)
    requires RecordInvariant(initial) && AdmissibleRun(initial, ops) && i <= j < |Replay(initial, ops)|
    requires Replay(initial, ops)[i].incident.version == Replay(initial, ops)[j].incident.version
    requires Verification(Replay(initial, ops)[i], observation, probe, endedAt).Success?
    requires e.incidentId == Replay(initial, ops)[j].incident.incidentId
    requires !HasEvent(Replay(initial, ops)[j], e.eventId)
    requires e.eventType == EventTypeOf(Verification(Replay(initial, ops)[i], observation, probe, endedAt).value)
    ensures var a := Verification(Replay(initial, ops)[i], observation, probe, endedAt).value;
            && ValidAssessment(a)
            && Apply(Replay(initial, ops)[j],
                     RecordAssessment(Replay(initial, ops)[i].incident.version, a, e)).Success?
  {
    hide Apply, Verification, RecordInvariant, Extends, SameAuthority, HasEvent, ValidAssessment;
    RunKeepsHistory(initial, ops);
    EqualVersionsEqualAuthority(initial, ops, i, j);
    var history := Replay(initial, ops);
    assert Extends(history[i], history[j]) && RecordInvariant(history[i]) && RecordInvariant(history[j]);
    StoreAccepts(history[i], history[j], observation, probe, endedAt, e);
  }

  // ---------------------------------------------------------------- the verdict in the observer's terms

  /** The critical journey of the recovery criteria. */
  predicate Declared(r: InvestigationRecord, j: CriticalJourney) {
    j in r.profile.journeys && j.name == r.profile.recoveryCriteria.journeyName
  }

  /** A probe runs exactly when traffic is short and the profile declares both the fallback and a probe. */
  predicate Probes(r: InvestigationRecord, j: CriticalJourney, o: RecoveryObservation) {
    && o.journey.requestCount < j.minimumRequestCount && r.profile.recoveryCriteria.syntheticFallback
    && j.syntheticProbe.Some?
  }

  /** The evidence is about the approved workload and the declared journey, and a probe is the declared one. */
  predicate InScope(r: InvestigationRecord, j: CriticalJourney, o: RecoveryObservation,
                    probe: Option<ProbeObservation>)
    requires r.interventions != []
  {
    && o.deployment.target == r.interventions[0].target && o.journey.journeyName == j.name
    && (Probes(r, j, o) ==>
          && probe.Some? && probe.value.probeName == j.syntheticProbe.value.name
          && probe.value.attempts == j.syntheticProbe.value.repetitions)
  }

  /** The window that ends now does not reach back into recorded evidence. */
  predicate StartsAfterLast(r: InvestigationRecord, endedAt: Time) {
    r.assessments == []
    || r.assessments[|r.assessments| - 1].endedAt <= endedAt - r.profile.recoveryCriteria.windowSeconds
  }

  /** A window can be verified: a monitoring Incident, fresh time, and evidence in scope. */
  predicate Verifiable(r: InvestigationRecord, j: CriticalJourney, observation: Option<RecoveryObservation>,
                       probe: Option<ProbeObservation>, endedAt: Time)
  {
    && r.incident.lifecycle == Monitoring && StartsAfterLast(r, endedAt) && observation.Some?
    && r.interventions != [] && InScope(r, j, observation.value, probe)
  }

  /** The deployment has settled on the approved action, after the version the approval saw. */
  predicate Settled(action: RemediationAction, approval: Approval, d: DeploymentObservation) {
    && approval.generation < d.generation == d.observedGeneration
    && d.desired == d.updated == d.available && d.unavailable == 0
    && (match action
        case RollbackDeployment(_, revision) => d.activeRevision == revision
        case ScaleDeployment(_, replicas) => d.desired == replicas && d.activeRevision == approval.revision
        case RestartDeployment(_, _) => approval.revision < d.activeRevision)
  }

  /** Every recorded check, satisfied or not, says what was observed. */
  predicate Reports(r: InvestigationRecord, j: CriticalJourney, o: RecoveryObservation, probe: Option<ProbeObservation>,
                    endedAt: Time, a: RecoveryAssessment)
    requires r.interventions != [] && r.approvals != [] && r.proposal.Some? && InScope(r, j, o, probe)
  {
    var m, busy := o.journey, j.minimumRequestCount <= o.journey.requestCount;
    && a.incidentId == r.incident.incidentId && a.interventionId == r.interventions[0].interventionId
    && a.endedAt == a.observedAt == endedAt
    && a.startedAt == endedAt - r.profile.recoveryCriteria.windowSeconds
    && a.journeyName == j.name && a.requestCount == m.requestCount
    && a.requiredStableWindows == r.profile.recoveryCriteria.requiredStableWindows
    && (a.kubernetesConverged <==> Settled(r.proposal.value.action, r.approvals[0], o.deployment))
    && (a.symptomsCleared <==> o.deployment.oomTerminations == 0 && o.deployment.restartDelta == 0)
    && (a.trafficSufficient <==> busy)
    && (a.probeUsed <==> Probes(r, j, o))
    && a.probeSuccesses == (if Probes(r, j, o) then Some(probe.value.successes) else None)
    && (a.availabilitySatisfied <==>
          if busy then m.successRate.Some? && m.successRate.value >= j.successRateMinimum
                       && m.successRate.value >= m.baselineSuccessRate
          else Probes(r, j, o) && probe.value.successes == j.syntheticProbe.value.repetitions)
    && (a.latencySatisfied <==>
          busy && m.p95Latency.Some? && m.p95Latency.value <= j.latencyMaximum
          && m.p95Latency.value <= m.baselineLatency)
    && (a.sufficientEvidence <==> busy && m.successRate.Some? && m.p95Latency.Some?)
    && (a.criteriaSatisfied <==>
          && a.kubernetesConverged && a.symptomsCleared && a.trafficSufficient && a.availabilitySatisfied
          && a.latencySatisfied && a.sufficientEvidence)
    && IsRunLength(r.assessments + [a], a.stableWindows)
  }

  /** The reason names what stood in the way. */
  predicate Explains(r: InvestigationRecord, j: CriticalJourney, observation: Option<RecoveryObservation>,
                     probe: Option<ProbeObservation>, endedAt: Time, error: VerificationError)
  {
    match error
    case NotMonitoringError => r.incident.lifecycle != Monitoring
    case OverlappingEvidence => !StartsAfterLast(r, endedAt)
    case NoObservation => observation.None?
    case EscapedWorkload =>
      observation.Some? && r.interventions != [] && observation.value.deployment.target != r.interventions[0].target
    case EscapedJourney => observation.Some? && observation.value.journey.journeyName != j.name
    case NoProbeResult => observation.Some? && Probes(r, j, observation.value) && probe.None?
    case ChangedProbe =>
      && observation.Some? && Probes(r, j, observation.value) && probe.Some?
      && (probe.value.probeName != j.syntheticProbe.value.name
          || probe.value.attempts != j.syntheticProbe.value.repetitions)
    case _ => false
  }

  lemma MonitoredRecord(r: InvestigationRecord)
    requires RecordInvariant(r) && r.incident.lifecycle == Monitoring
    ensures |r.interventions| == 1 && r.interventions[0].state == Succeeded && r.proposal.Some?
    ensures |r.approvals| == 1 && r.approvals[0].approvalId == r.interventions[0].approvalId
    ensures forall a <- r.assessments :: a.interventionId == r.interventions[0].interventionId
  {
    hide ValidProfile, ValidPolicyDecision, ProgressExact, ResolvedIsStable, ApprovalBound, Scoped, Owned, Grounded;
    forall a <- r.assessments ensures a.interventionId == r.interventions[0].interventionId {
      assert HasIntervention(r, a.interventionId);
    }
  }

  lemma {:induction false} AllOfOne(items: seq<RecoveryAssessment>, id: Ident)
    requires forall a <- items :: a.interventionId == id
    ensures AssessmentsOf(items, id) == items
  {
    if items != [] {
      var before, last := items[..|items| - 1], items[|items| - 1];
      AllOfOne(before, id);
      assert last in items && items == before + [last];
    }
  }

  lemma {:induction false} TheJourney(journeys: seq<CriticalJourney>, j: CriticalJourney)
    requires j in journeys
    requires forall i, k | 0 <= i < k < |journeys| :: journeys[i].name != journeys[k].name
    ensures FindJourney(journeys, j.name) == Some(j)
  {
    if journeys[0] != j {
      TheJourney(journeys[1..], j);
      var k :| 0 < k < |journeys| && journeys[k] == j;
    }
  }

  /** On a monitored record the searches of the verifier find its one Intervention, approval and journey. */
  lemma FoundOnMonitored(r: InvestigationRecord, j: CriticalJourney)
    requires RecordInvariant(r) && r.incident.lifecycle == Monitoring
    requires Declared(r, j)
    ensures r.interventions != [] && r.approvals != [] && r.proposal.Some?
    ensures LastSucceeded(r.interventions) == Some(r.interventions[0])
    ensures FindApproval(r.approvals, r.interventions[0].approvalId) == Some(r.approvals[0])
    ensures FindJourney(r.profile.journeys, r.profile.recoveryCriteria.journeyName) == Some(j)
    ensures AssessmentsOf(r.assessments, r.interventions[0].interventionId) == r.assessments
  {
    hide RecordInvariant, AssessmentsOf, ValidRecord, Enrolled, ValidWorkload;
    ValidParts(r);
    TheJourney(r.profile.journeys, j);
    MonitoredRecord(r);
    AllOfOne(r.assessments, r.interventions[0].interventionId);
    assert r.interventions == [r.interventions[0]] && r.approvals == [r.approvals[0]];
  }

  /** When a window can be verified, and which reason is given when it cannot. */
  lemma WindowVerdict(r: InvestigationRecord, j: CriticalJourney, observation: Option<RecoveryObservation>,
                      probe: Option<ProbeObservation>, endedAt: Time)
    requires RecordInvariant(r) && Declared(r, j)
    ensures var v := Verification(r, observation, probe, endedAt);
            && (v.Success? <==> Verifiable(r, j, observation, probe, endedAt))
            && (v.Failure? ==> Explains(r, j, observation, probe, endedAt, v.error))
  {
    hide RecordInvariant, AssessmentsOf, Assessed, LastSucceeded, FindApproval, FindJourney;
    if r.incident.lifecycle == Monitoring {
      FoundOnMonitored(r, j);
    }
  }

  /** What a verified window records. */
  lemma WindowReports(r: InvestigationRecord, j: CriticalJourney, o: RecoveryObservation,
                      probe: Option<ProbeObservation>, endedAt: Time)
    requires RecordInvariant(r) && Declared(r, j)
    requires Verification(r, Some(o), probe, endedAt).Success?
    ensures r.interventions != [] && r.approvals != [] && r.proposal.Some? && InScope(r, j, o, probe)
    ensures Reports(r, j, o, probe, endedAt, Verification(r, Some(o), probe, endedAt).value)
  {
    hide RecordInvariant, AssessmentsOf, LastSucceeded, FindApproval, FindJourney, IsRunLength, ExpectedProgress;
    FoundOnMonitored(r, j);
    ValidParts(r);
    hide ValidRecord, ValidProfile;
    ProgressOf(r);
    LatestRun(r, r.interventions[0].interventionId);
    ProgressIsRunLength(r.assessments, Verification(r, Some(o), probe, endedAt).value);
  }

  /** What a caller may expect of one window. */
  predicate WindowAnswer(r: InvestigationRecord, j: CriticalJourney, observation: Option<RecoveryObservation>,
                         probe: Option<ProbeObservation>, endedAt: Time,
                         answer: Result<RecoveryAssessment, VerificationError>)
  {
    && (answer.Success? <==> Verifiable(r, j, observation, probe, endedAt))
    && (answer.Failure? ==> Explains(r, j, observation, probe, endedAt, answer.error))
    && (answer.Success? ==>
          && r.approvals != [] && r.proposal.Some?
          && Reports(r, j, observation.value, probe, endedAt, answer.value))
  }

  lemma AnsweredFor(r: InvestigationRecord, j: CriticalJourney, observation: Option<RecoveryObservation>,
                    probe: Option<ProbeObservation>, endedAt: Time)
    requires RecordInvariant(r) && Declared(r, j)
    ensures WindowAnswer(r, j, observation, probe, endedAt, Verification(r, observation, probe, endedAt))
    ensures Verification(r, observation, probe, endedAt).Success? ==>
              && r.interventions != [] && LastSucceeded(r.interventions) == Some(r.interventions[0])
              && FindJourney(r.profile.journeys, j.name) == Some(j)
  {
    hide RecordInvariant, Verification, Reports, Verifiable, Explains, LastSucceeded, FindJourney;
    WindowVerdict(r, j, observation, probe, endedAt);
    if Verification(r, observation, probe, endedAt).Success? {
      IsVerifiable(r, j, observation, probe, endedAt);
      WindowReports(r, j, observation.value, probe, endedAt);
      FoundOnMonitored(r, j);
    }
  }

  lemma IsVerifiable(r: InvestigationRecord, j: CriticalJourney, observation: Option<RecoveryObservation>,
                     probe: Option<ProbeObservation>, endedAt: Time)
    requires Verifiable(r, j, observation, probe, endedAt)
    ensures r.incident.lifecycle == Monitoring && observation.Some?
  {
  }

  lemma ProgressOf(r: InvestigationRecord)
    requires RecordInvariant(r)
    ensures ProgressExact(r)
  {
  }

  /** A satisfied window saw the approved workload and journey, settled, healthy, and busy enough. */
  lemma SatisfiedWindow(r: InvestigationRecord, j: CriticalJourney, o: RecoveryObservation,
                        probe: Option<ProbeObservation>, endedAt: Time)
    requires RecordInvariant(r) && Declared(r, j)
    requires Verification(r, Some(o), probe, endedAt).Success?
    ensures r.interventions != [] && r.approvals != [] && r.proposal.Some?
    ensures o.deployment.target == r.interventions[0].target
    ensures o.journey.journeyName == r.profile.recoveryCriteria.journeyName
    ensures var d, m := o.deployment, o.journey;
            Verification(r, Some(o), probe, endedAt).value.criteriaSatisfied <==>
            && Settled(r.proposal.value.action, r.approvals[0], d)
            && d.oomTerminations == 0 && d.restartDelta == 0
            && j.minimumRequestCount <= m.requestCount
            && m.successRate.Some? && m.p95Latency.Some?
            && j.successRateMinimum <= m.successRate.value && m.baselineSuccessRate <= m.successRate.value
            && m.p95Latency.value <= j.latencyMaximum && m.p95Latency.value <= m.baselineLatency
  {
    hide Verification, RecordInvariant, IsRunLength, Settled;
    WindowReports(r, j, o, probe, endedAt);
  }

  // ---------------------------------------------------------------- the service

  function ElementAt<T>(items: seq<T>, index: nat): Option<T> {
    if index < |items| then Some(items[index]) else None
  }

  /** Plays back observations in order; None stands for an exhausted sequence. */
  class FakeRecoveryEvidenceProvider {
    const observations: seq<RecoveryObservation>
    var index: nat
    var requests: seq<(WorkloadReference, string, Time, Time)>

    constructor (observations: seq<RecoveryObservation>)
      ensures this.observations == observations && index == 0 && requests == []
    {
      this.observations := observations;
      index, requests := 0, [];
    }

    method Observe(t: WorkloadReference, j: CriticalJourney, startedAt: Time, endedAt: Time)
      returns (o: Option<RecoveryObservation>)
      modifies this
      ensures o == ElementAt(observations, old(index))
      ensures index == if o.Some? then old(index) + 1 else old(index)
      ensures requests == old(requests) + [(t, j.name, startedAt, endedAt)]
    {
      requests := requests + [(t, j.name, startedAt, endedAt)];
      o := ElementAt(observations, index);
      if o.Some? {
        index := index + 1;
      }
    }
  }

  class FakeSyntheticProbeRunner {
    const observations: seq<ProbeObservation>
    var index: nat
    var probes: seq<SyntheticProbe>

    constructor (observations: seq<ProbeObservation>)
      ensures this.observations == observations && index == 0 && probes == []
    {
      this.observations := observations;
      index, probes := 0, [];
    }

    method RunProbe(p: SyntheticProbe) returns (o: Option<ProbeObservation>)
      modifies this
      ensures o == ElementAt(observations, old(index))
      ensures index == if o.Some? then old(index) + 1 else old(index)
      ensures probes == old(probes) + [p]
    {
      probes := probes + [p];
      o := ElementAt(observations, index);
      if o.Some? {
        index := index + 1;
      }
    }
  }

  predicate SoundRecord(records: Records, id: Ident, next: nat) {
    id in records ==>
      RecordInvariant(records[id]) && EventsPast(records[id], next) && records[id].incident.incidentId == id
  }

  class DeterministicRecoveryVerifier {
    const store: InMemoryIncidentStore
    const evidence: FakeRecoveryEvidenceProvider
    const probes: FakeSyntheticProbeRunner
    const host: Host

    constructor (store: InMemoryIncidentStore, evidence: FakeRecoveryEvidenceProvider,
                 probes: FakeSyntheticProbeRunner, host: Host)
      ensures this.store == store && this.evidence == evidence && this.probes == probes && this.host == host
    {
      this.store, this.evidence, this.probes, this.host := store, evidence, probes, host;
    }

    /** Observes and assesses the window that ends now; every failure is raised before anything is recorded. */
    method Assess(record: InvestigationRecord)
      returns (r: Result<RecoveryAssessment, VerificationError>)
      modifies evidence, probes, host`now
      ensures r == Verification(record, ElementAt(evidence.observations, old(evidence.index)),
                                ElementAt(probes.observations, old(probes.index)), host.now)
      ensures r.Success? ==>
                var c := record.profile.recoveryCriteria;
                && evidence.requests == old(evidence.requests)
                                        + [(LastSucceeded(record.interventions).value.target, c.journeyName,
                                            r.value.startedAt, r.value.endedAt)]
                && var declared := FindJourney(record.profile.journeys, c.journeyName).value.syntheticProbe;
                probes.probes == old(probes.probes) + if r.value.probeUsed then [declared.value] else []
    {
      var criteria := record.profile.recoveryCriteria;
      var endedAt, elapsed := host.Clock();
      if record.incident.lifecycle != Monitoring {
        return Failure(NotMonitoringError);
      }
      var intervention := LastSucceeded(record.interventions);
      if intervention.None? {
        return Failure(NoSuccessfulIntervention);
      }
      if record.proposal.None? {
        return Failure(NoRecordedProposal);
      }
      var approval := FindApproval(record.approvals, intervention.value.approvalId);
      if approval.None? {
        return Failure(NoRecordedApproval);
      }
      var journey := FindJourney(record.profile.journeys, criteria.journeyName);
      if journey.None? {
        return Failure(UndeclaredJourney);
      }
      var startedAt := endedAt - criteria.windowSeconds;
      var previous := AssessmentsOf(record.assessments, intervention.value.interventionId);
      if previous != [] && startedAt < previous[|previous| - 1].endedAt {
        return Failure(OverlappingEvidence);
      }
      var observation := evidence.Observe(intervention.value.target, journey.value, startedAt, endedAt);
      if observation.None? {
        return Failure(NoObservation);
      }
      if observation.value.deployment.target != intervention.value.target {
        return Failure(EscapedWorkload);
      }
      if observation.value.journey.journeyName != journey.value.name {
        return Failure(EscapedJourney);
      }
      var probe := None;
      if WantsProbe(criteria, journey.value, observation.value.journey) {
        probe := probes.RunProbe(journey.value.syntheticProbe.value);
        if probe.None? {
          return Failure(NoProbeResult);
        }
        if !ProbeMatches(journey.value.syntheticProbe.value, probe.value) {
          return Failure(ChangedProbe);
        }
      }
      r := Success(Assessed(record, intervention.value, approval.value, journey.value, observation.value, probe,
                            endedAt));
    }

    /** One window: raises with the store untouched, or records the assessment and resolves on a stable run. */
    method VerifyNextWindow(id: Ident) returns (r: Result<RecoveryAssessment, VerificationError>)
      requires SoundRecord(store.records, id, host.nextUuid)
      modifies store, evidence, probes, host
      ensures id !in old(store.records) ==> r == Failure(NoSuchIncidentError)
      ensures id in old(store.records) ==>
                r == Verification(old(store.records)[id], ElementAt(evidence.observations, old(evidence.index)),
                                  ElementAt(probes.observations, old(probes.index)), host.now)
      ensures id in old(store.records) ==>
                forall j | Declared(old(store.records)[id], j) ::
                  && WindowAnswer(old(store.records)[id], j, ElementAt(evidence.observations, old(evidence.index)),
                                  ElementAt(probes.observations, old(probes.index)), host.now, r)
                  && (r.Success? ==>
                        && evidence.requests == old(evidence.requests)
                                                + [(old(store.records)[id].interventions[0].target, j.name,
                                                    r.value.startedAt, r.value.endedAt)]
                        && probes.probes == old(probes.probes)
                                            + if r.value.probeUsed then [j.syntheticProbe.value] else [])
      ensures r.Failure? ==> store.records == old(store.records)
      ensures r.Success? ==>
                && id in old(store.records) && id in store.records
                && store.records == old(store.records)[id := store.records[id]]
                && WindowRecorded(old(store.records)[id], store.records[id], r.value)
    {
      hide RecordInvariant, Verification, ApplyAssessment, HasEvent, EventsPast, AssessmentsOf, Contiguous;
      hide Reports, Verifiable, Explains, WindowRecorded;
      if id !in store.records {
        return Failure(NoSuchIncidentError);
      }
      var record := store.records[id];
      r := Assess(record);
      forall j | Declared(record, j)
        ensures WindowAnswer(record, j, ElementAt(evidence.observations, old(evidence.index)),
                             ElementAt(probes.observations, old(probes.index)), host.now, r)
        ensures r.Success? ==> record.interventions != []
                               && LastSucceeded(record.interventions) == Some(record.interventions[0])
                               && FindJourney(record.profile.journeys, j.name) == Some(j)
      {
        AnsweredFor(record, j, ElementAt(evidence.observations, old(evidence.index)),
                    ElementAt(probes.observations, old(probes.index)), host.now);
      }
      if r.Failure? {
        return;
      }
      var eventId := host.FreshId();
      var event := AuditEvent(eventId, id, EventTypeOf(r.value), "deterministic-recovery-verifier", None, 0);
      RecordedWindow(record, ElementAt(evidence.observations, old(evidence.index)),
                     ElementAt(probes.observations, old(probes.index)), host.now, event, old(host.nextUuid));
      var recorded := store.Perform(id, RecordAssessment(record.incident.version, r.value, event));
    }
  }

  lemma AssessmentIsSound(r: InvestigationRecord, a: RecoveryAssessment, observation: Option<RecoveryObservation>,
                          probe: Option<ProbeObservation>, endedAt: Time)
    requires RecordInvariant(r) && Verification(r, observation, probe, endedAt) == Success(a)
    ensures !a.criteriaSatisfied ==> a.stableWindows < r.profile.recoveryCriteria.requiredStableWindows
  {
    hide Verification, RecordInvariant;
    ValidParts(r);
    AssessedIsValid(r, observation, probe, endedAt);
  }

  /** The audit event of a window, as a reader tells it from the window and the lifecycle it leads to. */
  function EventAfter(satisfied: bool, lifecycle: IncidentLifecycle): EventType {
    if lifecycle == Resolved then RecoveryStabilized else if satisfied then RecoveryWindowSatisfied
    else RecoveryWindowFailed
  }

  /** The assessment and one fitting audit event were added; a completed stable run resolves, and nothing else does. */
  ghost predicate WindowRecorded(before: InvestigationRecord, after: InvestigationRecord, a: RecoveryAssessment) {
    && after == before.(incident := after.incident, assessments := before.assessments + [a], events := after.events)
    && (exists e :: after.events == Stamped(before, e)
                    && e.eventType == EventAfter(a.criteriaSatisfied, after.incident.lifecycle))
    && (after.incident.lifecycle == Resolved <==>
        Contiguous(AssessmentsOf(after.assessments, a.interventionId),
                   after.profile.recoveryCriteria.requiredStableWindows))
  }

  lemma RecordedWindow(r: InvestigationRecord, observation: Option<RecoveryObservation>,
                       probe: Option<ProbeObservation>, endedAt: Time, e: AuditEvent, next: nat)
    requires RecordInvariant(r) && EventsPast(r, next) && e.eventId == Uuid(next)
    requires Verification(r, observation, probe, endedAt).Success? && e.incidentId == r.incident.incidentId
    requires e.eventType == EventTypeOf(Verification(r, observation, probe, endedAt).value)
    ensures var a := Verification(r, observation, probe, endedAt).value;
            var result := Apply(r, RecordAssessment(r.incident.version, a, e));
            && result.Success?
            && result.value.incident.incidentId == r.incident.incidentId
            && WindowRecorded(r, result.value, a)
  {
    hide Verification, ApplyAssessment, EventTypeOf, AssessmentsOf, Contiguous, SameAuthority, KeepsRecord;
    hide ProgressExact, ResolvedIsStable, ApprovalBound, Extends;
    var a := Verification(r, observation, probe, endedAt).value;
    assert !HasEvent(r, e.eventId);
    ExtendsReflexive(r);
    Reflexive(r);
    StoreAccepts(r, r, observation, probe, endedAt, e);
    AcceptedAssessment(r, r.incident.version, a, e);
    AssessmentIsSound(r, a, observation, probe, endedAt);
    ResolvesExactlyWhenStable(r, r.incident.version, a, e);
    OperationKeepsIdentity(r, RecordAssessment(r.incident.version, a, e));
  }
}
