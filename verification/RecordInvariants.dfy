/** What every store operation keeps: validity, append-only growth, and the coupling of the three state machines. */
module RecordInvariants {
  import opened Wrappers
  import opened Incidents
  import opened ApprovalBindings
  import opened RecordOperations

  // ---------------------------------------------------------------- validity

  /** The appends that skip re-validation lose nothing: any accepted operation yields a valid record. */
  lemma ApplyPreservesValidity(r: InvestigationRecord, op: StoreOp)
    requires ValidRecord(r) && ValidArguments(op)
    ensures Apply(r, op).Success? ==> ValidRecord(Apply(r, op).value)
  {
    hide ValidRecord;
    if Apply(r, op).Success? {
      var s := Apply(r, op).value;
      match op
      case AppendEvidence(e) => AppendEvidenceValid(r, e);
      case AppendQuery(q) => AppendQueryValid(r, q);
      case AppendAlertSignal(x) => AppendOtherValid(r, op);
      case AppendRetrievalFailure(x) => AppendOtherValid(r, op);
      case AppendEvent(x) => AppendOtherValid(r, op);
      case _ =>
    }
  }

  lemma AppendOtherValid(r: InvestigationRecord, op: StoreOp)
    requires op.AppendAlertSignal? || op.AppendRetrievalFailure? || op.AppendEvent?
    requires ValidRecord(r) && Apply(r, op).Success?
    ensures ValidRecord(Apply(r, op).value)
  {
    FrameValid(r, Apply(r, op).value);
  }

  lemma FrameValid(r: InvestigationRecord, s: InvestigationRecord)
    requires ValidRecord(r)
    requires s == r.(alertSignals := s.alertSignals, retrievalFailures := s.retrievalFailures, events := s.events)
    requires forall x <- s.alertSignals :: x.incidentId == r.incident.incidentId
    requires forall x <- s.retrievalFailures :: x.incidentId == r.incident.incidentId
    requires forall x <- s.events :: x.incidentId == r.incident.incidentId
    ensures ValidRecord(s)
  {
    hide ValidProfile, ValidPolicyDecision, ValidApproval, ValidAssessment;
    assert Grounded(s) by {
      assert forall id :: HasQuery(r, id) == HasQuery(s, id);
      assert forall id :: HasEvidence(r, id) == HasEvidence(s, id);
    }
    assert Authorized(s) by {
      assert PolicyIsPassed(r) == PolicyIsPassed(s);
      assert forall id :: HasApproval(r, id) == HasApproval(s, id);
      assert forall id :: HasIntervention(r, id) == HasIntervention(s, id);
    }
  }

  lemma AppendEvidenceValid(r: InvestigationRecord, e: EvidenceObservation)
    requires ValidRecord(r) && ApplyEvidence(r, e).Success?
    ensures ValidRecord(ApplyEvidence(r, e).value)
  {
    hide ValidProfile, ValidPolicyDecision, ValidApproval, ValidAssessment;
    var s := ApplyEvidence(r, e).value;
    assert Grounded(s) by {
      assert forall id :: HasQuery(r, id) == HasQuery(s, id);
      forall id | HasEvidence(r, id) ensures HasEvidence(s, id) {
        var x :| x in r.evidence && x.evidenceId == id;
        assert x in s.evidence;
      }
    }
    assert Authorized(s) by {
      assert PolicyIsPassed(r) == PolicyIsPassed(s);
      assert forall id :: HasApproval(r, id) == HasApproval(s, id);
      assert forall id :: HasIntervention(r, id) == HasIntervention(s, id);
    }
  }

  lemma AppendQueryValid(r: InvestigationRecord, q: EvidenceQuery)
    requires ValidRecord(r) && ApplyQuery(r, q).Success?
    ensures ValidRecord(ApplyQuery(r, q).value)
  {
    hide ValidProfile, ValidPolicyDecision, ValidApproval, ValidAssessment;
    var s := ApplyQuery(r, q).value;
    assert Grounded(s) by {
      assert forall id :: HasEvidence(r, id) == HasEvidence(s, id);
      forall id | HasQuery(r, id) ensures HasQuery(s, id) {
        var x :| x in r.queries && x.queryId == id;
        assert x in s.queries;
      }
    }
    assert Authorized(s) by {
      assert PolicyIsPassed(r) == PolicyIsPassed(s);
      assert forall id :: HasApproval(r, id) == HasApproval(s, id);
      assert forall id :: HasIntervention(r, id) == HasIntervention(s, id);
    }
  }

  // ---------------------------------------------------------------- append-only growth

  predicate Terminal(s: InterventionState) {
    s == Succeeded || s == RolledBack || s == Failed || s == SafeHalted
  }

  predicate InterventionAdvances(a: Intervention, b: Intervention) {
    a == b || (a.state == Running && Terminal(b.state) && b == a.(state := b.state))
  }

  predicate InterventionsAdvance(a: seq<Intervention>, b: seq<Intervention>) {
    |a| <= |b| && forall k | 0 <= k < |a| :: InterventionAdvances(a[k], b[k])
  }

  predicate WriteOnce<T(==)>(a: Option<T>, b: Option<T>) {
    a.Some? ==> b == a
  }

  /** The header changes only together with its version, and nothing leaves Closed. */
  predicate HeaderAdvances(a: Incident, b: Incident) {
    && a.incidentId == b.incidentId
    && a.openedAt == b.openedAt
    && a.version <= b.version
    && (a.version == b.version ==> a == b)
    && (a.lifecycle == Closed ==> b.lifecycle == Closed)
  }

  /** `b` is a later state of `a`: every tuple grew by a suffix and single entries were written at most once. */
  predicate Extends(a: InvestigationRecord, b: InvestigationRecord) {
    && HeaderAdvances(a.incident, b.incident)
    && a.profile == b.profile && a.window == b.window
    && a.alertSignals <= b.alertSignals && a.evidence <= b.evidence
    && a.retrievalFailures <= b.retrievalFailures && a.queries <= b.queries
    && a.findings <= b.findings && a.invocations <= b.invocations
    && WriteOnce(a.proposal, b.proposal) && WriteOnce(a.guidance, b.guidance) && WriteOnce(a.policy, b.policy)
    && a.approvals <= b.approvals
    && InterventionsAdvance(a.interventions, b.interventions)
    && a.assessments <= b.assessments
    && a.events <= b.events
  }

  lemma ExtendsTransitive(a: InvestigationRecord, b: InvestigationRecord, c: InvestigationRecord)
    requires Extends(a, b) && Extends(b, c)
    ensures Extends(a, c)
  {
    forall k | 0 <= k < |a.interventions|
      ensures InterventionAdvances(a.interventions[k], c.interventions[k])
    {
      assert InterventionAdvances(a.interventions[k], b.interventions[k]);
      assert InterventionAdvances(b.interventions[k], c.interventions[k]);
    }
  }

  lemma ExtendsReflexive(r: InvestigationRecord)
    ensures Extends(r, r)
  {
  }

  // ---------------------------------------------------------------- the coupled state machines

  /** The key under which the publisher derives the one Intervention of an Incident. */
  function PublisherKey(r: InvestigationRecord, i: Intervention): IdempotencyKey
    requires r.proposal.Some?
  {
    IdempotencyKey(r.incident.incidentId, r.proposal.value.proposalId, i.approvalId, r.proposal.value.action.target)
  }

  predicate PublisherKeyed(r: InvestigationRecord, i: Intervention) {
    && r.proposal.Some?
    && i.target == r.proposal.value.action.target
    && i.key == PublisherKey(r, i)
    && i.interventionId == InterventionOf(i.key)
  }

  /** Lifecycle and outcome before any Intervention exists. */
  predicate QuietPhase(r: InvestigationRecord) {
    && r.incident.intervention == NotIntervened
    && (match r.incident.lifecycle
        case Open => r.incident.investigation == NotInvestigated
        case Investigating => !PolicyIsPassed(r)
        case AwaitingApproval => PolicyIsPassed(r)
        case Closed => true
        case _ => false)
  }

  /** Lifecycle and outcome once the Intervention is in state `s`. */
  predicate ActivePhase(i: Incident, s: InterventionState) {
    match s
    case Pending => false
    case Running => i.intervention == NotIntervened && (i.lifecycle == Mitigating || i.lifecycle == Closed)
    case Succeeded =>
      || (i.lifecycle == Monitoring && i.intervention == MonitoringOutcome)
      || (i.lifecycle == Resolved && i.intervention == SucceededOutcome)
      || (i.lifecycle == Closed && (i.intervention == MonitoringOutcome || i.intervention == SucceededOutcome))
    case _ => i.intervention == OutcomeAfter(s, i.intervention) && (i.lifecycle == Mitigating || i.lifecycle == Closed)
  }

  predicate Coupled(r: InvestigationRecord) {
    && (r.proposal.Some? ==> r.incident.investigation == ProposalReady)
    && (r.guidance.Some? ==> r.incident.investigation in {NeedsMoreEvidence, NoSafeAction})
    && |r.interventions| <= 1
    && (if r.interventions == [] then QuietPhase(r)
        else
          && ActivePhase(r.incident, r.interventions[0].state)
          && PolicyIsPassed(r)
          && PublisherKeyed(r, r.interventions[0])
          && |r.approvals| == 1
          && r.approvals[0].decision == Approved
          && r.approvals[0].approvalId == r.interventions[0].approvalId)
  }

  // ---------------------------------------------------------------- real callers

  /** The council's compare-and-set, prepared from a record it read earlier. */
  predicate BeginsInvestigation(seen: InvestigationRecord, version: nat, replacement: Incident) {
    && seen.incident.investigation == NotInvestigated
    && version == seen.incident.version
    && TransitionIncident(seen.incident, Investigating, NotInvestigated, seen.incident.intervention)
       == Some(replacement)
  }

  /** The close endpoint's compare-and-set; the expected version comes from its client. */
  predicate Closes(seen: InvestigationRecord, replacement: Incident) {
    TransitionIncident(seen.incident, Closed, seen.incident.investigation, seen.incident.intervention)
    == Some(replacement)
  }

  predicate PreparedFrom(seen: InvestigationRecord, version: nat, replacement: Incident) {
    BeginsInvestigation(seen, version, replacement) || Closes(seen, replacement)
  }

  /** The calls the services make, against the records stored so far. */
  predicate Admissible(history: seq<InvestigationRecord>, op: StoreOp)
    requires history != []
  {
    && ValidArguments(op)
    && (match op
        case CompareAndSet(version, replacement) => exists seen <- history :: PreparedFrom(seen, version, replacement)
        case RecordIntervention(_, i, _) => PublisherKeyed(history[|history| - 1], i)
        case UpdateIntervention(i, _) => Terminal(i.state)
        case _ => true)
  }

  // ---------------------------------------------------------------- cursors

  /** Event cursors are 1..n in order. */
  predicate Numbered(events: seq<AuditEvent>) {
    forall k | 0 <= k < |events| :: events[k].cursor == k + 1
  }

  // ---------------------------------------------------------------- one step

  predicate KeepsRecord(r: InvestigationRecord) {
    ValidRecord(r) && Coupled(r) && Numbered(r.events)
  }

  predicate SingleStep(a: InvestigationRecord, b: InvestigationRecord) {
    && Extends(a, b)
    && (b.incident == a.incident || b.incident.version == a.incident.version + 1)
  }

  /** Nothing but the seven append-only tuples changed, and those only grew. */
  predicate OnlyAppends(r: InvestigationRecord, s: InvestigationRecord) {
    && s == r.(alertSignals := s.alertSignals, evidence := s.evidence, retrievalFailures := s.retrievalFailures,
               queries := s.queries, findings := s.findings, invocations := s.invocations, events := s.events)
    && r.alertSignals <= s.alertSignals && r.evidence <= s.evidence && r.queries <= s.queries
    && r.retrievalFailures <= s.retrievalFailures && r.findings <= s.findings && r.invocations <= s.invocations
    && r.events <= s.events
    && (Numbered(r.events) ==> Numbered(s.events))
  }

  lemma AppendShape(r: InvestigationRecord, op: StoreOp)
    requires op.AppendEvidence? || op.AppendAlertSignal? || op.AppendRetrievalFailure? || op.AppendQuery?
          || op.AppendFinding? || op.AppendInvocation? || op.AppendEvent?
    requires Apply(r, op).Success?
    ensures OnlyAppends(r, Apply(r, op).value)
  {
    hide ValidRecord;
  }

  lemma AppendStep(r: InvestigationRecord, op: StoreOp)
    requires KeepsRecord(r) && ValidArguments(op)
    requires op.AppendEvidence? || op.AppendAlertSignal? || op.AppendRetrievalFailure? || op.AppendQuery?
          || op.AppendFinding? || op.AppendInvocation? || op.AppendEvent?
    requires Apply(r, op).Success?
    ensures SingleStep(r, Apply(r, op).value) && KeepsRecord(Apply(r, op).value)
  {
    hide ValidRecord, Apply;
    ApplyPreservesValidity(r, op);
    AppendShape(r, op);
  }

  lemma CompletionStep(r: InvestigationRecord, o: CoordinatorOutput)
    requires KeepsRecord(r) && ValidOutput(o) && ApplyCompletion(r, o).Success?
    ensures SingleStep(r, ApplyCompletion(r, o).value) && KeepsRecord(ApplyCompletion(r, o).value)
  {
    assert r.policy.None? && r.approvals == [] && r.interventions == [];
  }

  lemma PolicyStep(r: InvestigationRecord, d: PolicyDecision)
    requires KeepsRecord(r) && ValidPolicyDecision(d) && ApplyPolicy(r, d).Success?
    ensures SingleStep(r, ApplyPolicy(r, d).value) && KeepsRecord(ApplyPolicy(r, d).value)
  {
    assert r.approvals == [] && r.interventions == [];
  }

  lemma ApprovalStep(r: InvestigationRecord, version: nat, a: Approval, e: AuditEvent, now: Time)
    requires KeepsRecord(r) && ValidApproval(a) && ApplyApproval(r, version, a, e, now).Success?
    ensures SingleStep(r, ApplyApproval(r, version, a, e, now).value)
    ensures KeepsRecord(ApplyApproval(r, version, a, e, now).value)
  {
    assert r.interventions == [];
  }

  lemma ClaimStep(r: InvestigationRecord, version: nat, i: Intervention, e: AuditEvent)
    requires KeepsRecord(r) && PublisherKeyed(r, i) && ApplyClaim(r, version, i, e).Success?
    ensures SingleStep(r, ApplyClaim(r, version, i, e).value) && KeepsRecord(ApplyClaim(r, version, i, e).value)
    ensures r.interventions == []
  {
    var s := ApplyClaim(r, version, i, e).value;
    var approval := FindApproval(r.approvals, i.approvalId).value;
    assert approval == r.approvals[0];
    assert r.interventions == [] || r.interventions[0].key == i.key;
    assert s.interventions == [i];
  }

  lemma OutcomeStep(r: InvestigationRecord, i: Intervention, e: AuditEvent)
    requires KeepsRecord(r) && Terminal(i.state) && ApplyOutcome(r, i, e).Success?
    ensures SingleStep(r, ApplyOutcome(r, i, e).value) && KeepsRecord(ApplyOutcome(r, i, e).value)
    ensures |r.interventions| == 1 && r.interventions[0].state == Running
    ensures ApplyOutcome(r, i, e).value.interventions == [i]
  {
    var s := ApplyOutcome(r, i, e).value;
    var current := FindIntervention(r.interventions, i.interventionId).value;
    assert current == r.interventions[0];
    assert s.interventions == [i];
    assert i == current.(state := i.state);
  }

  lemma AssessmentStep(r: InvestigationRecord, version: nat, a: RecoveryAssessment, e: AuditEvent)
    requires KeepsRecord(r) && ValidAssessment(a) && ApplyAssessment(r, version, a, e).Success?
    ensures SingleStep(r, ApplyAssessment(r, version, a, e).value)
    ensures KeepsRecord(ApplyAssessment(r, version, a, e).value)
  {
    hide ValidRecord, AssessmentsOf, ExpectedProgress;
    var s := ApplyAssessment(r, version, a, e).value;
    assert r.interventions != [];
    assert ValidRecord(s);
  }

  /** Equal versions mean an equal header, so a prepared replacement never overwrites an unseen change. */
  lemma CompareAndSetStep(r: InvestigationRecord, seen: InvestigationRecord, version: nat, replacement: Incident)
    requires KeepsRecord(r) && Extends(seen, r) && PreparedFrom(seen, version, replacement)
    requires ApplyCompareAndSet(r, version, replacement).Success?
    ensures seen.incident == r.incident
    ensures SingleStep(r, ApplyCompareAndSet(r, version, replacement).value)
    ensures KeepsRecord(ApplyCompareAndSet(r, version, replacement).value)
  {
    assert seen.incident == r.incident;
  }

  predicate Reaches(history: seq<InvestigationRecord>) {
    && history != []
    && KeepsRecord(history[|history| - 1])
    && (forall seen <- history :: Extends(seen, history[|history| - 1]))
  }

  /** Every call a service makes keeps the record valid, coupled and numbered, and only extends it. */
  lemma StepKeepsRecord(history: seq<InvestigationRecord>, op: StoreOp)
    requires Reaches(history) && Admissible(history, op)
    requires Apply(history[|history| - 1], op).Success?
    ensures SingleStep(history[|history| - 1], Apply(history[|history| - 1], op).value)
    ensures Reaches(history + [Apply(history[|history| - 1], op).value])
  {
    hide Extends, ValidRecord, Coupled;
    var r := history[|history| - 1];
    var s := Apply(r, op).value;
    match op {
      case CompleteInvestigation(o) => CompletionStep(r, o);
      case RecordPolicyDecision(d) => PolicyStep(r, d);
      case RecordApproval(version, a, e, now) => ApprovalStep(r, version, a, e, now);
      case RecordIntervention(version, i, e) => ClaimStep(r, version, i, e);
      case UpdateIntervention(i, e) => OutcomeStep(r, i, e);
      case RecordAssessment(version, a, e) => AssessmentStep(r, version, a, e);
      case CompareAndSet(version, replacement) =>
        var seen :| seen in history && PreparedFrom(seen, version, replacement);
        CompareAndSetStep(r, seen, version, replacement);
      case _ => AppendStep(r, op);
    }
    forall seen <- history + [s] ensures Extends(seen, s) {
      if seen in history {
        ExtendsTransitive(seen, r, s);
      } else {
        ExtendsReflexive(s);
      }
    }
  }
}
