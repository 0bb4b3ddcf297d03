/** Whole runs of one stored record: any sequence of service calls, accepted or refused, from its creation on. */
module RecordRuns {
  import opened Wrappers
  import opened Incidents
  import opened ApprovalBindings
  import opened RecordOperations
  import opened RecordInvariants
  import opened Stabilization

  // ---------------------------------------------------------------- creation

  function CreateRecord(p: ApplicationProfile, signal: AlertSignal, incidentId: Ident, windowId: Ident): Update {
    var workload := WorkloadReference(signal.namespace, signal.workloadName);
    var budget := p.evidenceBudget.windowMinutes * 60;
    var startedAt := if signal.windowStart.Some? then signal.windowStart.value else signal.observedAt - budget;
    var endedAt := if signal.windowEnd.Some? then signal.windowEnd.value else signal.observedAt;
    var window := EvidenceWindow(windowId, incidentId, startedAt, endedAt, signal.observedAt);
    if signal.applicationId != p.applicationId || signal.namespace !in p.namespaces || workload !in Enrolled(p)
    then Failure(NotEnrolled)
    else if budget < endedAt - startedAt then Failure(OutsideWindow)
    else if !ValidWindow(window) then Failure(InvalidRecord)
    else Success(InvestigationRecord(
                   Incident(incidentId, p.applicationId, p.version, signal.observedAt, Open, NotInvestigated,
                            NotIntervened, 0),
                   p, window, [], [], [], [], [], [], [], None, None, None, [], [], [], []))
  }

  // ---------------------------------------------------------------- the invariant of one record

  /** The recorded decision is bound to the evidence of the state that stored it. */
  predicate ApprovalBound(r: InvestigationRecord) {
    forall a <- r.approvals ::
      && a.evidenceHash.OfEvidence?
      && a.evidenceHash.evidence <= r.evidence
      && ApprovalMatchesRecord(r.(evidence := a.evidenceHash.evidence), a)
  }

  predicate RecordInvariant(r: InvestigationRecord) {
    KeepsRecord(r) && ProgressExact(r) && ResolvedIsStable(r) && ApprovalBound(r)
  }

  lemma CreatedRecordInvariant(p: ApplicationProfile, signal: AlertSignal, incidentId: Ident, windowId: Ident)
    requires ValidProfile(p)
    requires CreateRecord(p, signal, incidentId, windowId).Success?
    ensures RecordInvariant(CreateRecord(p, signal, incidentId, windowId).value)
    ensures var r := CreateRecord(p, signal, incidentId, windowId).value;
            && r.incident.version == 0 && r.incident.lifecycle == Open && r.policy.None?
            && r.window.startedAt < r.window.endedAt <= r.window.startedAt + p.evidenceBudget.windowMinutes * 60
            && r.window.capturedAt == r.incident.openedAt == signal.observedAt
            && EntriesSound(r)
  {
  }

  // ---------------------------------------------------------------- entries

  /** Evidence lies inside the immutable window, and nothing is recorded twice. */
  predicate EntriesSound(r: InvestigationRecord) {
    && (forall e <- r.evidence ::
          e.windowId == r.window.windowId && r.window.startedAt <= e.observedAt <= r.window.endedAt)
    && (forall i, j | 0 <= i < j < |r.evidence| :: r.evidence[i].evidenceId != r.evidence[j].evidenceId)
    && (forall i, j | 0 <= i < j < |r.queries| :: r.queries[i].queryId != r.queries[j].queryId)
    && (forall i, j | 0 <= i < j < |r.findings| :: r.findings[i].specialist != r.findings[j].specialist)
    && (forall i, j | 0 <= i < j < |r.invocations| :: r.invocations[i].invocationId != r.invocations[j].invocationId)
    && (forall i, j | 0 <= i < j < |r.alertSignals| ::
          r.alertSignals[i].notificationId != r.alertSignals[j].notificationId)
    && (forall i, j | 0 <= i < j < |r.retrievalFailures| ::
          r.retrievalFailures[i].failureId != r.retrievalFailures[j].failureId)
  }

  lemma EvidenceKeepsEntries(r: InvestigationRecord, e: EvidenceObservation)
    requires EntriesSound(r) && ApplyEvidence(r, e).Success?
    ensures EntriesSound(ApplyEvidence(r, e).value)
  {
  }

  lemma AppendKeepsEntries(r: InvestigationRecord, op: StoreOp)
    requires EntriesSound(r) && Apply(r, op).Success?
    requires op.AppendAlertSignal? || op.AppendRetrievalFailure? || op.AppendQuery?
    ensures EntriesSound(Apply(r, op).value)
  {
  }

  lemma ReportKeepsEntries(r: InvestigationRecord, op: StoreOp)
    requires EntriesSound(r) && Apply(r, op).Success? && (op.AppendFinding? || op.AppendInvocation?)
    ensures EntriesSound(Apply(r, op).value)
  {
    hide ValidRecord;
  }

  lemma OthersKeepEntries(r: InvestigationRecord, op: StoreOp)
    requires Apply(r, op).Success?
    requires !op.AppendEvidence? && !op.AppendAlertSignal? && !op.AppendRetrievalFailure? && !op.AppendQuery?
    requires !op.AppendFinding? && !op.AppendInvocation?
    ensures var s := Apply(r, op).value;
            && s.window == r.window && s.evidence == r.evidence && s.queries == r.queries && s.findings == r.findings
            && s.invocations == r.invocations && s.alertSignals == r.alertSignals
            && s.retrievalFailures == r.retrievalFailures
  {
    hide ValidRecord, AssessmentsOf, ExpectedProgress, Stamped, ReplaceIntervention;
  }

  /** Any accepted operation, whoever calls it. */
  lemma StepKeepsEntries(r: InvestigationRecord, op: StoreOp)
    requires EntriesSound(r) && Apply(r, op).Success?
    ensures EntriesSound(Apply(r, op).value)
  {
    hide ApplyEvidence, ApplyAlertSignal, ApplyRetrievalFailure, ApplyQuery, ApplyFinding, ApplyInvocation;
    hide ApplyCompletion, ApplyPolicy, ApplyApproval, ApplyClaim, ApplyOutcome, ApplyAssessment, ApplyCompareAndSet;
    match op {
      case AppendEvidence(e) => EvidenceKeepsEntries(r, e);
      case AppendAlertSignal(_) => AppendKeepsEntries(r, op);
      case AppendRetrievalFailure(_) => AppendKeepsEntries(r, op);
      case AppendQuery(_) => AppendKeepsEntries(r, op);
      case AppendFinding(_) => ReportKeepsEntries(r, op);
      case AppendInvocation(_) => ReportKeepsEntries(r, op);
      case _ => OthersKeepEntries(r, op);
    }
  }

  lemma {:induction false} RunKeepsEntries(initial: InvestigationRecord, ops: seq<StoreOp>, k: nat)
    requires EntriesSound(initial) && k < |Replay(initial, ops)|
    ensures EntriesSound(Replay(initial, ops)[k])
  {
    hide Apply, EntriesSound;
    if ops != [] {
      var before, op := ops[..|ops| - 1], ops[|ops| - 1];
      var history := Replay(initial, before);
      if k < |history| {
        RunKeepsEntries(initial, before, k);
      } else {
        RunKeepsEntries(initial, before, k - 1);
        StepKeepsEntries(history[k - 1], op);
      }
    }
  }

  lemma StepKeepsApprovalBound(history: seq<InvestigationRecord>, op: StoreOp)
    requires Reaches(history) && Admissible(history, op) && ApprovalBound(history[|history| - 1])
    requires Apply(history[|history| - 1], op).Success?
    ensures ApprovalBound(Apply(history[|history| - 1], op).value)
  {
    var r := history[|history| - 1];
    var s := Apply(r, op).value;
    StepKeepsRecord(history, op);
    hide Apply, KeepsRecord, ValidRecord, Coupled, Reaches, Admissible;
    if op.RecordApproval? {
      ApprovalBoundWhenStored(r, op.expectedVersion, op.approval, op.event, op.now);
      assert s == ApplyApproval(r, op.expectedVersion, op.approval, op.event, op.now).value by {
        ApplyOfApproval(r, op);
      }
    } else {
      SameApprovals(r, op);
      ApprovalBoundExtends(r, s);
    }
  }

  lemma ApplyOfApproval(r: InvestigationRecord, op: StoreOp)
    requires op.RecordApproval?
    ensures Apply(r, op) == ApplyApproval(r, op.expectedVersion, op.approval, op.event, op.now)
  {
  }

  lemma SameApprovals(r: InvestigationRecord, op: StoreOp)
    requires Apply(r, op).Success? && !op.RecordApproval?
    ensures Apply(r, op).value.approvals == r.approvals
  {
    hide ValidRecord;
  }

  lemma ApprovalBoundWhenStored(r: InvestigationRecord, version: nat, a: Approval, e: AuditEvent, now: Time)
    requires ApplyApproval(r, version, a, e, now).Success?
    ensures ApprovalBound(ApplyApproval(r, version, a, e, now).value)
  {
    hide ValidRecord;
    var s := ApplyApproval(r, version, a, e, now).value;
    assert s.(evidence := a.evidenceHash.evidence) == s;
  }

  lemma ApprovalBoundExtends(r: InvestigationRecord, s: InvestigationRecord)
    requires ApprovalBound(r) && Extends(r, s) && s.approvals == r.approvals
    ensures ApprovalBound(s)
  {
    forall a <- s.approvals
      ensures a.evidenceHash.OfEvidence? && a.evidenceHash.evidence <= s.evidence
      ensures ApprovalMatchesRecord(s.(evidence := a.evidenceHash.evidence), a)
    {
      assert ApprovalMatchesRecord(r.(evidence := a.evidenceHash.evidence), a);
    }
  }

  // ---------------------------------------------------------------- runs

  /** One call: the store appends the new record to its history, or refuses and changes nothing. */
  function Step(history: seq<InvestigationRecord>, op: StoreOp): seq<InvestigationRecord>
    requires history != []
  {
    var result := Apply(history[|history| - 1], op);
    if result.Success? then history + [result.value] else history
  }

  function Replay(initial: InvestigationRecord, ops: seq<StoreOp>): (history: seq<InvestigationRecord>)
    ensures history != []
  {
    if ops == [] then [initial] else Step(Replay(initial, ops[..|ops| - 1]), ops[|ops| - 1])
  }

  /** Every call is one a service would make against the records stored before it. */
  predicate AdmissibleRun(initial: InvestigationRecord, ops: seq<StoreOp>) {
    ops == [] || (AdmissibleRun(initial, ops[..|ops| - 1])
                  && Admissible(Replay(initial, ops[..|ops| - 1]), ops[|ops| - 1]))
  }

  predicate HistoryInvariant(history: seq<InvestigationRecord>): (holds: bool)
    ensures holds ==> history != []
  {
    && history != []
    && (forall k | 0 <= k < |history| :: RecordInvariant(history[k]))
    && (forall i, j | 0 <= i <= j < |history| :: Extends(history[i], history[j]))
    && (forall k | 0 <= k < |history| - 1 :: SingleStep(history[k], history[k + 1]))
  }

  lemma HistoryReaches(history: seq<InvestigationRecord>)
    requires HistoryInvariant(history)
    ensures Reaches(history) && RecordInvariant(history[|history| - 1])
  {
    hide KeepsRecord, ProgressExact, ResolvedIsStable, ApprovalBound, Extends, SingleStep;
    var last := |history| - 1;
    assert RecordInvariant(history[last]);
    forall seen <- history ensures Extends(seen, history[last]) {
      var i :| 0 <= i < |history| && history[i] == seen;
      assert Extends(history[i], history[last]);
    }
  }

  lemma AppendKeepsHistory(history: seq<InvestigationRecord>, s: InvestigationRecord)
    requires HistoryInvariant(history) && RecordInvariant(s)
    requires SingleStep(history[|history| - 1], s) && Reaches(history + [s])
    ensures HistoryInvariant(history + [s])
  {
    hide RecordInvariant, KeepsRecord, Extends, SingleStep;
    var next := history + [s];
    forall i, j | 0 <= i <= j < |next| ensures Extends(next[i], next[j]) {
      if j == |history| {
        assert next[i] in next;
      } else {
        assert next[i] == history[i] && next[j] == history[j];
      }
    }
    forall k | 0 <= k < |next| - 1 ensures SingleStep(next[k], next[k + 1]) {
      if k < |history| - 1 {
        assert SingleStep(history[k], history[k + 1]);
      }
    }
  }

  lemma StepKeepsHistory(history: seq<InvestigationRecord>, op: StoreOp)
    requires HistoryInvariant(history) && Admissible(history, op)
    ensures HistoryInvariant(Step(history, op))
  {
    HistoryReaches(history);
    hide Apply, HistoryInvariant, KeepsRecord, ProgressExact, ResolvedIsStable, ApprovalBound, SingleStep, Reaches;
    hide Admissible;
    var r := history[|history| - 1];
    if Apply(r, op).Success? {
      StepKeepsRecord(history, op);
      StepKeepsProgress(history, op);
      StepKeepsApprovalBound(history, op);
      StepReachesValid(history, Apply(r, op).value);
      AppendKeepsHistory(history, Apply(r, op).value);
    }
  }

  lemma StepReachesValid(history: seq<InvestigationRecord>, s: InvestigationRecord)
    requires Reaches(history + [s])
    ensures KeepsRecord(s)
  {
  }

  /** Any run: append-only history, coupled states, exact stabilization, and a decision bound to what it reviewed. */
  lemma {:induction false} RunKeepsHistory(initial: InvestigationRecord, ops: seq<StoreOp>)
    requires RecordInvariant(initial) && AdmissibleRun(initial, ops)
    ensures HistoryInvariant(Replay(initial, ops))
  {
    if ops == [] {
      ExtendsReflexive(initial);
    } else {
      RunKeepsHistory(initial, ops[..|ops| - 1]);
      StepKeepsHistory(Replay(initial, ops[..|ops| - 1]), ops[|ops| - 1]);
    }
  }

  // ---------------------------------------------------------------- what runs guarantee

  predicate HasRunning(r: InvestigationRecord) {
    exists i <- r.interventions :: i.state == Running
  }

  /** The coupling of the three state machines, read off in the terms of an operator's screen. */
  lemma CoupledStates(initial: InvestigationRecord, ops: seq<StoreOp>, k: nat)
    requires RecordInvariant(initial) && AdmissibleRun(initial, ops) && k < |Replay(initial, ops)|
    ensures StatesAgree(Replay(initial, ops)[k])
  {
    RunKeepsHistory(initial, ops);
    var history := Replay(initial, ops);
    hide Extends, SingleStep, Replay, AdmissibleRun, StatesAgree, KeepsRecord;
    assert RecordInvariant(history[k]);
    CoupledRecordsAgree(history[k]);
  }

  predicate StatesAgree(r: InvestigationRecord) {
    && (HasRunning(r) ==> r.incident.lifecycle in {Mitigating, Closed} && r.incident.intervention == NotIntervened)
    && (r.incident.lifecycle == Monitoring ==> r.incident.intervention == MonitoringOutcome)
    && (r.incident.lifecycle == AwaitingApproval ==> PolicyIsPassed(r) && r.interventions == [])
    && (r.incident.lifecycle == Resolved ==> r.incident.intervention == SucceededOutcome)
    && (r.interventions != [] ==>
          && |r.interventions| == 1 && r.proposal.Some? && PolicyIsPassed(r)
          && |r.approvals| == 1 && r.approvals[0].decision == Approved)
    && (forall i <- r.interventions ::
          && (i.state == Succeeded ==> r.incident.intervention in {MonitoringOutcome, SucceededOutcome})
          && (i.state == RolledBack ==> r.incident.intervention == RolledBackOutcome)
          && (i.state == Failed ==> r.incident.intervention == FailedOutcome)
          && (i.state == SafeHalted ==> r.incident.intervention == SafeHaltedOutcome))
  }

  lemma CoupledRecordsAgree(r: InvestigationRecord)
    requires KeepsRecord(r)
    ensures StatesAgree(r)
  {
    hide ValidRecord;
  }

  /** Nothing leaves Closed, and equal versions mean an equal header, however the calls interleave. */
  lemma HeaderHistory(initial: InvestigationRecord, ops: seq<StoreOp>, i: nat, j: nat)
    requires RecordInvariant(initial) && AdmissibleRun(initial, ops) && i <= j < |Replay(initial, ops)|
    ensures var a, b := Replay(initial, ops)[i].incident, Replay(initial, ops)[j].incident;
            && a.version <= b.version <= a.version + (j - i)
            && (a.version == b.version <==> a == b)
            && (a.lifecycle == Closed ==> b.lifecycle == Closed)
    decreases j - i
  {
    RunKeepsHistory(initial, ops);
    var history := Replay(initial, ops);
    assert Extends(history[i], history[j]);
    if i < j {
      HeaderHistory(initial, ops, i, j - 1);
      assert SingleStep(history[j - 1], history[j - 1 + 1]);
    }
  }

  /** Resolution in any run rests on the declared number of stable windows. */
  lemma ResolvedRuns(initial: InvestigationRecord, ops: seq<StoreOp>, k: nat)
    requires RecordInvariant(initial) && AdmissibleRun(initial, ops) && k < |Replay(initial, ops)|
    requires Replay(initial, ops)[k].incident.lifecycle == Resolved
    ensures var r := Replay(initial, ops)[k];
            |r.interventions| == 1
            && StableFor(r, r.interventions[0], r.profile.recoveryCriteria.requiredStableWindows)
  {
    RunKeepsHistory(initial, ops);
    assert RecordInvariant(Replay(initial, ops)[k]);
    ResolvedMeansStable(Replay(initial, ops)[k]);
  }

  /** After the decision, freshness lasts exactly until evidence is added. */
  lemma FreshUntilEvidence(initial: InvestigationRecord, ops: seq<StoreOp>, i: nat, j: nat)
    requires RecordInvariant(initial) && AdmissibleRun(initial, ops) && i <= j < |Replay(initial, ops)|
    requires Replay(initial, ops)[i].approvals != []
    requires ApprovalMatchesRecord(Replay(initial, ops)[i], Replay(initial, ops)[i].approvals[0])
    ensures var a, b := Replay(initial, ops)[i], Replay(initial, ops)[j];
            && b.approvals == a.approvals
            && (ApprovalMatchesRecord(b, a.approvals[0]) <==> b.evidence == a.evidence)
  {
    RunKeepsHistory(initial, ops);
    var history := Replay(initial, ops);
    assert Extends(history[i], history[j]);
    assert RecordInvariant(history[j]);
    OneApproval(history[j]);
    FreshnessIsEvidence(history[i], history[j], history[i].approvals[0]);
  }

  lemma OneApproval(r: InvestigationRecord)
    requires RecordInvariant(r)
    ensures |r.approvals| <= 1
  {
  }

  lemma FreshnessIsEvidence(a: InvestigationRecord, b: InvestigationRecord, approval: Approval)
    requires Extends(a, b) && ApprovalMatchesRecord(a, approval)
    ensures ApprovalMatchesRecord(b, approval) <==> b.evidence == a.evidence
  {
    assert approval.evidenceHash.evidence == a.evidence;
    if ApprovalMatchesRecord(b, approval) {
      assert approval.evidenceHash.evidence == b.evidence;
    }
  }

  // ---------------------------------------------------------------- what completing an investigation stores

  /** Everything the output says is about this Incident, cites recorded evidence and targets an enrolled workload. */
  predicate OutputFits(r: InvestigationRecord, o: CoordinatorOutput) {
    && (forall h <- o.hypotheses :: h.incidentId == r.incident.incidentId)
    && (forall h <- o.hypotheses :: forall c <- h.citations :: HasEvidence(r, c))
    && (o.proposal.Some? ==>
          o.proposal.value.incidentId == r.incident.incidentId
          && o.proposal.value.action.target in Enrolled(r.profile))
    && (o.guidance.Some? ==> o.guidance.value.incidentId == r.incident.incidentId)
  }

  /** The record with the output's four parts, under investigation, one version on. */
  function Completed(r: InvestigationRecord, o: CoordinatorOutput): InvestigationRecord {
    r.(incident := r.incident.(lifecycle := Investigating, investigation := o.outcome,
                               version := r.incident.version + 1),
       hypotheses := o.hypotheses, proposal := o.proposal, guidance := o.guidance)
  }

  /** The first completion of an open or investigated Incident is accepted exactly when it fits; all of it is stored. */
  lemma CompletionStores(r: InvestigationRecord, o: CoordinatorOutput)
    requires KeepsRecord(r) && ValidOutput(o)
    ensures var result := Apply(r, CompleteInvestigation(o));
            && (result.Success? <==>
                  && r.incident.investigation == NotInvestigated && r.incident.lifecycle in {Open, Investigating}
                  && OutputFits(r, o))
            && (result.Success? ==> result.value == Completed(r, o))
  {
    hide KeepsRecord, ValidRecord, ValidOutput;
    if r.incident.investigation == NotInvestigated {
      UndecidedRecord(r);
      CompletedIsValid(r, o);
      OutcomeIsNew(o);
    }
  }

  lemma OutcomeIsNew(o: CoordinatorOutput)
    requires ValidOutput(o)
    ensures o.outcome in NextInvestigationOutcomes(NotInvestigated)
  {
  }

  lemma UndecidedRecord(r: InvestigationRecord)
    requires KeepsRecord(r) && r.incident.investigation == NotInvestigated
    ensures r.proposal.None? && r.policy.None? && r.approvals == [] && r.interventions == []
    ensures r.incident.lifecycle in {Open, Investigating, Closed}
  {
    hide NestedValid, Grounded, Scoped, Owned;
  }

  lemma CompletedIsValid(r: InvestigationRecord, o: CoordinatorOutput)
    requires KeepsRecord(r) && ValidOutput(o) && r.policy.None? && r.approvals == [] && r.interventions == []
    ensures ValidRecord(Completed(r, o)) <==> OutputFits(r, o)
  {
    hide ValidProfile, ValidPolicyDecision, ValidApproval, ValidAssessment;
    var s := Completed(r, o);
    assert forall id :: HasQuery(r, id) == HasQuery(s, id);
    assert forall id :: HasEvidence(r, id) == HasEvidence(s, id);
  }

  /** The outputs of the accepted completions of a run, in order. */
  function Completions(initial: InvestigationRecord, ops: seq<StoreOp>): seq<CoordinatorOutput> {
    if ops == [] then []
    else
      var before, op := ops[..|ops| - 1], ops[|ops| - 1];
      Completions(initial, before)
      + if op.CompleteInvestigation? && Apply(Latest(initial, before), op).Success? then [op.output] else []
  }

  function Latest(initial: InvestigationRecord, ops: seq<StoreOp>): InvestigationRecord {
    var history := Replay(initial, ops);
    history[|history| - 1]
  }

  /** What the record knows of its investigation is what `done` delivered, or what it was created with. */
  predicate InvestigatedBy(initial: InvestigationRecord, r: InvestigationRecord, done: seq<CoordinatorOutput>) {
    if done == []
    then
      && r.proposal == initial.proposal && r.guidance == initial.guidance && r.hypotheses == initial.hypotheses
      && r.incident.investigation == initial.incident.investigation
    else
      && |done| == 1 && ValidOutput(done[0]) && r.proposal == done[0].proposal && r.guidance == done[0].guidance
      && r.hypotheses == done[0].hypotheses && r.incident.investigation == done[0].outcome
  }

  predicate SameInvestigation(r: InvestigationRecord, s: InvestigationRecord) {
    && s.proposal == r.proposal && s.guidance == r.guidance && s.hypotheses == r.hypotheses
    && s.incident.investigation == r.incident.investigation
  }

  lemma OthersKeepInvestigation(history: seq<InvestigationRecord>, op: StoreOp)
    requires HistoryInvariant(history) && Admissible(history, op) && !op.CompleteInvestigation?
    requires Apply(history[|history| - 1], op).Success?
    ensures SameInvestigation(history[|history| - 1], Apply(history[|history| - 1], op).value)
  {
    hide ValidRecord, SingleStep, KeepsRecord, ProgressExact, ResolvedIsStable, ApprovalBound;
    var r := history[|history| - 1];
    if op.CompareAndSet? {
      HistoryReaches(history);
      var seen :| seen in history && PreparedFrom(seen, op.expectedVersion, op.replacement);
      assert Extends(seen, r);
    } else {
      hide HistoryInvariant, Admissible;
      CallKeepsInvestigation(r, op);
    }
  }

  lemma CallKeepsInvestigation(r: InvestigationRecord, op: StoreOp)
    requires !op.CompleteInvestigation? && !op.CompareAndSet? && Apply(r, op).Success?
    ensures SameInvestigation(r, Apply(r, op).value)
  {
    hide ValidRecord, AssessmentsOf, ExpectedProgress, Stamped, ReplaceIntervention;
  }

  lemma StepCompletes(initial: InvestigationRecord, r: InvestigationRecord, o: CoordinatorOutput,
                      done: seq<CoordinatorOutput>)
    requires KeepsRecord(r) && ValidOutput(o) && Apply(r, CompleteInvestigation(o)).Success?
    requires InvestigatedBy(initial, r, done) && initial.incident.investigation == NotInvestigated
    ensures InvestigatedBy(initial, Apply(r, CompleteInvestigation(o)).value, done + [o])
  {
    CompletionStores(r, o);
    hide Apply, KeepsRecord, OutputFits;
    assert done + [o] == [o];
  }

  /** In every run from creation at most one completion is accepted, and what the record holds is exactly its output. */
  lemma {:induction false} RunCompletesOnce(initial: InvestigationRecord, ops: seq<StoreOp>)
    requires RecordInvariant(initial) && AdmissibleRun(initial, ops)
    requires initial.incident.investigation == NotInvestigated
    ensures InvestigatedBy(initial, Latest(initial, ops), Completions(initial, ops))
  {
    hide Apply, HistoryInvariant, RecordInvariant, KeepsRecord, ValidOutput;
    if ops != [] {
      var before, op := ops[..|ops| - 1], ops[|ops| - 1];
      RunCompletesOnce(initial, before);
      RunKeepsHistory(initial, before);
      var history, r, done := Replay(initial, before), Latest(initial, before), Completions(initial, before);
      LatestIsKept(history);
      if Apply(r, op).Success? {
        hide InvestigatedBy;
        if op.CompleteInvestigation? {
          StepCompletes(initial, r, op.output, done);
        } else {
          OthersKeepInvestigation(history, op);
          StillInvestigatedBy(initial, r, Apply(r, op).value, done);
        }
      } else {
        hide InvestigatedBy;
      }
    }
  }

  lemma StillInvestigatedBy(initial: InvestigationRecord, r: InvestigationRecord, s: InvestigationRecord,
                            done: seq<CoordinatorOutput>)
    requires InvestigatedBy(initial, r, done) && SameInvestigation(r, s)
    ensures InvestigatedBy(initial, s, done)
  {
  }

  lemma LatestIsKept(history: seq<InvestigationRecord>)
    requires HistoryInvariant(history)
    ensures KeepsRecord(history[|history| - 1])
  {
    assert RecordInvariant(history[|history| - 1]);
  }

  /** A call that names a version is accepted against exactly that version, and moves it on by one. */
  lemma VersionedCalls(r: InvestigationRecord, op: StoreOp)
    requires op.RecordApproval? || op.RecordIntervention? || op.RecordAssessment? || op.CompareAndSet?
    requires Apply(r, op).Success?
    ensures op.expectedVersion == r.incident.version
    ensures Apply(r, op).value.incident.version == r.incident.version + 1
  {
    hide ValidRecord, AssessmentsOf, ExpectedProgress, Stamped, ApprovalMatchesRecord;
  }

  /** Over every run the recovery windows of an Intervention follow each other and never overlap. */
  lemma WindowsNeverOverlap(initial: InvestigationRecord, ops: seq<StoreOp>, k: nat, id: Ident)
    requires RecordInvariant(initial) && AdmissibleRun(initial, ops) && k < |Replay(initial, ops)|
    ensures OneAfterAnother(AssessmentsOf(Replay(initial, ops)[k].assessments, id))
  {
    hide AssessmentsOf, ExactAt;
    RunKeepsHistory(initial, ops);
    var r := Replay(initial, ops)[k];
    assert RecordInvariant(r);
    assert r.assessments[..|r.assessments|] == r.assessments;
    WindowsInOrder(r, |r.assessments|, id);
  }

  // ---------------------------------------------------------------- table-respecting is not enough

  /** Which lifecycle-only compare-and-set replacements, among all the table allows, keep the coupling. */
  lemma LifecycleChangeKeepsCoupling(r: InvestigationRecord, l: IncidentLifecycle)
    requires KeepsRecord(r)
    requires TransitionIncident(r.incident, l, r.incident.investigation, r.incident.intervention).Some?
    ensures var i := TransitionIncident(r.incident, l, r.incident.investigation, r.incident.intervention).value;
            Coupled(r.(incident := Bumped(i))) <==>
            l == r.incident.lifecycle || l == Closed || (l == Investigating && r.incident.lifecycle == Open)
  {
    hide ValidRecord;
    if r.incident.lifecycle == Open {
      OpenHasNoPolicy(r);
    }
  }

  lemma OpenHasNoPolicy(r: InvestigationRecord)
    requires KeepsRecord(r) && r.incident.lifecycle == Open
    ensures !PolicyIsPassed(r)
  {
  }

  // ---------------------------------------------------------------- fail-stop

  /** While an Intervention is running its safe halt is always accepted, also after a concurrent close. */
  lemma SafeHaltAccepted(r: InvestigationRecord, i: Intervention, e: AuditEvent)
    requires RecordInvariant(r) && i in r.interventions && i.state == Running
    requires e.incidentId == r.incident.incidentId && !HasEvent(r, e.eventId)
    ensures ApplyOutcome(r, i.(state := SafeHalted), e).Success?
  {
    hide ValidRecord, ProgressExact, ResolvedIsStable, ApprovalBound;
    var halted := i.(state := SafeHalted);
    assert r.interventions == [i];
    OutcomeValid(r, halted, e, r.incident.(intervention := SafeHaltedOutcome));
  }

  /** The store calls a Pending update terminal too: it is always accepted, and it breaks the coupling. */
  lemma PendingUpdateAccepted(r: InvestigationRecord, i: Intervention, e: AuditEvent)
    requires RecordInvariant(r) && i in r.interventions && i.state == Running
    requires e.incidentId == r.incident.incidentId && !HasEvent(r, e.eventId)
    ensures ApplyOutcome(r, i.(state := Pending), e).Success?
    ensures !Coupled(ApplyOutcome(r, i.(state := Pending), e).value)
  {
    hide ValidRecord, ProgressExact, ResolvedIsStable, ApprovalBound;
    var pending := i.(state := Pending);
    assert r.interventions == [i];
    OutcomeValid(r, pending, e, r.incident);
  }

  lemma OutcomeValid(r: InvestigationRecord, i: Intervention, e: AuditEvent, header: Incident)
    requires ValidRecord(r) && r.interventions != [] && i == r.interventions[0].(state := i.state)
    requires |r.interventions| == 1 && e.incidentId == r.incident.incidentId
    requires header.incidentId == r.incident.incidentId && header.applicationId == r.incident.applicationId
    ensures ValidRecord(r.(incident := Bumped(header), interventions := ReplaceIntervention(r.interventions, i),
                           events := Stamped(r, e)))
  {
    hide ValidProfile, ValidPolicyDecision, ValidApproval, ValidAssessment;
    var s := r.(incident := Bumped(header), interventions := ReplaceIntervention(r.interventions, i),
                events := Stamped(r, e));
    assert s.interventions == [i];
    assert Grounded(s) by {
      assert forall id :: HasQuery(r, id) == HasQuery(s, id);
      assert forall id :: HasEvidence(r, id) == HasEvidence(s, id);
    }
    assert Authorized(s) by {
      assert r.interventions[0] in r.interventions;
      assert PolicyIsPassed(r) == PolicyIsPassed(s);
      assert forall id :: HasApproval(r, id) == HasApproval(s, id);
      forall id | HasIntervention(r, id) ensures HasIntervention(s, id) {
        assert s.interventions[0].interventionId == id;
      }
    }
  }
}
