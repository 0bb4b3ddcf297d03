/** The policy service as it runs: ordered checks appended to a list, then at most one server-side dry-run. */
module PolicyEngine {
  import opened Wrappers
  import opened Incidents
  import opened RecordOperations
  import opened RecordInvariants
  import opened IncidentStores
  import opened ProposalPolicy
  import opened Protocol
  import opened ProtocolSteps
  import opened KubernetesProviders
  import opened Hosts

  /** The enrolment checker's readiness answer. */
  class EnrollmentProvider {
    var ready: bool

    constructor (ready: bool)
      ensures this.ready == ready
    {
      this.ready := ready;
    }

    method Ready() returns (answer: bool)
      ensures answer == ready
    {
      answer := ready;
    }
  }

  class DeterministicProposalPolicy {
    const kubernetes: KubernetesProvider
    const enrollment: EnrollmentProvider

    constructor (kubernetes: KubernetesProvider, enrollment: EnrollmentProvider)
      ensures this.kubernetes == kubernetes && this.enrollment == enrollment
    {
      this.kubernetes := kubernetes;
      this.enrollment := enrollment;
    }

    method CollectWorkloadChecks(action: RemediationAction, workload: Option<ManagedWorkload>)
      returns (checks: seq<PolicyCheck>)
      ensures checks == WorkloadChecks(action, workload)
    {
      checks := [Check(TargetEnrolled, workload.Some?)];
      checks := checks + [Check(TargetExecutable, workload.Some? && workload.value.executable
                                                  && !workload.value.protectedDependency)];
      checks := checks + [Check(ActionAllowed, workload.Some? && action.ActionType() in workload.value.allowedActions)];
    }

    method CollectBindingChecks(r: InvestigationRecord, proposal: RemediationProposal)
      returns (checks: seq<PolicyCheck>, ready: bool)
      ensures checks == BindingChecks(r, proposal, ready) && ready == enrollment.ready
    {
      checks := [Check(ProposalScoped, proposal.incidentId == r.incident.incidentId)];
      checks := checks + [Check(EvidenceCurrent, proposal.evidenceHash == EvidenceHash(r.evidence))];
      ready := enrollment.Ready();
      checks := checks + [Check(EnrollmentReady, ready)];
    }

    method CollectStateChecks(t: WorkloadReference) returns (checks: seq<PolicyCheck>, state: Option<DeploymentState>)
      ensures state == Inspect(kubernetes.cluster, t) && checks == StateChecks(state)
    {
      state := kubernetes.InspectDeployment(t);
      checks := [Check(LiveStateAvailable, state.Some?)];
      checks := checks + [Check(NoActiveIntervention, state.Some? && !state.value.activeIntervention)];
    }

    /** The preflight part: one check after another is appended, whatever the earlier ones said. */
    method CollectPreflight(r: InvestigationRecord, proposal: RemediationProposal)
      returns (checks: seq<PolicyCheck>, state: Option<DeploymentState>, ready: bool)
      ensures state == Inspect(kubernetes.cluster, proposal.action.target)
      ensures checks == Preflight(r, proposal, ready, state) && ready == enrollment.ready
    {
      hide FindWorkload, ActionChecks, Inspect, BindingChecks, WorkloadChecks, StateChecks;
      checks, ready := CollectBindingChecks(r, proposal);
      var workload := FindWorkload(r.profile.workloads, proposal.action.target);
      var more := CollectWorkloadChecks(proposal.action, workload);
      checks := checks + more;
      more, state := CollectStateChecks(proposal.action.target);
      checks := checks + more;
      more := CollectActionChecks(proposal.action, workload, state);
      checks := checks + more;
    }

    method CollectActionChecks(action: RemediationAction, workload: Option<ManagedWorkload>,
                               state: Option<DeploymentState>) returns (checks: seq<PolicyCheck>)
      ensures checks == ActionChecks(action, workload, state)
    {
      checks := [];
      match action {
        case RollbackDeployment(_, n) =>
          var revision := if state.Some? then FindRevision(state.value.availableRevisions, n) else None;
          checks := checks + [Check(RevisionAvailable, revision.Some?)];
          checks := checks + [Check(RestorationSafe, revision.Some? && revision.value.restorable
                                                     && !revision.value.implicated)];
        case ScaleDeployment(_, replicas) =>
          checks := checks + [Check(ReplicaBoundsCheck, WithinBounds(workload, replicas))];
          checks := checks + [Check(ReplicaQuota, state.Some? && RequiredHeadroom(replicas, state.value)
                                                                 <= state.value.headroom)];
        case RestartDeployment(_, _) =>
      }
    }

    /** The dry-run happens exactly when the decision got past every preflight check and the patch shape. */
    method EvaluateProposal(r: InvestigationRecord, proposal: RemediationProposal, now: Time)
      returns (d: PolicyDecision, ghost ready: bool, ghost dryRun: DryRunResult)
      modifies kubernetes`dryRunPatches, kubernetes`said
      ensures d == Evaluate(r, proposal, ready, Inspect(kubernetes.cluster, proposal.action.target), dryRun, now)
      ensures ready == enrollment.ready
      ensures d.status != PolicyRejected ==> d.patch.Some?
      ensures d.patch.Some? ==>
                var state := Inspect(kubernetes.cluster, proposal.action.target);
                && state.Some? && d.patch.value.target == proposal.action.target
                && PatchesDeployment(d.patch.value, state.value.resourceVersion)
                && ChangesOnly(d.patch.value, proposal.action, state.value)
      ensures kubernetes.dryRunPatches ==
              old(kubernetes.dryRunPatches) + if d.status != PolicyRejected then [d.patch.value] else []
      ensures kubernetes.said ==
              old(kubernetes.said) + if d.status != PolicyRejected then [DryRunSaid(dryRun)] else []
    {
      hide Preflight, BuildPatch, PatchShapeIsExact, Inspect, PatchesDeployment, ChangesOnly;
      dryRun := Refused;
      var checks, state, readiness := CollectPreflight(r, proposal);
      ready := readiness;
      DecidedPatchContents(r, proposal, ready, state, Refused, now);
      var failure := FirstFailure(checks);
      if failure.Some? || state.None? {
        d := Decision(r, proposal, checks, PolicyRejected, state, None, None,
                      if failure.Some? then failure else Some(LiveStateAvailable), now);
        return;
      }
      var patch := BuildPatch(proposal.action, state.value);
      var exact := patch.Some? && PatchShapeIsExact(patch.value);
      checks := checks + [Check(PatchShape, exact)];
      if !exact {
        d := Decision(r, proposal, checks, PolicyRejected, state, patch, None, Some(PatchShape), now);
        return;
      }
      var answer := kubernetes.DryRun(patch.value);
      dryRun := answer;
      checks := checks + [Check(ServerDryRun, answer.Accepted?)];
      if answer.Refused? {
        d := Decision(r, proposal, checks, DryRunFailed, state, patch, None, Some(ServerDryRun), now);
        return;
      }
      d := Decision(r, proposal, checks, PolicyPassed, state, patch, Some(answer.diff), None, now);
    }

    /** Evaluates the recorded proposal, records the decision and notes it; without a proposal nothing happens. */
    method EvaluateAndRecord(store: InMemoryIncidentStore, host: Host, id: Ident, now: Time)
      returns (r: Result<InvestigationRecord, StoreError>, ghost d: Option<PolicyDecision>)
      requires id in store.records ==> KeepsRecord(store.records[id]) && store.records[id].incident.incidentId == id
      modifies store, host`nextUuid, kubernetes`dryRunPatches, kubernetes`said
      ensures id !in old(store.records) ==> r.Failure? && store.records == old(store.records)
      ensures id in old(store.records) && old(store.records)[id].proposal.None? ==>
                r == Success(old(store.records)[id]) && store.records == old(store.records)
      ensures id in old(store.records) && old(store.records)[id].proposal.Some? ==>
                d.Some? && DecidedOn(old(store.records)[id], d.value, Inspect(kubernetes.cluster,
                                     old(store.records)[id].proposal.value.action.target))
                && Recorded(old(store.records), id, d.value, Uuid(old(host.nextUuid)), r, store.records)
    {
      hide KeepsRecord, Evaluate, Acceptable, ValidPolicyDecision, Inspect, Apply;
      d := None;
      if id !in store.records {
        r := Failure(NoSuchIncident);
        return;
      }
      var record := store.records[id];
      if record.proposal.None? {
        r := Success(record);
        return;
      }
      var decision, ready, dryRun := EvaluateProposal(record, record.proposal.value, now);
      d := Some(decision);
      EvaluationDecides(record, ready, Inspect(kubernetes.cluster, record.proposal.value.action.target), dryRun, now);
      DecisionRecordedExactly(record, decision);
      r := store.Perform(id, RecordPolicyDecision(decision));
      if r.Failure? {
        return;
      }
      var event := host.FreshId();
      NoteAccepted(r.value, PolicyNote(decision, id, event));
      r := store.Perform(id, AppendEvent(PolicyNote(decision, id, event)));
    }
  }

  /** The audit event that follows a stored decision. */
  function PolicyNote(d: PolicyDecision, id: Ident, event: Ident): AuditEvent {
    AuditEvent(event, id,
               OtherEvent(if d.status == PolicyPassed then "proposal_policy_passed" else "proposal_policy_rejected"),
               "deterministic-policy-engine", None, 0)
  }

  /** A valid decision that policy makes on the recorded proposal: it passes only what is acceptable on that state. */
  ghost predicate DecidedOn(r: InvestigationRecord, d: PolicyDecision, state: Option<DeploymentState>) {
    && r.proposal.Some? && ValidPolicyDecision(d)
    && d.incidentId == r.incident.incidentId && d.proposalId == r.proposal.value.proposalId
    && (exists ready, dryRun, now :: d == Evaluate(r, r.proposal.value, ready, state, dryRun, now))
    && (d.status == PolicyPassed ==> Acceptable(r, r.proposal.value, true, state))
  }

  /**
   * The store takes the first decision, a pass only while investigating, and then its audit event unless the event's
   * identifier was used before; a refused decision leaves the store as it was.
   */
  predicate Recorded(before: map<Ident, InvestigationRecord>, id: Ident, d: PolicyDecision, event: Ident,
                     r: Result<InvestigationRecord, StoreError>, after: map<Ident, InvestigationRecord>)
    requires id in before
  {
    var record := before[id];
    if record.policy.Some? || (d.status == PolicyPassed && record.incident.lifecycle != Investigating)
    then r.Failure? && after == before
    else
      && id in after && after == before[id := after[id]]
      && after[id].policy == Some(d) && after[id].proposal == record.proposal
      && (d.status == PolicyPassed <==> after[id].incident.lifecycle == AwaitingApproval)
      && (if HasEvent(record, event) then r.Failure? && after[id].events == record.events
          else r == Success(after[id]) && after[id].events == Stamped(record, PolicyNote(d, id, event)))
  }

  lemma EvaluationDecides(r: InvestigationRecord, ready: bool, state: Option<DeploymentState>, dryRun: DryRunResult,
                          now: Time)
    requires r.proposal.Some?
    ensures DecidedOn(r, Evaluate(r, r.proposal.value, ready, state, dryRun, now), state)
  {
    hide Evaluate, Acceptable, ValidPolicyDecision;
    DecisionsAreValid(r, r.proposal.value, ready, state, dryRun, now);
    PolicyVerdict(r, r.proposal.value, ready, state, dryRun, now);
    AcceptableIsReady(r, r.proposal.value, ready, state);
  }

  lemma NoteAccepted(r: InvestigationRecord, e: AuditEvent)
    requires e.incidentId == r.incident.incidentId
    ensures Apply(r, AppendEvent(e)) ==
            if HasEvent(r, e.eventId) then Failure(AlreadyRecorded) else Success(r.(events := Stamped(r, e)))
  {
  }

  lemma AcceptableIsReady(r: InvestigationRecord, proposal: RemediationProposal, ready: bool,
                          state: Option<DeploymentState>)
    ensures Acceptable(r, proposal, ready, state) ==> ready && Acceptable(r, proposal, true, state)
  {
  }

  /** The store takes a decision on the recorded proposal exactly once, and a passed one only while investigating. */
  lemma DecisionRecordedExactly(r: InvestigationRecord, d: PolicyDecision)
    requires KeepsRecord(r) && ValidPolicyDecision(d) && r.proposal.Some?
    requires d.incidentId == r.incident.incidentId && d.proposalId == r.proposal.value.proposalId
    ensures var result := Apply(r, RecordPolicyDecision(d));
            && (result.Success? <==>
                  r.policy.None? && (d.status == PolicyPassed ==> r.incident.lifecycle == Investigating))
            && (result.Success? ==>
                  && result.value.policy == Some(d) && result.value.proposal == r.proposal
                  && result.value.events == r.events
                  && result.value.incident.incidentId == r.incident.incidentId
                  && (d.status == PolicyPassed <==> result.value.incident.lifecycle == AwaitingApproval))
  {
    hide ValidRecord, ValidPolicyDecision;
    if r.policy.None? {
      WithPolicyValid(r, d, r.incident);
      WithPolicyValid(r, d, Bumped(r.incident.(lifecycle := AwaitingApproval)));
    }
  }

  lemma WithPolicyValid(r: InvestigationRecord, d: PolicyDecision, header: Incident)
    requires ValidRecord(r) && ValidPolicyDecision(d) && r.proposal.Some? && r.policy.None?
    requires d.incidentId == r.incident.incidentId && d.proposalId == r.proposal.value.proposalId
    requires header.incidentId == r.incident.incidentId && header.applicationId == r.incident.applicationId
    ensures ValidRecord(r.(incident := header, policy := Some(d)))
  {
    hide ValidProfile, ValidPolicyDecision, ValidApproval, ValidAssessment;
    var s := r.(incident := header, policy := Some(d));
    assert Grounded(s) by {
      assert forall id :: HasQuery(r, id) == HasQuery(s, id);
      assert forall id :: HasEvidence(r, id) == HasEvidence(s, id);
    }
    assert Authorized(s) by {
      assert forall id :: HasApproval(r, id) == HasApproval(s, id);
      assert forall id :: HasIntervention(r, id) == HasIntervention(s, id);
    }
  }
}
