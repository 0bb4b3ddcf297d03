/** Hashing and freshness rules that bind one human decision to the record it reviewed. */
module ApprovalBindings {
  import opened Wrappers
  import opened Incidents

  datatype BindingError = NoPassedPolicy | NoDryRun | LiveStateChanged

  /** The snapshot a Responder reviews: defined only while the live workload is the one policy saw. */
  function BuildApprovalBinding(r: InvestigationRecord, state: DeploymentState, expiresAt: Time)
    : Result<ApprovalBinding, BindingError>
  {
    if r.proposal.None? || !PolicyIsPassed(r) then Failure(NoPassedPolicy)
    else
      var proposal, policy := r.proposal.value, r.policy.value;
      if policy.dryRunDiff.None? then Failure(NoDryRun)
      else if !(policy.resourceVersion == Some(state.resourceVersion)
                && policy.generation == Some(state.generation)
                && policy.revision == Some(state.revision)) then Failure(LiveStateChanged)
      else Success(ApprovalBinding(
                     r.incident.version, OfProposal(proposal), OfEvidence(r.window, r.evidence),
                     state.resourceVersion, state.generation, state.revision, OfPolicy(policy),
                     OfText(policy.dryRunDiff.value), OfCriteria(proposal.recoveryCriteria),
                     OfText(proposal.rollbackStrategy), expiresAt))
  }

  predicate ApprovalMatchesRecord(r: InvestigationRecord, a: Approval) {
    && r.proposal.Some?
    && PolicyIsPassed(r)
    && r.policy.value.dryRunDiff.Some?
    && var proposal, policy := r.proposal.value, r.policy.value;
    && a.proposalId == proposal.proposalId
    && a.proposalHash == OfProposal(proposal)
    && a.evidenceHash == OfEvidence(r.window, r.evidence)
    && policy.resourceVersion == Some(a.resourceVersion)
    && policy.generation == Some(a.generation)
    && policy.revision == Some(a.revision)
    && a.policyHash == OfPolicy(policy)
    && a.dryRunHash == OfText(policy.dryRunDiff.value)
    && a.criteriaHash == OfCriteria(proposal.recoveryCriteria)
    && a.strategyHash == OfText(proposal.rollbackStrategy)
  }

  /** The Approval that a decision on a reviewed binding records. */
  function ApprovalFrom(r: InvestigationRecord, b: ApprovalBinding, id: Ident, responder: string,
                        decision: ApprovalDecision, decidedAt: Time): Approval
    requires r.proposal.Some?
  {
    Approval(id, r.incident.incidentId, r.proposal.value.proposalId, responder, decision, decidedAt, b.expiresAt,
             b.proposalHash, b.evidenceHash, b.resourceVersion, b.generation, b.revision, b.policyHash,
             b.dryRunHash, b.criteriaHash, b.strategyHash)
  }

  /** Some live state with the version, generation and revision that an approval names. */
  function NamedState(t: WorkloadReference, a: Approval): DeploymentState {
    DeploymentState(t, a.resourceVersion, a.generation, 0, a.revision, [], false, 0)
  }

  /** An approval matches a record exactly when it is the one a decision on a binding of this very record records. */
  lemma MatchesExactly(r: InvestigationRecord, t: WorkloadReference, a: Approval)
    requires a.incidentId == r.incident.incidentId
    ensures var binding := BuildApprovalBinding(r, NamedState(t, a), a.expiresAt);
            ApprovalMatchesRecord(r, a) <==>
            binding.Success?
            && a == ApprovalFrom(r, binding.value, a.approvalId, a.responder, a.decision, a.decidedAt)
  {
  }

  /** A binding stays equal exactly while the reviewed facts do: it forgets nothing a responder could see change. */
  lemma BindingIsExact(r: InvestigationRecord, s: DeploymentState, q: InvestigationRecord, t: DeploymentState,
                       expiresAt: Time)
    requires BuildApprovalBinding(r, s, expiresAt).Success? && BuildApprovalBinding(q, t, expiresAt).Success?
    ensures BuildApprovalBinding(r, s, expiresAt) == BuildApprovalBinding(q, t, expiresAt) <==>
            && r.incident.version == q.incident.version
            && r.proposal == q.proposal && r.policy == q.policy
            && r.window == q.window && r.evidence == q.evidence
  {
    var b, c := BuildApprovalBinding(r, s, expiresAt).value, BuildApprovalBinding(q, t, expiresAt).value;
    if b == c {
      assert b.proposalHash.proposal == c.proposalHash.proposal;
      assert b.policyHash.policy == c.policyHash.policy;
      assert b.evidenceHash.window == c.evidenceHash.window;
    }
  }
}
