/** Hash-bound Intervention requests and the idempotent queue that carries them to the Executor. */
module InterventionQueues {
  import opened Wrappers
  import opened Incidents
  import opened ApprovalBindings

  datatype PublishError = NotApprovedDecision | PolicyNotPassed | NoReviewedPatch | WrongApproval | StaleApproval
                        | InvalidRequest | KeyReused

  function RequestHash(q: InterventionRequest): PayloadHash {
    PayloadHash(q.requestId, q.incidentId, q.proposalId, q.approvalId, q.target, q.patch, q.requestedAt, q.key)
  }

  /** The one message a current approval authorizes. */
  function BuildRequest(r: InvestigationRecord, a: Approval, requestedAt: Time)
    : Result<InterventionRequest, PublishError>
  {
    if a.decision != Approved then Failure(NotApprovedDecision)
    else if r.proposal.None? || !PolicyIsPassed(r) then Failure(PolicyNotPassed)
    else if r.policy.value.patch.None? then Failure(NoReviewedPatch)
    else
      var proposal, patch := r.proposal.value, r.policy.value.patch.value;
      if a.proposalId != proposal.proposalId then Failure(WrongApproval)
      else if a.expiresAt <= requestedAt || !ApprovalMatchesRecord(r, a) then Failure(StaleApproval)
      else if patch.target != proposal.action.target then Failure(InvalidRequest)
      else
        var key := IdempotencyKey(r.incident.incidentId, proposal.proposalId, a.approvalId, proposal.action.target);
        var draft := PayloadHash(RequestOf(key), r.incident.incidentId, proposal.proposalId, a.approvalId,
                                 proposal.action.target, patch, requestedAt, key);
        Success(InterventionRequest(draft.requestId, draft.incidentId, draft.proposalId, draft.approvalId,
                                    draft.target, draft.patch, draft.requestedAt, draft.key, draft))
  }

  /** A request the publisher builds carries the hash the Executor recomputes, and the one key of its approval. */
  lemma BuiltRequestIsBound(r: InvestigationRecord, a: Approval, requestedAt: Time)
    requires BuildRequest(r, a, requestedAt).Success?
    ensures var q := BuildRequest(r, a, requestedAt).value;
            && RequestHash(q) == q.payloadHash
            && r.policy.value.patch == Some(q.patch)
            && q.patch.target == q.target == r.proposal.value.action.target
            && q.key == IdempotencyKey(q.incidentId, q.proposalId, q.approvalId, q.target)
            && q.incidentId == r.incident.incidentId && q.proposalId == r.proposal.value.proposalId
            && q.approvalId == a.approvalId && q.requestedAt == requestedAt
            && a.decision == Approved && requestedAt < a.expiresAt && ApprovalMatchesRecord(r, a)
  {
  }

  class InMemoryInterventionQueue {
    var requests: map<IdempotencyKey, InterventionRequest>

    constructor ()
      ensures requests == map[]
    {
      requests := map[];
    }

    /** Publishing again under the same key is accepted only for the identical message. */
    method Publish(q: InterventionRequest) returns (r: Result<(), PublishError>)
      modifies this
      ensures r.Success? <==> (q.key in old(requests) ==> old(requests)[q.key] == q)
      ensures requests == if r.Success? then old(requests)[q.key := q] else old(requests)
      ensures old(requests).Keys <= requests.Keys && forall k <- old(requests) :: requests[k] == old(requests)[k]
    {
      if q.key in requests && requests[q.key] != q {
        return Failure(KeyReused);
      }
      requests := requests[q.key := q];
      r := Success(());
    }
  }
}
