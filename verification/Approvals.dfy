/** The human decision: a reviewed snapshot, one winner, and a message that can always be published. */
module Approvals {
  import opened Wrappers
  import opened Incidents
  import opened ApprovalBindings
  import opened RecordOperations
  import opened RecordInvariants
  import opened RecordRuns
  import opened IncidentStores
  import opened InterventionQueues
  import opened Protocol
  import opened ProtocolInvariants
  import opened ProtocolSteps
  import opened KubernetesProviders
  import opened Hosts

  datatype Role = Viewer | Responder

  datatype OperatorIdentity = OperatorIdentity(principal: string, role: Role)

  datatype ApprovalReview =
    ApprovalReview(incidentId: Ident, proposalId: Ident, responder: string, binding: ApprovalBinding)

  datatype ApprovalError =
    | ResponderRequired | UnknownIncident | AlreadyDecidedError | NothingToReview | StateUnavailable
    | ReviewContextExpired | ReviewContextStale | NotBindable | NotRecorded | StoreRaised | NotPublished
    | NotNoted

  // ---------------------------------------------------------------- what a decision is about

  /** The store accepts a decision only on exactly the facts its responder reviewed, whatever happened in between. */
  lemma DecisionIsAboutTheReview(r0: InvestigationRecord, s0: DeploymentState, r1: InvestigationRecord,
                                 s1: DeploymentState, r2: InvestigationRecord, binding: ApprovalBinding, id: Ident,
                                 responder: string, decision: ApprovalDecision, decidedAt: Time, e: AuditEvent,
                                 now: Time)
    requires BuildApprovalBinding(r0, s0, binding.expiresAt) == Success(binding)
    requires BuildApprovalBinding(r1, s1, binding.expiresAt) == Success(binding)
    requires var a := ApprovalFrom(r1, binding, id, responder, decision, decidedAt);
             ApplyApproval(r2, binding.incidentVersion, a, e, now).Success?
    ensures r2.incident.version == r0.incident.version
    ensures r2.proposal == r0.proposal && r2.policy == r0.policy
    ensures r2.window == r0.window && r2.evidence == r0.evidence
    ensures s1.resourceVersion == s0.resourceVersion && s1.generation == s0.generation && s1.revision == s0.revision
  {
    hide ValidRecord;
    assert binding.evidenceHash == OfEvidence(r0.window, r0.evidence);
    assert binding.proposalHash == OfProposal(r0.proposal.value);
    assert binding.policyHash == OfPolicy(r0.policy.value);
  }

  /** Evidence appended between the responder's look and the store's write makes the write refuse. */
  lemma LateEvidenceRefuses(r: InvestigationRecord, s: DeploymentState, more: seq<EvidenceObservation>,
                            expiresAt: Time, id: Ident, responder: string, decision: ApprovalDecision,
                            decidedAt: Time, e: AuditEvent, now: Time)
    requires BuildApprovalBinding(r, s, expiresAt).Success? && more != []
    ensures var binding := BuildApprovalBinding(r, s, expiresAt).value;
            var a := ApprovalFrom(r, binding, id, responder, decision, decidedAt);
            ApplyApproval(r.(evidence := r.evidence + more), binding.incidentVersion, a, e, now).Failure?
  {
    hide ValidRecord;
    var binding := BuildApprovalBinding(r, s, expiresAt).value;
    assert binding.evidenceHash == OfEvidence(r.window, r.evidence);
    assert r.evidence != r.evidence + more;
  }

  /** The state that stores a decision is the state the decision matches. */
  predicate StoredFresh(before: InvestigationRecord, after: InvestigationRecord) {
    && before.approvals <= after.approvals && |after.approvals| <= 1
    && (before.approvals == [] && after.approvals != [] ==> ApprovalMatchesRecord(after, after.approvals[0]))
  }

  lemma ApplyStoresFresh(r: InvestigationRecord, op: StoreOp)
    requires Apply(r, op).Success? && |r.approvals| <= 1
    ensures StoredFresh(r, Apply(r, op).value)
  {
    hide Apply, ValidRecord;
    if op.RecordApproval? {
      ApplyOfApproval(r, op);
      FreshWhenStored(r, op.expectedVersion, op.approval, op.event, op.now);
    } else {
      SameApprovals(r, op);
    }
  }

  lemma FreshWhenStored(r: InvestigationRecord, version: nat, a: Approval, e: AuditEvent, now: Time)
    requires ApplyApproval(r, version, a, e, now).Success?
    ensures StoredFresh(r, ApplyApproval(r, version, a, e, now).value)
  {
    hide ValidRecord;
  }

  /** Over every run: at most one decision is recorded, and in the very state that stores it, it is fresh. */
  lemma {:induction false} OneFreshDecision(initial: InvestigationRecord, ops: seq<StoreOp>, k: nat)
    requires RecordInvariant(initial) && AdmissibleRun(initial, ops) && k + 1 < |Replay(initial, ops)|
    ensures StoredFresh(Replay(initial, ops)[k], Replay(initial, ops)[k + 1])
  {
    hide Apply, RecordInvariant, HistoryInvariant, StoredFresh, Admissible;
    if ops != [] {
      var before, op := ops[..|ops| - 1], ops[|ops| - 1];
      var history := Replay(initial, before);
      if k + 1 < |history| {
        OneFreshDecision(initial, before, k);
      } else {
        RunKeepsHistory(initial, before);
        HistoryReaches(history);
        OneApproval(history[k]);
        ApplyStoresFresh(history[k], op);
      }
    }
  }

  // ---------------------------------------------------------------- the service

  predicate Decidable(r: InvestigationRecord, state: Option<DeploymentState>, identity: OperatorIdentity,
                      reviewed: ApprovalBinding, now: Time)
  {
    && identity.role == Responder
    && now < reviewed.expiresAt
    && r.approvals == [] && r.proposal.Some? && state.Some?
    && BuildApprovalBinding(r, state.value, reviewed.expiresAt) == Success(reviewed)
  }

  lemma DecidedIsValid(r: InvestigationRecord, a: Approval, e: AuditEvent)
    requires ValidRecord(r) && r.approvals == [] && ApprovalMatchesRecord(r, a) && ValidApproval(a)
    requires a.incidentId == r.incident.incidentId && e.incidentId == r.incident.incidentId
    ensures ValidRecord(r.(incident := Bumped(r.incident), approvals := [a], events := Stamped(r, e)))
  {
    hide ValidProfile, ValidPolicyDecision, ValidApproval, ValidAssessment;
    var s := r.(incident := Bumped(r.incident), approvals := [a], events := Stamped(r, e));
    assert Grounded(s) by {
      assert forall id :: HasQuery(r, id) == HasQuery(s, id);
      assert forall id :: HasEvidence(r, id) == HasEvidence(s, id);
    }
    assert Authorized(s) by {
      assert PolicyIsPassed(r) == PolicyIsPassed(s);
      assert forall id :: HasIntervention(r, id) == HasIntervention(s, id);
    }
  }

  lemma BindingMatches(r: InvestigationRecord, state: DeploymentState, binding: ApprovalBinding, id: Ident,
                       responder: string, decision: ApprovalDecision, decidedAt: Time)
    requires r.proposal.Some? && BuildApprovalBinding(r, state, binding.expiresAt) == Success(binding)
    ensures ApprovalMatchesRecord(r, ApprovalFrom(r, binding, id, responder, decision, decidedAt))
    ensures binding.incidentVersion == r.incident.version
  {
  }

  /** A decidable review is recorded by the store, and its request can be built from what was recorded. */
  lemma DecisionAccepted(r: InvestigationRecord, state: Option<DeploymentState>, identity: OperatorIdentity,
                         reviewed: ApprovalBinding, id: Ident, decision: ApprovalDecision, decidedAt: Time,
                         e: AuditEvent, now: Time)
    requires ValidRecord(r) && PolicyHonest(r) && Decidable(r, state, identity, reviewed, now) && decidedAt <= now
    requires e.incidentId == r.incident.incidentId
    ensures var a := ApprovalFrom(r, reviewed, id, identity.principal, decision, decidedAt);
            var s := r.(incident := Bumped(r.incident), approvals := [a], events := Stamped(r, e));
            && ValidApproval(a)
            && Apply(r, RecordApproval(reviewed.incidentVersion, a, e, now)) == Success(s)
            && (decision == Approved ==> BuildRequest(s, a, decidedAt).Success?)
  {
    var a := ApprovalFrom(r, reviewed, id, identity.principal, decision, decidedAt);
    BindingMatches(r, state.value, reviewed, id, identity.principal, decision, decidedAt);
    DecidedIsValid(r, a, e);
    hide ValidRecord, ApprovalMatchesRecord, BuildRequest, Stamped, PolicyHonest, BuildApprovalBinding;
    if decision == Approved {
      DecidedWhenApproved(r, reviewed.incidentVersion, a, e, now);
    }
  }

  function StateFor(c: Cluster, r: InvestigationRecord): Option<DeploymentState> {
    if r.proposal.None? then None else Inspect(c, r.proposal.value.action.target)
  }

  /** What a successful decision leaves behind: one approval with the reviewed facts, and nothing else but events. */
  predicate DecidedAs(before: InvestigationRecord, after: InvestigationRecord, identity: OperatorIdentity,
                      decision: ApprovalDecision, reviewed: ApprovalBinding)
  {
    && |after.approvals| == 1 && before.events <= after.events
    && after == before.(incident := Bumped(before.incident), approvals := after.approvals, events := after.events)
    && var a := after.approvals[0];
    && a.decision == decision && a.responder == identity.principal && a.expiresAt == reviewed.expiresAt
    && ApprovalMatchesRecord(before, a)
  }

  /** Identifiers in use were all handed out before. */
  predicate QueuePast(requests: map<IdempotencyKey, InterventionRequest>, next: nat) {
    forall k <- requests :: k.approvalId.Uuid? ==> k.approvalId.serial < next
  }

  predicate StoredSoundly(records: Records, id: Ident, next: nat) {
    id in records ==>
      && ValidRecord(records[id]) && PolicyHonest(records[id]) && EventsPast(records[id], next)
      && records[id].incident.incidentId == id
  }

  /** The store, the publisher or the audit event after it raised. */
  predicate CallRaised(r: Result<InvestigationRecord, ApprovalError>) {
    r.Failure? && (r.error.StoreRaised? || r.error.NotPublished? || r.error.NotNoted?)
  }

  class ApprovalService {
    const store: InMemoryIncidentStore
    const kubernetes: KubernetesProvider
    const queue: InMemoryInterventionQueue
    const host: Host
    const reviewTtl: nat
    const publishing: bool

    constructor (store: InMemoryIncidentStore, kubernetes: KubernetesProvider, queue: InMemoryInterventionQueue,
                 host: Host, reviewTtl: nat, publishing: bool)
      ensures this.store == store && this.kubernetes == kubernetes && this.queue == queue && this.host == host
      ensures this.publishing == publishing
    {
      this.store, this.kubernetes, this.queue, this.host, this.reviewTtl := store, kubernetes, queue, host, reviewTtl;
      this.publishing := publishing;
    }

    /** A review succeeds exactly when deciding on its binding right away would. */
    method Review(id: Ident, identity: OperatorIdentity) returns (r: Result<ApprovalReview, ApprovalError>)
      modifies host`now
      ensures r.Success? ==>
                && id in store.records && r.value.incidentId == id && r.value.responder == identity.principal
                && r.value.binding.expiresAt == host.now + reviewTtl
                && (0 < reviewTtl ==> Decidable(store.records[id], StateFor(kubernetes.cluster, store.records[id]),
                                                identity, r.value.binding, host.now))
      ensures r.Failure? && id in store.records ==>
                forall reviewed: ApprovalBinding ::
                  !Decidable(store.records[id], StateFor(kubernetes.cluster, store.records[id]), identity, reviewed,
                             host.now)
    {
      var now, elapsed := host.Clock();
      if identity.role != Responder {
        return Failure(ResponderRequired);
      }
      if id !in store.records {
        return Failure(UnknownIncident);
      }
      var record := store.records[id];
      if record.approvals != [] {
        return Failure(AlreadyDecidedError);
      }
      if record.proposal.None? {
        return Failure(NothingToReview);
      }
      var state := kubernetes.InspectDeployment(record.proposal.value.action.target);
      if state.None? {
        return Failure(StateUnavailable);
      }
      var binding := BuildApprovalBinding(record, state.value, now + reviewTtl);
      if binding.Failure? {
        return Failure(NotBindable);
      }
      r := Success(ApprovalReview(id, record.proposal.value.proposalId, identity.principal, binding.value));
    }

    /** Checks the reviewed binding against the record and the live state as they are now. */
    method CheckReview(id: Ident, identity: OperatorIdentity, reviewed: ApprovalBinding, now: Time)
      returns (r: Result<InvestigationRecord, ApprovalError>)
      ensures r.Success? <==> id in store.records && Decidable(store.records[id],
                                                              StateFor(kubernetes.cluster, store.records[id]),
                                                              identity, reviewed, now)
      ensures r.Success? ==> r.value == store.records[id]
      ensures r.Failure? ==> !r.error.StoreRaised? && !r.error.NotPublished? && !r.error.NotNoted?
    {
      if identity.role != Responder {
        return Failure(ResponderRequired);
      }
      if reviewed.expiresAt <= now {
        return Failure(ReviewContextExpired);
      }
      if id !in store.records {
        return Failure(UnknownIncident);
      }
      var record := store.records[id];
      if record.approvals != [] {
        return Failure(AlreadyDecidedError);
      }
      if record.proposal.None? {
        return Failure(NothingToReview);
      }
      var state := kubernetes.InspectDeployment(record.proposal.value.action.target);
      if state.None? {
        return Failure(StateUnavailable);
      }
      var current := BuildApprovalBinding(record, state.value, reviewed.expiresAt);
      if current.Failure? {
        return Failure(NotBindable);
      }
      if current.value != reviewed {
        return Failure(ReviewContextStale);
      }
      r := Success(record);
    }

    /**
     * Records the decision, then publishes an approval. Only a store that raises, or refuses, leaves nothing behind;
     * a publisher or an audit event that raises leaves the stored approval.
     */
    method Decide(id: Ident, identity: OperatorIdentity, decision: ApprovalDecision, reviewed: ApprovalBinding)
      returns (r: Result<InvestigationRecord, ApprovalError>)
      requires StoredSoundly(store.records, id, host.nextUuid) && QueuePast(queue.requests, host.nextUuid)
      modifies store, queue, host
      ensures var decidable := id in old(store.records)
                               && Decidable(old(store.records)[id],
                                            StateFor(kubernetes.cluster, old(store.records)[id]), identity, reviewed,
                                            host.now);
              if decidable && r != Failure(StoreRaised)
              then && id in old(store.records) && id in store.records
                   && store.records == old(store.records)[id := store.records[id]]
                   && DecidedAs(old(store.records)[id], store.records[id], identity, decision, reviewed)
                   && (r == Success(store.records[id]) || r == Failure(NotPublished) || r == Failure(NotNoted))
                   && (r.Failure? ==> decision == Approved && publishing)
              else && r.Failure? && r != Failure(NotPublished) && r != Failure(NotNoted)
                   && store.records == old(store.records)
      ensures if decision == Approved && publishing && id in store.records && (r.Success? || r == Failure(NotNoted))
              then PublishedFor(store.records[id], old(queue.requests), queue.requests)
              else queue.requests == old(queue.requests)
      ensures host.faults == old(host.faults) + if CallRaised(r) then 1 else 0
      ensures store.records != old(store.records) ==>
                identity.role == Responder && host.now < reviewed.expiresAt && old(store.records)[id].approvals == []
    {
      hide PolicyHonest, ValidRecord, EventsPast, DecidedAs, QueuePast, PublishedFor, Decidable, StateFor;
      var now, elapsed := host.Clock();
      var checked := CheckReview(id, identity, reviewed, now);
      if checked.Failure? {
        return Failure(checked.error);
      }
      r := RecordDecision(id, checked.value, identity, decision, reviewed, now);
      OnlyResponders(checked.value, StateFor(kubernetes.cluster, checked.value), identity, reviewed, host.now);
    }

    /** Stores a checked decision; the store refuses it only when the review expired in between. */
    method RecordDecision(id: Ident, record: InvestigationRecord, identity: OperatorIdentity,
                          decision: ApprovalDecision, reviewed: ApprovalBinding, now: Time)
      returns (r: Result<InvestigationRecord, ApprovalError>)
      requires StoredSoundly(store.records, id, host.nextUuid) && QueuePast(queue.requests, host.nextUuid)
      requires id in store.records && store.records[id] == record && now == host.now
      requires Decidable(record, StateFor(kubernetes.cluster, record), identity, reviewed, now)
      modifies store, queue, host
      ensures var decidable := Decidable(record, StateFor(kubernetes.cluster, record), identity, reviewed, host.now);
              if decidable && r != Failure(StoreRaised)
              then && id in store.records && store.records == old(store.records)[id := store.records[id]]
                   && DecidedAs(record, store.records[id], identity, decision, reviewed)
                   && (r == Success(store.records[id]) || r == Failure(NotPublished) || r == Failure(NotNoted))
                   && (r.Failure? ==> decision == Approved && publishing)
              else && r.Failure? && r != Failure(NotPublished) && r != Failure(NotNoted)
                   && store.records == old(store.records)
      ensures if decision == Approved && publishing && (r.Success? || r == Failure(NotNoted))
              then id in store.records && PublishedFor(store.records[id], old(queue.requests), queue.requests)
              else queue.requests == old(queue.requests)
      ensures host.faults == old(host.faults) + if CallRaised(r) then 1 else 0
    {
      hide PolicyHonest, ValidRecord, Apply, Published, RequestHash, BuildRequest, ApprovalMatchesRecord, EventsPast;
      hide BuildApprovalBinding, Stamped, DecidedAs, QueuePast, PublishedFor, Decidable, StateFor;
      ghost var state := StateFor(kubernetes.cluster, record);
      DecidableHasProposal(record, state, identity, reviewed, now);
      var approvalId := host.FreshId();
      var approval := ApprovalFrom(record, reviewed, approvalId, identity.principal, decision, now);
      var eventId := host.FreshId();
      var event := AuditEvent(eventId, id, OtherEvent("proposal_decided"), identity.principal, None, 0);
      var storedAt, passed := host.Clock();
      DecidableUntil(record, state, identity, reviewed, now, storedAt);
      var raised := host.Raises();
      if raised {
        return Failure(StoreRaised);
      }
      var recorded := store.Perform(id, RecordApproval(reviewed.incidentVersion, approval, event, storedAt));
      RecordedWhenDecidable(record, state, identity, reviewed, approvalId, decision, now, event, storedAt);
      if recorded.Failure? {
        return Failure(NotRecorded);
      }
      DecidedFacts(record, state, identity, reviewed, approvalId, decision, now, event, storedAt);
      EventsLater(record, old(host.nextUuid));
      EventsStayPast(record, RecordApproval(reviewed.incidentVersion, approval, event, storedAt),
                     old(host.nextUuid) + 1);
      r := Success(recorded.value);
      if decision == Approved && publishing {
        BuiltIsPublished(recorded.value, approval, now);
        KeyUnused(queue.requests, approval.approvalId, old(host.nextUuid));
        r := Publish(id, recorded.value, approval, now);
        DecidedAsNoted(record, recorded.value, store.records[id], identity, decision, reviewed);
        PublishedAsNoted(recorded.value, approval, now, store.records[id].events, old(queue.requests));
      }
    }

    /** Queues the one request of an approval and notes it on the record; each of the two may raise. */
    method Publish(id: Ident, recorded: InvestigationRecord, approval: Approval, now: Time)
      returns (r: Result<InvestigationRecord, ApprovalError>)
      requires id in store.records && store.records[id] == recorded && recorded.incident.incidentId == id
      requires BuildRequest(recorded, approval, now).Success? && EventsPast(recorded, host.nextUuid)
      requires BuildRequest(recorded, approval, now).value.key !in queue.requests
      modifies store, queue, host`nextUuid, host`faults
      ensures host.faults == old(host.faults) + if r.Failure? then 1 else 0
      ensures id in store.records && store.records == old(store.records)[id := store.records[id]]
      ensures store.records[id] == recorded.(events := store.records[id].events)
      ensures recorded.events <= store.records[id].events
      ensures r == Success(store.records[id]) || r == Failure(NotPublished) || r == Failure(NotNoted)
      ensures r.Failure? ==> store.records == old(store.records)
      ensures var q := BuildRequest(recorded, approval, now).value;
              queue.requests == if r == Failure(NotPublished) then old(queue.requests)
                                else old(queue.requests)[q.key := q]
    {
      hide BuildRequest, EventsPast;
      var raised := host.Raises();
      if raised {
        return Failure(NotPublished);
      }
      var request := BuildRequest(recorded, approval, now);
      var published := queue.Publish(request.value);
      assert published.Success?;
      raised := host.Raises();
      if raised {
        return Failure(NotNoted);
      }
      var eventId := host.FreshId();
      var event := AuditEvent(eventId, id, OtherEvent("intervention_requested"), "investigator", None, 0);
      LogAccepted(recorded, event, old(host.nextUuid));
      var noted := store.Perform(id, AppendEvent(event));
      r := Success(noted.value);
    }
  }

  lemma OnlyResponders(r: InvestigationRecord, state: Option<DeploymentState>, identity: OperatorIdentity,
                       reviewed: ApprovalBinding, now: Time)
    ensures Decidable(r, state, identity, reviewed, now) ==>
              identity.role == Responder && now < reviewed.expiresAt && r.approvals == []
  {
  }

  lemma DecidableHasProposal(r: InvestigationRecord, state: Option<DeploymentState>, identity: OperatorIdentity,
                             reviewed: ApprovalBinding, now: Time)
    requires Decidable(r, state, identity, reviewed, now)
    ensures r.proposal.Some?
  {
  }

  /** Time alone ends a review. */
  lemma DecidableUntil(r: InvestigationRecord, state: Option<DeploymentState>, identity: OperatorIdentity,
                       reviewed: ApprovalBinding, now: Time, later: Time)
    requires Decidable(r, state, identity, reviewed, now)
    ensures Decidable(r, state, identity, reviewed, later) <==> later < reviewed.expiresAt
  {
    hide BuildApprovalBinding;
  }

  /** One request was queued, and it carries exactly the facts of the stored approval. */
  ghost predicate PublishedFor(r: InvestigationRecord, before: map<IdempotencyKey, InterventionRequest>,
                               after: map<IdempotencyKey, InterventionRequest>)
  {
    exists q: InterventionRequest ::
      after == before[q.key := q] && q.key !in before && Published(r, q) && RequestHash(q) == q.payloadHash
  }

  lemma PublishedAsNoted(r: InvestigationRecord, a: Approval, now: Time, events: seq<AuditEvent>,
                         before: map<IdempotencyKey, InterventionRequest>)
    requires BuildRequest(r, a, now).Success? && r.approvals == [a]
    requires BuildRequest(r, a, now).value.key !in before
    ensures var q := BuildRequest(r, a, now).value;
            PublishedFor(r.(events := events), before, before[q.key := q])
  {
    hide BuildRequest, RequestHash, Published;
    BuiltIsPublished(r, a, now);
  }

  /** A stored decision is final: an approval whose publication failed can never be decided, so published, again. */
  lemma DecidedIsFinal(before: InvestigationRecord, after: InvestigationRecord, later: InvestigationRecord,
                       identity: OperatorIdentity, decision: ApprovalDecision, reviewed: ApprovalBinding,
                       state: Option<DeploymentState>, other: OperatorIdentity, again: ApprovalBinding, now: Time)
    requires DecidedAs(before, after, identity, decision, reviewed) && Extends(after, later)
    ensures !Decidable(later, state, other, again, now)
  {
  }

  lemma KeyUnused(requests: map<IdempotencyKey, InterventionRequest>, id: Ident, next: nat)
    requires QueuePast(requests, next) && id == Uuid(next)
    ensures forall k <- requests :: k.approvalId != id
  {
  }

  lemma DecidedAsNoted(before: InvestigationRecord, after: InvestigationRecord, final: InvestigationRecord,
                       identity: OperatorIdentity, decision: ApprovalDecision, reviewed: ApprovalBinding)
    requires DecidedAs(before, after, identity, decision, reviewed)
    requires final == after.(events := final.events) && after.events <= final.events
    ensures DecidedAs(before, final, identity, decision, reviewed)
  {
  }

  lemma EventsLater(r: InvestigationRecord, next: nat)
    requires EventsPast(r, next)
    ensures EventsPast(r, next + 1)
  {
  }

  lemma BuiltIsPublished(r: InvestigationRecord, a: Approval, now: Time)
    requires BuildRequest(r, a, now).Success? && r.approvals == [a]
    ensures var q := BuildRequest(r, a, now).value;
            Published(r, q) && RequestHash(q) == q.payloadHash && q.key.approvalId == a.approvalId
    ensures forall events :: Published(r.(events := events), BuildRequest(r, a, now).value)
  {
  }

  /** The store refuses a checked review only when it expired in between. */
  lemma RecordedWhenDecidable(r: InvestigationRecord, state: Option<DeploymentState>, identity: OperatorIdentity,
                              reviewed: ApprovalBinding, id: Ident, decision: ApprovalDecision, decidedAt: Time,
                              e: AuditEvent, now: Time)
    requires ValidRecord(r) && PolicyHonest(r) && Decidable(r, state, identity, reviewed, decidedAt) && decidedAt <= now
    requires e.incidentId == r.incident.incidentId
    ensures var a := ApprovalFrom(r, reviewed, id, identity.principal, decision, decidedAt);
            Apply(r, RecordApproval(reviewed.incidentVersion, a, e, now)).Success? <==> now < reviewed.expiresAt
  {
    hide PolicyHonest, ValidRecord, BuildApprovalBinding, Stamped;
    if now < reviewed.expiresAt {
      DecisionAccepted(r, state, identity, reviewed, id, decision, decidedAt, e, now);
    }
  }

  lemma DecidedFacts(r: InvestigationRecord, state: Option<DeploymentState>, identity: OperatorIdentity,
                     reviewed: ApprovalBinding, id: Ident, decision: ApprovalDecision, decidedAt: Time,
                     e: AuditEvent, now: Time)
    requires ValidRecord(r) && PolicyHonest(r) && Decidable(r, state, identity, reviewed, now) && decidedAt <= now
    requires e.incidentId == r.incident.incidentId
    ensures var a := ApprovalFrom(r, reviewed, id, identity.principal, decision, decidedAt);
            var result := Apply(r, RecordApproval(reviewed.incidentVersion, a, e, now));
            && result.Success? && result.value.approvals == [a]
            && result.value.incident.incidentId == r.incident.incidentId
            && DecidedAs(r, result.value, identity, decision, reviewed)
            && (decision == Approved ==> BuildRequest(result.value, a, decidedAt).Success?)
  {
    hide PolicyHonest, ValidRecord, BuildApprovalBinding, Apply, ApprovalMatchesRecord, BuildRequest;
    DecisionAccepted(r, state, identity, reviewed, id, decision, decidedAt, e, now);
    BindingMatches(r, state.value, reviewed, id, identity.principal, decision, decidedAt);
  }
}
