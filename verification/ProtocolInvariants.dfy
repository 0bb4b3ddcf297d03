/** The invariant of the intervention protocol: what the shared state keeps and what each instance may rely on. */
module ProtocolInvariants {
  import opened Wrappers
  import opened Incidents
  import opened ApprovalBindings
  import opened RecordOperations
  import opened RecordInvariants
  import opened RecordRuns
  import opened WorkloadLeases
  import opened ProposalPolicy
  import opened InterventionQueues
  import opened Protocol

  // ---------------------------------------------------------------- shared state

  /** The passed policy decision is one the policy engine built for the recorded proposal. */
  predicate PolicyHonest(r: InvestigationRecord) {
    PolicyIsPassed(r) ==>
      && r.proposal.Some? && r.policy.value.patch.Some?
      && r.policy.value.patch.value.target == r.proposal.value.action.target
      && r.policy.value.resourceVersion == Some(r.policy.value.patch.value.resourceVersion)
  }

  predicate EventsPast(r: InvestigationRecord, next: nat) {
    forall e <- r.events :: e.eventId.Uuid? ==> e.eventId.serial < next
  }

  predicate RegisterSound(c: Cluster, t: WorkloadReference)
    requires t in c
  {
    && (c[t].current.Some? ==> c[t].current.value in c[t].versions)
    && (forall v <- c[t].versions :: c[t].versions[v].resourceVersion == v && c[t].versions[v].target == t)
  }

  predicate ClusterSound(c: Cluster) {
    forall t <- c :: RegisterSound(c, t)
  }

  /** A scale patch asks for a count inside the declared bounds and the headroom of `onto`. */
  predicate Bounded(p: ApplicationProfile, patch: DeploymentPatch, onto: DeploymentState) {
    patch.actionType == ScaleType ==>
      && RequestedReplicas(patch).Some?
      && var n, workload := RequestedReplicas(patch).value, FindWorkload(p.workloads, patch.target);
      && workload.Some?
      && workload.value.bounds.minimum <= n <= workload.value.bounds.maximum
      && n <= onto.replicas + onto.headroom
  }

  /** A forward write is the reviewed patch on the approved version; a restoration only ever undoes a scale. */
  predicate Authorised(r: InvestigationRecord, w: Write) {
    && PolicyIsPassed(r) && r.proposal.Some? && |r.approvals| == 1
    && w.onto.target == w.patch.target == r.proposal.value.action.target
    && w.onto.resourceVersion == w.patch.resourceVersion
    && Bounded(r.profile, w.patch, w.onto)
    && (match w.kind
        case Forward =>
          && r.policy.value.patch == Some(w.patch)
          && w.onto.resourceVersion == r.approvals[0].resourceVersion
          && w.onto.generation == r.approvals[0].generation && w.onto.revision == r.approvals[0].revision
        case Restoration => r.proposal.value.action.ScaleDeployment? && w.patch.actionType == ScaleType)
  }

  predicate Superseded(c: Cluster, w: Write) {
    && Known(c, w.onto)
    && c[w.onto.target].current != Some(w.onto.resourceVersion)
  }

  predicate WriteSound(r: InvestigationRecord, c: Cluster, w: Write) {
    Authorised(r, w) && Superseded(c, w)
  }

  /** The second write asks for the replicas of the state the first one landed on. */
  predicate Undoes(restoration: Write, forward: Write) {
    RequestedReplicas(restoration.patch) == Some(forward.onto.replicas)
  }

  /** Nothing, one forward write, or one forward write and its restoration, all by one instance. */
  predicate LedgerShape(ledger: seq<Write>) {
    && |ledger| <= 2
    && (|ledger| >= 1 ==> ledger[0].kind == Forward)
    && (|ledger| == 2 ==>
          && ledger[1].kind == Restoration && ledger[1].instance == ledger[0].instance
          && Undoes(ledger[1], ledger[0]))
  }

  predicate Credited(s: InterventionState) {
    s == Succeeded || s == Failed || s == RolledBack
  }

  /** The recorded outcome fixes how many writes there were. */
  predicate OutcomeCounts(r: InvestigationRecord, ledger: seq<Write>) {
    if r.interventions == [] then ledger == []
    else match r.interventions[0].state
         case Succeeded => |ledger| == 1
         case Failed => |ledger| == 1
         case RolledBack => |ledger| == 2
         case _ => true
  }

  /** A queued request carries exactly the facts of the one approved decision. */
  predicate Published(r: InvestigationRecord, q: InterventionRequest) {
    && r.proposal.Some? && PolicyIsPassed(r) && |r.approvals| == 1
    && r.approvals[0].decision == Approved
    && q.incidentId == r.incident.incidentId
    && q.proposalId == r.proposal.value.proposalId
    && q.approvalId == r.approvals[0].approvalId
    && q.target == r.proposal.value.action.target
    && r.policy.value.patch == Some(q.patch)
    && q.key == IdempotencyKey(q.incidentId, q.proposalId, q.approvalId, q.target)
  }

  predicate DecidedSound(r: InvestigationRecord, d: Decided) {
    && Extends(d.recorded, r)
    && d.recorded.approvals == [d.approval]
    && BuildRequest(d.recorded, d.approval, d.approval.decidedAt).Success?
  }

  /** Every lease document sits under its own key, and its token was issued already. */
  predicate LeasesPast(leases: map<string, WorkloadLease>, next: nat) {
    forall k <- leases ::
      LeaseKey(leases[k].target) == k && (leases[k].token.Uuid? ==> leases[k].token.serial < next)
  }

  predicate SharedInvariant(s: Shared): (holds: bool)
    ensures holds ==> s.history != []
  {
    && HistoryInvariant(s.history)
    && PolicyHonest(Current(s))
    && EventsPast(Current(s), s.nextUuid)
    && ClusterSound(s.cluster)
    && LedgerShape(s.ledger)
    && OutcomeCounts(Current(s), s.ledger)
    && (forall w <- s.ledger :: WriteSound(Current(s), s.cluster, w))
    && (forall q <- s.queue :: Published(Current(s), q))
    && (s.decided.Some? ==> DecidedSound(Current(s), s.decided.value))
    && LeasesPast(s.leases, s.nextUuid)
  }

  // ---------------------------------------------------------------- instances

  /** The record's one Intervention is this one, whatever has become of it since. */
  predicate ClaimedAs(r: InvestigationRecord, i: Intervention) {
    && i.state == Running
    && |r.interventions| == 1
    && r.interventions[0].(state := Running) == i
  }

  predicate Finished(r: InvestigationRecord) {
    |r.interventions| == 1 && Terminal(r.interventions[0].state)
  }

  /** A settled claim has a terminal Intervention; one whose halt raised still has an Intervention of some state. */
  predicate ClaimSettled(r: InvestigationRecord, claim: Claim) {
    && (claim.Settled? ==> Finished(r))
    && (claim.Unhalted? ==> |r.interventions| == 1)
  }

  predicate Silent(ledger: seq<Write>, n: nat) {
    forall w <- ledger :: w.instance != n
  }

  predicate WroteExactly(ledger: seq<Write>, n: nat, count: nat) {
    count != 0 && |ledger| == count && ledger[0].instance == n
  }

  /** The lease was issued here, and its token is only ever stored with its owner. */
  predicate LeaseSound(s: Shared, lease: WorkloadLease) {
    && lease.token.Uuid? && lease.token.serial < s.nextUuid
    && var doc := Lookup(s.leases, LeaseKey(lease.target));
    doc.Some? && doc.value.token == lease.token ==> doc.value.owner == lease.owner
  }

  predicate LeaseGone(s: Shared, lease: WorkloadLease) {
    var doc := Lookup(s.leases, LeaseKey(lease.target));
    doc.Some? ==> doc.value.token != lease.token
  }

  /** What the authority checks established about the record they read. */
  predicate SeenSound(r: InvestigationRecord, q: InterventionRequest, seen: InvestigationRecord, approval: Approval) {
    && Extends(seen, r)
    && seen.proposal.Some? && PolicyIsPassed(seen)
    && seen.policy.value.patch == Some(q.patch)
    && seen.approvals == [approval]
    && seen.policy.value.resourceVersion == Some(approval.resourceVersion)
  }

  predicate BeforeSound(s: Shared, q: InterventionRequest, approval: Approval, before: DeploymentState) {
    && before.target == q.target
    && Known(s.cluster, before)
    && AtApprovedVersion(approval, before)
  }

  /** The restoration patch undoes the scale, on a state the register really had and inside its headroom. */
  predicate RestoreSound(s: Shared, seen: InvestigationRecord, before: DeploymentState, patch: DeploymentPatch)
    requires seen.proposal.Some?
  {
    && seen.proposal.value.action.ScaleDeployment?
    && patch.actionType == ScaleType
    && RequestedReplicas(patch) == Some(before.replicas)
    && patch.target == seen.proposal.value.action.target
    && patch.target in s.cluster
    && patch.resourceVersion in s.cluster[patch.target].versions
    && Bounded(seen.profile, patch, s.cluster[patch.target].versions[patch.resourceVersion])
  }

  predicate InFlight(s: Shared, n: nat, count: nat)
    requires s.history != []
  {
    && WroteExactly(s.ledger, n, count)
    && Current(s).interventions != []
    && !Credited(Current(s).interventions[0].state)
  }

  /** What this instance wrote landed on the state it had inspected. */
  predicate InFlightFrom(s: Shared, n: nat, count: nat, before: DeploymentState)
    requires s.history != []
  {
    InFlight(s, n, count) && s.ledger[0].onto == before
  }

  predicate StageInvariant(s: Shared, n: nat, q: InterventionRequest, seen: InvestigationRecord, approval: Approval,
                           stage: Stage)
    requires s.history != [] && seen.proposal.Some?
  {
    match stage
    case Claiming => Silent(s.ledger, n)
    case Resuming => Silent(s.ledger, n)
    case Inspecting => Silent(s.ledger, n)
    case Revalidating(before) => Silent(s.ledger, n) && BeforeSound(s, q, approval, before)
    case ReportingValidated(before) =>
      Silent(s.ledger, n) && BeforeSound(s, q, approval, before) && Bounded(seen.profile, q.patch, before)
    case ReportingDryRun(before) =>
      Silent(s.ledger, n) && BeforeSound(s, q, approval, before) && Bounded(seen.profile, q.patch, before)
    case Renewing(before) =>
      Silent(s.ledger, n) && BeforeSound(s, q, approval, before) && Bounded(seen.profile, q.patch, before)
    case Mutating(before) =>
      Silent(s.ledger, n) && BeforeSound(s, q, approval, before) && Bounded(seen.profile, q.patch, before)
    case ReportingMutated(before) => InFlightFrom(s, n, 1, before)
    case Verifying(before) => InFlightFrom(s, n, 1, before)
    case ReportingFailed(before, observed) => InFlightFrom(s, n, 1, before)
    case RecordingFailed => InFlight(s, n, 1)
    case RecordingSucceeded => InFlight(s, n, 1)
    case Reinspecting(before, observed) =>
      InFlightFrom(s, n, 1, before) && seen.proposal.value.action.ScaleDeployment?
    case RevalidatingRestore(before, observed) =>
      InFlightFrom(s, n, 1, before) && seen.proposal.value.action.ScaleDeployment?
    case ReportingRestore(before, observed, patch) =>
      InFlightFrom(s, n, 1, before) && RestoreSound(s, seen, before, patch)
    case RenewingRestore(before, observed, patch) =>
      InFlightFrom(s, n, 1, before) && RestoreSound(s, seen, before, patch)
    case Restoring(before, observed, patch) =>
      InFlightFrom(s, n, 1, before) && RestoreSound(s, seen, before, patch)
    case ReportingRestored(before, observed, patch) => InFlight(s, n, 2)
    case VerifyingRestored(before, observed, patch) => InFlight(s, n, 2)
    case RecordingRolledBack => InFlight(s, n, 2)
  }

  predicate PcInvariant(s: Shared, n: nat, q: InterventionRequest, pc: Pc)
    requires s.history != []
  {
    var r := Current(s);
    match pc
    case Starting => Silent(s.ledger, n)
    case RejectingDuplicate(_) => true
    case Receiving(i, resuming) =>
      Silent(s.ledger, n) && (if resuming then ClaimedAs(r, i) else i == NewIntervention(q))
    case Acquiring(i, resuming) =>
      Silent(s.ledger, n) && (if resuming then ClaimedAs(r, i) else i == NewIntervention(q))
    case ReportingBusy => true
    case Rechecking(i, resuming, lease) =>
      && Silent(s.ledger, n) && LeaseSound(s, lease)
      && (if resuming then ClaimedAs(r, i) else i == NewIntervention(q))
    case Guarded(i, lease, seen, approval, stage) =>
      && LeaseSound(s, lease)
      && SeenSound(r, q, seen, approval)
      && (if stage.Claiming? then i == NewIntervention(q) else ClaimedAs(r, i))
      && StageInvariant(s, n, q, seen, approval, stage)
    case Halting(i, lease) => LeaseSound(s, lease) && ClaimedAs(r, i)
    case RecordingHalt(i, lease) => LeaseSound(s, lease) && ClaimedAs(r, i)
    case Refusing(lease) => LeaseSound(s, lease)
    case Releasing(lease, claim, _) => LeaseSound(s, lease) && ClaimSettled(r, claim)
    case ReportingSkipped(lease, claim, _) => LeaseSound(s, lease) && LeaseGone(s, lease) && ClaimSettled(r, claim)
    case Exited(held, claim, _, unreleased) =>
      && (held.Some? ==> LeaseSound(s, held.value) && (unreleased || LeaseGone(s, held.value)))
      && ClaimSettled(r, claim) && (!claim.Unclaimed? ==> held.Some?)
    case Crashed => true
  }

  predicate InstanceInvariant(s: Shared, n: nat, e: Instance)
    requires s.history != []
  {
    e.request in s.queue && PcInvariant(s, n, e.request, e.pc)
  }

  predicate SystemInvariant(y: System) {
    && SharedInvariant(y.shared)
    && (forall w <- y.shared.ledger :: w.instance < |y.instances|)
    && (forall n | 0 <= n < |y.instances| :: InstanceInvariant(y.shared, n, y.instances[n]))
  }

  // ---------------------------------------------------------------- how the shared state evolves

  predicate ClusterGrows(c: Cluster, d: Cluster) {
    forall t <- c :: t in d && forall v <- c[t].versions :: v in d[t].versions && d[t].versions[v] == c[t].versions[v]
  }

  /** A document keeps token and owner, disappears, or is replaced under a fresh token. */
  predicate LeasesEvolve(a: map<string, WorkloadLease>, b: map<string, WorkloadLease>, next: nat) {
    forall k <- b ::
      || (k in a && b[k].token == a[k].token && b[k].owner == a[k].owner)
      || (b[k].token.Uuid? && b[k].token.serial >= next)
  }

  /** Only the instance that wrote first records an outcome that credits writes. */
  predicate OutcomeBy(r: InvestigationRecord, q: InvestigationRecord, ledger: seq<Write>, actor: nat) {
    q.interventions != [] && Credited(q.interventions[0].state) ==>
      || (r.interventions != [] && Credited(r.interventions[0].state))
      || (ledger != [] && ledger[0].instance == actor)
  }

  /** One step by instance `n`, or by the environment when no instance has that number. */
  predicate Evolves(s: Shared, t: Shared, n: nat) {
    && s.history != [] && t.history != []
    && Extends(Current(s), Current(t))
    && s.queue <= t.queue
    && ClusterGrows(s.cluster, t.cluster)
    && s.ledger <= t.ledger
    && (forall k | |s.ledger| <= k < |t.ledger| :: t.ledger[k].instance == n)
    && s.nextUuid <= t.nextUuid
    && LeasesEvolve(s.leases, t.leases, s.nextUuid)
    && OutcomeBy(Current(s), Current(t), s.ledger, n)
  }

  // ---------------------------------------------------------------- stability

  lemma CurrentCoupled(s: Shared)
    requires HistoryInvariant(s.history)
    ensures RecordInvariant(Current(s))
    ensures |Current(s).interventions| <= 1 && |Current(s).approvals| <= 1
    ensures Current(s).interventions != [] ==>
              && (Current(s).interventions[0].state == Running || Terminal(Current(s).interventions[0].state))
              && |Current(s).approvals| == 1
  {
    assert RecordInvariant(s.history[|s.history| - 1]);
    hide HistoryInvariant, ValidRecord;
    OneApproval(Current(s));
  }

  lemma ClaimStable(r: InvestigationRecord, t: InvestigationRecord, i: Intervention)
    requires ClaimedAs(r, i) && Extends(r, t) && |t.interventions| <= 1
    ensures ClaimedAs(t, i) && (Finished(r) ==> Finished(t))
  {
    assert InterventionAdvances(r.interventions[0], t.interventions[0]);
  }

  lemma FinishedStable(r: InvestigationRecord, t: InvestigationRecord)
    requires Finished(r) && Extends(r, t) && |t.interventions| <= 1
    ensures Finished(t)
  {
    assert InterventionAdvances(r.interventions[0], t.interventions[0]);
  }

  lemma SettledStable(r: InvestigationRecord, t: InvestigationRecord, claim: Claim)
    requires ClaimSettled(r, claim) && Extends(r, t) && |t.interventions| <= 1
    ensures ClaimSettled(t, claim)
  {
    if claim.Settled? {
      FinishedStable(r, t);
    }
  }

  lemma LeaseStable(s: Shared, t: Shared, n: nat, lease: WorkloadLease)
    requires Evolves(s, t, n) && LeaseSound(s, lease)
    ensures LeaseSound(t, lease) && (LeaseGone(s, lease) ==> LeaseGone(t, lease))
  {
  }

  lemma SeenStable(r: InvestigationRecord, t: InvestigationRecord, q: InterventionRequest, seen: InvestigationRecord,
                   approval: Approval)
    requires SeenSound(r, q, seen, approval) && Extends(r, t)
    ensures SeenSound(t, q, seen, approval)
  {
    ExtendsTransitive(seen, r, t);
  }

  lemma LedgerUnmoved(a: seq<Write>, b: seq<Write>, n: nat, i: nat)
    requires a <= b && LedgerShape(b) && n != i && a != [] && a[0].instance == i
    requires forall k | |a| <= k < |b| :: b[k].instance == n
    ensures a == b
  {
  }

  lemma InFlightStable(s: Shared, t: Shared, n: nat, i: nat, count: nat)
    requires Evolves(s, t, n) && n != i && InFlight(s, i, count) && LedgerShape(t.ledger)
    requires |Current(t).interventions| <= 1
    ensures InFlight(t, i, count) && t.ledger == s.ledger
  {
    hide Extends;
    LedgerUnmoved(s.ledger, t.ledger, n, i);
    InterventionsKept(Current(s), Current(t));
  }

  lemma InterventionsKept(r: InvestigationRecord, t: InvestigationRecord)
    requires Extends(r, t)
    ensures r.interventions != [] ==> t.interventions != []
  {
  }

  lemma SilentStable(s: Shared, t: Shared, n: nat, i: nat)
    requires Evolves(s, t, n) && n != i && Silent(s.ledger, i)
    ensures Silent(t.ledger, i)
  {
    forall w <- t.ledger ensures w.instance != i {
      var k :| 0 <= k < |t.ledger| && t.ledger[k] == w;
      assert k < |s.ledger| ==> s.ledger[k] in s.ledger;
    }
  }

  lemma StageStable(s: Shared, t: Shared, n: nat, i: nat, q: InterventionRequest, seen: InvestigationRecord,
                    approval: Approval, stage: Stage)
    requires Evolves(s, t, n) && n != i && LedgerShape(t.ledger) && |Current(t).interventions| <= 1
    requires seen.proposal.Some? && StageInvariant(s, i, q, seen, approval, stage)
    ensures StageInvariant(t, i, q, seen, approval, stage)
  {
    if Silent(s.ledger, i) {
      SilentStable(s, t, n, i);
    }
    if InFlight(s, i, 1) {
      InFlightStable(s, t, n, i, 1);
    }
    if InFlight(s, i, 2) {
      InFlightStable(s, t, n, i, 2);
    }
    hide Silent, InFlight, Extends, Bounded, LeasesEvolve, OutcomeBy;
  }

  /** What an instance relies on survives every step of anyone else. */
  lemma InstanceStable(s: Shared, t: Shared, n: nat, i: nat, e: Instance)
    requires Evolves(s, t, n) && n != i && LedgerShape(t.ledger) && HistoryInvariant(t.history)
    requires InstanceInvariant(s, i, e)
    ensures InstanceInvariant(t, i, e)
  {
    hide HistoryInvariant, RecordInvariant, Silent, LeaseSound, LeaseGone, SeenSound, StageInvariant, ClaimedAs;
    hide Finished, Extends, ClusterGrows, LeasesEvolve, OutcomeBy, LedgerShape, ClaimSettled;
    CurrentCoupled(t);
    if Silent(s.ledger, i) {
      SilentStable(s, t, n, i);
    }
    match e.pc {
      case Receiving(x, resuming) =>
        if resuming {
          ClaimStable(Current(s), Current(t), x);
        }
      case Acquiring(x, resuming) =>
        if resuming {
          ClaimStable(Current(s), Current(t), x);
        }
      case Rechecking(x, resuming, lease) =>
        LeaseStable(s, t, n, lease);
        if resuming {
          ClaimStable(Current(s), Current(t), x);
        }
      case Guarded(x, lease, seen, approval, stage) =>
        LeaseStable(s, t, n, lease);
        SeenStable(Current(s), Current(t), e.request, seen, approval);
        StageStable(s, t, n, i, e.request, seen, approval, stage);
        if !stage.Claiming? {
          ClaimStable(Current(s), Current(t), x);
        }
      case Halting(x, lease) =>
        LeaseStable(s, t, n, lease);
        ClaimStable(Current(s), Current(t), x);
      case RecordingHalt(x, lease) =>
        LeaseStable(s, t, n, lease);
        ClaimStable(Current(s), Current(t), x);
      case Refusing(lease) => LeaseStable(s, t, n, lease);
      case Releasing(lease, claim, _) =>
        LeaseStable(s, t, n, lease);
        SettledStable(Current(s), Current(t), claim);
      case ReportingSkipped(lease, claim, _) =>
        LeaseStable(s, t, n, lease);
        SettledStable(Current(s), Current(t), claim);
      case Exited(held, claim, _, _) =>
        if held.Some? {
          LeaseStable(s, t, n, held.value);
        }
        SettledStable(Current(s), Current(t), claim);
      case _ =>
    }
  }
}
