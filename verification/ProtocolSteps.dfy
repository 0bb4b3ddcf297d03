/** Every atomic operation keeps the shared invariant and only evolves what other instances rely on. */
module ProtocolSteps {
  import opened Wrappers
  import opened Incidents
  import opened ApprovalBindings
  import opened RecordOperations
  import opened RecordInvariants
  import opened RecordRuns
  import opened WorkloadLeases
  import opened ProposalPolicy
  import opened InterventionQueues
  import opened Protocol
  import opened ProtocolInvariants

  // ---------------------------------------------------------------- facts about one store operation

  lemma PolicyOnlyByDecision(r: InvestigationRecord, op: StoreOp)
    requires Apply(r, op).Success? && !op.RecordPolicyDecision?
    ensures Apply(r, op).value.policy == r.policy
  {
    hide ValidRecord;
  }

  lemma DecisionRecorded(r: InvestigationRecord, d: PolicyDecision)
    requires ApplyPolicy(r, d).Success?
    ensures ApplyPolicy(r, d).value.policy == Some(d) && ApplyPolicy(r, d).value.proposal == r.proposal
    ensures r.proposal.Some?
  {
    hide ValidRecord;
  }

  lemma EventsAfter(r: InvestigationRecord, op: StoreOp)
    requires Apply(r, op).Success?
    ensures var t := Apply(r, op).value;
            t.events == r.events || (EventOf(op).Some? && t.events == Stamped(r, EventOf(op).value))
  {
    hide ValidRecord, Stamped;
  }

  lemma EventsStayPast(r: InvestigationRecord, op: StoreOp, next: nat)
    requires Apply(r, op).Success? && EventsPast(r, next)
    requires EventOf(op).Some? ==> NotFuture(EventOf(op).value.eventId, next)
    ensures EventsPast(Apply(r, op).value, next + 1)
  {
    hide Apply;
    EventsAfter(r, op);
  }

  lemma InterventionsAfter(r: InvestigationRecord, op: StoreOp)
    requires KeepsRecord(r) && Apply(r, op).Success?
    requires op.RecordIntervention? ==> PublisherKeyed(r, op.intervention)
    requires op.UpdateIntervention? ==> Terminal(op.updated.state)
    ensures var t := Apply(r, op).value;
            match op
            case RecordIntervention(_, i, _) => r.interventions == [] && t.interventions == [i] && i.state == Running
            case UpdateIntervention(i, _) => r.interventions == [i.(state := Running)] && t.interventions == [i]
            case _ => t.interventions == r.interventions
  {
    hide ValidRecord, KeepsRecord;
    if op.RecordIntervention? {
      ClaimStep(r, op.expectedVersion, op.intervention, op.event);
    } else if op.UpdateIntervention? {
      OutcomeStep(r, op.updated, op.event);
    }
  }

  // ---------------------------------------------------------------- record facts under growth

  lemma PolicyStaysHonest(history: seq<InvestigationRecord>, op: StoreOp)
    requires Reaches(history) && PolicyHonest(history[|history| - 1])
    requires Apply(history[|history| - 1], op).Success?
    requires Extends(history[|history| - 1], Apply(history[|history| - 1], op).value)
    requires op.RecordPolicyDecision? ==> MadeByPolicy(history, op.policy)
    ensures PolicyHonest(Apply(history[|history| - 1], op).value)
  {
    hide Apply, KeepsRecord, Evaluate, ValidRecord;
    var r := history[|history| - 1];
    if op.RecordPolicyDecision? {
      ApplyOfPolicy(r, op);
      DecisionRecorded(r, op.policy);
      var seen :| seen in history && seen.proposal.Some? && exists ready, state, dryRun, now ::
        op.policy == Evaluate(seen, seen.proposal.value, ready, state, dryRun, now);
      var ready, state, dryRun, now :| op.policy == Evaluate(seen, seen.proposal.value, ready, state, dryRun, now);
      DecisionsAreValid(seen, seen.proposal.value, ready, state, dryRun, now);
    } else {
      PolicyOnlyByDecision(r, op);
    }
  }

  lemma ApplyOfPolicy(r: InvestigationRecord, op: StoreOp)
    requires op.RecordPolicyDecision?
    ensures Apply(r, op) == ApplyPolicy(r, op.policy)
  {
  }

  lemma AuthorisedStable(r: InvestigationRecord, t: InvestigationRecord, w: Write)
    requires Extends(r, t) && |t.approvals| <= 1 && Authorised(r, w)
    ensures Authorised(t, w)
  {
    hide Bounded;
  }

  lemma PublishedStable(r: InvestigationRecord, t: InvestigationRecord, q: InterventionRequest)
    requires Extends(r, t) && |t.approvals| <= 1 && Published(r, q)
    ensures Published(t, q)
  {
  }

  lemma DecidedStable(r: InvestigationRecord, t: InvestigationRecord, d: Decided)
    requires Extends(r, t) && DecidedSound(r, d)
    ensures DecidedSound(t, d)
  {
    hide Extends, BuildRequest;
    ExtendsTransitive(d.recorded, r, t);
  }

  lemma OutcomeCountsAfter(r: InvestigationRecord, op: StoreOp, ledger: seq<Write>, n: nat)
    requires KeepsRecord(r) && Apply(r, op).Success? && OutcomeCounts(r, ledger)
    requires op.RecordIntervention? ==> PublisherKeyed(r, op.intervention)
    requires op.UpdateIntervention? ==> Terminal(op.updated.state)
    requires op.UpdateIntervention? && Credited(op.updated.state) ==>
               WroteExactly(ledger, n, if op.updated.state == RolledBack then 2 else 1)
    ensures OutcomeCounts(Apply(r, op).value, ledger)
    ensures OutcomeBy(r, Apply(r, op).value, ledger, n)
  {
    hide Apply, KeepsRecord;
    InterventionsAfter(r, op);
  }

  // ---------------------------------------------------------------- store calls

  predicate CallAllowed(s: Shared, op: StoreOp, n: nat)
    requires s.history != []
  {
    && Admissible(s.history, op)
    && (EventOf(op).Some? ==> NotFuture(EventOf(op).value.eventId, s.nextUuid))
    && (op.UpdateIntervention? && Credited(op.updated.state) ==>
          WroteExactly(s.ledger, n, if op.updated.state == RolledBack then 2 else 1))
  }

  lemma RefusedCallKeeps(s: Shared, op: StoreOp, n: nat)
    requires SharedInvariant(s) && !CallWithEvent(s, op).accepted
    ensures SharedInvariant(CallWithEvent(s, op).shared) && Evolves(s, CallWithEvent(s, op).shared, n)
  {
    hide Apply, HistoryInvariant, DecidedSound, Published, WriteSound, PolicyHonest, OutcomeCounts, RegisterSound;
    hide Extends;
    ExtendsReflexive(Current(s));
  }

  lemma SharedFactsStable(s: Shared, t: Shared)
    requires SharedInvariant(s) && t.history != []
    requires Extends(Current(s), Current(t)) && |Current(t).approvals| <= 1
    requires t.cluster == s.cluster && t.ledger == s.ledger && t.queue == s.queue && t.decided == s.decided
    ensures forall w <- t.ledger :: WriteSound(Current(t), t.cluster, w)
    ensures forall q <- t.queue :: Published(Current(t), q)
    ensures t.decided.Some? ==> DecidedSound(Current(t), t.decided.value)
  {
    hide HistoryInvariant, DecidedSound, Published, Authorised, Superseded, PolicyHonest, OutcomeCounts, Extends;
    forall w <- t.ledger ensures WriteSound(Current(t), t.cluster, w) {
      AuthorisedStable(Current(s), Current(t), w);
    }
    forall q <- t.queue ensures Published(Current(t), q) {
      PublishedStable(Current(s), Current(t), q);
    }
    if t.decided.Some? {
      DecidedStable(Current(s), Current(t), t.decided.value);
    }
  }

  /** An accepted call, in terms of the history alone. */
  lemma AcceptedCallHistory(history: seq<InvestigationRecord>, op: StoreOp)
    requires HistoryInvariant(history) && Admissible(history, op)
    requires Apply(history[|history| - 1], op).Success?
    ensures var t := Apply(history[|history| - 1], op).value;
            HistoryInvariant(history + [t]) && Extends(history[|history| - 1], t) && |t.approvals| <= 1
            && KeepsRecord(history[|history| - 1]) && Reaches(history)
  {
    hide Apply, Admissible, KeepsRecord, Extends;
    StepKeepsHistory(history, op);
    HistoryReaches(history);
    var t := Apply(history[|history| - 1], op).value;
    var next := history + [t];
    assert Step(history, op) == next;
    assert Extends(next[|history| - 1], next[|history|]);
    assert RecordInvariant(next[|history|]);
    OneApproval(t);
  }

  lemma AcceptedCallKeeps(s: Shared, op: StoreOp, n: nat)
    requires SharedInvariant(s) && CallAllowed(s, op, n) && CallWithEvent(s, op).accepted
    requires op.RecordPolicyDecision? ==> MadeByPolicy(s.history, op.policy)
    ensures SharedInvariant(CallWithEvent(s, op).shared) && Evolves(s, CallWithEvent(s, op).shared, n)
  {
    hide Apply, HistoryInvariant, DecidedSound, Published, WriteSound, PolicyHonest, OutcomeCounts, RegisterSound;
    hide Extends, OutcomeBy, EventsPast, KeepsRecord, Reaches, MadeByPolicy;
    var t := CallWithEvent(s, op).shared;
    AcceptedCallHistory(s.history, op);
    PolicyStaysHonest(s.history, op);
    EventsStayPast(Current(s), op, s.nextUuid);
    OutcomeCountsAfter(Current(s), op, s.ledger, n);
    SharedFactsStable(s, t);
  }

  /** Any allowed call, accepted or refused. */
  lemma CallKeeps(s: Shared, op: StoreOp, n: nat)
    requires SharedInvariant(s) && CallAllowed(s, op, n)
    requires op.RecordPolicyDecision? ==> MadeByPolicy(s.history, op.policy)
    ensures SharedInvariant(CallWithEvent(s, op).shared) && Evolves(s, CallWithEvent(s, op).shared, n)
  {
    hide SharedInvariant, CallAllowed, CallWithEvent, Evolves, MadeByPolicy;
    if CallWithEvent(s, op).accepted {
      AcceptedCallKeeps(s, op, n);
    } else {
      RefusedCallKeeps(s, op, n);
    }
  }

  /** An executor's own audit events are always accepted: their identifiers are fresh. */
  lemma LogKeeps(s: Shared, q: InterventionRequest, name: string, n: nat)
    requires SharedInvariant(s) && q in s.queue
    ensures var o := Log(s, q, name);
            && o.accepted && SharedInvariant(o.shared) && Evolves(s, o.shared, n)
            && o.shared.ledger == s.ledger && o.shared.cluster == s.cluster && o.shared.leases == s.leases
            && Current(o.shared).interventions == Current(s).interventions
            && q in o.shared.queue
  {
    hide Apply, HistoryInvariant, DecidedSound, WriteSound, PolicyHonest, OutcomeCounts, RegisterSound, Extends;
    hide Evolves;
    var e := FreshEvent(s, q.incidentId, name);
    LogAccepted(Current(s), e, s.nextUuid);
    CallKeeps(s, AppendEvent(e), n);
    assert Published(Current(s), q);
  }

  lemma LogAccepted(r: InvestigationRecord, e: AuditEvent, next: nat)
    requires EventsPast(r, next) && e.eventId == Uuid(next)
    ensures !HasEvent(r, e.eventId)
    ensures e.incidentId == r.incident.incidentId ==>
              Apply(r, AppendEvent(e)) == Success(r.(events := Stamped(r, e)))
  {
  }

  // ---------------------------------------------------------------- leases

  lemma LeasesOnly(s: Shared, t: Shared, n: nat)
    requires SharedInvariant(s)
    requires t == s.(leases := t.leases, nextUuid := t.nextUuid) && s.nextUuid <= t.nextUuid <= s.nextUuid + 1
    requires LeasesEvolve(s.leases, t.leases, s.nextUuid) && LeasesPast(t.leases, t.nextUuid)
    ensures SharedInvariant(t) && Evolves(s, t, n)
  {
    hide HistoryInvariant, DecidedSound, Published, WriteSound, PolicyHonest, OutcomeCounts, RegisterSound, Extends;
    hide LeasesEvolve, LeasesPast;
    ExtendsReflexive(Current(s));
  }

  // ---------------------------------------------------------------- the cluster

  lemma InstalledGrows(c: Cluster, state: DeploymentState)
    requires ClusterSound(c) && Unused(c, state)
    ensures ClusterSound(Installed(c, state)) && ClusterGrows(c, Installed(c, state))
  {
    var d := Installed(c, state);
    forall t <- d ensures RegisterSound(d, t) {
      if t in c {
        assert RegisterSound(c, t);
      }
    }
  }

  lemma SupersededInstalled(c: Cluster, state: DeploymentState, w: Write)
    requires Unused(c, state) && Superseded(c, w)
    ensures Superseded(Installed(c, state), w)
  {
  }

  lemma ClusterStep(s: Shared, t: Shared, n: nat)
    requires SharedInvariant(s) && t == s.(cluster := t.cluster)
    requires ClusterSound(t.cluster) && ClusterGrows(s.cluster, t.cluster)
    requires forall w <- s.ledger :: Superseded(t.cluster, w)
    ensures SharedInvariant(t) && Evolves(s, t, n)
  {
    hide HistoryInvariant, DecidedSound, Published, Authorised, Superseded, PolicyHonest, OutcomeCounts, Extends;
    hide ClusterSound, ClusterGrows;
    ExtendsReflexive(Current(s));
  }

  lemma ForeignWriteKeeps(s: Shared, state: DeploymentState, n: nat)
    requires SharedInvariant(s) && Unused(s.cluster, state)
    ensures SharedInvariant(s.(cluster := Installed(s.cluster, state)))
    ensures Evolves(s, s.(cluster := Installed(s.cluster, state)), n)
  {
    hide HistoryInvariant, DecidedSound, Published, Authorised, Superseded, PolicyHonest, OutcomeCounts, Evolves;
    hide Installed;
    InstalledGrows(s.cluster, state);
    forall w <- s.ledger ensures Superseded(Installed(s.cluster, state), w) {
      SupersededInstalled(s.cluster, state, w);
    }
    ClusterStep(s, s.(cluster := Installed(s.cluster, state)), n);
  }

  lemma ForeignDeleteKeeps(s: Shared, t: WorkloadReference, n: nat)
    requires SharedInvariant(s)
    ensures SharedInvariant(s.(cluster := Deleted(s.cluster, t)))
    ensures Evolves(s, s.(cluster := Deleted(s.cluster, t)), n)
  {
    hide HistoryInvariant, DecidedSound, Published, Authorised, PolicyHonest, OutcomeCounts, Evolves;
    var d := Deleted(s.cluster, t);
    forall u <- d ensures RegisterSound(d, u) {
      assert RegisterSound(s.cluster, u);
    }
    forall w <- s.ledger ensures Superseded(d, w) {
      assert WriteSound(Current(s), s.cluster, w);
    }
    ClusterStep(s, s.(cluster := d), n);
  }

  // ---------------------------------------------------------------- the environment

  lemma ForeignLeaseKeeps(s: Shared, v: Event, n: nat)
    requires SharedInvariant(s) && (v.ForeignAcquire? || v.ForeignRenew? || v.ForeignRelease?)
    ensures SharedInvariant(EnvironmentStep(s, v)) && Evolves(s, EnvironmentStep(s, v), n)
  {
    hide HistoryInvariant, DecidedSound, Published, WriteSound, PolicyHonest, OutcomeCounts, RegisterSound, Evolves;
    hide EventsPast, ClusterSound, LedgerShape, OtherStep, PublishStep;
    LeasesOnly(s, EnvironmentStep(s, v), n);
  }

  lemma DecidedWhenApproved(r: InvestigationRecord, version: nat, a: Approval, e: AuditEvent, now: Time)
    requires ApplyApproval(r, version, a, e, now).Success? && a.decision == Approved
    requires ValidApproval(a) && PolicyHonest(r)
    ensures var t := ApplyApproval(r, version, a, e, now).value;
            t.approvals == [a] && BuildRequest(t, a, a.decidedAt).Success?
  {
    hide ValidRecord;
  }

  lemma ApplyOfApprovalOp(r: InvestigationRecord, op: StoreOp)
    requires op.RecordApproval?
    ensures Apply(r, op) == ApplyApproval(r, op.expectedVersion, op.approval, op.event, op.now)
  {
  }

  lemma OtherStepKeeps(s: Shared, op: StoreOp, n: nat)
    requires SharedInvariant(s) && OtherCallPossible(s, op)
    ensures SharedInvariant(OtherStep(s, op)) && Evolves(s, OtherStep(s, op), n)
  {
    hide Apply, HistoryInvariant, Published, WriteSound, OutcomeCounts, RegisterSound, Extends, OutcomeBy, EventsPast;
    hide MadeByPolicy, BuildRequest, ClusterGrows, LeasesEvolve, PolicyHonest, ApplyApproval;
    CallKeeps(s, op, n);
    var o := CallWithEvent(s, op);
    if op.RecordApproval? && o.accepted && op.approval.decision == Approved {
      ApplyOfApprovalOp(Current(s), op);
      DecidedWhenApproved(Current(s), op.expectedVersion, op.approval, op.event, op.now);
      ExtendsReflexive(Current(o.shared));
    }
  }

  lemma PublishKeeps(s: Shared, n: nat)
    requires SharedInvariant(s) && s.decided.Some?
    ensures SharedInvariant(PublishStep(s)) && Evolves(s, PublishStep(s), n)
  {
    hide HistoryInvariant, WriteSound, OutcomeCounts, RegisterSound, EventsPast, PolicyHonest, Published, BuildRequest;
    hide Extends, DecidedSound;
    PublishedByDecided(s);
    ExtendsReflexive(Current(s));
  }

  lemma PublishedByDecided(s: Shared)
    requires SharedInvariant(s) && s.decided.Some?
    ensures var d := s.decided.value;
            var q := BuildRequest(d.recorded, d.approval, d.approval.decidedAt);
            q.Success? && Published(Current(s), q.value)
  {
    hide HistoryInvariant, WriteSound, OutcomeCounts, ClusterSound, OutcomeBy, EventsPast, LeasesPast, LedgerShape;
    CurrentCoupled(s);
    hide SharedInvariant;
  }

  /** Everything other parties do keeps the shared invariant. */
  lemma EnvironmentKeeps(s: Shared, v: Event, n: nat)
    requires SharedInvariant(s) && !v.Deliver? && !v.Run? && !v.Crash?
    requires v.ForeignWrite? ==> Unused(s.cluster, v.state)
    requires v.OtherCall? ==> OtherCallPossible(s, v.op)
    requires v.Publish? ==> s.decided.Some?
    ensures SharedInvariant(EnvironmentStep(s, v)) && Evolves(s, EnvironmentStep(s, v), n)
  {
    hide SharedInvariant, Evolves, OtherStep, PublishStep, Installed, Deleted, OtherCallPossible;
    match v {
      case ForeignWrite(state) => ForeignWriteKeeps(s, state, n);
      case ForeignDelete(t) => ForeignDeleteKeeps(s, t, n);
      case OtherCall(op) => OtherStepKeeps(s, op, n);
      case Publish => PublishKeeps(s, n);
      case Pass(elapsed) => ClockOnly(s, elapsed, n);
      case _ => ForeignLeaseKeeps(s, v, n);
    }
  }

  lemma ClockOnly(s: Shared, elapsed: nat, n: nat)
    requires SharedInvariant(s)
    ensures SharedInvariant(s.(clock := s.clock + elapsed)) && Evolves(s, s.(clock := s.clock + elapsed), n)
  {
    hide HistoryInvariant, DecidedSound, Published, WriteSound, PolicyHonest, OutcomeCounts, RegisterSound, Extends;
    ExtendsReflexive(Current(s));
  }
}
