/** What every run of the whole system guarantees: writes, outcomes, exits and stale authority. */
module ProtocolRuns {
  import opened Wrappers
  import opened Incidents
  import opened ApprovalBindings
  import opened RecordOperations
  import opened RecordInvariants
  import opened RecordRuns
  import opened Stabilization
  import opened WorkloadLeases
  import opened ProposalPolicy
  import opened InterventionQueues
  import opened Protocol
  import opened ProtocolInvariants
  import opened ProtocolSteps
  import opened ProtocolSafety

  // ---------------------------------------------------------------- one step of the system

  lemma EnvironmentLeavesLedger(s: Shared, v: Event)
    requires s.history != [] && (v.Publish? ==> s.decided.Some?)
    ensures EnvironmentStep(s, v).ledger == s.ledger
  {
    hide Apply, Acquired, Renewed, Releasable, BuildRequest, Installed, Deleted;
  }

  lemma OthersStable(y: System, t: Shared, n: nat)
    requires SystemInvariant(y) && SharedInvariant(t) && Evolves(y.shared, t, n)
    ensures forall i | 0 <= i < |y.instances| && i != n :: InstanceInvariant(t, i, y.instances[i])
  {
    hide HistoryInvariant, InstanceInvariant, Evolves, DecidedSound, Published, WriteSound, PolicyHonest;
    forall i | 0 <= i < |y.instances| && i != n ensures InstanceInvariant(t, i, y.instances[i]) {
      InstanceStable(y.shared, t, n, i, y.instances[i]);
    }
  }

  lemma EvolvedLedger(s: Shared, t: Shared, n: nat, bound: nat)
    requires Evolves(s, t, n) && n < bound && forall w <- s.ledger :: w.instance < bound
    ensures forall w <- t.ledger :: w.instance < bound
  {
    hide Extends, LeasesEvolve, ClusterGrows, OutcomeBy;
    forall w <- t.ledger ensures w.instance < bound {
      var k :| 0 <= k < |t.ledger| && t.ledger[k] == w;
      assert k < |s.ledger| ==> s.ledger[k] in s.ledger;
    }
  }

  lemma RunStepKeeps(y: System, i: nat, a: Answers)
    requires SystemInvariant(y) && Possible(y, Run(i, a))
    ensures SystemInvariant(Next(y, Run(i, a)))
  {
    hide SharedInvariant, InstanceInvariant, Evolves, Execute, AnswersPossible;
    assert InstanceInvariant(y.shared, i, y.instances[i]);
    ExecuteKeeps(y.shared, i, y.instances[i], a);
    var (t, e) := Execute(y.shared, i, y.instances[i], a);
    OthersStable(y, t, i);
    EvolvedLedger(y.shared, t, i, |y.instances|);
    KeptInstance(y.shared, t, i, e);
  }

  lemma KeptInstance(s: Shared, t: Shared, n: nat, e: Instance)
    requires Kept(s, t, n, e.request, e.pc)
    ensures InstanceInvariant(t, n, e)
  {
    hide SharedInvariant, Evolves, PcInvariant;
  }

  lemma DeliverKeeps(y: System, q: InterventionRequest, owner: string)
    requires SystemInvariant(y) && q in y.shared.queue
    ensures SystemInvariant(y.(instances := y.instances + [Instance(q, owner, y.shared.clock, Starting)]))
  {
    hide SharedInvariant;
    var e := Instance(q, owner, y.shared.clock, Starting);
    assert InstanceInvariant(y.shared, |y.instances|, e);
    hide InstanceInvariant;
  }

  lemma CrashKeeps(y: System, i: nat)
    requires SystemInvariant(y) && i < |y.instances|
    ensures SystemInvariant(y.(instances := y.instances[i := y.instances[i].(pc := Crashed)]))
  {
    hide SharedInvariant;
    assert InstanceInvariant(y.shared, i, y.instances[i]);
    assert InstanceInvariant(y.shared, i, y.instances[i].(pc := Crashed));
    hide InstanceInvariant;
  }

  lemma EnvironmentKeepsSystem(y: System, v: Event)
    requires SystemInvariant(y) && Possible(y, v) && !v.Deliver? && !v.Run? && !v.Crash?
    ensures SystemInvariant(y.(shared := EnvironmentStep(y.shared, v)))
  {
    hide SharedInvariant, InstanceInvariant, Evolves, EnvironmentStep, OtherCallPossible;
    EnvironmentKeeps(y.shared, v, |y.instances|);
    EnvironmentLeavesLedger(y.shared, v);
    OthersStable(y, EnvironmentStep(y.shared, v), |y.instances|);
  }

  lemma NextKeepsSystem(y: System, v: Event)
    requires SystemInvariant(y) && Possible(y, v)
    ensures SystemInvariant(Next(y, v))
  {
    hide SystemInvariant, EnvironmentStep, Execute;
    match v {
      case Deliver(q, owner) => DeliverKeeps(y, q, owner);
      case Run(i, a) => RunStepKeeps(y, i, a);
      case Crash(i) => CrashKeeps(y, i);
      case _ => EnvironmentKeepsSystem(y, v);
    }
  }

  // ---------------------------------------------------------------- runs

  /** An Incident before policy, any cluster and any leases, nothing queued and no executor started. */
  predicate Initial(y: System) {
    && y.instances == []
    && |y.shared.history| == 1 && RecordInvariant(y.shared.history[0])
    && y.shared.history[0].policy.None?
    && EventsPast(y.shared.history[0], y.shared.nextUuid)
    && ClusterSound(y.shared.cluster)
    && LeasesPast(y.shared.leases, y.shared.nextUuid)
    && y.shared.queue == {} && y.shared.decided.None? && y.shared.ledger == []
  }

  lemma InitialKeepsSystem(y: System)
    requires Initial(y)
    ensures SystemInvariant(y)
  {
    ExtendsReflexive(y.shared.history[0]);
    hide ValidRecord, Extends;
  }

  ghost predicate Runs(initial: System, events: seq<Event>)
    decreases |events|, 0
  {
    if events == [] then Initial(initial)
    else
      var before := events[..|events| - 1];
      Runs(initial, before) && Reached(initial, before).shared.history != []
      && Possible(Reached(initial, before), events[|events| - 1])
  }

  ghost function Reached(initial: System, events: seq<Event>): System
    requires Runs(initial, events)
    decreases |events|, 1
  {
    if events == [] then initial
    else Next(Reached(initial, events[..|events| - 1]), events[|events| - 1])
  }

  lemma {:induction false} RunKeepsSystem(initial: System, events: seq<Event>)
    requires Runs(initial, events)
    ensures SystemInvariant(Reached(initial, events))
  {
    hide SystemInvariant, Next, Possible, Initial;
    if events == [] {
      InitialKeepsSystem(initial);
    } else {
      RunKeepsSystem(initial, events[..|events| - 1]);
      NextKeepsSystem(Reached(initial, events[..|events| - 1]), events[|events| - 1]);
    }
  }

  // ---------------------------------------------------------------- the write ledger

  function CountOf(ledger: seq<Write>, kind: WriteKind): nat {
    if ledger == [] then 0
    else CountOf(ledger[..|ledger| - 1], kind) + if ledger[|ledger| - 1].kind == kind then 1 else 0
  }

  lemma ShapeCounts(ledger: seq<Write>)
    requires LedgerShape(ledger)
    ensures CountOf(ledger, Forward) == (if ledger == [] then 0 else 1)
    ensures CountOf(ledger, Restoration) == (if |ledger| == 2 then 1 else 0)
  {
    if |ledger| == 2 {
      assert ledger[..1] == [ledger[0]] && ledger[..1][..0] == [];
    } else if |ledger| == 1 {
      assert ledger[..0] == [];
    }
  }

  lemma SystemFacts(y: System)
    requires SystemInvariant(y)
    ensures var s := y.shared;
            && s.history != [] && RecordInvariant(Current(s)) && |Current(s).interventions| <= 1
            && LedgerShape(s.ledger) && OutcomeCounts(Current(s), s.ledger) && ClusterSound(s.cluster)
            && (forall w <- s.ledger :: WriteSound(Current(s), s.cluster, w))
            && (s.decided.Some? ==> DecidedSound(Current(s), s.decided.value))
  {
    hide HistoryInvariant, DecidedSound, Published, WriteSound, PolicyHonest, OutcomeCounts, ClusterSound;
    hide InstanceInvariant, RecordInvariant;
    CurrentCoupled(y.shared);
  }

  /** One approval causes at most one forward write and one restoration; the recorded outcome says which happened. */
  predicate LedgerMatchesOutcome(s: Shared) {
    var forwards, restorations := CountOf(s.ledger, Forward), CountOf(s.ledger, Restoration);
    && s.history != [] && |Current(s).interventions| <= 1
    && restorations <= forwards <= 1
    && (Current(s).interventions == [] ==> forwards == 0)
    && (forall i <- Current(s).interventions ::
          && (i.state == Succeeded || i.state == Failed ==> forwards == 1 && restorations == 0)
          && (i.state == RolledBack ==>
                && forwards == 1 && restorations == 1
                && Current(s).proposal.Some? && Current(s).proposal.value.action.ScaleDeployment?))
  }

  lemma LedgerFollowsOutcome(y: System)
    requires SystemInvariant(y)
    ensures LedgerMatchesOutcome(y.shared)
  {
    hide RecordInvariant, CountOf, SystemInvariant, ClusterSound;
    SystemFacts(y);
    ShapeCounts(y.shared.ledger);
    if |y.shared.ledger| == 2 {
      assert WriteSound(Current(y.shared), y.shared.cluster, y.shared.ledger[1]);
    }
  }

  predicate WithinBoundsOf(p: ApplicationProfile, t: WorkloadReference, replicas: int) {
    exists w <- p.workloads :: w.reference == t && w.bounds.minimum <= replicas <= w.bounds.maximum
  }

  /**
   * The write is what the one human decision reviewed, or puts back the replicas of the state the first write landed
   * on; bounds and headroom hold where it lands.
   */
  predicate WriteWasAuthorised(s: Shared, w: Write) {
    && s.history != []
    && Known(s.cluster, w.onto) && w.onto.resourceVersion == w.patch.resourceVersion
    && var r := Current(s);
    && |r.approvals| == 1 && r.approvals[0].decision == Approved && PolicyIsPassed(r) && r.proposal.Some?
    && w.patch.target == w.onto.target == r.proposal.value.action.target
    && (w.kind == Forward ==> r.policy.value.patch == Some(w.patch) && AtApprovedVersion(r.approvals[0], w.onto))
    && (w.kind == Restoration ==>
          && r.proposal.value.action.ScaleDeployment? && w.patch.actionType == ScaleType
          && |s.ledger| == 2 && w == s.ledger[1] && s.ledger[0].kind == Forward
          && RequestedReplicas(w.patch) == Some(s.ledger[0].onto.replicas))
    && (w.patch.actionType == ScaleType ==>
          && RequestedReplicas(w.patch).Some?
          && var replicas := RequestedReplicas(w.patch).value;
          && WithinBoundsOf(r.profile, w.patch.target, replicas)
          && replicas <= w.onto.replicas + w.onto.headroom)
  }

  lemma WritesFollowAuthority(y: System, k: nat)
    requires SystemInvariant(y) && k < |y.shared.ledger|
    ensures WriteWasAuthorised(y.shared, y.shared.ledger[k])
  {
    hide RecordInvariant, SystemInvariant, ClusterSound, OutcomeCounts;
    SystemFacts(y);
    assert WriteSound(Current(y.shared), y.shared.cluster, y.shared.ledger[k]);
    WrittenMeansClaimed(Current(y.shared), y.shared.ledger);
  }

  lemma WrittenMeansClaimed(r: InvestigationRecord, ledger: seq<Write>)
    requires RecordInvariant(r) && OutcomeCounts(r, ledger) && ledger != []
    ensures |r.approvals| == 1 && r.approvals[0].decision == Approved
  {
    hide ValidRecord, ProgressExact, ResolvedIsStable, ApprovalBound;
  }

  lemma ExitsFollow(y: System, n: nat)
    requires SystemInvariant(y) && n < |y.instances|
    ensures StoppedSafely(y.shared, y.instances[n].pc)
  {
    hide SharedInvariant, LeaseGone, LeaseSound, ClaimedAs, SeenSound, StageInvariant;
    assert InstanceInvariant(y.shared, n, y.instances[n]);
  }

  /** A release gives the lease up exactly when it does not raise, unless the lease was gone before. */
  lemma ReleaseIsExact(s: Shared, n: nat, e: Instance, a: Answers)
    requires SharedInvariant(s) && InstanceInvariant(s, n, e) && e.pc.Releasing?
    ensures LeaseGone(Execute(s, n, e, a).0, e.pc.lease) <==> !a.fault || LeaseGone(s, e.pc.lease)
  {
    hide HistoryInvariant, DecidedSound, Published, WriteSound, PolicyHonest, OutcomeCounts, ClusterSound, Finished;
    hide GuardedStep, CallWithEvent, AuthorityHolds, FindByKey, FindApproval, FindIntervention, Acquired;
  }

  /** The approved decision can be published: its request is always buildable. */
  predicate Publishable(s: Shared, d: Decided) {
    && s.history != []
    && BuildRequest(d.recorded, d.approval, d.approval.decidedAt).Success?
    && Current(s).approvals == [d.approval]
  }

  lemma DecisionsFollow(y: System)
    requires SystemInvariant(y) && y.shared.decided.Some?
    ensures Publishable(y.shared, y.shared.decided.value)
  {
    hide RecordInvariant, SystemInvariant, ClusterSound, LedgerShape, OutcomeCounts, WriteSound, BuildRequest;
    SystemFacts(y);
    OneApproval(Current(y.shared));
  }

  // ---------------------------------------------------------------- the theorems over all runs

  /** The write ledger agrees with the recorded outcome in every reachable state. */
  lemma WriteLedger(initial: System, events: seq<Event>)
    requires Runs(initial, events)
    ensures LedgerMatchesOutcome(Reached(initial, events).shared)
  {
    hide SystemInvariant, LedgerMatchesOutcome;
    RunKeepsSystem(initial, events);
    hide Runs, Reached;
    LedgerFollowsOutcome(Reached(initial, events));
  }

  /** Every write in every run was authorised. */
  lemma EveryWriteAuthorised(initial: System, events: seq<Event>, k: nat)
    requires Runs(initial, events) && k < |Reached(initial, events).shared.ledger|
    ensures WriteWasAuthorised(Reached(initial, events).shared, Reached(initial, events).shared.ledger[k])
  {
    hide SystemInvariant, WriteWasAuthorised;
    RunKeepsSystem(initial, events);
    hide Runs, Reached;
    WritesFollowAuthority(Reached(initial, events), k);
  }

  /** Every exit settled its claim and its lease, except where a call of its own halt or release raised. */
  lemma ExitsAreSafe(initial: System, events: seq<Event>, n: nat)
    requires Runs(initial, events) && n < |Reached(initial, events).instances|
    ensures StoppedSafely(Reached(initial, events).shared, Reached(initial, events).instances[n].pc)
  {
    hide SystemInvariant, StoppedSafely;
    RunKeepsSystem(initial, events);
    hide Runs, Reached;
    ExitsFollow(Reached(initial, events), n);
  }

  /** After an approved decision the publisher never fails. */
  lemma PublicationNeverFails(initial: System, events: seq<Event>)
    requires Runs(initial, events) && Reached(initial, events).shared.decided.Some?
    ensures Publishable(Reached(initial, events).shared, Reached(initial, events).shared.decided.value)
  {
    hide SystemInvariant, Publishable;
    RunKeepsSystem(initial, events);
    hide Runs, Reached;
    DecisionsFollow(Reached(initial, events));
  }

  /** In every reachable state the safe halt of a running Intervention is accepted, also after a close. */
  lemma HaltNeverRefused(initial: System, events: seq<Event>, i: Intervention, e: AuditEvent)
    requires Runs(initial, events) && Reached(initial, events).shared.history != []
    requires i in Current(Reached(initial, events).shared).interventions && i.state == Running
    requires e.incidentId == Current(Reached(initial, events).shared).incident.incidentId
    requires !HasEvent(Current(Reached(initial, events).shared), e.eventId)
    ensures Apply(Current(Reached(initial, events).shared), UpdateIntervention(i.(state := SafeHalted), e)).Success?
  {
    hide SystemInvariant, Apply, RecordInvariant, HasEvent;
    RunKeepsSystem(initial, events);
    SystemFacts(Reached(initial, events));
    hide Runs, Reached;
    HaltFollows(Current(Reached(initial, events).shared), i, e);
  }

  lemma HaltFollows(r: InvestigationRecord, i: Intervention, e: AuditEvent)
    requires RecordInvariant(r) && i in r.interventions && i.state == Running
    requires e.incidentId == r.incident.incidentId && !HasEvent(r, e.eventId)
    ensures Apply(r, UpdateIntervention(i.(state := SafeHalted), e)).Success?
  {
    hide RecordInvariant, HasEvent, ApplyOutcome;
    SafeHaltAccepted(r, i, e);
    ApplyOfOutcome(r, UpdateIntervention(i.(state := SafeHalted), e));
  }

  // ---------------------------------------------------------------- stale authority

  /** The stored decision no longer matches the record it reviewed. */
  predicate Stale(r: InvestigationRecord) {
    r.approvals != [] && !ApprovalMatchesRecord(r, r.approvals[0])
  }

  /** A decision that matches a later state matched every state since it was stored. */
  lemma FreshEarlier(r: InvestigationRecord, t: InvestigationRecord)
    requires RecordInvariant(r) && RecordInvariant(t) && Extends(r, t) && r.approvals != []
    requires t.approvals != [] && ApprovalMatchesRecord(t, t.approvals[0])
    ensures t.approvals[0] == r.approvals[0] && ApprovalMatchesRecord(r, r.approvals[0])
  {
    hide KeepsRecord, ProgressExact, ResolvedIsStable;
    var a := r.approvals[0];
    assert a in r.approvals && a in t.approvals;
    assert r.(evidence := a.evidenceHash.evidence) == r;
  }

  lemma StaleStays(r: InvestigationRecord, t: InvestigationRecord)
    requires RecordInvariant(r) && RecordInvariant(t) && Extends(r, t) && Stale(r)
    ensures Stale(t)
  {
    hide RecordInvariant, ApprovalMatchesRecord;
    if t.approvals != [] && ApprovalMatchesRecord(t, t.approvals[0]) {
      FreshEarlier(r, t);
    }
  }

  /** An instance that has not passed the authority checks yet. */
  predicate Uncommitted(y: System, n: nat) {
    n < |y.instances| ==> match y.instances[n].pc
                          case Starting => true
                          case Receiving(_, _) => true
                          case Acquiring(_, _) => true
                          case Rechecking(_, _, _) => true
                          case _ => false
  }

  predicate Harmless(y: System, n: nat) {
    Silent(y.shared.ledger, n) && (n < |y.instances| ==> !y.instances[n].pc.Guarded?)
  }

  lemma UncommittedIsHarmless(y: System, n: nat)
    requires SystemInvariant(y) && Uncommitted(y, n)
    ensures Harmless(y, n)
  {
    hide SharedInvariant, Silent, ClaimedAs, LeaseSound, StageInvariant, SeenSound;
    if n < |y.instances| {
      assert InstanceInvariant(y.shared, n, y.instances[n]);
    } else {
      NoWriteBeyond(y.shared.ledger, n, |y.instances|);
    }
  }

  lemma NoWriteBeyond(ledger: seq<Write>, n: nat, bound: nat)
    requires bound <= n && forall w <- ledger :: w.instance < bound
    ensures Silent(ledger, n)
  {
  }

  lemma StaleRecheckRefuses(s: Shared, n: nat, e: Instance, a: Answers)
    requires s.history != [] && Stale(Current(s)) && |Current(s).approvals| <= 1
    requires !e.pc.Guarded?
    ensures var (t, f) := Execute(s, n, e, a); !f.pc.Guarded? && t.ledger == s.ledger
  {
    hide Apply, ApprovalMatchesRecord, Acquired, Releasable, GuardedStep, EventsPast;
    var r := Current(s);
    var approval := FindApproval(r.approvals, e.request.approvalId);
    assert approval.Some? ==> approval.value == r.approvals[0];
  }

  lemma EvolvedExtends(s: Shared, t: Shared, n: nat)
    requires Evolves(s, t, n)
    ensures s.history != [] && t.history != [] && Extends(Current(s), Current(t))
    ensures s.ledger <= t.ledger && forall k | |s.ledger| <= k < |t.ledger| :: t.ledger[k].instance == n
  {
    hide Extends, LeasesEvolve, ClusterGrows, OutcomeBy;
  }

  lemma EnvironmentOnly(y: System, v: Event)
    requires SystemInvariant(y) && Possible(y, v) && !v.Run?
    ensures var t := Next(y, v).shared;
            t.history != [] && Extends(Current(y.shared), Current(t)) && t.ledger == y.shared.ledger
  {
    hide SharedInvariant, InstanceInvariant, Evolves, EnvironmentStep, OtherCallPossible, Extends;
    if v.Deliver? || v.Crash? {
      ExtendsReflexive(Current(y.shared));
    } else {
      EnvironmentKeeps(y.shared, v, |y.instances|);
      EnvironmentLeavesLedger(y.shared, v);
      EvolvedExtends(y.shared, EnvironmentStep(y.shared, v), |y.instances|);
    }
  }

  lemma RunOnly(y: System, i: nat, a: Answers)
    requires SystemInvariant(y) && Possible(y, Run(i, a))
    ensures var t := Next(y, Run(i, a)).shared;
            && t.history != [] && Extends(Current(y.shared), Current(t)) && y.shared.ledger <= t.ledger
            && (forall k | |y.shared.ledger| <= k < |t.ledger| :: t.ledger[k].instance == i)
  {
    hide SharedInvariant, InstanceInvariant, Evolves, Execute, AnswersPossible;
    assert InstanceInvariant(y.shared, i, y.instances[i]);
    ExecuteKeeps(y.shared, i, y.instances[i], a);
    EvolvedExtends(y.shared, Next(y, Run(i, a)).shared, i);
  }

  lemma NextExtends(y: System, v: Event)
    requires SystemInvariant(y) && Possible(y, v)
    ensures var t := Next(y, v).shared; t.history != [] && Extends(Current(y.shared), Current(t))
  {
    hide SystemInvariant, Possible, Next, Extends;
    if v.Run? {
      RunOnly(y, v.instance, v.answers);
    } else {
      EnvironmentOnly(y, v);
    }
  }

  lemma SilentAppend(a: seq<Write>, b: seq<Write>, i: nat, n: nat)
    requires a <= b && Silent(a, n) && i != n && forall k | |a| <= k < |b| :: b[k].instance == i
    ensures Silent(b, n)
  {
    forall w <- b ensures w.instance != n {
      var k :| 0 <= k < |b| && b[k] == w;
      assert k < |a| ==> a[k] in a;
    }
  }

  lemma HarmlessStays(y: System, v: Event, n: nat)
    requires SystemInvariant(y) && Possible(y, v) && Stale(Current(y.shared)) && Harmless(y, n)
    ensures Harmless(Next(y, v), n)
  {
    hide SystemInvariant, AnswersPossible, Execute, EnvironmentStep, Stale, Silent, OtherCallPossible, Extends;
    SystemFacts(y);
    if v.Run? && v.instance == n {
      AtMostOneDecision(Current(y.shared));
      StaleRecheckRefuses(y.shared, n, y.instances[n], v.answers);
    } else if v.Run? {
      RunOnly(y, v.instance, v.answers);
      SilentAppend(y.shared.ledger, Next(y, v).shared.ledger, v.instance, n);
    } else {
      EnvironmentOnly(y, v);
    }
  }

  lemma AtMostOneDecision(r: InvestigationRecord)
    requires RecordInvariant(r)
    ensures |r.approvals| <= 1
  {
    hide RecordInvariant;
    OneApproval(r);
  }

  lemma StaleStep(y: System, v: Event)
    requires SystemInvariant(y) && Possible(y, v) && Stale(Current(y.shared))
    ensures Next(y, v).shared.history != [] && Stale(Current(Next(y, v).shared))
  {
    hide SystemInvariant, Possible, Next, Extends, Stale, RecordInvariant;
    NextExtends(y, v);
    NextKeepsSystem(y, v);
    SystemFacts(y);
    SystemFacts(Next(y, v));
    StaleStays(Current(y.shared), Current(Next(y, v).shared));
  }

  lemma {:induction false} StaleAndHarmless(initial: System, before: seq<Event>, later: seq<Event>, n: nat)
    requires Runs(initial, before) && Runs(initial, before + later)
    requires Reached(initial, before).shared.history != [] && Stale(Current(Reached(initial, before).shared))
    requires Uncommitted(Reached(initial, before), n)
    ensures var y := Reached(initial, before + later);
            y.shared.history != [] && Stale(Current(y.shared)) && Harmless(y, n)
  {
    hide SystemInvariant, Possible, Next, Stale, Harmless, Uncommitted;
    if later == [] {
      assert before + later == before;
      RunKeepsSystem(initial, before);
      UncommittedIsHarmless(Reached(initial, before), n);
    } else {
      var events, v := before + later[..|later| - 1], later[|later| - 1];
      assert (before + later)[..|before + later| - 1] == events;
      StaleAndHarmless(initial, before, later[..|later| - 1], n);
      RunKeepsSystem(initial, events);
      StaleStep(Reached(initial, events), v);
      HarmlessStays(Reached(initial, events), v, n);
    }
  }

  /** Once evidence was added after the decision, a `consume` not yet past its authority checks never writes. */
  lemma StaleConsumeNeverWrites(initial: System, before: seq<Event>, later: seq<Event>, n: nat)
    requires Runs(initial, before) && Runs(initial, before + later)
    requires Reached(initial, before).shared.history != [] && Stale(Current(Reached(initial, before).shared))
    requires Uncommitted(Reached(initial, before), n)
    ensures forall w <- Reached(initial, before + later).shared.ledger :: w.instance != n
  {
    hide Runs, Reached, Stale, Uncommitted;
    StaleAndHarmless(initial, before, later, n);
  }

  // ---------------------------------------------------------------- every delivery ends

  function StageRank(stage: Stage): nat {
    match stage
    case Claiming => 30
    case Resuming => 30
    case Inspecting => 29
    case Revalidating(_) => 28
    case ReportingValidated(_) => 27
    case ReportingDryRun(_) => 26
    case Renewing(_) => 25
    case Mutating(_) => 24
    case ReportingMutated(_) => 23
    case Verifying(_) => 22
    case ReportingFailed(_, _) => 21
    case RecordingFailed => 20
    case RecordingSucceeded => 20
    case Reinspecting(_, _) => 20
    case RevalidatingRestore(_, _) => 19
    case ReportingRestore(_, _, _) => 18
    case RenewingRestore(_, _, _) => 17
    case Restoring(_, _, _) => 16
    case ReportingRestored(_, _, _) => 15
    case VerifyingRestored(_, _, _) => 14
    case RecordingRolledBack => 13
  }

  const DELIVERY_OPERATIONS := 34

  /** How many atomic operations a `consume` may still need. */
  function Rank(pc: Pc): nat {
    match pc
    case Starting => 34
    case RejectingDuplicate(_) => 1
    case Receiving(_, _) => 33
    case Acquiring(_, _) => 32
    case ReportingBusy => 1
    case Rechecking(_, _, _) => 31
    case Guarded(_, _, _, _, stage) => StageRank(stage)
    case Halting(_, _) => 4
    case RecordingHalt(_, _) => 3
    case Refusing(_) => 3
    case Releasing(_, _, _) => 2
    case ReportingSkipped(_, _, _) => 1
    case Exited(_, _, _, _) => 0
    case Crashed => 0
  }

  lemma GuardedStepProgresses(s: Shared, n: nat, q: InterventionRequest, pc: Pc, a: Answers)
    requires s.history != [] && pc.Guarded? && pc.seen.proposal.Some?
    ensures Rank(Moved(pc, GuardedStep(s, n, q, pc, a).1)) < Rank(pc)
  {
    hide CallWithEvent, Log, Evaluate, Inspect, ActionConverged, RenewLease, Wrote, AtApprovedVersion;
  }

  /** Each own step brings a `consume` strictly closer to its exit, whatever the answers. */
  lemma EveryStepProgresses(s: Shared, n: nat, e: Instance, a: Answers)
    requires s.history != [] && (e.pc.Guarded? ==> e.pc.seen.proposal.Some?)
    requires !e.pc.Exited? && !e.pc.Crashed?
    ensures Rank(Execute(s, n, e, a).1.pc) < Rank(e.pc) <= DELIVERY_OPERATIONS
  {
    hide GuardedStep, CallWithEvent, Log, Acquired, Releasable, AuthorityHolds, FindByKey, FindApproval;
    hide FindIntervention;
    if e.pc.Guarded? {
      GuardedStepProgresses(s, n, e.request, e.pc, a);
    }
  }

  /** The operations a run performed for instance `n` before that instance exited or crashed. */
  ghost function Operations(initial: System, events: seq<Event>, n: nat): nat
    requires Runs(initial, events)
  {
    if events == [] then 0
    else
      var before, v := events[..|events| - 1], events[|events| - 1];
      var pc := if n < |Reached(initial, before).instances| then Reached(initial, before).instances[n].pc else Crashed;
      Operations(initial, before, n) + if v.Run? && v.instance == n && !pc.Exited? && !pc.Crashed? then 1 else 0
  }

  lemma EndedStays(s: Shared, n: nat, e: Instance, a: Answers)
    requires s.history != [] && (e.pc.Exited? || e.pc.Crashed?)
    ensures Execute(s, n, e, a) == (s, e)
  {
  }

  lemma OneMoreOperation(y: System, v: Event, n: nat)
    requires y.shared.history != [] && Possible(y, v)
    ensures n < |y.instances| ==>
              && n < |Next(y, v).instances|
              && (v.Run? && v.instance == n ==> Rank(Next(y, v).instances[n].pc) <= Rank(y.instances[n].pc))
              && (v.Run? && v.instance == n && !y.instances[n].pc.Exited? && !y.instances[n].pc.Crashed? ==>
                    Rank(Next(y, v).instances[n].pc) < Rank(y.instances[n].pc))
              && (!v.Run? || v.instance != n ==> Rank(Next(y, v).instances[n].pc) <= Rank(y.instances[n].pc))
    ensures n < |Next(y, v).instances| ==> Rank(Next(y, v).instances[n].pc) <= DELIVERY_OPERATIONS
  {
    hide Perform, EnvironmentStep, AnswersPossible, OtherCallPossible;
    if v.Run? && v.instance == n && (y.instances[n].pc.Exited? || y.instances[n].pc.Crashed?) {
      EndedStays(y.shared, n, y.instances[n], v.answers);
    } else if v.Run? && v.instance == n {
      EveryStepProgresses(y.shared, n, y.instances[n], v.answers);
    }
  }

  lemma {:induction false} OperationsAndRank(initial: System, events: seq<Event>, n: nat)
    requires Runs(initial, events)
    ensures var y := Reached(initial, events);
            if n < |y.instances| then Operations(initial, events, n) + Rank(y.instances[n].pc) <= DELIVERY_OPERATIONS
            else Operations(initial, events, n) == 0
  {
    hide Rank, Next, Possible;
    if events != [] {
      var before, v := events[..|events| - 1], events[|events| - 1];
      OperationsAndRank(initial, before, n);
      OneMoreOperation(Reached(initial, before), v, n);
    }
  }

  /** In every run a delivery performs at most 34 operations, whatever the answers and whoever interferes. */
  lemma DeliveriesAreShort(initial: System, events: seq<Event>, n: nat)
    requires Runs(initial, events)
    ensures Operations(initial, events, n) <= 34
  {
    hide Runs, Reached, Operations, Rank;
    OperationsAndRank(initial, events, n);
  }

  /** No delivery is ever stuck for want of a proposal: the side condition on its steps excludes nothing. */
  lemma StepsAreNeverBlocked(initial: System, events: seq<Event>, n: nat)
    requires Runs(initial, events) && n < |Reached(initial, events).instances|
    ensures var pc := Reached(initial, events).instances[n].pc; pc.Guarded? ==> pc.seen.proposal.Some?
  {
    hide SharedInvariant, StageInvariant, LeaseSound, ClaimedAs;
    RunKeepsSystem(initial, events);
    hide Runs, Reached;
    assert InstanceInvariant(Reached(initial, events).shared, n, Reached(initial, events).instances[n]);
  }
}
