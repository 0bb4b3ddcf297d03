/** The audit trail over whole runs: what stands before every write, behind every outcome, and at every exit. */
module TrailRuns {
  import opened Wrappers
  import opened Incidents
  import opened ApprovalBindings
  import opened RecordOperations
  import opened RecordInvariants
  import opened RecordRuns
  import opened WorkloadLeases
  import opened ProposalPolicy
  import opened InterventionQueues
  import opened Protocol
  import opened ProtocolInvariants
  import opened ProtocolSteps
  import opened ProtocolSafety
  import opened ProtocolRuns
  import opened ProtocolTrail
  import opened TrailSteps

  // ---------------------------------------------------------------- every step of the system keeps the trail

  lemma AddDeed(deeds: seq<Deed>, d: Deed)
    requires AllBacked(deeds) && Backed(deeds, d)
    ensures AllBacked(deeds + [d])
    ensures WritesOf(deeds + [d]) == WritesOf(deeds) + if d.act.WrotePatch? then [d.act.write] else []
    ensures OutcomesOf(deeds + [d]) == OutcomesOf(deeds) + if d.act.RecordedOutcome? then [d.act.state] else []
  {
    hide Backed;
    LastOf(deeds, d);
    forall k | 0 <= k < |deeds + [d]| ensures Backed((deeds + [d])[..k], (deeds + [d])[k]) {
      if k < |deeds| {
        TakeOfSum(deeds, [d], k);
      }
    }
    assert (deeds + [d])[..|deeds + [d]| - 1] == deeds;
  }

  /** What the deed of a step says about the ledger and the outcome. */
  predicate Reported(s: Shared, t: Shared, act: Option<Act>) {
    && s.history != [] && t.history != []
    && t.ledger == s.ledger + (if act.Some? && act.value.WrotePatch? then [act.value.write] else [])
    && (act.Some? && act.value.RecordedOutcome? <==> !Over(s) && Over(t))
    && (act.Some? && act.value.RecordedOutcome? ==> act.value.state == Current(t).interventions[0].state)
    && (Over(s) ==> Over(t) && Current(t).interventions[0].state == Current(s).interventions[0].state)
  }

  lemma OverStays(s: Shared, t: Shared, n: nat)
    requires s.history != [] && Evolves(s, t, n) && SharedInvariant(t) && Over(s)
    ensures Over(t) && Current(t).interventions[0].state == Current(s).interventions[0].state
  {
    hide SharedInvariant, LeasesEvolve, OutcomeBy, ClusterGrows;
    AtMostOne(t);
    assert InterventionAdvances(Current(s).interventions[0], Current(t).interventions[0]);
  }

  lemma ReportedStep(s: Shared, n: nat, e: Instance, a: Answers)
    requires s.history != [] && (e.pc.Guarded? ==> e.pc.seen.proposal.Some?)
    requires SharedInvariant(s) && InstanceInvariant(s, n, e) && AnswersPossible(s, e, a)
    ensures Reported(s, Execute(s, n, e, a).0, ActOf(s, n, e, a))
  {
    hide SharedInvariant, PcInvariant, Over, GuardedAct, Execute, AnswersPossible, Effectful, Evolves;
    var t := Execute(s, n, e, a).0;
    ExecuteKeeps(s, n, e, a);
    if Over(s) {
      OverStays(s, t, n);
    }
    LedgerOfStep(s, n, e, a);
    if t.history == s.history {
      SameHistory(s, t);
    }
    GuardedActIsQuiet(e, Execute(s, n, e, a).1, a);
  }

  lemma SameHistory(s: Shared, t: Shared)
    requires t.history == s.history
    ensures Over(t) <==> Over(s)
  {
  }

  lemma GuardedActIsQuiet(e: Instance, f: Instance, a: Answers)
    ensures e.pc.Guarded? && e.pc.seen.proposal.Some? && GuardedAct(e, f, a).Some? ==>
              !GuardedAct(e, f, a).value.RecordedOutcome? && !GuardedAct(e, f, a).value.WrotePatch?
  {
  }

  lemma LedgerOfStep(s: Shared, n: nat, e: Instance, a: Answers)
    requires s.history != [] && (e.pc.Guarded? ==> e.pc.seen.proposal.Some?)
    requires SharedInvariant(s) && InstanceInvariant(s, n, e) && AnswersPossible(s, e, a)
    ensures var t := Execute(s, n, e, a).0;
            && t.history != []
            && (t.ledger == s.ledger
                || (|t.ledger| == |s.ledger| + 1 && s.ledger <= t.ledger && t.history == s.history))
  {
    hide SharedInvariant, PcInvariant, GuardedStep, Lands, Quiet, CallWithEvent, Over, FreshEvent;
    if a.fault {
    } else if !Effectful(e.pc) {
      QuietStep(s, n, e, a);
      QuietLedger(s, Execute(s, n, e, a).0);
    } else if e.pc.RecordingHalt? {
      var i := e.pc.intervention.(state := SafeHalted);
      OutcomeStepIs(s, n, e.request, i, FreshEvent(s, e.request.incidentId, "intervention_safe_halted"));
      CallLedger(s, UpdateIntervention(i, FreshEvent(s, e.request.incidentId, "intervention_safe_halted")));
    } else if WriteStage(e.pc.stage) {
      if !a.reply.NotLanded? {
        LandsSomewhere(s.cluster, WrittenPatch(e.request, e.pc.stage), a.reply.after);
      }
      WriteStepIs(s, n, e.request, e.pc, a);
    } else {
      EndStepIs(s, n, e.request, e.pc, a);
      var i := e.pc.intervention.(state := EndState(e.pc.stage));
      CallLedger(s, UpdateIntervention(i, FreshEvent(s, e.request.incidentId, EndEvent(e.pc.stage))));
    }
  }

  lemma QuietLedger(s: Shared, t: Shared)
    requires Quiet(s, t)
    ensures t.history != [] && t.ledger == s.ledger
  {
  }

  lemma CallLedger(s: Shared, op: StoreOp)
    requires s.history != []
    ensures CallWithEvent(s, op).shared.history != [] && CallWithEvent(s, op).shared.ledger == s.ledger
  {
    hide Apply;
  }

  lemma OthersTrailed(deeds: seq<Deed>, more: seq<Deed>, i: nat, y: System, t: Shared, e: Instance)
    requires i < |y.instances| && (forall d <- more :: d.instance == i)
    requires forall n | 0 <= n < |y.instances| :: PcTrail(deeds, n, y.instances[n].request, y.instances[n].pc)
    requires PcTrail(deeds + more, i, e.request, e.pc)
    ensures var z := System(t, y.instances[i := e]);
            forall n | 0 <= n < |z.instances| :: PcTrail(deeds + more, n, z.instances[n].request, z.instances[n].pc)
  {
    hide PcTrail;
    forall n | 0 <= n < |y.instances| && n != i
      ensures PcTrail(deeds + more, n, y.instances[n].request, y.instances[n].pc)
    {
      PcTrailGrows(deeds, more, n, y.instances[n].request, y.instances[n].pc);
    }
  }

  lemma RequestKept(s: Shared, n: nat, e: Instance, a: Answers)
    requires s.history != [] && (e.pc.Guarded? ==> e.pc.seen.proposal.Some?)
    ensures Execute(s, n, e, a).1.request == e.request
  {
    hide GuardedStep, Moved, CallWithEvent, Log, AuthorityHolds, Acquired, Releasable;
  }

  lemma RunTrailed(deeds: seq<Deed>, y: System, i: nat, a: Answers)
    requires SystemInvariant(y) && Possible(y, Run(i, a)) && TrailInvariant(deeds, y)
    ensures TrailInvariant(deeds + StepDeeds(y, Run(i, a)), Next(y, Run(i, a)))
  {
    hide SharedInvariant, InstanceInvariant, PcTrail, AllBacked, Execute, ActOf, Over, AnswersPossible, WritesOf;
    hide OutcomesOf, Backed;
    var s, e := y.shared, y.instances[i];
    assert InstanceInvariant(s, i, e);
    OwnStepTrailed(deeds, s, i, e, a);
    ReportedStep(s, i, e, a);
    RequestKept(s, i, e, a);
    var act := ActOf(s, i, e, a);
    var (t, f) := Execute(s, i, e, a);
    OthersTrailed(deeds, Added(i, s, act), i, y, t, f);
    if act.Some? {
      AddDeed(deeds, Deed(i, s, act.value));
    } else {
      assert deeds + [] == deeds;
    }
  }

  lemma EnvironmentLeavesOutcome(s: Shared, v: Event, n: nat)
    requires SharedInvariant(s) && !v.Deliver? && !v.Run? && !v.Crash?
    requires v.OtherCall? ==> OtherCallPossible(s, v.op)
    requires v.Publish? ==> s.decided.Some?
    ensures Quiet(s, EnvironmentStep(s, v))
  {
    hide HistoryInvariant, Apply, DecidedSound, WriteSound, PolicyHonest, OutcomeCounts, ClusterSound, KeepsRecord;
    hide Acquired, Renewed, Releasable, Installed, Deleted, BuildRequest, MadeByPolicy, Published, Finished;
    if v.OtherCall? && CallWithEvent(s, v.op).accepted {
      RecordKept(s);
      InterventionsAfter(Current(s), v.op);
      SameOutcome(Current(s), Apply(Current(s), v.op).value);
    }
  }

  lemma SameOutcome(r: InvestigationRecord, t: InvestigationRecord)
    requires t.interventions == r.interventions
    ensures Finished(t) <==> Finished(r)
  {
  }

  lemma EnvironmentTrailed(deeds: seq<Deed>, y: System, v: Event)
    requires SystemInvariant(y) && Possible(y, v) && !v.Deliver? && !v.Run? && !v.Crash? && TrailInvariant(deeds, y)
    ensures TrailInvariant(deeds, Next(y, v))
  {
    hide SharedInvariant, InstanceInvariant, PcTrail, AllBacked, EnvironmentStep, WritesOf, OutcomesOf;
    hide OtherCallPossible, Unused;
    EnvironmentLeavesOutcome(y.shared, v, |y.instances|);
  }

  lemma DeliverTrailed(deeds: seq<Deed>, y: System, q: InterventionRequest, owner: string)
    requires TrailInvariant(deeds, y)
    ensures TrailInvariant(deeds, y.(instances := y.instances + [Instance(q, owner, y.shared.clock, Starting)]))
  {
    hide AllBacked, WritesOf, OutcomesOf, Over, StageTrail, ClaimTrail;
    forall k | 0 <= k < |deeds| ensures deeds[k].instance < |y.instances| {
      assert deeds[k] in deeds;
    }
  }

  lemma CrashTrailed(deeds: seq<Deed>, y: System, i: nat)
    requires TrailInvariant(deeds, y) && i < |y.instances|
    ensures TrailInvariant(deeds, y.(instances := y.instances[i := y.instances[i].(pc := Crashed)]))
  {
    hide AllBacked, WritesOf, OutcomesOf, Over, StageTrail, ClaimTrail, Undecided;
  }

  lemma NextTrailed(deeds: seq<Deed>, y: System, v: Event)
    requires SystemInvariant(y) && Possible(y, v) && TrailInvariant(deeds, y)
    ensures TrailInvariant(deeds + StepDeeds(y, v), Next(y, v))
  {
    hide SystemInvariant, TrailInvariant, Execute, EnvironmentStep, ActOf;
    assert deeds + [] == deeds;
    match v {
      case Deliver(q, owner) => DeliverTrailed(deeds, y, q, owner);
      case Run(i, a) => RunTrailed(deeds, y, i, a);
      case Crash(i) => CrashTrailed(deeds, y, i);
      case _ => EnvironmentTrailed(deeds, y, v);
    }
  }

  lemma InitialTrailed(y: System)
    requires Initial(y)
    ensures TrailInvariant([], y)
  {
    NothingClaimed(y.shared.history[0]);
    hide RecordInvariant;
  }

  lemma NothingClaimed(r: InvestigationRecord)
    requires RecordInvariant(r) && r.policy.None?
    ensures r.interventions == []
  {
    hide HistoryInvariant;
  }

  lemma {:induction false} RunTrail(initial: System, events: seq<Event>)
    requires Runs(initial, events)
    ensures TrailInvariant(Deeds(initial, events), Reached(initial, events))
  {
    hide SystemInvariant, TrailInvariant, Next, Possible, Initial, StepDeeds;
    if events == [] {
      InitialTrailed(initial);
    } else {
      var before := events[..|events| - 1];
      RunTrail(initial, before);
      RunKeepsSystem(initial, before);
      NextTrailed(Deeds(initial, before), Reached(initial, before), events[|events| - 1]);
    }
  }

  // ---------------------------------------------------------------- the theorems over all runs

  /** The trail is complete: its writes are the ledger, and its one outcome, if any, is the recorded one. */
  lemma TrailIsComplete(initial: System, events: seq<Event>)
    requires Runs(initial, events)
    ensures WritesOf(Deeds(initial, events)) == Reached(initial, events).shared.ledger
    ensures Reached(initial, events).shared.history != []
    ensures OutcomesOf(Deeds(initial, events)) ==
            (if Over(Reached(initial, events).shared)
             then [Current(Reached(initial, events).shared).interventions[0].state] else [])
  {
    hide AllBacked, PcTrail, Over;
    RunTrail(initial, events);
    hide Runs, Reached, Deeds;
  }

  predicate AuthorisedFor(d: Deed, n: nat, w: Write) {
    && d.act.PassedAuthority? && Authorising(d, n, d.act.request)
    && (w.kind.Forward? ==> w.patch == d.act.request.patch)
  }

  /** Authority, then policy on this very patch, then a renewal of a held lease, then this write, by one instance. */
  predicate WriteChain(deeds: seq<Deed>, w: nat)
    requires w < |deeds| && deeds[w].act.WrotePatch?
  {
    var n, write := deeds[w].instance, deeds[w].act.write;
    exists a, p, r | 0 <= a < p < r < w ::
      AuthorisedFor(deeds[a], n, write) && Accepting(deeds[p], n, write.patch) && RenewingHeld(deeds[r], n)
  }

  /** A write of instance `n` that definitely failed to converge. */
  predicate FailedWrite(deeds: seq<Deed>, f: nat, c: nat, n: nat)
    requires f < c < |deeds|
  {
    && deeds[c].act.SawConvergence? && deeds[c].act.answer.observed.Some?
    && WritingOnto(deeds[f], n, deeds[c].act.previous)
    && Failing(deeds[c], n, deeds[c].act.previous, deeds[c].act.answer.observed.value)
  }

  /** Policy accepted putting back the replicas of the state the failed write had found. */
  predicate UndoAccepted(deeds: seq<Deed>, c: nat, p: nat, n: nat, patch: DeploymentPatch)
    requires c < p < |deeds|
  {
    && deeds[c].act.SawConvergence? && Accepting(deeds[p], n, patch)
    && deeds[p].act.proposal.action.ScaleDeployment?
    && deeds[p].act.proposal.action.replicas == deeds[c].act.previous.replicas
  }

  /** The scale landed, its convergence failed definitely, and only then policy accepted putting the replicas back. */
  predicate RestorationChain(deeds: seq<Deed>, w: nat)
    requires w < |deeds| && deeds[w].act.WrotePatch?
  {
    var n, patch := deeds[w].instance, deeds[w].act.write.patch;
    exists f, c, p | 0 <= f < c < p < w :: FailedWrite(deeds, f, c, n) && UndoAccepted(deeds, c, p, n, patch)
  }

  lemma PolicyLink(deeds: seq<Deed>, k: nat, n: nat, q: InterventionRequest, kind: WriteKind, patch: DeploymentPatch)
    returns (a: nat, p: nat)
    requires k <= |deeds| && PolicyBefore(deeds[..k], n, q, kind, patch)
    ensures a < p < k && Authorising(deeds[a], n, q) && Accepting(deeds[p], n, patch)
    ensures kind.Restoration? ==> deeds[p].act.PassedPolicy? && Undoing(deeds[..p], n, deeds[p].act.proposal)
  {
    hide Authorising, Undoing;
    p :| 0 <= p < k && AcceptingAfter(deeds[..k], p, n, q, kind, patch);
    assert deeds[..k][..p] == deeds[..p];
    a :| 0 <= a < p && Authorising(deeds[..p][a], n, q);
  }

  lemma RenewalLink(deeds: seq<Deed>, w: nat, n: nat, q: InterventionRequest, kind: WriteKind, patch: DeploymentPatch)
    returns (r: nat)
    requires w <= |deeds| && RenewalBefore(deeds[..w], n, q, kind, patch)
    ensures r < w && RenewingHeld(deeds[r], n) && PolicyBefore(deeds[..r], n, q, kind, patch)
  {
    hide RenewingHeld, PolicyBefore;
    r :| 0 <= r < w && RenewingHeld(deeds[..w][r], n) && PolicyBefore(deeds[..w][..r], n, q, kind, patch);
    assert deeds[..w][..r] == deeds[..r];
  }

  lemma ChainOfWrite(deeds: seq<Deed>, w: nat, q: InterventionRequest)
    requires w < |deeds| && deeds[w].act.WrotePatch?
    requires var write := deeds[w].act.write;
             && RenewalBefore(deeds[..w], deeds[w].instance, q, write.kind, write.patch)
             && (write.kind.Forward? ==> write.patch == q.patch)
    ensures WriteChain(deeds, w) && (deeds[w].act.write.kind.Restoration? ==> RestorationChain(deeds, w))
  {
    hide Authorising, Accepting, RenewingHeld, Undoing, PolicyBefore, RenewalBefore, RestorationChain;
    var n, write := deeds[w].instance, deeds[w].act.write;
    var r := RenewalLink(deeds, w, n, q, write.kind, write.patch);
    var a, p := PolicyLink(deeds, r, n, q, write.kind, write.patch);
    AuthorisingNames(deeds[a], n, q);
    if write.kind.Restoration? {
      ChainOfRestoration(deeds, p, w);
    }
  }

  lemma AuthorisingNames(d: Deed, n: nat, q: InterventionRequest)
    requires Authorising(d, n, q)
    ensures d.act.PassedAuthority? && d.act.request == q
  {
  }

  lemma ChainOfRestoration(deeds: seq<Deed>, p: nat, w: nat)
    requires p < w < |deeds| && deeds[w].act.WrotePatch? && deeds[p].act.PassedPolicy?
    requires Accepting(deeds[p], deeds[w].instance, deeds[w].act.write.patch)
    requires Undoing(deeds[..p], deeds[w].instance, deeds[p].act.proposal)
    ensures RestorationChain(deeds, w)
  {
    hide Accepting, WritingOnto, FailureBefore;
    var n := deeds[w].instance;
    var b: DeploymentState, o :| FailureBefore(deeds[..p], n, b, o) && deeds[p].act.proposal.action.ScaleDeployment?
                                 && deeds[p].act.proposal.action.replicas == b.replicas;
    var f, c := FailureChain(deeds, p, n, b, o);
    assert UndoAccepted(deeds, c, p, n, deeds[w].act.write.patch);
  }

  lemma FailureChain(deeds: seq<Deed>, k: nat, n: nat, b: DeploymentState, o: DeploymentState)
    returns (f: nat, c: nat)
    requires k <= |deeds| && FailureBefore(deeds[..k], n, b, o)
    ensures f < c < k && FailedWrite(deeds, f, c, n) && Failing(deeds[c], n, b, o)
  {
    hide WritingOnto;
    c :| 0 <= c < k && Failing(deeds[..k][c], n, b, o) && ForwardBefore(deeds[..k][..c], n, b);
    assert deeds[..k][..c] == deeds[..c];
    f :| 0 <= f < c && WritingOnto(deeds[..c][f], n, b);
  }

  lemma BackedAt(deeds: seq<Deed>, k: nat)
    requires AllBacked(deeds) && k < |deeds|
    ensures Backed(deeds[..k], deeds[k])
  {
  }

  /**
   * Nothing is written but after authority, policy and a renewal, in this order; nothing is restored but after a scale
   * that landed and definitely failed, and then the replicas it started from.
   */
  lemma EveryWriteIsBacked(initial: System, events: seq<Event>, w: nat)
    requires Runs(initial, events) && w < |Deeds(initial, events)| && Deeds(initial, events)[w].act.WrotePatch?
    ensures WriteChain(Deeds(initial, events), w)
    ensures Deeds(initial, events)[w].act.write.kind.Restoration? ==> RestorationChain(Deeds(initial, events), w)
  {
    hide AllBacked, PcTrail, Over, WriteChain, RestorationChain, RenewalBefore;
    RunTrail(initial, events);
    var deeds := Deeds(initial, events);
    hide Runs, Reached, Deeds;
    BackedAt(deeds, w);
    var write := deeds[w].act.write;
    var q :| RenewalBefore(deeds[..w], deeds[w].instance, q, write.kind, write.patch)
             && (write.kind.Forward? ==> write.patch == q.patch);
    ChainOfWrite(deeds, w, q);
  }

  /** What the recorded outcome at `o` was recorded on. */
  predicate OutcomeChain(deeds: seq<Deed>, o: nat)
    requires o < |deeds| && deeds[o].act.RecordedOutcome?
  {
    var n := deeds[o].instance;
    match deeds[o].act.state
    case Succeeded =>
      exists f, c | 0 <= f < c < o ::
        && deeds[c].act.SawConvergence? && WritingOnto(deeds[f], n, deeds[c].act.previous)
        && Converging(deeds[c], n, deeds[c].act.action, deeds[c].act.previous)
    case Failed => FailedChain(deeds, o, n)
    case RolledBack => RolledBackChain(deeds, o, n)
    case SafeHalted => true
    case _ => false
  }

  predicate FailedChain(deeds: seq<Deed>, o: nat, n: nat)
    requires o < |deeds|
  {
    exists f, c | 0 <= f < c < o :: FailedWrite(deeds, f, c, n)
  }

  /** Convergence from the failed state back to the replicas of the state the failed write had found. */
  predicate Undone(deeds: seq<Deed>, c: nat, e: nat, n: nat)
    requires c < e < |deeds|
  {
    && deeds[c].act.SawConvergence? && deeds[c].act.answer.observed.Some? && deeds[e].act.SawConvergence?
    && deeds[e].act.action.ScaleDeployment? && deeds[e].act.action.replicas == deeds[c].act.previous.replicas
    && Converging(deeds[e], n, deeds[e].act.action, deeds[c].act.answer.observed.value)
  }

  /** A write that definitely failed, a restoring write, and convergence back. */
  predicate RolledBackChain(deeds: seq<Deed>, o: nat, n: nat)
    requires o < |deeds|
  {
    exists f, c, r, e | 0 <= f < c < r < e < o ::
      FailedWrite(deeds, f, c, n) && RestoringWrite(deeds[r], n) && Undone(deeds, c, e, n)
  }

  lemma RestoredLink(deeds: seq<Deed>, e: nat, n: nat, b: DeploymentState, s: DeploymentState)
    returns (f: nat, c: nat, r: nat)
    requires e <= |deeds| && RestoredBefore(deeds[..e], n, b, s)
    ensures f < c < r < e && FailedWrite(deeds, f, c, n) && Failing(deeds[c], n, b, s) && RestoringWrite(deeds[r], n)
  {
    hide RestoringWrite, FailureBefore, FailedWrite, Failing;
    r :| 0 <= r < e && RestoringWrite(deeds[..e][r], n) && FailureBefore(deeds[..e][..r], n, b, s);
    assert deeds[..e][..r] == deeds[..r];
    f, c := FailureChain(deeds, r, n, b, s);
  }

  lemma ChainOfSuccess(deeds: seq<Deed>, o: nat)
    requires o < |deeds| && deeds[o].act == RecordedOutcome(Succeeded) && SuccessBefore(deeds[..o], deeds[o].instance)
    ensures OutcomeChain(deeds, o)
  {
    hide ActionConverged;
    var n := deeds[o].instance;
    var c :| 0 <= c < o && ConvergingAfter(deeds[..o], c, n);
    var action, b :| Converging(deeds[..o][c], n, action, b) && ForwardBefore(deeds[..o][..c], n, b);
    assert deeds[..o][..c] == deeds[..c];
    var f :| 0 <= f < c && WritingOnto(deeds[..c][f], n, b);
    assert WritingOnto(deeds[f], n, deeds[c].act.previous);
    assert Converging(deeds[c], n, deeds[c].act.action, deeds[c].act.previous);
  }

  lemma ChainOfFailure(deeds: seq<Deed>, o: nat)
    requires o < |deeds| && AnyFailureBefore(deeds[..o], deeds[o].instance)
    ensures FailedChain(deeds, o, deeds[o].instance)
  {
    hide WritingOnto, FailureBefore;
    var n := deeds[o].instance;
    var b, s :| FailureBefore(deeds[..o], n, b, s);
    var f, c := FailureChain(deeds, o, n, b, s);
  }

  lemma ChainOfRollback(deeds: seq<Deed>, o: nat)
    requires o < |deeds| && RollbackBefore(deeds[..o], deeds[o].instance)
    ensures RolledBackChain(deeds, o, deeds[o].instance)
  {
    hide FailedWrite, RestoredBefore, RestoringWrite, ActionConverged;
    var n := deeds[o].instance;
    var e :| 0 <= e < o && RestoredAfter(deeds[..o], e, n);
    var b: DeploymentState, s, t :| Converging(deeds[..o][e], n, ScaleDeployment(t, b.replicas), s)
                                    && RestoredBefore(deeds[..o][..e], n, b, s);
    assert deeds[..o][..e] == deeds[..e];
    var f, c, r := RestoredLink(deeds, e, n, b, s);
    assert Undone(deeds, c, e, n);
  }

  /** No outcome is claimed but on the convergence answers that prove it, about the instance's own write. */
  lemma EveryOutcomeIsBacked(initial: System, events: seq<Event>, o: nat)
    requires Runs(initial, events) && o < |Deeds(initial, events)| && Deeds(initial, events)[o].act.RecordedOutcome?
    ensures OutcomeChain(Deeds(initial, events), o)
  {
    hide AllBacked, PcTrail, Over, SuccessBefore, AnyFailureBefore, RollbackBefore, FailedChain, RolledBackChain;
    RunTrail(initial, events);
    var deeds := Deeds(initial, events);
    hide Runs, Reached, Deeds;
    BackedAt(deeds, o);
    match deeds[o].act.state {
      case Succeeded => ChainOfSuccess(deeds, o);
      case Failed => ChainOfFailure(deeds, o);
      case RolledBack => ChainOfRollback(deeds, o);
      case _ =>
    }
  }

  lemma {:induction false} OutcomeIsFinished(deeds: seq<Deed>)
    ensures OutcomesOf(deeds) != [] <==> exists m :: FinishedBy(deeds, m)
  {
    if deeds == [] {
    } else {
      var before, d := deeds[..|deeds| - 1], deeds[|deeds| - 1];
      OutcomeIsFinished(before);
      assert deeds == before + [d];
      if d.act.RecordedOutcome? {
        assert FinishedBy(deeds, d.instance);
      } else if OutcomesOf(deeds) != [] {
        var m :| FinishedBy(before, m);
        var k :| 0 <= k < |before| && before[k].instance == m && before[k].act.RecordedOutcome?;
        assert deeds[k] == before[k];
        assert FinishedBy(deeds, m);
      } else {
        forall m ensures !FinishedBy(deeds, m) {
          assert !FinishedBy(before, m);
          forall k | 0 <= k < |deeds| ensures !(deeds[k].instance == m && deeds[k].act.RecordedOutcome?) {
            assert k < |before| ==> deeds[k] == before[k];
          }
        }
      }
    }
  }

  /** Some other executor recorded the outcome. */
  ghost predicate FinishedByOther(deeds: seq<Deed>, n: nat) {
    exists m | m != n :: FinishedBy(deeds, m)
  }

  lemma SettledOrNot(deeds: seq<Deed>, n: nat, claim: Claim, over: bool)
    requires ClaimTrail(deeds, n, claim) && !claim.Unclaimed? && (claim.Settled? ==> over)
    requires over <==> exists m :: FinishedBy(deeds, m)
    ensures over <==> !HaltLost(deeds, n) || FinishedByOther(deeds, n)
  {
    hide FinishedBy, HaltLost;
  }

  lemma ExitTrail(deeds: seq<Deed>, y: System, n: nat)
    requires TrailInvariant(deeds, y) && SystemInvariant(y) && n < |y.instances|
    ensures var pc := y.instances[n].pc;
            pc.Exited? && !pc.claim.Unclaimed? ==>
              (Over(y.shared) <==> !HaltLost(deeds, n) || FinishedByOther(deeds, n))
  {
    hide AllBacked, Finished, HaltLost, FinishedByOther, FinishedBy, SystemInvariant, WritesOf, OutcomesOf, ClaimTrail;
    OutcomeIsFinished(deeds);
    ExitsFollow(y, n);
    var pc := y.instances[n].pc;
    assert PcTrail(deeds, n, y.instances[n].request, pc);
    if pc.Exited? && !pc.claim.Unclaimed? {
      SettledOrNot(deeds, n, pc.claim, Over(y.shared));
    }
  }

  /**
   * Fail-stop, exactly: a `consume` that claimed and exited leaves a terminal Intervention if and only if neither call
   * of its safe halt raised, or some other executor finished the Intervention.
   */
  lemma ExitsAreTerminal(initial: System, events: seq<Event>, n: nat)
    requires Runs(initial, events) && n < |Reached(initial, events).instances|
    ensures var pc, deeds := Reached(initial, events).instances[n].pc, Deeds(initial, events);
            pc.Exited? && !pc.claim.Unclaimed? ==>
              (Over(Reached(initial, events).shared) <==> !HaltLost(deeds, n) || FinishedByOther(deeds, n))
  {
    hide TrailInvariant, SystemInvariant, Over, HaltLost, FinishedByOther;
    RunTrail(initial, events);
    RunKeepsSystem(initial, events);
    hide Runs, Reached, Deeds;
    ExitTrail(Deeds(initial, events), Reached(initial, events), n);
  }
}
