/** Every own step of an executor keeps its place in the audit trail and leaves only deeds that rest on earlier ones. */
module TrailSteps {
  import opened Wrappers
  import opened Incidents
  import opened ApprovalBindings
  import opened RecordOperations
  import opened RecordInvariants
  import opened RecordRuns
  import opened WorkloadLeases
  import opened ProposalPolicy
  import opened InterventionQueues
  import opened Protocol
  import opened ProtocolInvariants
  import opened ProtocolSteps
  import opened ProtocolSafety
  import opened ProtocolRuns
  import opened ProtocolTrail

  // ---------------------------------------------------------------- what one operation changes

  /** Neither a write nor an outcome. */
  predicate Quiet(s: Shared, t: Shared) {
    && s.history != [] && t.history != [] && t.ledger == s.ledger
    && (Over(s) || Over(t) ==> Current(t).interventions == Current(s).interventions)
  }

  predicate EndStage(stage: Stage) {
    stage.RecordingSucceeded? || stage.RecordingFailed? || stage.RecordingRolledBack?
  }

  predicate Effectful(pc: Pc) {
    pc.RecordingHalt? || (pc.Guarded? && (WriteStage(pc.stage) || EndStage(pc.stage)))
  }

  lemma QuietLog(s: Shared, n: nat, q: InterventionRequest, name: string)
    requires SharedInvariant(s) && q in s.queue
    ensures Quiet(s, Log(s, q, name).shared)
  {
    hide SharedInvariant, Log, Evolves, Finished;
    LogKeeps(s, q, name, n);
    SharedHistory(Log(s, q, name).shared);
  }

  lemma SharedHistory(s: Shared)
    requires SharedInvariant(s)
    ensures s.history != []
  {
  }

  lemma QuietClaim(s: Shared, n: nat, q: InterventionRequest, pc: Pc)
    requires pc.Guarded? && pc.seen.proposal.Some? && s.history != [] && pc.stage.Claiming?
    requires SharedInvariant(s) && q in s.queue && PcInvariant(s, n, q, pc)
    ensures var e := FreshEvent(s, q.incidentId, "intervention_claimed");
            Quiet(s, CallWithEvent(s, RecordIntervention(pc.seen.incident.version, pc.intervention, e)).shared)
  {
    hide HistoryInvariant, LeaseSound, SeenSound, Extends, ClusterGrows, LeasesEvolve, OutcomeBy, Apply, DecidedSound;
    hide LeaseGone, Evolves, WriteSound, PolicyHonest, OutcomeCounts, ClusterSound, KeepsRecord, EventsPast;
    var op := RecordIntervention(pc.seen.incident.version, pc.intervention,
                                 FreshEvent(s, q.incidentId, "intervention_claimed"));
    if CallWithEvent(s, op).accepted {
      RecordKept(s);
      InterventionsAfter(Current(s), op);
    }
  }

  lemma QuietGuarded(s: Shared, n: nat, q: InterventionRequest, pc: Pc, a: Answers)
    requires pc.Guarded? && pc.seen.proposal.Some? && s.history != [] && !Effectful(pc)
    requires SharedInvariant(s) && q in s.queue && PcInvariant(s, n, q, pc)
    ensures Quiet(s, GuardedStep(s, n, q, pc, a).0)
  {
    hide SharedInvariant, PcInvariant, Log, CallWithEvent, Evaluate, Inspect, ActionConverged, Quiet;
    hide AtApprovedVersion, Record, Wrote;
    assert Quiet(s, s) by { QuietSame(s); }
    match pc.stage {
      case Claiming => QuietClaim(s, n, q, pc);
      case Resuming => QuietLog(s, n, q, "intervention_resumed");
      case ReportingValidated(_) => QuietLog(s, n, q, "intervention_validated");
      case ReportingDryRun(_) => QuietLog(s, n, q, "intervention_dry_run_passed");
      case ReportingMutated(_) => QuietLog(s, n, q, "intervention_mutated");
      case ReportingFailed(_, _) => QuietLog(s, n, q, "intervention_action_failed");
      case ReportingRestore(_, _, _) => QuietLog(s, n, q, "intervention_restoration_validated");
      case ReportingRestored(_, _, _) => QuietLog(s, n, q, "intervention_restoration_mutated");
      case Renewing(_) => QuietRenewal(s, pc.lease);
      case RenewingRestore(_, _, _) => QuietRenewal(s, pc.lease);
      case _ =>
    }
  }

  lemma QuietSame(s: Shared)
    requires s.history != []
    ensures Quiet(s, s)
  {
  }

  lemma QuietRenewal(s: Shared, lease: WorkloadLease)
    requires s.history != []
    ensures RenewLease(s, lease).Success? ==> Quiet(s, RenewLease(s, lease).value.0)
  {
    hide Finished;
  }

  /** Only the two patches, the three outcomes and the safe halt change the ledger or the outcome. */
  lemma QuietStep(s: Shared, n: nat, e: Instance, a: Answers)
    requires s.history != [] && (e.pc.Guarded? ==> e.pc.seen.proposal.Some?)
    requires SharedInvariant(s) && InstanceInvariant(s, n, e) && !Effectful(e.pc)
    ensures Quiet(s, Execute(s, n, e, a).0)
  {
    hide SharedInvariant, PcInvariant, Log, CallWithEvent, Quiet, GuardedStep, AuthorityHolds, Acquired, Releasable;
    hide FindByKey, FindApproval, FindIntervention;
    QuietSame(s);
    match e.pc {
      case Guarded(_, _, _, _, _) => QuietGuarded(s, n, e.request, e.pc, a);
      case RejectingDuplicate(_) => QuietLog(s, n, e.request, "intervention_duplicate_rejected");
      case Receiving(_, _) => QuietLog(s, n, e.request, "intervention_received");
      case ReportingBusy => QuietLog(s, n, e.request, "intervention_refused");
      case Refusing(_) => QuietLog(s, n, e.request, "intervention_refused");
      case ReportingSkipped(_, _, _) => QuietLog(s, n, e.request, "intervention_lease_release_skipped");
      case Acquiring(_, _) => LeasesAreQuiet(s, Execute(s, n, e, a).0);
      case Releasing(_, _, _) => LeasesAreQuiet(s, Execute(s, n, e, a).0);
      case _ =>
    }
  }

  lemma LeasesAreQuiet(s: Shared, t: Shared)
    requires s.history != [] && t == s.(leases := t.leases, nextUuid := t.nextUuid)
    ensures Quiet(s, t)
  {
    hide Finished;
  }

  /** An accepted outcome ends a running Intervention; a refused one changes nothing. */
  lemma OutcomeStepIs(s: Shared, n: nat, q: InterventionRequest, i: Intervention, e: AuditEvent)
    requires SharedInvariant(s) && Terminal(i.state)
    ensures var o := CallWithEvent(s, UpdateIntervention(i, e));
            && o.shared.history != [] && o.shared.ledger == s.ledger
            && (if o.accepted then !Over(s) && Over(o.shared) && Current(o.shared).interventions[0].state == i.state
                else Quiet(s, o.shared))
  {
    hide HistoryInvariant, Apply, DecidedSound, WriteSound, PolicyHonest, OutcomeCounts, ClusterSound, KeepsRecord;
    var op := UpdateIntervention(i, e);
    RecordKept(s);
    if CallWithEvent(s, op).accepted {
      InterventionsAfter(Current(s), op);
    }
  }

  // ---------------------------------------------------------------- the trail follows every own step

  lemma LastOf(deeds: seq<Deed>, d: Deed)
    ensures (deeds + [d])[..|deeds|] == deeds && (deeds + [d])[|deeds|] == d
  {
  }

  lemma NewPolicy(deeds: seq<Deed>, d: Deed, n: nat, q: InterventionRequest, kind: WriteKind, p: DeploymentPatch)
    requires Accepting(d, n, p) && AuthorityBefore(deeds, n, q)
    requires kind.Restoration? ==> Undoing(deeds, n, d.act.proposal)
    ensures PolicyBefore(deeds + [d], n, q, kind, p)
  {
    hide Accepting, AuthorityBefore, Undoing;
    LastOf(deeds, d);
    assert AcceptingAfter(deeds + [d], |deeds|, n, q, kind, p);
  }

  lemma NewRenewal(deeds: seq<Deed>, d: Deed, n: nat, q: InterventionRequest, kind: WriteKind, p: DeploymentPatch)
    requires RenewingHeld(d, n) && PolicyBefore(deeds, n, q, kind, p)
    ensures RenewalBefore(deeds + [d], n, q, kind, p)
  {
    hide RenewingHeld, PolicyBefore;
    LastOf(deeds, d);
  }

  lemma NewFailure(deeds: seq<Deed>, d: Deed, n: nat, b: DeploymentState, o: DeploymentState)
    requires Failing(d, n, b, o) && ForwardBefore(deeds, n, b)
    ensures FailureBefore(deeds + [d], n, b, o)
  {
    hide Failing, ForwardBefore;
    LastOf(deeds, d);
  }

  lemma NewSuccess(deeds: seq<Deed>, d: Deed, n: nat, action: RemediationAction, b: DeploymentState)
    requires Converging(d, n, action, b) && ForwardBefore(deeds, n, b)
    ensures SuccessBefore(deeds + [d], n)
  {
    hide Converging, ForwardBefore;
    LastOf(deeds, d);
    assert ConvergingAfter(deeds + [d], |deeds|, n);
  }

  lemma NewRollback(deeds: seq<Deed>, d: Deed, n: nat, t: WorkloadReference, b: DeploymentState, o: DeploymentState)
    requires Converging(d, n, ScaleDeployment(t, b.replicas), o) && RestoredBefore(deeds, n, b, o)
    ensures RollbackBefore(deeds + [d], n)
  {
    hide Converging, RestoredBefore;
    LastOf(deeds, d);
    assert RestoredAfter(deeds + [d], |deeds|, n);
  }

  function Added(n: nat, s: Shared, act: Option<Act>): seq<Deed> {
    if act.Some? then [Deed(n, s, act.value)] else []
  }

  /** The steps of a guarded run that only move on: reports, inspections and the claim. */
  lemma ReportTrail(deeds: seq<Deed>, s: Shared, n: nat, q: InterventionRequest, pc: Pc, a: Answers)
    requires s.history != [] && pc.Guarded? && pc.seen.proposal.Some? && StageTrail(deeds, n, q, pc.stage)
    requires match pc.stage
             case Revalidating(_) => false
             case RevalidatingRestore(_, _) => false
             case Renewing(_) => false
             case RenewingRestore(_, _, _) => false
             case Verifying(_) => false
             case VerifyingRestored(_, _, _) => false
             case stage => !WriteStage(stage)
    ensures var m := GuardedStep(s, n, q, pc, a).1; m.Continue? ==> StageTrail(deeds, n, q, m.stage)
  {
    hide ForwardBefore, FailureBefore, AuthorityBefore, PolicyBefore, RenewalBefore, RestoredBefore;
    hide SuccessBefore, RollbackBefore, CallWithEvent, Log, Inspect, AtApprovedVersion;
  }

  lemma PolicyTrail(deeds: seq<Deed>, s: Shared, n: nat, e: Instance, a: Answers)
    requires s.history != [] && e.pc.Guarded? && e.pc.seen.proposal.Some?
    requires e.pc.stage.Revalidating? || e.pc.stage.RevalidatingRestore?
    requires StageTrail(deeds, n, e.request, e.pc.stage) && e.pc.seen.proposal.value.action.target == e.request.target
    requires e.pc.stage.RevalidatingRestore? ==> e.pc.seen.proposal.value.action.ScaleDeployment?
    ensures var m := GuardedStep(s, n, e.request, e.pc, a).1;
            var f := e.(pc := Moved(e.pc, m));
            m.Continue? ==> StageTrail(deeds + Added(n, s, GuardedAct(e, f, a)), n, e.request, m.stage)
  {
    hide ForwardBefore, FailureBefore, AuthorityBefore, PolicyBefore, RenewalBefore, RestoredBefore, Evaluate;
    hide SuccessBefore, RollbackBefore, Inspect, Acceptable, BuildPatch;
    var q, seen, proposal := e.request, e.pc.seen, e.pc.seen.proposal.value;
    var state := Inspect(s.cluster, proposal.action.target);
    var m := GuardedStep(s, n, q, e.pc, a).1;
    if m.Continue? && e.pc.stage.Revalidating? {
      EvaluationAccepts(seen, proposal, a.ready, state, a.dryRun, s.clock);
      NewPolicy(deeds, Deed(n, s, PassedPolicy(seen, proposal, q.patch)), n, q, Forward, q.patch);
    } else if m.Continue? {
      var restore := RestorationProposal(proposal, e.pc.intervention, e.pc.stage.before.replicas);
      EvaluationAccepts(seen, restore, a.ready, state, a.dryRun, s.clock);
      var d := Deed(n, s, PassedPolicy(seen, restore, m.stage.patch));
      assert Undoing(deeds, n, d.act.proposal) by {
        assert FailureBefore(deeds, n, e.pc.stage.before, e.pc.stage.observed);
      }
      NewPolicy(deeds, d, n, q, Restoration, m.stage.patch);
      FailureGrows(deeds, [d], n, e.pc.stage.before, e.pc.stage.observed);
    }
  }

  lemma EvaluationAccepts(r: InvestigationRecord, proposal: RemediationProposal, ready: bool,
                          state: Option<DeploymentState>, dryRun: DryRunResult, now: Time)
    ensures var d := Evaluate(r, proposal, ready, state, dryRun, now);
            d.status == PolicyPassed && d.patch.Some? ==>
              && Acceptable(r, proposal, true, state) && state.Some? && dryRun.Accepted?
              && d.patch == BuildPatch(proposal.action, state.value)
  {
    hide Evaluate, BuildPatch, Preflight;
    PolicyVerdict(r, proposal, ready, state, dryRun, now);
    DecisionsAreValid(r, proposal, ready, state, dryRun, now);
  }

  lemma RenewalTrail(deeds: seq<Deed>, s: Shared, n: nat, e: Instance, a: Answers)
    requires s.history != [] && e.pc.Guarded? && e.pc.seen.proposal.Some?
    requires e.pc.stage.Renewing? || e.pc.stage.RenewingRestore?
    requires StageTrail(deeds, n, e.request, e.pc.stage)
    ensures var m := GuardedStep(s, n, e.request, e.pc, a).1;
            var f := e.(pc := Moved(e.pc, m));
            m.Continue? ==> StageTrail(deeds + Added(n, s, GuardedAct(e, f, a)), n, e.request, m.stage)
  {
    hide ForwardBefore, FailureBefore, AuthorityBefore, PolicyBefore, RenewalBefore, RestoredBefore;
    hide SuccessBefore, RollbackBefore;
    var q, d := e.request, Deed(n, s, RenewedLease(e.pc.lease));
    if RenewLease(s, e.pc.lease).Success? && e.pc.stage.Renewing? {
      PolicyHasAuthority(deeds, n, q, Forward, q.patch);
      AuthorityGrows(deeds, [d], n, q);
      NewRenewal(deeds, d, n, q, Forward, q.patch);
    } else if RenewLease(s, e.pc.lease).Success? {
      NewRenewal(deeds, d, n, q, Restoration, e.pc.stage.patch);
      FailureGrows(deeds, [d], n, e.pc.stage.before, e.pc.stage.observed);
    }
  }

  lemma PolicyHasAuthority(deeds: seq<Deed>, n: nat, q: InterventionRequest, kind: WriteKind, p: DeploymentPatch)
    requires PolicyBefore(deeds, n, q, kind, p)
    ensures AuthorityBefore(deeds, n, q)
  {
    hide AuthorityBefore, Accepting, Undoing;
    var k :| 0 <= k < |deeds| && AcceptingAfter(deeds, k, n, q, kind, p);
    AuthorityGrows(deeds[..k], deeds[k..], n, q);
    assert deeds[..k] + deeds[k..] == deeds;
  }

  lemma ConvergedAchieves(action: RemediationAction, before: DeploymentState, observed: DeploymentState)
    ensures ActionConverged(action, before, observed) ==> Achieves(action, before, observed)
  {
  }

  lemma ConvergenceTrail(deeds: seq<Deed>, s: Shared, n: nat, e: Instance, a: Answers)
    requires s.history != [] && e.pc.Guarded? && e.pc.seen.proposal.Some?
    requires e.pc.stage.Verifying? || e.pc.stage.VerifyingRestored?
    requires StageTrail(deeds, n, e.request, e.pc.stage)
    ensures var m := GuardedStep(s, n, e.request, e.pc, a).1;
            var f := e.(pc := Moved(e.pc, m));
            m.Continue? ==> StageTrail(deeds + Added(n, s, GuardedAct(e, f, a)), n, e.request, m.stage)
  {
    hide ForwardBefore, FailureBefore, AuthorityBefore, PolicyBefore, RenewalBefore, RestoredBefore;
    hide SuccessBefore, RollbackBefore, ActionConverged, Achieves;
    var m, action := GuardedStep(s, n, e.request, e.pc, a).1, e.pc.seen.proposal.value.action;
    if m.Continue? && e.pc.stage.Verifying? {
      var d := Deed(n, s, SawConvergence(action, e.pc.stage.before, a.convergence));
      if a.convergence.status == DefinitelyFailed {
        NewFailure(deeds, d, n, e.pc.stage.before, m.stage.observed);
        AuthorityGrows(deeds, [d], n, e.request);
      } else {
        ConvergedAchieves(action, e.pc.stage.before, a.convergence.observed.value);
        NewSuccess(deeds, d, n, action, e.pc.stage.before);
      }
    } else if m.Continue? {
      var undo := ScaleDeployment(action.target, e.pc.stage.before.replicas);
      ConvergedAchieves(undo, e.pc.stage.observed, a.convergence.observed.value);
      NewRollback(deeds, Deed(n, s, SawConvergence(undo, e.pc.stage.observed, a.convergence)), n, action.target,
                  e.pc.stage.before, e.pc.stage.observed);
    }
  }

  /** What a step without a write or an outcome adds to the trail. */
  lemma QuietAct(s: Shared, n: nat, e: Instance, a: Answers)
    requires s.history != [] && (e.pc.Guarded? ==> e.pc.seen.proposal.Some?) && !a.fault
    requires Quiet(s, Perform(s, n, e, a).0)
    ensures var f := Perform(s, n, e, a).1;
            ActOf(s, n, e, a) ==
            (if e.pc.Rechecking? && f.pc.Guarded? then Some(PassedAuthority(e.request, f.pc.approval, e.now))
             else if e.pc.Guarded? then GuardedAct(e, f, a)
             else None)
  {
    hide Perform, GuardedAct;
  }

  lemma PlainAct(e: Instance, f: Instance, a: Answers)
    requires e.pc.Guarded? && e.pc.seen.proposal.Some?
    ensures match e.pc.stage
            case Revalidating(_) => true
            case RevalidatingRestore(_, _) => true
            case Renewing(_) => true
            case RenewingRestore(_, _, _) => true
            case Verifying(_) => true
            case VerifyingRestored(_, _, _) => true
            case _ => GuardedAct(e, f, a).None?
    ensures GuardedAct(e, f, a).Some? ==>
              && !GuardedAct(e, f, a).value.LostHalt? && !GuardedAct(e, f, a).value.RecordedOutcome?
              && !GuardedAct(e, f, a).value.WrotePatch?
  {
  }

  /** A guarded step without a write or an outcome leads to a stage the trail supports. */
  lemma GuardedTrail(deeds: seq<Deed>, s: Shared, n: nat, e: Instance, a: Answers)
    requires s.history != [] && e.pc.Guarded? && e.pc.seen.proposal.Some? && !Effectful(e.pc)
    requires StageTrail(deeds, n, e.request, e.pc.stage) && e.pc.seen.proposal.value.action.target == e.request.target
    requires e.pc.stage.RevalidatingRestore? ==> e.pc.seen.proposal.value.action.ScaleDeployment?
    ensures var m := GuardedStep(s, n, e.request, e.pc, a).1;
            var f := e.(pc := Moved(e.pc, m));
            m.Continue? ==> StageTrail(deeds + Added(n, s, GuardedAct(e, f, a)), n, e.request, m.stage)
  {
    hide StageTrail, GuardedStep, GuardedAct;
    var f := e.(pc := Moved(e.pc, GuardedStep(s, n, e.request, e.pc, a).1));
    PlainAct(e, f, a);
    assert deeds + [] == deeds;
    match e.pc.stage {
      case Revalidating(_) => PolicyTrail(deeds, s, n, e, a);
      case RevalidatingRestore(_, _) => PolicyTrail(deeds, s, n, e, a);
      case Renewing(_) => RenewalTrail(deeds, s, n, e, a);
      case RenewingRestore(_, _, _) => RenewalTrail(deeds, s, n, e, a);
      case Verifying(_) => ConvergenceTrail(deeds, s, n, e, a);
      case VerifyingRestored(_, _, _) => ConvergenceTrail(deeds, s, n, e, a);
      case _ => ReportTrail(deeds, s, n, e.request, e.pc, a);
    }
  }

  // ---------------------------------------------------------------- every own step keeps the trail

  /** The step keeps the instance's place in the trail, and its new deed rests on earlier ones. */
  ghost predicate Trailed(deeds: seq<Deed>, s: Shared, n: nat, e: Instance, a: Answers)
    requires s.history != [] && (e.pc.Guarded? ==> e.pc.seen.proposal.Some?)
  {
    var act := ActOf(s, n, e, a);
    && PcTrail(deeds + Added(n, s, act), n, e.request, Execute(s, n, e, a).1.pc)
    && (act.Some? ==> Backed(deeds, Deed(n, s, act.value)))
  }

  lemma UndecidedGrows(deeds: seq<Deed>, n: nat, s: Shared, act: Option<Act>)
    requires Undecided(deeds, n) && (act.Some? ==> !act.value.LostHalt? && !act.value.RecordedOutcome?)
    ensures Undecided(deeds + Added(n, s, act), n)
  {
    hide HaltLost, FinishedBy;
    DecisionGrows(deeds, Added(n, s, act), n);
  }

  lemma FaultTrailed(deeds: seq<Deed>, s: Shared, n: nat, e: Instance, a: Answers)
    requires s.history != [] && (e.pc.Guarded? ==> e.pc.seen.proposal.Some?) && a.fault
    requires PcTrail(deeds, n, e.request, e.pc)
    ensures Trailed(deeds, s, n, e, a)
  {
    hide StageTrail, HaltLost, FinishedBy;
    assert deeds + [] == deeds;
    if e.pc.Halting? || e.pc.RecordingHalt? {
      LostHaltShows(deeds, Deed(n, s, LostHalt), n);
    }
  }

  lemma LostHaltShows(deeds: seq<Deed>, d: Deed, n: nat)
    requires d.instance == n && d.act.LostHalt? && Undecided(deeds, n)
    ensures ClaimTrail(deeds + [d], n, Unhalted)
  {
    assert (deeds + [d])[|deeds|] == d;
    forall k | 0 <= k < |deeds + [d]| ensures k < |deeds| ==> (deeds + [d])[k] == deeds[k] {
    }
  }

  lemma OutcomeSettles(deeds: seq<Deed>, d: Deed, n: nat)
    requires d.instance == n && d.act.RecordedOutcome? && Undecided(deeds, n)
    ensures ClaimTrail(deeds + [d], n, Settled)
  {
    forall k | 0 <= k < |deeds + [d]| ensures k < |deeds| ==> (deeds + [d])[k] == deeds[k] {
    }
  }

  lemma AuthorityTrailed(deeds: seq<Deed>, s: Shared, n: nat, e: Instance, a: Answers)
    requires s.history != [] && e.pc.Rechecking? && !a.fault && SharedInvariant(s) && InstanceInvariant(s, n, e)
    requires PcTrail(deeds, n, e.request, e.pc)
    ensures Trailed(deeds, s, n, e, a)
  {
    hide SharedInvariant, PcInvariant, Quiet, Undecided, AuthorityBefore, AuthorityHolds, Authorising;
    QuietStep(s, n, e, a);
    QuietAct(s, n, e, a);
    var r, q := Current(s), e.request;
    var approval := FindApproval(r.approvals, q.approvalId);
    assert deeds + [] == deeds;
    HoldsForSome(r, q, approval, e.now);
    if AuthorityHolds(r, q, approval, e.now) {
      var d := Deed(n, s, PassedAuthority(q, approval.value, e.now));
      AuthorityEstablished(d, n, approval);
      UndecidedGrows(deeds, n, s, Some(d.act));
      NewAuthority(deeds, d, n, q);
    }
  }

  lemma HoldsForSome(r: InvestigationRecord, q: InterventionRequest, approval: Option<Approval>, now: Time)
    ensures AuthorityHolds(r, q, approval, now) ==> approval.Some?
  {
  }

  lemma AuthorityEstablished(d: Deed, n: nat, approval: Option<Approval>)
    requires d.instance == n && d.act.PassedAuthority? && d.at.history != [] && approval == Some(d.act.approval)
    requires approval == FindApproval(Current(d.at).approvals, d.act.request.approvalId)
    requires AuthorityHolds(Current(d.at), d.act.request, approval, d.act.started)
    ensures Authorising(d, n, d.act.request)
  {
    hide RequestHash;
  }

  lemma NewAuthority(deeds: seq<Deed>, d: Deed, n: nat, q: InterventionRequest)
    requires Authorising(d, n, q)
    ensures AuthorityBefore(deeds + [d], n, q)
  {
    hide Authorising;
    LastOf(deeds, d);
  }

  /** The target of the reviewed proposal is the target of the request. */
  lemma SeenTarget(s: Shared, n: nat, e: Instance)
    requires s.history != [] && SharedInvariant(s) && InstanceInvariant(s, n, e) && e.pc.Guarded?
    ensures e.pc.seen.proposal.Some? && e.pc.seen.proposal.value.action.target == e.request.target
    ensures e.pc.stage.RevalidatingRestore? ==> e.pc.seen.proposal.value.action.ScaleDeployment?
  {
    hide HistoryInvariant, DecidedSound, WriteSound, OutcomeCounts, ClusterSound, LeasesPast, LeaseSound, ClaimedAs;
    hide SeenSound;
    SeenHasProposal(Current(s), e.request, e.pc.seen, e.pc.approval);
    OneVersion(s, e.request, e.pc.seen, e.pc.approval);
  }

  lemma QuietGuardedTrailed(deeds: seq<Deed>, s: Shared, n: nat, e: Instance, a: Answers)
    requires s.history != [] && e.pc.Guarded? && e.pc.seen.proposal.Some? && !Effectful(e.pc) && !a.fault
    requires SharedInvariant(s) && InstanceInvariant(s, n, e) && PcTrail(deeds, n, e.request, e.pc)
    ensures Trailed(deeds, s, n, e, a)
  {
    hide SharedInvariant, InstanceInvariant, Quiet, Undecided, StageTrail, GuardedStep, GuardedAct, Effectful;
    QuietStep(s, n, e, a);
    QuietAct(s, n, e, a);
    SeenTarget(s, n, e);
    GuardedTrail(deeds, s, n, e, a);
    var m := GuardedStep(s, n, e.request, e.pc, a).1;
    var f := e.(pc := Moved(e.pc, m));
    PlainAct(e, f, a);
    UndecidedGrows(deeds, n, s, GuardedAct(e, f, a));
    QuietMove(s, n, e.request, e.pc, a);
  }

  lemma QuietMove(s: Shared, n: nat, q: InterventionRequest, pc: Pc, a: Answers)
    requires s.history != [] && pc.Guarded? && pc.seen.proposal.Some? && !Effectful(pc)
    ensures !GuardedStep(s, n, q, pc, a).1.Finish?
  {
    hide CallWithEvent, Log, Inspect, AtApprovedVersion, Evaluate, ActionConverged, RenewLease;
  }

  // ---------------------------------------------------------------- writes and outcomes

  lemma WriteStepIs(s: Shared, n: nat, q: InterventionRequest, pc: Pc, a: Answers)
    requires s.history != [] && pc.Guarded? && pc.seen.proposal.Some? && WriteStage(pc.stage)
    requires !a.reply.NotLanded? ==> Inspect(s.cluster, WrittenPatch(q, pc.stage).target).Some?
    ensures var (t, m) := GuardedStep(s, n, q, pc, a);
            && t.history == s.history
            && (if a.reply.NotLanded? then t == s && m.Raise?
                else
                  var onto := Inspect(s.cluster, WrittenPatch(q, pc.stage).target).value;
                  && t.ledger == s.ledger + [Write(n, WriteKindOf(pc.stage), WrittenPatch(q, pc.stage), onto)]
                  && m == if a.reply.Landed? then Continue(pc.lease, ReportingStage(pc.stage)) else Raise)
  {
    hide Inspect, Installed;
  }

  /** A landed patch rests on the renewal before it, and the stage after it rests on the landed patch. */
  lemma WriteDeed(deeds: seq<Deed>, d: Deed, n: nat, q: InterventionRequest, stage: Stage)
    requires WriteStage(stage) && StageTrail(deeds, n, q, stage) && d.instance == n && d.act.WrotePatch?
    requires d.act.write.instance == n && d.act.write.kind == WriteKindOf(stage)
    requires d.act.write.patch == WrittenPatch(q, stage)
    requires stage.Mutating? ==> d.act.write.onto == stage.before
    ensures BackedWrite(deeds, n, d.act.write) && StageTrail(deeds + [d], n, q, ReportingStage(stage))
  {
    hide ForwardBefore, FailureBefore, AuthorityBefore, RenewalBefore, RestoredBefore;
    if stage.Mutating? {
      NewForward(deeds, d, n, stage.before);
      AuthorityGrows(deeds, [d], n, q);
    } else {
      NewRestored(deeds, d, n, stage.before, stage.observed);
    }
  }

  /** A patch whose reply never came leaves no deed; it may still have landed only when it is in the ledger. */
  lemma UnwrittenTrailed(deeds: seq<Deed>, s: Shared, n: nat, e: Instance, a: Answers)
    requires s.history != [] && e.pc.Guarded? && e.pc.seen.proposal.Some? && WriteStage(e.pc.stage) && !a.fault
    requires a.reply.NotLanded? && PcTrail(deeds, n, e.request, e.pc)
    ensures Trailed(deeds, s, n, e, a)
  {
    hide Undecided, GuardedStep, GuardedAct, Quiet, StageTrail;
    WriteStepIs(s, n, e.request, e.pc, a);
    QuietSame(s);
    QuietAct(s, n, e, a);
    PlainAct(e, Perform(s, n, e, a).1, a);
    assert deeds + [] == deeds;
  }

  lemma LandedActIs(s: Shared, n: nat, e: Instance, a: Answers, onto: DeploymentState)
    requires s.history != [] && e.pc.Guarded? && e.pc.seen.proposal.Some? && WriteStage(e.pc.stage) && !a.fault
    requires !a.reply.NotLanded? && Inspect(s.cluster, WrittenPatch(e.request, e.pc.stage).target) == Some(onto)
    ensures ActOf(s, n, e, a) ==
            Some(WrotePatch(Write(n, WriteKindOf(e.pc.stage), WrittenPatch(e.request, e.pc.stage), onto)))
    ensures Execute(s, n, e, a).1.pc ==
            Moved(e.pc, if a.reply.Landed? then Continue(e.pc.lease, ReportingStage(e.pc.stage)) else Raise)
  {
    hide GuardedStep, GuardedAct, Inspect, Over;
    WriteStepIs(s, n, e.request, e.pc, a);
  }

  lemma WriteTrailed(deeds: seq<Deed>, s: Shared, n: nat, e: Instance, a: Answers)
    requires s.history != [] && e.pc.Guarded? && e.pc.seen.proposal.Some? && WriteStage(e.pc.stage) && !a.fault
    requires SharedInvariant(s) && InstanceInvariant(s, n, e) && PcTrail(deeds, n, e.request, e.pc)
    requires AnswersPossible(s, e, a) && !a.reply.NotLanded?
    ensures Trailed(deeds, s, n, e, a)
  {
    hide SharedInvariant, Undecided, Execute, ActOf, Inspect, StageTrail, BackedWrite, BackedOutcome, PcInvariant;
    hide Lands;
    var q, pc := e.request, e.pc;
    LandsSomewhere(s.cluster, WrittenPatch(q, pc.stage), a.reply.after);
    var onto := Inspect(s.cluster, WrittenPatch(q, pc.stage).target).value;
    var d := Deed(n, s, WrotePatch(Write(n, WriteKindOf(pc.stage), WrittenPatch(q, pc.stage), onto)));
    LandedActIs(s, n, e, a, onto);
    UndecidedGrows(deeds, n, s, Some(d.act));
    if pc.stage.Mutating? {
      ForwardFacts(s, n, q, pc, a.reply.after);
    }
    WriteDeed(deeds, d, n, q, pc.stage);
  }

  lemma LandsSomewhere(c: Cluster, patch: DeploymentPatch, after: DeploymentState)
    requires Lands(c, patch, after)
    ensures Inspect(c, patch.target).Some?
  {
  }

  lemma NewForward(deeds: seq<Deed>, d: Deed, n: nat, b: DeploymentState)
    requires WritingOnto(d, n, b)
    ensures ForwardBefore(deeds + [d], n, b)
  {
    hide WritingOnto;
    LastOf(deeds, d);
  }

  lemma NewRestored(deeds: seq<Deed>, d: Deed, n: nat, b: DeploymentState, o: DeploymentState)
    requires RestoringWrite(d, n) && FailureBefore(deeds, n, b, o)
    ensures RestoredBefore(deeds + [d], n, b, o)
  {
    hide RestoringWrite, FailureBefore;
    LastOf(deeds, d);
  }

  function EndState(stage: Stage): InterventionState
    requires EndStage(stage)
  {
    if stage.RecordingSucceeded? then Succeeded else if stage.RecordingFailed? then Failed else RolledBack
  }

  function EndEvent(stage: Stage): string
    requires EndStage(stage)
  {
    if stage.RecordingSucceeded? then "intervention_converged"
    else if stage.RecordingFailed? then "intervention_escalated"
    else "intervention_restored"
  }

  lemma EndStepIs(s: Shared, n: nat, q: InterventionRequest, pc: Pc, a: Answers)
    requires s.history != [] && pc.Guarded? && pc.seen.proposal.Some? && EndStage(pc.stage)
    ensures GuardedStep(s, n, q, pc, a) == Record(s, q, pc.intervention, EndState(pc.stage), EndEvent(pc.stage))
  {
    hide Record;
  }

  lemma EndTrailed(deeds: seq<Deed>, s: Shared, n: nat, e: Instance, a: Answers)
    requires s.history != [] && e.pc.Guarded? && e.pc.seen.proposal.Some? && EndStage(e.pc.stage) && !a.fault
    requires SharedInvariant(s) && InstanceInvariant(s, n, e) && PcTrail(deeds, n, e.request, e.pc)
    ensures Trailed(deeds, s, n, e, a)
  {
    hide SharedInvariant, PcInvariant, Undecided, GuardedStep, CallWithEvent, Over, SuccessBefore, AnyFailureBefore;
    hide RollbackBefore, BackedWrite, EndEvent, ClaimTrail;
    EndStepIs(s, n, e.request, e.pc, a);
    EndIsPlain(e, Perform(s, n, e, a).1, a);
    var state := EndState(e.pc.stage);
    var i := e.pc.intervention.(state := state);
    var event := FreshEvent(s, e.request.incidentId, EndEvent(e.pc.stage));
    OutcomeStepIs(s, n, e.request, i, event);
    assert deeds + [] == deeds;
    var d := Deed(n, s, RecordedOutcome(state));
    OutcomeSettles(deeds, d, n);
    if !CallWithEvent(s, UpdateIntervention(i, event)).accepted {
      QuietAct(s, n, e, a);
    }
  }

  lemma EndIsPlain(e: Instance, f: Instance, a: Answers)
    requires e.pc.Guarded? && e.pc.seen.proposal.Some? && EndStage(e.pc.stage)
    ensures GuardedAct(e, f, a).None?
  {
  }

  lemma HaltTrailed(deeds: seq<Deed>, s: Shared, n: nat, e: Instance, a: Answers)
    requires s.history != [] && e.pc.RecordingHalt? && !a.fault
    requires SharedInvariant(s) && InstanceInvariant(s, n, e) && PcTrail(deeds, n, e.request, e.pc)
    ensures Trailed(deeds, s, n, e, a)
  {
    hide SharedInvariant, PcInvariant, Undecided, CallWithEvent, Over, BackedWrite, ClaimTrail, FreshEvent;
    var i := e.pc.intervention.(state := SafeHalted);
    var event := FreshEvent(s, e.request.incidentId, "intervention_safe_halted");
    OutcomeStepIs(s, n, e.request, i, event);
    assert deeds + [] == deeds;
    OutcomeSettles(deeds, Deed(n, s, RecordedOutcome(SafeHalted)), n);
    UndecidedSettles(deeds, n);
    if !CallWithEvent(s, UpdateIntervention(i, event)).accepted {
      QuietAct(s, n, e, a);
    }
  }

  lemma UndecidedSettles(deeds: seq<Deed>, n: nat)
    requires Undecided(deeds, n)
    ensures ClaimTrail(deeds, n, Settled) && ClaimTrail(deeds, n, Unclaimed)
  {
  }

  /** Steps outside the guarded part, the re-check and the halt leave no deed. */
  lemma PlainTrailed(deeds: seq<Deed>, s: Shared, n: nat, e: Instance, a: Answers)
    requires s.history != [] && !e.pc.Guarded? && !e.pc.Rechecking? && !e.pc.RecordingHalt? && !a.fault
    requires SharedInvariant(s) && InstanceInvariant(s, n, e) && PcTrail(deeds, n, e.request, e.pc)
    ensures Trailed(deeds, s, n, e, a)
  {
    hide SharedInvariant, PcInvariant, InstanceInvariant, Quiet, CallWithEvent, Log, Undecided, ClaimTrail, FindByKey;
    hide FindIntervention, Acquired, Releasable;
    QuietStep(s, n, e, a);
    QuietAct(s, n, e, a);
    assert deeds + [] == deeds;
    if Undecided(deeds, n) {
      UndecidedSettles(deeds, n);
    }
  }

  lemma OwnStepTrailed(deeds: seq<Deed>, s: Shared, n: nat, e: Instance, a: Answers)
    requires s.history != [] && (e.pc.Guarded? ==> e.pc.seen.proposal.Some?)
    requires SharedInvariant(s) && InstanceInvariant(s, n, e) && PcTrail(deeds, n, e.request, e.pc)
    requires AnswersPossible(s, e, a)
    ensures Trailed(deeds, s, n, e, a)
  {
    hide SharedInvariant, InstanceInvariant, PcTrail, Trailed, AnswersPossible, WriteStage, EndStage;
    if a.fault {
      FaultTrailed(deeds, s, n, e, a);
    } else if e.pc.Rechecking? {
      AuthorityTrailed(deeds, s, n, e, a);
    } else if e.pc.RecordingHalt? {
      HaltTrailed(deeds, s, n, e, a);
    } else if !e.pc.Guarded? {
      PlainTrailed(deeds, s, n, e, a);
    } else if WriteStage(e.pc.stage) && a.reply.NotLanded? {
      UnwrittenTrailed(deeds, s, n, e, a);
    } else if WriteStage(e.pc.stage) {
      WriteTrailed(deeds, s, n, e, a);
    } else if EndStage(e.pc.stage) {
      EndTrailed(deeds, s, n, e, a);
    } else {
      QuietGuardedTrailed(deeds, s, n, e, a);
    }
  }
}
