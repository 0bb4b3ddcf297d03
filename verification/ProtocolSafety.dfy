/** Every step of every executor keeps the protocol invariant. */
module ProtocolSafety {
  import opened Wrappers
  import opened Incidents
  import opened ApprovalBindings
  import opened RecordOperations
  import opened RecordInvariants
  import opened RecordRuns
  import opened WorkloadLeases
  import opened ProposalPolicy
  import opened InterventionQueues
  import opened Protocol
  import opened ProtocolInvariants
  import opened ProtocolSteps

  /** The step kept the shared invariant, evolved it, and left its own instance where it may stand. */
  predicate Kept(s: Shared, t: Shared, n: nat, q: InterventionRequest, pc: Pc) {
    SharedInvariant(t) && Evolves(s, t, n) && q in t.queue && PcInvariant(t, n, q, pc)
  }

  /** A finished `consume` gave its lease up or lost it; a claim it settled has a terminal Intervention. */
  predicate StoppedSafely(s: Shared, pc: Pc) {
    pc.Exited? ==>
      && s.history != []
      && (pc.held.Some? ==> pc.unreleased || LeaseGone(s, pc.held.value))
      && (!pc.claim.Unclaimed? ==> pc.held.Some? && |Current(s).interventions| == 1)
      && (pc.claim.Settled? ==> Finished(Current(s)))
  }

  // ---------------------------------------------------------------- frames

  lemma Stays(s: Shared, n: nat)
    requires SharedInvariant(s)
    ensures Evolves(s, s, n)
  {
    hide HistoryInvariant, Extends, DecidedSound, Published, WriteSound, PolicyHonest, OutcomeCounts, ClusterSound;
    ExtendsReflexive(Current(s));
  }

  lemma StageFrame(s: Shared, t: Shared, n: nat, q: InterventionRequest, seen: InvestigationRecord,
                   approval: Approval, stage: Stage)
    requires Evolves(s, t, n) && t.ledger == s.ledger && Current(t).interventions == Current(s).interventions
    requires seen.proposal.Some? && StageInvariant(s, n, q, seen, approval, stage)
    ensures StageInvariant(t, n, q, seen, approval, stage)
  {
    hide Extends, Bounded, LeasesEvolve, OutcomeBy;
  }

  lemma AtMostOne(s: Shared)
    requires SharedInvariant(s)
    ensures |Current(s).interventions| <= 1
  {
    hide HistoryInvariant, DecidedSound, Published, WriteSound, PolicyHonest, OutcomeCounts, ClusterSound;
    CurrentCoupled(s);
  }

  lemma GuardedFrame(s: Shared, t: Shared, n: nat, q: InterventionRequest, pc: Pc)
    requires pc.Guarded? && pc.seen.proposal.Some? && s.history != [] && t.history != []
    requires SharedInvariant(s) && SharedInvariant(t) && Evolves(s, t, n)
    requires PcInvariant(s, n, q, pc)
    ensures LeaseSound(t, pc.lease) && SeenSound(Current(t), q, pc.seen, pc.approval)
    ensures !pc.stage.Claiming? ==> ClaimedAs(Current(t), pc.intervention)
  {
    hide HistoryInvariant, SharedInvariant, LeaseSound, SeenSound, StageInvariant, ClaimedAs, Extends, ClusterGrows;
    hide LeasesEvolve, OutcomeBy, LeaseGone;
    AtMostOne(t);
    LeaseStable(s, t, n, pc.lease);
    SeenStable(Current(s), Current(t), q, pc.seen, pc.approval);
    if !pc.stage.Claiming? {
      ClaimStable(Current(s), Current(t), pc.intervention);
    }
  }

  lemma Raises(s: Shared, t: Shared, n: nat, q: InterventionRequest, pc: Pc)
    requires pc.Guarded? && pc.seen.proposal.Some? && s.history != [] && t.history != []
    requires SharedInvariant(s) && SharedInvariant(t) && Evolves(s, t, n) && q in s.queue
    requires PcInvariant(s, n, q, pc)
    ensures Kept(s, t, n, q, Moved(pc, Raise))
  {
    hide HistoryInvariant, SharedInvariant, LeaseSound, SeenSound, StageInvariant, ClaimedAs, Extends, ClusterGrows;
    hide LeasesEvolve, OutcomeBy, LeaseGone;
    GuardedFrame(s, t, n, q, pc);
  }

  lemma Continues(s: Shared, t: Shared, n: nat, q: InterventionRequest, pc: Pc, lease: WorkloadLease, stage: Stage)
    requires pc.Guarded? && pc.seen.proposal.Some? && s.history != [] && t.history != []
    requires SharedInvariant(s) && SharedInvariant(t) && Evolves(s, t, n) && q in s.queue
    requires PcInvariant(s, n, q, pc) && !pc.stage.Claiming? && !stage.Claiming?
    requires LeaseSound(t, lease) && StageInvariant(t, n, q, pc.seen, pc.approval, stage)
    ensures Kept(s, t, n, q, Moved(pc, Continue(lease, stage)))
  {
    hide HistoryInvariant, SharedInvariant, LeaseSound, SeenSound, StageInvariant, ClaimedAs, Extends, ClusterGrows;
    hide LeasesEvolve, OutcomeBy, LeaseGone;
    GuardedFrame(s, t, n, q, pc);
  }

  /** Reading the cluster or an answer changes nothing shared. */
  lemma Reads(s: Shared, n: nat, q: InterventionRequest, pc: Pc, m: Move)
    requires pc.Guarded? && pc.seen.proposal.Some? && s.history != []
    requires SharedInvariant(s) && q in s.queue && PcInvariant(s, n, q, pc) && !pc.stage.Claiming?
    requires m.Raise? || (m.Continue? && m.lease == pc.lease && !m.stage.Claiming?)
    requires m.Continue? ==> StageInvariant(s, n, q, pc.seen, pc.approval, m.stage)
    ensures Kept(s, s, n, q, Moved(pc, m))
  {
    hide HistoryInvariant, SharedInvariant, LeaseSound, SeenSound, StageInvariant, ClaimedAs, Extends, ClusterGrows;
    hide LeasesEvolve, OutcomeBy, LeaseGone, Evolves, Moved, Kept;
    Stays(s, n);
    match m {
      case Continue(lease, stage) =>
        assert LeaseSound(s, lease);
        Continues(s, s, n, q, pc, lease, stage);
      case _ => Raises(s, s, n, q, pc);
    }
  }

  /** An audit event moves on to a stage whose invariant already held. */
  lemma Logs(s: Shared, n: nat, q: InterventionRequest, pc: Pc, name: string, stage: Stage)
    requires pc.Guarded? && pc.seen.proposal.Some? && s.history != []
    requires SharedInvariant(s) && q in s.queue && PcInvariant(s, n, q, pc)
    requires !pc.stage.Claiming? && !stage.Claiming?
    requires StageInvariant(s, n, q, pc.seen, pc.approval, stage)
    ensures var (t, m) := Proceed(Log(s, q, name), pc.lease, stage); Kept(s, t, n, q, Moved(pc, m))
  {
    hide HistoryInvariant, SharedInvariant, LeaseSound, SeenSound, StageInvariant, ClaimedAs, Extends, ClusterGrows;
    hide LeasesEvolve, OutcomeBy, LeaseGone, Evolves, Moved, Kept, Log;
    LogKeeps(s, q, name, n);
    var t := Log(s, q, name).shared;
    GuardedFrame(s, t, n, q, pc);
    StageFrame(s, t, n, q, pc.seen, pc.approval, stage);
    Continues(s, t, n, q, pc, pc.lease, stage);
  }

  // ---------------------------------------------------------------- claiming, inspecting, revalidating

  lemma ClaimIsAdmissible(s: Shared, q: InterventionRequest, version: nat, e: AuditEvent)
    requires s.history != [] && Published(Current(s), q)
    ensures Admissible(s.history, RecordIntervention(version, NewIntervention(q), e))
  {
  }

  lemma Claims(s: Shared, n: nat, q: InterventionRequest, pc: Pc)
    requires pc.Guarded? && pc.seen.proposal.Some? && s.history != []
    requires SharedInvariant(s) && q in s.queue && PcInvariant(s, n, q, pc) && pc.stage.Claiming?
    ensures var e := FreshEvent(s, q.incidentId, "intervention_claimed");
            var o := CallWithEvent(s, RecordIntervention(pc.seen.incident.version, pc.intervention, e));
            var (t, m) := Proceed(o, pc.lease, Inspecting); Kept(s, t, n, q, Moved(pc, m))
  {
    hide HistoryInvariant, LeaseSound, SeenSound, ClaimedAs, Extends, ClusterGrows, LeasesEvolve, OutcomeBy;
    hide LeaseGone, Evolves, Apply, DecidedSound, WriteSound, PolicyHonest, OutcomeCounts, ClusterSound, Published;
    hide Admissible, KeepsRecord, EventsPast;
    var op := RecordIntervention(pc.seen.incident.version, pc.intervention,
                                 FreshEvent(s, q.incidentId, "intervention_claimed"));
    ClaimIsAdmissible(s, q, pc.seen.incident.version, op.event);
    CallKeeps(s, op, n);
    var o := CallWithEvent(s, op);
    if o.accepted {
      RecordKept(s);
      InterventionsAfter(Current(s), op);
      ClaimedAfterwards(Current(o.shared), pc.intervention);
      GuardedFrame(s, o.shared, n, q, pc);
    } else {
      Raises(s, o.shared, n, q, pc);
    }
  }

  lemma RecordKept(s: Shared)
    requires SharedInvariant(s)
    ensures KeepsRecord(Current(s))
  {
    hide HistoryInvariant, DecidedSound, Published, WriteSound, PolicyHonest, OutcomeCounts, ClusterSound;
    CurrentCoupled(s);
    hide KeepsRecord;
  }

  lemma ClaimedAfterwards(r: InvestigationRecord, i: Intervention)
    requires r.interventions == [i] && i.state == Running
    ensures ClaimedAs(r, i)
  {
  }

  lemma Inspects(s: Shared, n: nat, q: InterventionRequest, pc: Pc)
    requires pc.Guarded? && pc.seen.proposal.Some? && s.history != []
    requires SharedInvariant(s) && q in s.queue && PcInvariant(s, n, q, pc) && pc.stage.Inspecting?
    requires Inspect(s.cluster, q.target).Some?
    requires AtApprovedVersion(pc.approval, Inspect(s.cluster, q.target).value)
    ensures StageInvariant(s, n, q, pc.seen, pc.approval, Revalidating(Inspect(s.cluster, q.target).value))
  {
    hide HistoryInvariant, LeaseSound, SeenSound, ClaimedAs, DecidedSound, WriteSound, PolicyHonest, OutcomeCounts;
    InspectedIsKnown(s.cluster, q.target);
  }

  lemma InspectedIsKnown(c: Cluster, t: WorkloadReference)
    requires ClusterSound(c) && Inspect(c, t).Some?
    ensures var state := Inspect(c, t).value;
            Known(c, state) && state.target == t && c[t].current == Some(state.resourceVersion)
  {
    assert RegisterSound(c, t);
  }

  /** Inspection and revalidation saw the same version, so the bounds hold on the state that was approved. */
  lemma RevalidatedIsBounded(c: Cluster, q: InterventionRequest, seen: InvestigationRecord, approval: Approval,
                             before: DeploymentState, ready: bool, dryRun: DryRunResult, now: Time)
    requires seen.proposal.Some? && ClusterSound(c) && Known(c, before) && before.target == q.target
    requires q.target == seen.proposal.value.action.target && before.resourceVersion == q.patch.resourceVersion
    requires var d := Evaluate(seen, seen.proposal.value, ready, Inspect(c, q.target), dryRun, now);
             d.status == PolicyPassed && d.patch == Some(q.patch)
    ensures Bounded(seen.profile, q.patch, before)
  {
    hide Evaluate, BuildPatch;
    var state, proposal := Inspect(c, q.target), seen.proposal.value;
    DecisionsAreValid(seen, proposal, ready, state, dryRun, now);
    PatchKind(proposal.action, state.value);
    InspectedIsKnown(c, q.target);
    if proposal.action.ScaleDeployment? {
      PassedScaleIsBounded(seen, proposal, ready, state, dryRun, now);
    }
  }

  lemma PatchKind(action: RemediationAction, state: DeploymentState)
    requires BuildPatch(action, state).Some?
    ensures var p := BuildPatch(action, state).value;
            && p.actionType == action.ActionType() && p.resourceVersion == state.resourceVersion
            && p.target == action.target
            && (action.ScaleDeployment? ==> RequestedReplicas(p) == Some(action.replicas))
  {
  }

  /** The patch, the approval, the record and the inspected state all name one version and one target. */
  lemma OneVersion(s: Shared, q: InterventionRequest, seen: InvestigationRecord, approval: Approval)
    requires s.history != [] && Published(Current(s), q) && PolicyHonest(Current(s))
    requires SeenSound(Current(s), q, seen, approval)
    ensures q.patch.resourceVersion == approval.resourceVersion
    ensures q.patch.target == q.target == seen.proposal.value.action.target
    ensures Current(s).approvals == [approval]
    ensures Current(s).proposal == seen.proposal && Current(s).profile == seen.profile
  {
  }

  lemma Revalidates(s: Shared, n: nat, q: InterventionRequest, pc: Pc, a: Answers)
    requires pc.Guarded? && pc.seen.proposal.Some? && s.history != []
    requires SharedInvariant(s) && q in s.queue && PcInvariant(s, n, q, pc) && pc.stage.Revalidating?
    requires var d := Evaluate(pc.seen, pc.seen.proposal.value, a.ready,
                               Inspect(s.cluster, pc.seen.proposal.value.action.target), a.dryRun, s.clock);
             d.status == PolicyPassed && d.patch == Some(q.patch)
    ensures StageInvariant(s, n, q, pc.seen, pc.approval, ReportingValidated(pc.stage.before))
  {
    hide HistoryInvariant, LeaseSound, SeenSound, ClaimedAs, DecidedSound, WriteSound, PolicyHonest, OutcomeCounts;
    hide Evaluate, Bounded, ClusterSound, EventsPast, Published, LeasesPast;
    OneVersion(s, q, pc.seen, pc.approval);
    RevalidatedIsBounded(s.cluster, q, pc.seen, pc.approval, pc.stage.before, a.ready, a.dryRun, s.clock);
  }

  lemma Renews(s: Shared, n: nat, q: InterventionRequest, pc: Pc, stage: Stage)
    requires pc.Guarded? && pc.seen.proposal.Some? && s.history != []
    requires SharedInvariant(s) && q in s.queue && PcInvariant(s, n, q, pc) && !pc.stage.Claiming?
    requires !stage.Claiming? && StageInvariant(s, n, q, pc.seen, pc.approval, stage)
    requires RenewLease(s, pc.lease).Success?
    ensures var (t, renewed) := RenewLease(s, pc.lease).value;
            && Kept(s, t, n, q, Moved(pc, Continue(renewed, stage)))
            && Kept(s, t, n, q, Moved(pc, Continue(pc.lease, stage)))
  {
    hide HistoryInvariant, SeenSound, ClaimedAs, DecidedSound, WriteSound, PolicyHonest, OutcomeCounts, Published;
    hide ClusterSound, EventsPast, StageInvariant, Moved, Kept, Evolves;
    var (t, renewed) := RenewLease(s, pc.lease).value;
    LeasesOnly(s, t, n);
    EvolvedQueue(s, t, n);
    GuardedFrame(s, t, n, q, pc);
    StageFrame(s, t, n, q, pc.seen, pc.approval, stage);
    Continues(s, t, n, q, pc, pc.lease, stage);
    Continues(s, t, n, q, pc, renewed, stage);
  }

  lemma EvolvedQueue(s: Shared, t: Shared, n: nat)
    requires Evolves(s, t, n)
    ensures s.queue <= t.queue
  {
    hide Extends;
  }

  // ---------------------------------------------------------------- writing

  /** A landed patch keeps every register fact and supersedes the version it landed on. */
  lemma LandedGrows(c: Cluster, patch: DeploymentPatch, after: DeploymentState)
    requires ClusterSound(c) && Lands(c, patch, after)
    ensures var onto, d := Inspect(c, patch.target).value, Installed(c, after);
            && ClusterSound(d) && ClusterGrows(c, d)
            && onto.target == patch.target && onto.resourceVersion == patch.resourceVersion && Known(c, onto)
            && Known(d, onto) && d[onto.target].current != Some(onto.resourceVersion)
  {
    InspectedIsKnown(c, patch.target);
    InstalledGrows(c, after);
  }

  /** A write that extends a sound ledger. */
  lemma WriteKeeps(s: Shared, n: nat, kind: WriteKind, patch: DeploymentPatch, after: DeploymentState)
    requires SharedInvariant(s) && Lands(s.cluster, patch, after)
    requires var w := Write(n, kind, patch, Inspect(s.cluster, patch.target).value);
             && Authorised(Current(s), w)
             && LedgerShape(s.ledger + [w])
    requires Current(s).interventions != [] && !Credited(Current(s).interventions[0].state)
    ensures var t := Wrote(s, n, kind, patch, after);
            SharedInvariant(t) && Evolves(s, t, n) && Current(t) == Current(s)
  {
    hide HistoryInvariant, Authorised, DecidedSound, Published, PolicyHonest, Extends, ClusterGrows, ClusterSound;
    hide Installed, Known;
    LandedGrows(s.cluster, patch, after);
    var onto, t := Inspect(s.cluster, patch.target).value, Wrote(s, n, kind, patch, after);
    forall w <- t.ledger ensures WriteSound(Current(t), t.cluster, w) {
      if w in s.ledger {
        OldWriteSuperseded(s.cluster, patch, after, w);
      }
    }
    ExtendsReflexive(Current(s));
  }

  lemma OldWriteSuperseded(c: Cluster, patch: DeploymentPatch, after: DeploymentState, w: Write)
    requires Lands(c, patch, after) && Superseded(c, w)
    ensures Superseded(Installed(c, after), w)
  {
    SupersededInstalled(c, after, w);
  }

  /** The reviewed patch can land only once: landing supersedes the one version it is bound to. */
  lemma ForwardOnlyOnce(s: Shared, q: InterventionRequest, after: DeploymentState)
    requires SharedInvariant(s) && q in s.queue && Lands(s.cluster, q.patch, after)
    ensures s.ledger == []
  {
    hide HistoryInvariant, DecidedSound, PolicyHonest, OutcomeCounts, Bounded, Unused;
    if s.ledger != [] {
      var w := s.ledger[0];
      assert WriteSound(Current(s), s.cluster, w) && Published(Current(s), q);
      assert w.patch == q.patch;
      InspectedIsKnown(s.cluster, q.patch.target);
    }
  }

  /** Where the reviewed patch lands is the very state the executor inspected and revalidated. */
  lemma LandsOnInspected(s: Shared, q: InterventionRequest, pc: Pc, after: DeploymentState)
    requires pc.Guarded? && pc.seen.proposal.Some? && s.history != [] && pc.stage.Mutating?
    requires ClusterSound(s.cluster) && Published(Current(s), q) && PolicyHonest(Current(s))
    requires SeenSound(Current(s), q, pc.seen, pc.approval) && BeforeSound(s, q, pc.approval, pc.stage.before)
    requires Lands(s.cluster, q.patch, after)
    ensures Inspect(s.cluster, q.patch.target) == Some(pc.stage.before)
  {
    hide Published, SeenSound, PolicyHonest;
    OneVersion(s, q, pc.seen, pc.approval);
    InspectedIsKnown(s.cluster, q.patch.target);
  }

  lemma ForwardFacts(s: Shared, n: nat, q: InterventionRequest, pc: Pc, after: DeploymentState)
    requires pc.Guarded? && pc.seen.proposal.Some? && s.history != []
    requires SharedInvariant(s) && q in s.queue && PcInvariant(s, n, q, pc) && pc.stage.Mutating?
    requires Lands(s.cluster, q.patch, after)
    ensures Authorised(Current(s), Write(n, Forward, q.patch, Inspect(s.cluster, q.patch.target).value))
    ensures s.ledger == [] && Inspect(s.cluster, q.patch.target) == Some(pc.stage.before)
    ensures Current(s).interventions != [] && !Credited(Current(s).interventions[0].state)
  {
    hide HistoryInvariant, DecidedSound, Extends, Bounded, EventsPast, LeasesPast, LeaseSound, Published, SeenSound;
    hide PolicyHonest, ClusterSound, Lands, BeforeSound, AtApprovedVersion, WriteSound, Authorised, Inspect;
    ForwardOnlyOnce(s, q, after);
    LandsOnInspected(s, q, pc, after);
    OneVersion(s, q, pc.seen, pc.approval);
    BeforeIsApproved(s, q, pc.approval, pc.stage.before);
    ForwardAuthorised(Current(s), q, pc.approval, Write(n, Forward, q.patch, pc.stage.before));
  }

  lemma BeforeIsApproved(s: Shared, q: InterventionRequest, approval: Approval, before: DeploymentState)
    requires BeforeSound(s, q, approval, before)
    ensures AtApprovedVersion(approval, before) && before.target == q.target
    ensures before.resourceVersion == approval.resourceVersion
  {
  }

  lemma Mutates(s: Shared, n: nat, q: InterventionRequest, pc: Pc, after: DeploymentState)
    requires pc.Guarded? && pc.seen.proposal.Some? && s.history != []
    requires SharedInvariant(s) && q in s.queue && PcInvariant(s, n, q, pc) && pc.stage.Mutating?
    requires Lands(s.cluster, q.patch, after)
    ensures var t := Wrote(s, n, Forward, q.patch, after);
            && t.history != [] && SharedInvariant(t) && Evolves(s, t, n)
            && StageInvariant(t, n, q, pc.seen, pc.approval, ReportingMutated(pc.stage.before))
  {
    hide SharedInvariant, PcInvariant, Evolves, Authorised, Credited;
    ForwardFacts(s, n, q, pc, after);
    WriteKeeps(s, n, Forward, q.patch, after);
  }

  lemma ForwardAuthorised(r: InvestigationRecord, q: InterventionRequest, approval: Approval, w: Write)
    requires Published(r, q) && r.approvals == [approval] && AtApprovedVersion(approval, w.onto)
    requires w.kind == Forward && w.patch == q.patch && w.onto.target == q.patch.target == q.target
    requires w.onto.resourceVersion == q.patch.resourceVersion && Bounded(r.profile, w.patch, w.onto)
    ensures Authorised(r, w)
  {
    hide Bounded;
  }

  lemma RestorationAuthorised(s: Shared, q: InterventionRequest, pc: Pc, w: Write)
    requires s.history != [] && pc.Guarded? && pc.seen.proposal.Some? && pc.stage.Restoring?
    requires Published(Current(s), q) && SeenSound(Current(s), q, pc.seen, pc.approval)
    requires RestoreSound(s, pc.seen, pc.stage.before, w.patch) && w.kind == Restoration
    requires w.onto.target == w.patch.target
    requires w.onto == s.cluster[w.patch.target].versions[w.patch.resourceVersion]
    requires w.onto.resourceVersion == w.patch.resourceVersion
    ensures Authorised(Current(s), w) && RequestedReplicas(w.patch) == Some(pc.stage.before.replicas)
  {
    hide Bounded;
  }

  lemma Restores(s: Shared, n: nat, q: InterventionRequest, pc: Pc, after: DeploymentState)
    requires pc.Guarded? && pc.seen.proposal.Some? && s.history != []
    requires SharedInvariant(s) && q in s.queue && PcInvariant(s, n, q, pc) && pc.stage.Restoring?
    requires Lands(s.cluster, pc.stage.patch, after)
    ensures var t := Wrote(s, n, Restoration, pc.stage.patch, after);
            && t.history != [] && SharedInvariant(t) && Evolves(s, t, n)
            && StageInvariant(t, n, q, pc.seen, pc.approval,
                              ReportingRestored(pc.stage.before, pc.stage.observed, pc.stage.patch))
  {
    hide HistoryInvariant, DecidedSound, Extends, ClusterGrows, LeasesEvolve, OutcomeBy, Bounded;
    hide EventsPast, LeasesPast, LeaseSound, Evolves, Published, SeenSound, PolicyHonest, RestoreSound;
    var patch := pc.stage.patch;
    InspectedIsKnown(s.cluster, patch.target);
    var w := Write(n, Restoration, patch, Inspect(s.cluster, patch.target).value);
    RestorationAuthorised(s, q, pc, w);
    assert Undoes(w, s.ledger[0]);
    WriteKeeps(s, n, Restoration, patch, after);
  }

  predicate WriteStage(stage: Stage) {
    stage.Mutating? || stage.Restoring?
  }

  function WrittenPatch(q: InterventionRequest, stage: Stage): DeploymentPatch
    requires WriteStage(stage)
  {
    if stage.Mutating? then q.patch else stage.patch
  }

  function WriteKindOf(stage: Stage): WriteKind {
    if stage.Mutating? then Forward else Restoration
  }

  function ReportingStage(stage: Stage): Stage
    requires WriteStage(stage)
  {
    if stage.Mutating? then ReportingMutated(stage.before)
    else ReportingRestored(stage.before, stage.observed, stage.patch)
  }

  /** A landed write, answered or not. */
  lemma LandedKeeps(s: Shared, n: nat, q: InterventionRequest, pc: Pc, after: DeploymentState)
    requires pc.Guarded? && pc.seen.proposal.Some? && s.history != [] && WriteStage(pc.stage)
    requires SharedInvariant(s) && q in s.queue && PcInvariant(s, n, q, pc)
    requires Lands(s.cluster, WrittenPatch(q, pc.stage), after)
    ensures var t := Wrote(s, n, WriteKindOf(pc.stage), WrittenPatch(q, pc.stage), after);
            && Kept(s, t, n, q, Moved(pc, Raise))
            && Kept(s, t, n, q, Moved(pc, Continue(pc.lease, ReportingStage(pc.stage))))
  {
    hide SharedInvariant, PcInvariant, Evolves, Lands, StageInvariant, Kept, Moved, Wrote, LeaseSound;
    if pc.stage.Mutating? {
      Mutates(s, n, q, pc, after);
    } else {
      Restores(s, n, q, pc, after);
    }
    var t := Wrote(s, n, WriteKindOf(pc.stage), WrittenPatch(q, pc.stage), after);
    GuardedFrame(s, t, n, q, pc);
    Raises(s, t, n, q, pc);
    Continues(s, t, n, q, pc, pc.lease, ReportingStage(pc.stage));
  }

  lemma Writes(s: Shared, n: nat, q: InterventionRequest, pc: Pc, a: Answers)
    requires pc.Guarded? && pc.seen.proposal.Some? && s.history != [] && WriteStage(pc.stage)
    requires SharedInvariant(s) && q in s.queue && PcInvariant(s, n, q, pc)
    requires !a.reply.NotLanded? ==> Lands(s.cluster, WrittenPatch(q, pc.stage), a.reply.after)
    ensures var (t, m) := GuardedStep(s, n, q, pc, a); Kept(s, t, n, q, Moved(pc, m))
  {
    hide SharedInvariant, PcInvariant, Evolves, Lands, StageInvariant, Kept, Moved, Wrote, LeaseSound;
    if a.reply.NotLanded? {
      StaysAndRaises(s, n, q, pc);
    } else {
      LandedKeeps(s, n, q, pc, a.reply.after);
    }
  }

  lemma StaysAndRaises(s: Shared, n: nat, q: InterventionRequest, pc: Pc)
    requires pc.Guarded? && pc.seen.proposal.Some? && s.history != []
    requires SharedInvariant(s) && q in s.queue && PcInvariant(s, n, q, pc)
    ensures Kept(s, s, n, q, Moved(pc, Raise))
  {
    hide SharedInvariant, PcInvariant, Evolves, Kept, Moved;
    Stays(s, n);
    Raises(s, s, n, q, pc);
  }

  // ---------------------------------------------------------------- recording the outcome

  lemma UpdateAllowed(s: Shared, n: nat, i: Intervention, e: AuditEvent)
    requires s.history != [] && Terminal(i.state) && e.eventId == Uuid(s.nextUuid)
    requires Credited(i.state) ==> WroteExactly(s.ledger, n, if i.state == RolledBack then 2 else 1)
    ensures CallAllowed(s, UpdateIntervention(i, e), n)
  {
  }

  lemma RecordedIsFinished(r: InvestigationRecord, op: StoreOp)
    requires op.UpdateIntervention? && KeepsRecord(r) && Apply(r, op).Success? && Terminal(op.updated.state)
    ensures Finished(Apply(r, op).value)
  {
    hide Apply, KeepsRecord;
    InterventionsAfter(r, op);
  }

  lemma Records(s: Shared, n: nat, q: InterventionRequest, pc: Pc, state: InterventionState, name: string)
    requires pc.Guarded? && pc.seen.proposal.Some? && s.history != []
    requires SharedInvariant(s) && q in s.queue && PcInvariant(s, n, q, pc) && !pc.stage.Claiming?
    requires Credited(state) && WroteExactly(s.ledger, n, if state == RolledBack then 2 else 1)
    ensures var (t, m) := Record(s, q, pc.intervention, state, name); Kept(s, t, n, q, Moved(pc, m))
  {
    hide SharedInvariant, Evolves, Apply, LeaseSound, SeenSound, ClaimedAs, KeepsRecord, Finished;
    hide CallAllowed, WroteExactly, StageInvariant;
    var op := UpdateIntervention(pc.intervention.(state := state), FreshEvent(s, q.incidentId, name));
    UpdateAllowed(s, n, op.updated, op.event);
    CallKeeps(s, op, n);
    var o := CallWithEvent(s, op);
    if o.accepted {
      RecordKept(s);
      RecordedIsFinished(Current(s), op);
      GuardedFrame(s, o.shared, n, q, pc);
      EvolvedQueue(s, o.shared, n);
    } else {
      Raises(s, o.shared, n, q, pc);
    }
  }

  // ---------------------------------------------------------------- every guarded step

  lemma RestoreRevalidates(s: Shared, n: nat, q: InterventionRequest, pc: Pc, a: Answers)
    requires pc.Guarded? && pc.seen.proposal.Some? && s.history != []
    requires SharedInvariant(s) && q in s.queue && PcInvariant(s, n, q, pc) && pc.stage.RevalidatingRestore?
    requires var proposal := pc.seen.proposal.value;
             var restore := RestorationProposal(proposal, pc.intervention, pc.stage.before.replicas);
             var d := Evaluate(pc.seen, restore, a.ready, Inspect(s.cluster, proposal.action.target), a.dryRun,
                               s.clock);
             d.status == PolicyPassed && d.patch.Some?
    ensures var proposal := pc.seen.proposal.value;
            var restore := RestorationProposal(proposal, pc.intervention, pc.stage.before.replicas);
            var d := Evaluate(pc.seen, restore, a.ready, Inspect(s.cluster, proposal.action.target), a.dryRun, s.clock);
            && d.patch.Some?
            && StageInvariant(s, n, q, pc.seen, pc.approval,
                              ReportingRestore(pc.stage.before, pc.stage.observed, d.patch.value))
  {
    hide HistoryInvariant, LeaseSound, SeenSound, ClaimedAs, DecidedSound, WriteSound, PolicyHonest, OutcomeCounts;
    hide EventsPast, Published, LeasesPast, LedgerShape, InFlight, Evaluate, Bounded, ClusterSound, Inspect;
    var proposal := pc.seen.proposal.value;
    var restore := RestorationProposal(proposal, pc.intervention, pc.stage.before.replicas);
    RestorationIsBounded(s.cluster, pc.seen, restore, a.ready, a.dryRun, s.clock);
  }

  /** What policy lets a restoration do: stay inside the bounds and the headroom of the state it re-inspected. */
  lemma RestorationIsBounded(c: Cluster, seen: InvestigationRecord, restore: RemediationProposal, ready: bool,
                             dryRun: DryRunResult, now: Time)
    requires ClusterSound(c) && restore.action.ScaleDeployment?
    requires var d := Evaluate(seen, restore, ready, Inspect(c, restore.action.target), dryRun, now);
             d.status == PolicyPassed && d.patch.Some?
    ensures var patch := Evaluate(seen, restore, ready, Inspect(c, restore.action.target), dryRun, now).patch.value;
            && patch.actionType == ScaleType && patch.target == restore.action.target
            && RequestedReplicas(patch) == Some(restore.action.replicas)
            && patch.target in c && patch.resourceVersion in c[patch.target].versions
            && Bounded(seen.profile, patch, c[patch.target].versions[patch.resourceVersion])
  {
    hide Evaluate, BuildPatch;
    var state := Inspect(c, restore.action.target);
    DecisionsAreValid(seen, restore, ready, state, dryRun, now);
    PatchKind(restore.action, state.value);
    InspectedIsKnown(c, restore.action.target);
    PassedScaleIsBounded(seen, restore, ready, state, dryRun, now);
  }

  lemma ForwardKeeps(s: Shared, n: nat, q: InterventionRequest, pc: Pc, a: Answers)
    requires pc.Guarded? && pc.seen.proposal.Some? && s.history != []
    requires SharedInvariant(s) && q in s.queue && PcInvariant(s, n, q, pc)
    requires !FailureStage(pc.stage) && !pc.stage.Mutating?
    ensures var (t, m) := ForwardStep(s, n, q, pc, a); Kept(s, t, n, q, Moved(pc, m))
  {
    hide SharedInvariant, Evolves, Kept, Moved, LeaseSound, SeenSound, ClaimedAs, Evaluate, Inspect, Silent;
    hide BeforeSound, Bounded, AtApprovedVersion, InFlight, CallWithEvent, Log, RenewLease, Record, ActionConverged;
    var (t, m) := ForwardStep(s, n, q, pc, a);
    match pc.stage {
      case Claiming => Claims(s, n, q, pc);
      case Resuming => Logs(s, n, q, pc, "intervention_resumed", Inspecting);
      case Inspecting =>
        if m.Continue? {
          Inspects(s, n, q, pc);
        }
        Reads(s, n, q, pc, m);
      case Revalidating(before) =>
        if m.Continue? {
          Revalidates(s, n, q, pc, a);
        }
        Reads(s, n, q, pc, m);
      case ReportingValidated(before) => Logs(s, n, q, pc, "intervention_validated", ReportingDryRun(before));
      case ReportingDryRun(before) => Logs(s, n, q, pc, "intervention_dry_run_passed", Renewing(before));
      case Renewing(before) =>
        if RenewLease(s, pc.lease).Failure? {
          Reads(s, n, q, pc, Raise);
        } else {
          Renews(s, n, q, pc, Mutating(before));
        }
      case ReportingMutated(before) => Logs(s, n, q, pc, "intervention_mutated", Verifying(before));
      case Verifying(before) => Reads(s, n, q, pc, m);
      case RecordingSucceeded => RecordsInFlight(s, n, q, pc, Succeeded, "intervention_converged");
      case _ =>
    }
  }

  lemma RecordsInFlight(s: Shared, n: nat, q: InterventionRequest, pc: Pc, state: InterventionState, name: string)
    requires pc.Guarded? && pc.seen.proposal.Some? && s.history != []
    requires SharedInvariant(s) && q in s.queue && PcInvariant(s, n, q, pc) && !pc.stage.Claiming?
    requires Credited(state) && InFlight(s, n, if state == RolledBack then 2 else 1)
    ensures var (t, m) := Record(s, q, pc.intervention, state, name); Kept(s, t, n, q, Moved(pc, m))
  {
    hide SharedInvariant, Kept, Moved, PcInvariant, WroteExactly, Record;
    Records(s, n, q, pc, state, name);
  }

  lemma FailureKeeps(s: Shared, n: nat, q: InterventionRequest, pc: Pc, a: Answers)
    requires pc.Guarded? && pc.seen.proposal.Some? && s.history != []
    requires SharedInvariant(s) && q in s.queue && PcInvariant(s, n, q, pc)
    requires FailureStage(pc.stage) && !pc.stage.Restoring?
    ensures var (t, m) := FailureStep(s, n, q, pc, a); Kept(s, t, n, q, Moved(pc, m))
  {
    hide SharedInvariant, Evolves, Kept, Moved, LeaseSound, SeenSound, ClaimedAs, Evaluate, Inspect, Silent;
    hide BeforeSound, Bounded, InFlight, CallWithEvent, Log, RenewLease, Record, ActionConverged, RestoreSound;
    var (t, m) := FailureStep(s, n, q, pc, a);
    match pc.stage {
      case ReportingFailed(before, observed) =>
        Logs(s, n, q, pc, "intervention_action_failed",
             if pc.seen.proposal.value.action.ScaleDeployment? then Reinspecting(before, observed)
             else RecordingFailed);
      case RecordingFailed => RecordsInFlight(s, n, q, pc, Failed, "intervention_escalated");
      case Reinspecting(before, observed) => Reads(s, n, q, pc, m);
      case RevalidatingRestore(before, observed) =>
        if m.Continue? {
          RestoreRevalidates(s, n, q, pc, a);
        }
        Reads(s, n, q, pc, m);
      case ReportingRestore(before, observed, patch) =>
        Logs(s, n, q, pc, "intervention_restoration_validated", RenewingRestore(before, observed, patch));
      case RenewingRestore(before, observed, patch) =>
        if RenewLease(s, pc.lease).Failure? {
          Reads(s, n, q, pc, Raise);
        } else {
          Renews(s, n, q, pc, Restoring(before, observed, patch));
        }
      case ReportingRestored(before, observed, patch) =>
        Logs(s, n, q, pc, "intervention_restoration_mutated", VerifyingRestored(before, observed, patch));
      case VerifyingRestored(before, observed, patch) => Reads(s, n, q, pc, m);
      case RecordingRolledBack => RecordsInFlight(s, n, q, pc, RolledBack, "intervention_restored");
      case _ =>
    }
  }

  lemma GuardedKeeps(s: Shared, n: nat, q: InterventionRequest, pc: Pc, a: Answers)
    requires pc.Guarded? && pc.seen.proposal.Some? && s.history != []
    requires SharedInvariant(s) && q in s.queue && PcInvariant(s, n, q, pc)
    requires WriteStage(pc.stage) && !a.reply.NotLanded? ==> Lands(s.cluster, WrittenPatch(q, pc.stage), a.reply.after)
    ensures var (t, m) := GuardedStep(s, n, q, pc, a); Kept(s, t, n, q, Moved(pc, m))
  {
    hide SharedInvariant, Kept, Moved, PcInvariant, Lands, ForwardStep, FailureStep;
    if WriteStage(pc.stage) {
      Writes(s, n, q, pc, a);
    } else if FailureStage(pc.stage) {
      FailureKeeps(s, n, q, pc, a);
    } else {
      ForwardKeeps(s, n, q, pc, a);
    }
  }

  // ---------------------------------------------------------------- the other steps

  predicate NotYetClaimed(s: Shared, n: nat, q: InterventionRequest, i: Intervention, resuming: bool)
    requires s.history != []
  {
    Silent(s.ledger, n) && (if resuming then ClaimedAs(Current(s), i) else i == NewIntervention(q))
  }

  lemma NotYetClaimedStable(s: Shared, t: Shared, n: nat, q: InterventionRequest, i: Intervention, resuming: bool)
    requires s.history != [] && t.history != [] && SharedInvariant(t) && Evolves(s, t, n)
    requires NotYetClaimed(s, n, q, i, resuming) && t.ledger == s.ledger
    ensures NotYetClaimed(t, n, q, i, resuming)
  {
    hide SharedInvariant, Silent, ClaimedAs, Extends, LeasesEvolve, OutcomeBy, ClusterGrows;
    AtMostOne(t);
    if resuming {
      ClaimStable(Current(s), Current(t), i);
    }
  }

  lemma Starts(s: Shared, n: nat, q: InterventionRequest)
    requires SharedInvariant(s) && q in s.queue && Silent(s.ledger, n)
    ensures var found := FindByKey(Current(s).interventions, q.key);
            && NotYetClaimed(s, n, q, NewIntervention(q), false)
            && (found.Some? && found.value.state == Running ==> NotYetClaimed(s, n, q, found.value, true))
  {
    hide HistoryInvariant, DecidedSound, WriteSound, PolicyHonest, OutcomeCounts, ClusterSound, EventsPast;
    AtMostOne(s);
  }

  lemma Acquires(s: Shared, n: nat, e: Instance, a: Answers)
    requires SharedInvariant(s) && e.request in s.queue && PcInvariant(s, n, e.request, e.pc) && e.pc.Acquiring?
    ensures var (t, f) := Perform(s, n, e, a); Kept(s, t, n, f.request, f.pc)
  {
    hide HistoryInvariant, DecidedSound, Published, WriteSound, PolicyHonest, OutcomeCounts, RegisterSound;
    hide EventsPast, ClusterSound, LedgerShape, Evolves, Silent, ClaimedAs, GuardedStep;
    hide Releasable, AuthorityHolds, FindByKey, FindApproval, FindIntervention, CallWithEvent, StageInvariant;
    var (t, f) := Perform(s, n, e, a);
    LeasesOnly(s, t, n);
    EvolvedQueue(s, t, n);
    NotYetClaimedStable(s, t, n, e.request, e.pc.intervention, e.pc.resuming);
  }

  lemma Rechecks(s: Shared, n: nat, e: Instance, a: Answers)
    requires SharedInvariant(s) && e.request in s.queue && PcInvariant(s, n, e.request, e.pc) && e.pc.Rechecking?
    ensures var (t, f) := Perform(s, n, e, a); t == s && Kept(s, t, n, f.request, f.pc)
  {
    hide HistoryInvariant, DecidedSound, Published, WriteSound, PolicyHonest, OutcomeCounts, ClusterSound, Extends;
    hide EventsPast, LedgerShape, Evolves, Silent, ClaimedAs, GuardedStep, LeaseSound, AuthorityHolds, SeenSound;
    hide Acquired, Releasable, FindByKey, FindApproval, FindIntervention, CallWithEvent, SharedInvariant;
    Stays(s, n);
    var r, q := Current(s), e.request;
    var approval := FindApproval(r.approvals, q.approvalId);
    if AuthorityHolds(r, q, approval, e.now) {
      OneDecision(s);
      SeenNow(r, q, approval, e.now);
      SeenHasProposal(r, q, r, approval.value);
    }
  }

  lemma OneDecision(s: Shared)
    requires SharedInvariant(s)
    ensures |Current(s).approvals| <= 1
  {
    hide HistoryInvariant, DecidedSound, Published, WriteSound, PolicyHonest, OutcomeCounts, ClusterSound;
    CurrentCoupled(s);
  }

  lemma SeenHasProposal(r: InvestigationRecord, q: InterventionRequest, seen: InvestigationRecord, approval: Approval)
    requires SeenSound(r, q, seen, approval)
    ensures seen.proposal.Some?
  {
  }

  lemma SeenNow(r: InvestigationRecord, q: InterventionRequest, approval: Option<Approval>, now: Time)
    requires AuthorityHolds(r, q, approval, now) && |r.approvals| <= 1
    requires approval == FindApproval(r.approvals, q.approvalId)
    ensures approval.Some? && SeenSound(r, q, r, approval.value)
  {
    hide RequestHash;
    ExtendsReflexive(r);
  }

  /** The safe halt: whoever finished the Intervention, it is finished afterwards. */
  lemma HaltFinishes(s: Shared, n: nat, q: InterventionRequest, i: Intervention, e: AuditEvent)
    requires SharedInvariant(s) && q in s.queue && ClaimedAs(Current(s), i)
    requires e.eventId == Uuid(s.nextUuid) && e.incidentId == q.incidentId
    ensures var t := CallWithEvent(s, UpdateIntervention(i.(state := SafeHalted), e)).shared;
            t.history != [] && SharedInvariant(t) && Evolves(s, t, n) && Finished(Current(t))
  {
    hide HistoryInvariant, DecidedSound, WriteSound, PolicyHonest, OutcomeCounts, ClusterSound, Extends, Evolves;
    hide KeepsRecord, Apply, RecordInvariant, ApplyOutcome, CallAllowed;
    var op := UpdateIntervention(i.(state := SafeHalted), e);
    UpdateAllowed(s, n, op.updated, e);
    CallKeeps(s, op, n);
    RecordKept(s);
    CurrentCoupled(s);
    assert Published(Current(s), q);
    var r := Current(s);
    if r.interventions[0].state == Running {
      FreshEventIsNew(r, e, s.nextUuid);
      SafeHaltAccepted(r, i, e);
      ApplyOfOutcome(r, op);
      RecordedIsFinished(r, op);
    } else {
      assert Finished(r);
      var t := CallWithEvent(s, op).shared;
      FinishedEvolves(s, t, n);
    }
  }

  lemma FinishedEvolves(s: Shared, t: Shared, n: nat)
    requires s.history != [] && t.history != [] && Evolves(s, t, n) && SharedInvariant(t) && Finished(Current(s))
    ensures Finished(Current(t))
  {
    hide SharedInvariant, Extends, LeasesEvolve, OutcomeBy, ClusterGrows;
    AtMostOne(t);
    FinishedStable(Current(s), Current(t));
  }

  lemma SettledEvolves(s: Shared, t: Shared, n: nat, claim: Claim)
    requires s.history != [] && t.history != [] && Evolves(s, t, n) && SharedInvariant(t)
    requires ClaimSettled(Current(s), claim)
    ensures ClaimSettled(Current(t), claim)
  {
    hide SharedInvariant, Extends, LeasesEvolve, OutcomeBy, ClusterGrows, ClaimSettled;
    AtMostOne(t);
    SettledStable(Current(s), Current(t), claim);
  }

  lemma ApplyOfOutcome(r: InvestigationRecord, op: StoreOp)
    requires op.UpdateIntervention?
    ensures Apply(r, op) == ApplyOutcome(r, op.updated, op.event)
  {
  }

  lemma FreshEventIsNew(r: InvestigationRecord, e: AuditEvent, next: nat)
    requires EventsPast(r, next) && e.eventId == Uuid(next)
    ensures !HasEvent(r, e.eventId)
  {
  }

  lemma HaltsKeep(s: Shared, n: nat, e: Instance, a: Answers)
    requires SharedInvariant(s) && e.request in s.queue && PcInvariant(s, n, e.request, e.pc)
    requires e.pc.Halting? || e.pc.RecordingHalt?
    ensures var (t, f) := Perform(s, n, e, a); Kept(s, t, n, f.request, f.pc)
  {
    hide SharedInvariant, LeaseSound, GuardedStep, CallWithEvent, Evolves, StageInvariant, Acquired, Releasable;
    hide AuthorityHolds, FindByKey, FindApproval, FindIntervention, Finished, ClaimedAs, Log;
    var (t, f) := Perform(s, n, e, a);
    if e.pc.Halting? {
      Stays(s, n);
      AtMostOne(s);
      RecordKept(s);
      StoredIsFinished(s, e.pc.intervention);
    } else {
      HaltFinishes(s, n, e.request, e.pc.intervention, FreshEvent(s, e.request.incidentId, "intervention_safe_halted"));
      LeaseStable(s, t, n, e.pc.lease);
      EvolvedQueue(s, t, n);
    }
  }

  lemma StoredIsFinished(s: Shared, i: Intervention)
    requires SharedInvariant(s) && ClaimedAs(Current(s), i)
    ensures var stored := FindIntervention(Current(s).interventions, i.interventionId);
            stored.None? || stored.value.state != Running ==> Finished(Current(s))
  {
    hide HistoryInvariant, DecidedSound, WriteSound, PolicyHonest, OutcomeCounts, ClusterSound, EventsPast;
    CurrentCoupled(s);
    hide RecordInvariant;
    assert Current(s).interventions == [Current(s).interventions[0]];
  }

  lemma ReleaseKeeps(s: Shared, n: nat, e: Instance, a: Answers)
    requires SharedInvariant(s) && e.request in s.queue && PcInvariant(s, n, e.request, e.pc) && e.pc.Releasing?
    ensures var (t, f) := Perform(s, n, e, a); Kept(s, t, n, f.request, f.pc)
  {
    hide HistoryInvariant, DecidedSound, Published, WriteSound, PolicyHonest, OutcomeCounts, RegisterSound;
    hide EventsPast, ClusterSound, LedgerShape, Evolves, GuardedStep, ClaimSettled;
    var (t, f) := Perform(s, n, e, a);
    LeasesOnly(s, t, n);
    EvolvedQueue(s, t, n);
    SettledEvolves(s, t, n, e.pc.claim);
  }

  /** Steps that only append an audit event, before the lease is taken. */
  lemma LoggingKeeps(s: Shared, n: nat, e: Instance, a: Answers)
    requires SharedInvariant(s) && e.request in s.queue && PcInvariant(s, n, e.request, e.pc)
    requires e.pc.RejectingDuplicate? || e.pc.Receiving? || e.pc.ReportingBusy?
    ensures var (t, f) := Perform(s, n, e, a); Kept(s, t, n, f.request, f.pc)
  {
    hide SharedInvariant, LeaseSound, LeaseGone, GuardedStep, Log, Evolves, Silent, ClaimedAs, Finished;
    hide StageInvariant, SeenSound, Acquired, Releasable, AuthorityHolds, FindByKey, FindApproval, FindIntervention;
    hide CallWithEvent, NewIntervention;
    var q := e.request;
    match e.pc {
      case RejectingDuplicate(_) => LogKeeps(s, q, "intervention_duplicate_rejected", n);
      case Receiving(i, resuming) =>
        LogKeeps(s, q, "intervention_received", n);
        NotYetClaimedStable(s, Log(s, q, "intervention_received").shared, n, q, i, resuming);
      case _ => LogKeeps(s, q, "intervention_refused", n);
    }
  }

  /** Steps that only append an audit event, once a lease was held. */
  lemma ClosingKeeps(s: Shared, n: nat, e: Instance, a: Answers)
    requires SharedInvariant(s) && e.request in s.queue && PcInvariant(s, n, e.request, e.pc)
    requires e.pc.Refusing? || e.pc.ReportingSkipped?
    ensures var (t, f) := Perform(s, n, e, a); Kept(s, t, n, f.request, f.pc)
  {
    hide SharedInvariant, LeaseSound, LeaseGone, GuardedStep, Log, Evolves, Silent, ClaimedAs, Finished;
    hide StageInvariant, SeenSound, Acquired, Releasable, AuthorityHolds, FindByKey, FindApproval, FindIntervention;
    hide CallWithEvent, NewIntervention;
    assert e.pc.Refusing? ==> ClaimSettled(Current(s), Unclaimed);
    var name := if e.pc.Refusing? then "intervention_refused" else "intervention_lease_release_skipped";
    LogKeeps(s, e.request, name, n);
    var t := Log(s, e.request, name).shared;
    LeaseStable(s, t, n, e.pc.lease);
    if e.pc.ReportingSkipped? {
      SettledEvolves(s, t, n, e.pc.claim);
    }
  }

  /** An answering operation keeps the invariant. */
  lemma PerformKeeps(s: Shared, n: nat, e: Instance, a: Answers)
    requires SharedInvariant(s) && InstanceInvariant(s, n, e) && AnswersPossible(s, e, a)
    ensures e.pc.Guarded? ==> e.pc.seen.proposal.Some?
    ensures var (t, f) := Perform(s, n, e, a); Kept(s, t, n, f.request, f.pc)
  {
    hide SharedInvariant, LeaseSound, LeaseGone, GuardedStep, Evolves, ClaimedAs, ClaimSettled, StageInvariant, Lands;
    hide SeenSound;
    match e.pc {
      case Starting =>
        Stays(s, n);
        Starts(s, n, e.request);
        assert ClaimSettled(Current(s), Unclaimed) by { NothingToSettle(Current(s)); }
      case Acquiring(_, _) => Acquires(s, n, e, a);
      case Rechecking(_, _, _) => Rechecks(s, n, e, a);
      case Guarded(_, _, seen, approval, _) =>
        SeenHasProposal(Current(s), e.request, seen, approval);
        GuardedKeeps(s, n, e.request, e.pc, a);
      case Halting(_, _) => HaltsKeep(s, n, e, a);
      case RecordingHalt(_, _) => HaltsKeep(s, n, e, a);
      case Releasing(_, _, _) => ReleaseKeeps(s, n, e, a);
      case Refusing(_) => ClosingKeeps(s, n, e, a);
      case ReportingSkipped(_, _, _) => ClosingKeeps(s, n, e, a);
      case Exited(_, _, _, _) => Stays(s, n);
      case Crashed => Stays(s, n);
      case _ => LoggingKeeps(s, n, e, a);
    }
  }

  lemma NothingToSettle(r: InvestigationRecord)
    ensures ClaimSettled(r, Unclaimed)
  {
  }

  /** So does one that raises. */
  lemma FaultKeeps(s: Shared, n: nat, e: Instance)
    requires SharedInvariant(s) && InstanceInvariant(s, n, e)
    ensures Kept(s, s, n, e.request, Faulted(e.pc))
  {
    hide SharedInvariant, LeaseSound, LeaseGone, Evolves, ClaimedAs, ClaimSettled, StageInvariant, SeenSound, Silent;
    Stays(s, n);
    NothingToSettle(Current(s));
    match e.pc {
      case Guarded(_, _, seen, approval, _) =>
        SeenHasProposal(Current(s), e.request, seen, approval);
        Raises(s, s, n, e.request, e.pc);
      case Halting(i, _) => ClaimedIsUnhalted(Current(s), i);
      case RecordingHalt(i, _) => ClaimedIsUnhalted(Current(s), i);
      case _ =>
    }
  }

  lemma ClaimedIsUnhalted(r: InvestigationRecord, i: Intervention)
    requires ClaimedAs(r, i)
    ensures ClaimSettled(r, Unhalted)
  {
  }

  /** Whatever an executor does next keeps the invariant. */
  lemma ExecuteKeeps(s: Shared, n: nat, e: Instance, a: Answers)
    requires SharedInvariant(s) && InstanceInvariant(s, n, e) && AnswersPossible(s, e, a)
    ensures e.pc.Guarded? ==> e.pc.seen.proposal.Some?
    ensures var (t, f) := Execute(s, n, e, a); Kept(s, t, n, f.request, f.pc)
  {
    hide SharedInvariant, InstanceInvariant, Perform, Faulted, Kept, AnswersPossible;
    PerformKeeps(s, n, e, a);
    FaultKeeps(s, n, e);
  }
}
