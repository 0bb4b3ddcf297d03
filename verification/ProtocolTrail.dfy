/** The audit trail of a run: what executors did, in order, and what every write, outcome and exit rests on. */
module ProtocolTrail {
  import opened Wrappers
  import opened Incidents
  import opened ApprovalBindings
  import opened RecordOperations
  import opened RecordInvariants
  import opened RecordRuns
  import opened WorkloadLeases
  import opened ProposalPolicy
  import opened InterventionQueues
  import opened Protocol
  import opened ProtocolInvariants
  import opened ProtocolSteps
  import opened ProtocolSafety
  import opened ProtocolRuns

  // ---------------------------------------------------------------- deeds

  datatype Act =
    | PassedAuthority(request: InterventionRequest, approval: Approval, started: Time)
    | PassedPolicy(reviewed: InvestigationRecord, proposal: RemediationProposal, patch: DeploymentPatch)
    | RenewedLease(lease: WorkloadLease)
    | WrotePatch(write: Write)
    | SawConvergence(action: RemediationAction, previous: DeploymentState, answer: ConvergenceResult)
    | RecordedOutcome(state: InterventionState)
    | LostHalt

  /** One act of one instance, with the shared state it was taken in. */
  datatype Deed = Deed(instance: nat, at: Shared, act: Act)

  predicate Over(s: Shared) {
    s.history != [] && Finished(Current(s))
  }

  /** The acts a guarded step is known by. */
  function GuardedAct(e: Instance, f: Instance, a: Answers): Option<Act>
    requires e.pc.Guarded? && e.pc.seen.proposal.Some?
  {
    var seen, proposal := e.pc.seen, e.pc.seen.proposal.value;
    match e.pc.stage
    case Revalidating(_) =>
      if f.pc.Guarded? then Some(PassedPolicy(seen, proposal, e.request.patch)) else None
    case RevalidatingRestore(before, _) =>
      if f.pc.Guarded? && f.pc.stage.ReportingRestore?
      then Some(PassedPolicy(seen, RestorationProposal(proposal, e.pc.intervention, before.replicas), f.pc.stage.patch))
      else None
    case Renewing(_) => if f.pc.Guarded? then Some(RenewedLease(e.pc.lease)) else None
    case RenewingRestore(_, _, _) => if f.pc.Guarded? then Some(RenewedLease(e.pc.lease)) else None
    case Verifying(before) => Some(SawConvergence(proposal.action, before, a.convergence))
    case VerifyingRestored(before, observed, _) =>
      Some(SawConvergence(ScaleDeployment(proposal.action.target, before.replicas), observed, a.convergence))
    case _ => None
  }

  /** What one operation did: first what it changed, then what it established. */
  function ActOf(s: Shared, n: nat, e: Instance, a: Answers): Option<Act>
    requires s.history != [] && (e.pc.Guarded? ==> e.pc.seen.proposal.Some?)
  {
    var (t, f) := Execute(s, n, e, a);
    if |s.ledger| < |t.ledger| then Some(WrotePatch(t.ledger[|s.ledger|]))
    else if !Over(s) && Over(t) then Some(RecordedOutcome(Current(t).interventions[0].state))
    else if a.fault then if e.pc.Halting? || e.pc.RecordingHalt? then Some(LostHalt) else None
    else if e.pc.Rechecking? && f.pc.Guarded? then Some(PassedAuthority(e.request, f.pc.approval, e.now))
    else if e.pc.Guarded? then GuardedAct(e, f, a)
    else None
  }

  ghost function StepDeeds(y: System, v: Event): seq<Deed>
    requires y.shared.history != [] && Possible(y, v)
  {
    if !v.Run? then []
    else
      var act := ActOf(y.shared, v.instance, y.instances[v.instance], v.answers);
      if act.Some? then [Deed(v.instance, y.shared, act.value)] else []
  }

  /** The trail of a run. */
  ghost function Deeds(initial: System, events: seq<Event>): seq<Deed>
    requires Runs(initial, events)
  {
    if events == [] then []
    else
      var before := events[..|events| - 1];
      Deeds(initial, before) + StepDeeds(Reached(initial, before), events[|events| - 1])
  }

  function WritesOf(deeds: seq<Deed>): seq<Write> {
    if deeds == [] then []
    else
      var d := deeds[|deeds| - 1];
      WritesOf(deeds[..|deeds| - 1]) + if d.act.WrotePatch? then [d.act.write] else []
  }

  function OutcomesOf(deeds: seq<Deed>): seq<InterventionState> {
    if deeds == [] then []
    else
      var d := deeds[|deeds| - 1];
      OutcomesOf(deeds[..|deeds| - 1]) + if d.act.RecordedOutcome? then [d.act.state] else []
  }

  // ---------------------------------------------------------------- what a deed establishes

  /** A current approval whose hashes match the record, for exactly the requested patch. */
  predicate Authorising(d: Deed, n: nat, q: InterventionRequest) {
    && d.instance == n && d.act.PassedAuthority? && d.act.request == q && d.at.history != []
    && var r, a := Current(d.at), d.act.approval;
    && a in r.approvals && a.approvalId == q.approvalId && a.decision == Approved && d.act.started < a.expiresAt
    && r.proposal.Some? && PolicyIsPassed(r)
    && a.proposalHash == OfProposal(r.proposal.value)
    && a.evidenceHash == OfEvidence(r.window, r.evidence)
    && a.policyHash == OfPolicy(r.policy.value)
    && r.proposal.value.proposalId == q.proposalId && r.proposal.value.action.target == q.target
    && r.policy.value.patch == Some(q.patch) && q.payloadHash == RequestHash(q)
  }

  /** Policy accepted the live state and built exactly this patch on it. */
  predicate Accepting(d: Deed, n: nat, patch: DeploymentPatch) {
    && d.instance == n && d.act.PassedPolicy? && d.act.patch == patch
    && var state := Inspect(d.at.cluster, d.act.proposal.action.target);
    && state.Some? && Acceptable(d.act.reviewed, d.act.proposal, true, state)
    && BuildPatch(d.act.proposal.action, state.value) == Some(patch)
  }

  /** The lease document still carried this instance's token and had not expired. */
  predicate RenewingHeld(d: Deed, n: nat) {
    && d.instance == n && d.act.RenewedLease?
    && var doc := Lookup(d.at.leases, LeaseKey(d.act.lease.target));
    Holds(doc, d.act.lease) && d.at.clock < doc.value.expiresAt
  }

  predicate WritingOnto(d: Deed, n: nat, before: DeploymentState) {
    d.instance == n && d.act.WrotePatch? && d.act.write.kind == Forward && d.act.write.onto == before
  }

  predicate Failing(d: Deed, n: nat, before: DeploymentState, observed: DeploymentState) {
    && d.instance == n && d.act.SawConvergence? && d.act.previous == before
    && d.act.answer == ConvergenceResult(DefinitelyFailed, Some(observed))
  }

  /** A newer state of the target that shows what the action asked for. */
  predicate Achieves(action: RemediationAction, before: DeploymentState, observed: DeploymentState) {
    && observed.target == action.target
    && before.generation < observed.generation && before.resourceVersion != observed.resourceVersion
    && (action.ScaleDeployment? ==> observed.replicas == action.replicas && observed.revision == before.revision)
    && (action.RollbackDeployment? ==> observed.revision == action.revision)
    && (action.RestartDeployment? ==> before.revision < observed.revision)
  }

  /** Convergence was confirmed and the observed state is what the action asked for. */
  predicate Converging(d: Deed, n: nat, action: RemediationAction, before: DeploymentState) {
    && d.instance == n && d.act.SawConvergence? && d.act.action == action && d.act.previous == before
    && d.act.answer.status == Converged && d.act.answer.observed.Some?
    && Achieves(action, before, d.act.answer.observed.value)
  }

  // ---------------------------------------------------------------- chains of deeds

  predicate ForwardBefore(deeds: seq<Deed>, n: nat, before: DeploymentState) {
    exists k | 0 <= k < |deeds| :: WritingOnto(deeds[k], n, before)
  }

  predicate FailureBefore(deeds: seq<Deed>, n: nat, before: DeploymentState, observed: DeploymentState) {
    exists k | 0 <= k < |deeds| :: Failing(deeds[k], n, before, observed) && ForwardBefore(deeds[..k], n, before)
  }

  ghost predicate AnyFailureBefore(deeds: seq<Deed>, n: nat) {
    exists before, observed :: FailureBefore(deeds, n, before, observed)
  }

  /** A failed scale precedes, and the proposal asks for the replicas it started from. */
  ghost predicate Undoing(deeds: seq<Deed>, n: nat, proposal: RemediationProposal) {
    exists before, observed :: FailureBefore(deeds, n, before, observed) && proposal.action.ScaleDeployment?
                               && proposal.action.replicas == before.replicas
  }

  predicate AuthorityBefore(deeds: seq<Deed>, n: nat, q: InterventionRequest) {
    exists k | 0 <= k < |deeds| :: Authorising(deeds[k], n, q)
  }

  ghost predicate AcceptingAfter(deeds: seq<Deed>, k: nat, n: nat, q: InterventionRequest, kind: WriteKind,
                             patch: DeploymentPatch)
    requires k < |deeds|
  {
    && Accepting(deeds[k], n, patch) && AuthorityBefore(deeds[..k], n, q)
    && (kind.Restoration? ==> Undoing(deeds[..k], n, deeds[k].act.proposal))
  }

  ghost predicate PolicyBefore(deeds: seq<Deed>, n: nat, q: InterventionRequest, kind: WriteKind,
                               patch: DeploymentPatch)
  {
    exists k | 0 <= k < |deeds| :: AcceptingAfter(deeds, k, n, q, kind, patch)
  }

  ghost predicate RenewalBefore(deeds: seq<Deed>, n: nat, q: InterventionRequest, kind: WriteKind,
                                patch: DeploymentPatch)
  {
    exists k | 0 <= k < |deeds| :: RenewingHeld(deeds[k], n) && PolicyBefore(deeds[..k], n, q, kind, patch)
  }

  ghost predicate RestoredBefore(deeds: seq<Deed>, n: nat, before: DeploymentState, observed: DeploymentState) {
    exists k | 0 <= k < |deeds| :: RestoringWrite(deeds[k], n) && FailureBefore(deeds[..k], n, before, observed)
  }

  predicate RestoringWrite(d: Deed, n: nat) {
    d.instance == n && d.act.WrotePatch? && d.act.write.kind == Restoration
  }

  ghost predicate ConvergingAfter(deeds: seq<Deed>, k: nat, n: nat)
    requires k < |deeds|
  {
    exists action, before :: Converging(deeds[k], n, action, before) && ForwardBefore(deeds[..k], n, before)
  }

  ghost predicate SuccessBefore(deeds: seq<Deed>, n: nat) {
    exists k | 0 <= k < |deeds| :: ConvergingAfter(deeds, k, n)
  }

  /** The restoration converged from the failed state back to the replicas the forward write had found. */
  ghost predicate RestoredAfter(deeds: seq<Deed>, k: nat, n: nat)
    requires k < |deeds|
  {
    exists before: DeploymentState, observed, t ::
      Converging(deeds[k], n, ScaleDeployment(t, before.replicas), observed)
      && RestoredBefore(deeds[..k], n, before, observed)
  }

  ghost predicate RollbackBefore(deeds: seq<Deed>, n: nat) {
    exists k | 0 <= k < |deeds| :: RestoredAfter(deeds, k, n)
  }

  // ---------------------------------------------------------------- what writes and outcomes rest on

  /** Authority, then policy on the patch, then a renewal, all by the instance that writes. */
  ghost predicate BackedWrite(deeds: seq<Deed>, n: nat, w: Write) {
    && w.instance == n
    && exists q :: RenewalBefore(deeds, n, q, w.kind, w.patch) && (w.kind.Forward? ==> w.patch == q.patch)
  }

  ghost predicate BackedOutcome(deeds: seq<Deed>, n: nat, state: InterventionState) {
    match state
    case Succeeded => SuccessBefore(deeds, n)
    case Failed => AnyFailureBefore(deeds, n)
    case RolledBack => RollbackBefore(deeds, n)
    case SafeHalted => true
    case _ => false
  }

  ghost predicate Backed(deeds: seq<Deed>, d: Deed) {
    match d.act
    case WrotePatch(w) => BackedWrite(deeds, d.instance, w)
    case RecordedOutcome(state) => BackedOutcome(deeds, d.instance, state)
    case _ => true
  }

  ghost predicate AllBacked(deeds: seq<Deed>) {
    forall k | 0 <= k < |deeds| :: Backed(deeds[..k], deeds[k])
  }

  // ---------------------------------------------------------------- where an instance stands in the trail

  ghost predicate StageTrail(deeds: seq<Deed>, n: nat, q: InterventionRequest, stage: Stage) {
    match stage
    case Claiming => AuthorityBefore(deeds, n, q)
    case Resuming => AuthorityBefore(deeds, n, q)
    case Inspecting => AuthorityBefore(deeds, n, q)
    case Revalidating(_) => AuthorityBefore(deeds, n, q)
    case ReportingValidated(_) => PolicyBefore(deeds, n, q, Forward, q.patch)
    case ReportingDryRun(_) => PolicyBefore(deeds, n, q, Forward, q.patch)
    case Renewing(_) => PolicyBefore(deeds, n, q, Forward, q.patch)
    case Mutating(_) => AuthorityBefore(deeds, n, q) && RenewalBefore(deeds, n, q, Forward, q.patch)
    case ReportingMutated(b) => AuthorityBefore(deeds, n, q) && ForwardBefore(deeds, n, b)
    case Verifying(b) => AuthorityBefore(deeds, n, q) && ForwardBefore(deeds, n, b)
    case ReportingFailed(b, o) => AuthorityBefore(deeds, n, q) && FailureBefore(deeds, n, b, o)
    case RecordingFailed => AnyFailureBefore(deeds, n)
    case RecordingSucceeded => SuccessBefore(deeds, n)
    case Reinspecting(b, o) => AuthorityBefore(deeds, n, q) && FailureBefore(deeds, n, b, o)
    case RevalidatingRestore(b, o) => AuthorityBefore(deeds, n, q) && FailureBefore(deeds, n, b, o)
    case ReportingRestore(b, o, p) => FailureBefore(deeds, n, b, o) && PolicyBefore(deeds, n, q, Restoration, p)
    case RenewingRestore(b, o, p) => FailureBefore(deeds, n, b, o) && PolicyBefore(deeds, n, q, Restoration, p)
    case Restoring(b, o, p) => FailureBefore(deeds, n, b, o) && RenewalBefore(deeds, n, q, Restoration, p)
    case ReportingRestored(b, o, _) => RestoredBefore(deeds, n, b, o)
    case VerifyingRestored(b, o, _) => RestoredBefore(deeds, n, b, o)
    case RecordingRolledBack => RollbackBefore(deeds, n)
  }

  predicate HaltLost(deeds: seq<Deed>, n: nat) {
    exists k | 0 <= k < |deeds| :: deeds[k].instance == n && deeds[k].act.LostHalt?
  }

  predicate FinishedBy(deeds: seq<Deed>, n: nat) {
    exists k | 0 <= k < |deeds| :: deeds[k].instance == n && deeds[k].act.RecordedOutcome?
  }

  predicate Undecided(deeds: seq<Deed>, n: nat) {
    !HaltLost(deeds, n) && !FinishedBy(deeds, n)
  }

  predicate ClaimTrail(deeds: seq<Deed>, n: nat, claim: Claim) {
    && (claim.Unhalted? <==> HaltLost(deeds, n))
    && (FinishedBy(deeds, n) ==> claim.Settled?)
  }

  ghost predicate PcTrail(deeds: seq<Deed>, n: nat, q: InterventionRequest, pc: Pc) {
    match pc
    case Guarded(_, _, _, _, stage) => Undecided(deeds, n) && StageTrail(deeds, n, q, stage)
    case Releasing(_, claim, _) => ClaimTrail(deeds, n, claim)
    case ReportingSkipped(_, claim, _) => ClaimTrail(deeds, n, claim)
    case Exited(_, claim, _, _) => ClaimTrail(deeds, n, claim)
    case Crashed => true
    case _ => Undecided(deeds, n)
  }

  /** The trail holds every write and the one outcome, each of them backed, and where every instance stands. */
  ghost predicate TrailInvariant(deeds: seq<Deed>, y: System) {
    && AllBacked(deeds)
    && WritesOf(deeds) == y.shared.ledger
    && y.shared.history != []
    && OutcomesOf(deeds) == (if Over(y.shared) then [Current(y.shared).interventions[0].state] else [])
    && (forall d <- deeds :: d.instance < |y.instances|)
    && (forall n | 0 <= n < |y.instances| :: PcTrail(deeds, n, y.instances[n].request, y.instances[n].pc))
  }

  // ---------------------------------------------------------------- trails only grow

  lemma TakeOfSum(deeds: seq<Deed>, more: seq<Deed>, k: nat)
    requires k <= |deeds|
    ensures (deeds + more)[..k] == deeds[..k]
    ensures k < |deeds| ==> (deeds + more)[k] == deeds[k]
  {
  }

  lemma ForwardGrows(deeds: seq<Deed>, more: seq<Deed>, n: nat, b: DeploymentState)
    requires ForwardBefore(deeds, n, b)
    ensures ForwardBefore(deeds + more, n, b)
  {
    hide WritingOnto;
    var k :| 0 <= k < |deeds| && WritingOnto(deeds[k], n, b);
    assert (deeds + more)[k] == deeds[k];
  }

  lemma FailureGrows(deeds: seq<Deed>, more: seq<Deed>, n: nat, b: DeploymentState, o: DeploymentState)
    requires FailureBefore(deeds, n, b, o)
    ensures FailureBefore(deeds + more, n, b, o)
  {
    hide Failing, ForwardBefore;
    var k :| 0 <= k < |deeds| && Failing(deeds[k], n, b, o) && ForwardBefore(deeds[..k], n, b);
    TakeOfSum(deeds, more, k);
  }

  lemma AnyFailureGrows(deeds: seq<Deed>, more: seq<Deed>, n: nat)
    requires AnyFailureBefore(deeds, n)
    ensures AnyFailureBefore(deeds + more, n)
  {
    hide FailureBefore;
    var b, o :| FailureBefore(deeds, n, b, o);
    FailureGrows(deeds, more, n, b, o);
  }

  lemma AuthorityGrows(deeds: seq<Deed>, more: seq<Deed>, n: nat, q: InterventionRequest)
    requires AuthorityBefore(deeds, n, q)
    ensures AuthorityBefore(deeds + more, n, q)
  {
    hide Authorising;
    var k :| 0 <= k < |deeds| && Authorising(deeds[k], n, q);
    assert (deeds + more)[k] == deeds[k];
  }

  lemma PolicyGrows(deeds: seq<Deed>, more: seq<Deed>, n: nat, q: InterventionRequest, kind: WriteKind,
                    p: DeploymentPatch)
    requires PolicyBefore(deeds, n, q, kind, p)
    ensures PolicyBefore(deeds + more, n, q, kind, p)
  {
    hide Accepting, AuthorityBefore, Undoing;
    var k :| 0 <= k < |deeds| && AcceptingAfter(deeds, k, n, q, kind, p);
    TakeOfSum(deeds, more, k);
    assert AcceptingAfter(deeds + more, k, n, q, kind, p);
  }

  lemma RenewalGrows(deeds: seq<Deed>, more: seq<Deed>, n: nat, q: InterventionRequest, kind: WriteKind,
                     p: DeploymentPatch)
    requires RenewalBefore(deeds, n, q, kind, p)
    ensures RenewalBefore(deeds + more, n, q, kind, p)
  {
    hide RenewingHeld, PolicyBefore;
    var k :| 0 <= k < |deeds| && RenewingHeld(deeds[k], n) && PolicyBefore(deeds[..k], n, q, kind, p);
    TakeOfSum(deeds, more, k);
  }

  lemma RestoredGrows(deeds: seq<Deed>, more: seq<Deed>, n: nat, b: DeploymentState, o: DeploymentState)
    requires RestoredBefore(deeds, n, b, o)
    ensures RestoredBefore(deeds + more, n, b, o)
  {
    hide RestoringWrite, FailureBefore;
    var k :| 0 <= k < |deeds| && RestoringWrite(deeds[k], n) && FailureBefore(deeds[..k], n, b, o);
    TakeOfSum(deeds, more, k);
  }

  lemma SuccessGrows(deeds: seq<Deed>, more: seq<Deed>, n: nat)
    requires SuccessBefore(deeds, n)
    ensures SuccessBefore(deeds + more, n)
  {
    hide Converging, ForwardBefore;
    var k :| 0 <= k < |deeds| && ConvergingAfter(deeds, k, n);
    TakeOfSum(deeds, more, k);
    assert ConvergingAfter(deeds + more, k, n);
  }

  lemma RollbackGrows(deeds: seq<Deed>, more: seq<Deed>, n: nat)
    requires RollbackBefore(deeds, n)
    ensures RollbackBefore(deeds + more, n)
  {
    hide Converging, RestoredBefore;
    var k :| 0 <= k < |deeds| && RestoredAfter(deeds, k, n);
    TakeOfSum(deeds, more, k);
    assert RestoredAfter(deeds + more, k, n);
  }

  lemma StageTrailGrows(deeds: seq<Deed>, more: seq<Deed>, n: nat, q: InterventionRequest, stage: Stage)
    requires StageTrail(deeds, n, q, stage)
    ensures StageTrail(deeds + more, n, q, stage)
  {
    hide ForwardBefore, FailureBefore, AnyFailureBefore, AuthorityBefore, PolicyBefore, RenewalBefore, RestoredBefore;
    hide SuccessBefore, RollbackBefore;
    if AuthorityBefore(deeds, n, q) {
      AuthorityGrows(deeds, more, n, q);
    }
    match stage {
      case ReportingValidated(_) => PolicyGrows(deeds, more, n, q, Forward, q.patch);
      case ReportingDryRun(_) => PolicyGrows(deeds, more, n, q, Forward, q.patch);
      case Renewing(_) => PolicyGrows(deeds, more, n, q, Forward, q.patch);
      case Mutating(_) => RenewalGrows(deeds, more, n, q, Forward, q.patch);
      case ReportingMutated(b) => ForwardGrows(deeds, more, n, b);
      case Verifying(b) => ForwardGrows(deeds, more, n, b);
      case ReportingFailed(b, o) => FailureGrows(deeds, more, n, b, o);
      case Reinspecting(b, o) => FailureGrows(deeds, more, n, b, o);
      case RevalidatingRestore(b, o) => FailureGrows(deeds, more, n, b, o);
      case RecordingFailed => AnyFailureGrows(deeds, more, n);
      case RecordingSucceeded => SuccessGrows(deeds, more, n);
      case RecordingRolledBack => RollbackGrows(deeds, more, n);
      case ReportingRestore(b, o, p) =>
        FailureGrows(deeds, more, n, b, o);
        PolicyGrows(deeds, more, n, q, Restoration, p);
      case RenewingRestore(b, o, p) =>
        FailureGrows(deeds, more, n, b, o);
        PolicyGrows(deeds, more, n, q, Restoration, p);
      case Restoring(b, o, p) =>
        FailureGrows(deeds, more, n, b, o);
        RenewalGrows(deeds, more, n, q, Restoration, p);
      case ReportingRestored(b, o, _) => RestoredGrows(deeds, more, n, b, o);
      case VerifyingRestored(b, o, _) => RestoredGrows(deeds, more, n, b, o);
      case _ =>
    }
  }

  /** Only a lost halt or an outcome of instance `n` bears on its claim. */
  predicate Decides(more: seq<Deed>, n: nat) {
    exists d <- more :: d.instance == n && (d.act.LostHalt? || d.act.RecordedOutcome?)
  }

  lemma DecisionGrows(deeds: seq<Deed>, more: seq<Deed>, n: nat)
    requires !Decides(more, n)
    ensures HaltLost(deeds + more, n) <==> HaltLost(deeds, n)
    ensures FinishedBy(deeds + more, n) <==> FinishedBy(deeds, n)
  {
    forall k | 0 <= k < |deeds + more|
      ensures k < |deeds| ==> (deeds + more)[k] == deeds[k]
      ensures k >= |deeds| ==> (deeds + more)[k] in more
    {
      assert k >= |deeds| ==> (deeds + more)[k] == more[k - |deeds|];
    }
    if HaltLost(deeds, n) {
      var k :| 0 <= k < |deeds| && deeds[k].instance == n && deeds[k].act.LostHalt?;
      assert (deeds + more)[k] == deeds[k];
    }
    if FinishedBy(deeds, n) {
      var k :| 0 <= k < |deeds| && deeds[k].instance == n && deeds[k].act.RecordedOutcome?;
      assert (deeds + more)[k] == deeds[k];
    }
  }

  lemma PcTrailGrows(deeds: seq<Deed>, more: seq<Deed>, n: nat, q: InterventionRequest, pc: Pc)
    requires PcTrail(deeds, n, q, pc) && !Decides(more, n)
    ensures PcTrail(deeds + more, n, q, pc)
  {
    hide HaltLost, FinishedBy, StageTrail, Decides;
    DecisionGrows(deeds, more, n);
    if pc.Guarded? {
      StageTrailGrows(deeds, more, n, q, pc.stage);
    }
  }
}
