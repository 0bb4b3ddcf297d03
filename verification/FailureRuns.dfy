/** A delivery whose action definitely failed: a scale is undone by one restoring write, anything else is escalated. */
module FailureRuns {
  import opened Wrappers
  import opened Incidents
  import opened RecordOperations
  import opened RecordInvariants
  import opened RecordRuns
  import opened WorkloadLeases
  import opened ProposalPolicy
  import opened Protocol
  import opened ProtocolInvariants
  import opened ProtocolSafety
  import opened ExecutorRuns

  /** The state the failed action left, and the one the restoring write leads to. */
  datatype Setback = Setback(observed: DeploymentState, after: DeploymentState)

  // ---------------------------------------------------------------- the circumstances

  predicate Verifies(e: Instance) {
    e.pc.Guarded? && e.pc.stage.Verifying? && e.pc.seen.proposal.Some?
  }

  /** Written, still running, still holding the lease, and about to ask whether the action converged. */
  predicate AwaitsConvergence(b: Shared, n: nat, e: Instance) {
    && SharedInvariant(b) && InstanceInvariant(b, n, e) && Verifies(e)
    && Current(b).interventions == [e.pc.intervention]
    && e.pc.lease.target == e.request.target
    && Holds(Lookup(b.leases, LeaseKey(e.request.target)), e.pc.lease)
  }

  predicate IsScale(e: Instance)
    requires Verifies(e)
  {
    e.pc.seen.proposal.value.action.ScaleDeployment?
  }

  /** The scale back to the replicas the first write had found. */
  function ScaleBack(e: Instance): RemediationProposal
    requires Verifies(e)
  {
    RestorationProposal(e.pc.seen.proposal.value, e.pc.intervention, e.pc.stage.before.replicas)
  }

  function RestoringPatch(e: Instance, g: Setback): DeploymentPatch
    requires Verifies(e)
  {
    BuildPatch(ScaleBack(e).action, g.observed).value
  }

  /** The failed state is still live, policy accepts the scale back, and its patch can land. */
  predicate MayRestore(b: Shared, e: Instance, g: Setback)
    requires Verifies(e)
  {
    && Inspect(b.cluster, e.request.target) == Some(g.observed)
    && Acceptable(e.pc.seen, ScaleBack(e), true, Some(g.observed))
    && Lands(b.cluster, RestoringPatch(e, g), g.after)
  }

  /** A definite failure, and from there on answers that do not stand in the way. */
  predicate Adverse(k: nat, a: Answers, e: Instance, g: Setback)
    requires Verifies(e)
  {
    && !a.fault && ValidConvergence(a.convergence)
    && (k == 0 ==> a.convergence == ConvergenceResult(DefinitelyFailed, Some(g.observed)))
    && (IsScale(e) && k == 3 ==> a.ready && a.dryRun.Accepted?)
    && (IsScale(e) && k == 6 ==> a.reply == Landed(g.after))
    && (IsScale(e) && k == 8 ==>
          && a.convergence.status == Converged
          && ActionConverged(ScaleBack(e).action, g.observed, a.convergence.observed.value))
  }

  // ---------------------------------------------------------------- where the delivery stands

  /** The turn that records the outcome; the release follows. */
  function OutcomeTurnOf(e: Instance): nat
    requires Verifies(e)
  {
    if IsScale(e) then 9 else 2
  }

  function Ended(e: Instance): Intervention
    requires Verifies(e)
  {
    e.pc.intervention.(state := if IsScale(e) then RolledBack else Failed)
  }

  function StageAfter(e: Instance, g: Setback, k: nat): Stage
    requires Verifies(e)
  {
    var before, x, p := e.pc.stage.before, g.observed, RestoringPatch(e, g);
    if k == 0 then Verifying(before)
    else if k == 1 then ReportingFailed(before, x)
    else if !IsScale(e) then RecordingFailed
    else if k == 2 then Reinspecting(before, x)
    else if k == 3 then RevalidatingRestore(before, x)
    else if k == 4 then ReportingRestore(before, x, p)
    else if k == 5 then RenewingRestore(before, x, p)
    else if k == 6 then Restoring(before, x, p)
    else if k == 7 then ReportingRestored(before, x, p)
    else if k == 8 then VerifyingRestored(before, x, p)
    else RecordingRolledBack
  }

  function InstanceAfter(e: Instance, g: Setback, k: nat): Instance
    requires Verifies(e)
  {
    if k <= OutcomeTurnOf(e) then e.(pc := e.pc.(stage := StageAfter(e, g, k)))
    else if k == OutcomeTurnOf(e) + 1 then e.(pc := Releasing(e.pc.lease, Settled, Some(Ended(e))))
    else e.(pc := Exited(Some(e.pc.lease), Settled, Some(Ended(e)), false))
  }

  function FailureNotes(scale: bool): seq<string> {
    if scale
    then ["intervention_action_failed", "intervention_restoration_validated", "intervention_restoration_mutated",
          "intervention_restored"]
    else ["intervention_action_failed", "intervention_escalated"]
  }

  function FailureNotesBy(scale: bool, k: nat): (count: nat)
    ensures count <= |FailureNotes(scale)|
  {
    if k < 2 then 0 else if !scale then (if k < 3 then 1 else 2)
    else if k < 5 then 1 else if k < 8 then 2 else if k < 10 then 3 else 4
  }

  predicate RecordAfter(before: InvestigationRecord, e: Instance, k: nat, r: InvestigationRecord)
    requires Verifies(e)
  {
    if k <= OutcomeTurnOf(e) then r == before
    else
      && r.interventions == [Ended(e)] && r.incident.lifecycle == before.incident.lifecycle
      && r.incident.intervention == if IsScale(e) then RolledBackOutcome else FailedOutcome
  }

  predicate ViewAfter(b: Shared, n: nat, e: Instance, g: Setback, k: nat, v: View)
    requires b.history != [] && Verifies(e)
  {
    var at, q := ViewOf(b, e.request), e.request;
    var restored := IsScale(e) && 7 <= k;
    && v.ttl == at.ttl && RecordAfter(at.record, e, k, v.record)
    && v.register == Lookup(if restored then Installed(b.cluster, g.after) else b.cluster, q.target)
    && v.ledger == b.ledger + (if restored then [Write(n, Restoration, RestoringPatch(e, g), g.observed)] else [])
    && v.notes == at.notes + FailureNotes(IsScale(e))[..FailureNotesBy(IsScale(e), k)]
    && (if OutcomeTurnOf(e) + 2 <= k then v.lease == None
        else Holds(v.lease, e.pc.lease) && (k <= 5 ==> v.lease == at.lease))
  }

  /** After `k` turns. */
  predicate Underway(b: Shared, n: nat, e: Instance, g: Setback, k: nat, s: Shared) {
    && AwaitsConvergence(b, n, e) && (IsScale(e) ==> MayRestore(b, e, g))
    && SharedInvariant(s) && InstanceInvariant(s, n, InstanceAfter(e, g, k))
    && ViewAfter(b, n, e, g, k, ViewOf(s, e.request))
  }

  // ---------------------------------------------------------------- the turns

  /** The approved target is the requested one, and so is that of the scale back. */
  lemma ApprovedTarget(s: Shared, n: nat, e: Instance)
    requires SharedInvariant(s) && InstanceInvariant(s, n, e) && e.pc.Guarded? && e.pc.seen.proposal.Some?
    ensures e.pc.seen.proposal.value.action.target == e.request.target
    ensures !e.pc.stage.Claiming? ==> e.pc.intervention.state == Running
  {
    hide HistoryInvariant, DecidedSound, WriteSound, OutcomeCounts, ClusterSound, LeasesPast, StageInvariant;
    hide PolicyHonest, LeaseSound;
    assert Published(Current(s), e.request);
  }

  /** One more of the failure's audit events, or none. */
  lemma FailureNotesFollow(all: seq<string>, j: nat)
    requires j < |all|
    ensures all[..j + 1] == all[..j] + [all[j]]
  {
  }

  lemma ConvergenceTurn(b: Shared, n: nat, e: Instance, g: Setback, k: nat, s: Shared, a: Answers)
    requires Underway(b, n, e, g, k, s) && Adverse(k, a, e, g) && (k == 0 || (k == 8 && IsScale(e)))
    ensures StepLeads(s, InstanceAfter(e, g, k), n, a, s, InstanceAfter(e, g, k + 1))
    ensures Underway(b, n, e, g, k + 1, s)
  {
    hide SharedInvariant, InstanceInvariant, MayRestore, Execute, PlayOne, ActionConverged, ViewOf, RestoringPatch;
    var f := InstanceAfter(e, g, k);
    VerifiesFresh(s, n, f, a, StageAfter(e, g, k + 1));
  }

  lemma NoteTurn(b: Shared, n: nat, e: Instance, g: Setback, k: nat, s: Shared, a: Answers) returns (t: Shared)
    requires Underway(b, n, e, g, k, s) && Adverse(k, a, e, g) && (k == 1 || (IsScale(e) && (k == 4 || k == 7)))
    ensures StepLeads(s, InstanceAfter(e, g, k), n, a, t, InstanceAfter(e, g, k + 1))
    ensures Underway(b, n, e, g, k + 1, t)
  {
    hide SharedInvariant, InstanceInvariant, MayRestore, Execute, PlayOne, ActionConverged, RestoringPatch, Notes;
    t := ReportsFresh(s, n, InstanceAfter(e, g, k), a);
    FailureNotesFollow(FailureNotes(IsScale(e)), FailureNotesBy(IsScale(e), k));
  }

  lemma RejudgeTurn(b: Shared, n: nat, e: Instance, g: Setback, k: nat, s: Shared, a: Answers)
    requires Underway(b, n, e, g, k, s) && Adverse(k, a, e, g) && IsScale(e) && (k == 2 || k == 3)
    ensures StepLeads(s, InstanceAfter(e, g, k), n, a, s, InstanceAfter(e, g, k + 1))
    ensures Underway(b, n, e, g, k + 1, s)
  {
    hide SharedInvariant, InstanceInvariant, Lands, Execute, PlayOne, ActionConverged, Acceptable, Evaluate, Inspect;
    ApprovedTarget(b, n, e);
    var f := InstanceAfter(e, g, k);
    RegistersAlike(b.cluster, s.cluster, e.request.target, RestoringPatch(e, g), g.after);
    if k == 2 {
      InspectsFresh(s, n, f, a, g.observed);
    } else {
      PolicyVerdict(e.pc.seen, ScaleBack(e), a.ready, Some(g.observed), a.dryRun, s.clock);
      PassedHasPatch(e.pc.seen, ScaleBack(e), a.ready, Some(g.observed), a.dryRun, s.clock);
      DecisionsAreValid(e.pc.seen, ScaleBack(e), a.ready, Some(g.observed), a.dryRun, s.clock);
      RevalidatesFresh(s, n, f, a, g.observed, RestoringPatch(e, g));
    }
  }

  lemma WriteBackTurn(b: Shared, n: nat, e: Instance, g: Setback, k: nat, s: Shared, a: Answers) returns (t: Shared)
    requires Underway(b, n, e, g, k, s) && Adverse(k, a, e, g) && IsScale(e) && (k == 5 || k == 6)
    requires k == 5 ==> s.clock < Lookup(b.leases, LeaseKey(e.request.target)).value.expiresAt
    ensures StepLeads(s, InstanceAfter(e, g, k), n, a, t, InstanceAfter(e, g, k + 1))
    ensures Underway(b, n, e, g, k + 1, t)
  {
    hide SharedInvariant, InstanceInvariant, Execute, PlayOne, ActionConverged, Acceptable, Notes, Lands, Installed;
    hide Inspect, LeaseKey;
    ApprovedTarget(b, n, e);
    var f, q := InstanceAfter(e, g, k), e.request;
    if k == 5 {
      var doc;
      t, doc := RenewsHeld(s, n, f, a);
    } else {
      RestoringTarget(e, g);
      RegistersAlike(b.cluster, s.cluster, q.target, RestoringPatch(e, g), g.after);
      t := MutatesOnce(s, n, f, a, g.observed);
      InstalledAlike(b.cluster, s.cluster, RestoringPatch(e, g), g.after);
    }
  }

  /** The restoring patch targets the failed workload and asks for the replicas found before. */
  lemma RestoringTarget(e: Instance, g: Setback)
    requires Verifies(e)
    ensures RestoringPatch(e, g).target == e.pc.seen.proposal.value.action.target
    ensures RequestedReplicas(RestoringPatch(e, g)) == Some(e.pc.stage.before.replicas)
  {
    ShapeAcceptsBuiltPatches(ScaleBack(e).action, g.observed);
  }

  lemma EndTurn(b: Shared, n: nat, e: Instance, g: Setback, s: Shared, a: Answers) returns (t: Shared)
    requires Verifies(e) && Underway(b, n, e, g, OutcomeTurnOf(e), s) && Adverse(OutcomeTurnOf(e), a, e, g)
    ensures StepLeads(s, InstanceAfter(e, g, OutcomeTurnOf(e)), n, a, t, InstanceAfter(e, g, OutcomeTurnOf(e) + 1))
    ensures Underway(b, n, e, g, OutcomeTurnOf(e) + 1, t)
  {
    hide SharedInvariant, InstanceInvariant, Execute, PlayOne, ActionConverged, Notes, Lands, MayRestore, LeaseKey;
    hide RestoringPatch, FreshEvent;
    var k, f := OutcomeTurnOf(e), InstanceAfter(e, g, OutcomeTurnOf(e));
    ApprovedTarget(b, n, e);
    CaseFields(Current(b), Current(s));
    t := RecordsOutcome(s, n, f, a);
    NoteAdded(s, Current(s), e.request.incidentId, OutcomeOf(f.pc.stage).1);
    FailureNotesFollow(FailureNotes(IsScale(e)), FailureNotesBy(IsScale(e), k));
  }

  lemma GivesUpTurn(b: Shared, n: nat, e: Instance, g: Setback, s: Shared, a: Answers) returns (t: Shared)
    requires Verifies(e) && Underway(b, n, e, g, OutcomeTurnOf(e) + 1, s) && Adverse(OutcomeTurnOf(e) + 1, a, e, g)
    ensures StepLeads(s, InstanceAfter(e, g, OutcomeTurnOf(e) + 1), n, a, t,
                      InstanceAfter(e, g, OutcomeTurnOf(e) + 2))
    ensures Underway(b, n, e, g, OutcomeTurnOf(e) + 2, t)
  {
    hide SharedInvariant, InstanceInvariant, Execute, PlayOne, ActionConverged, Notes, Lands, MayRestore, LeaseKey;
    hide RestoringPatch;
    t := ReleasesHeld(s, n, InstanceAfter(e, g, OutcomeTurnOf(e) + 1), a);
  }

  lemma AnyTurn(b: Shared, n: nat, e: Instance, g: Setback, k: nat, s: Shared, a: Answers) returns (t: Shared)
    requires Underway(b, n, e, g, k, s) && Adverse(k, a, e, g) && k < OutcomeTurnOf(e) + 2
    requires IsScale(e) && k == 5 ==> s.clock < Lookup(b.leases, LeaseKey(e.request.target)).value.expiresAt
    ensures StepLeads(s, InstanceAfter(e, g, k), n, a, t, InstanceAfter(e, g, k + 1))
    ensures Underway(b, n, e, g, k + 1, t)
  {
    hide StepLeads, InstanceAfter, ViewAfter, SharedInvariant, InstanceInvariant, MayRestore, LeaseKey, Adverse;
    t := s;
    if k == OutcomeTurnOf(e) {
      t := EndTurn(b, n, e, g, s, a);
    } else if k == OutcomeTurnOf(e) + 1 {
      t := GivesUpTurn(b, n, e, g, s, a);
    } else if k == 0 || k == 8 {
      ConvergenceTurn(b, n, e, g, k, s, a);
    } else if k == 1 || k == 4 || k == 7 {
      t := NoteTurn(b, n, e, g, k, s, a);
    } else if k <= 3 {
      RejudgeTurn(b, n, e, g, k, s, a);
    } else {
      t := WriteBackTurn(b, n, e, g, k, s, a);
    }
  }

  // ---------------------------------------------------------------- whole runs

  /** In turn `k` others do no harm, the answer is as expected, and the restoring renewal finds the lease unexpired. */
  ghost predicate AdverseTurn(b: Shared, n: nat, e: Instance, g: Setback, turns: seq<Turn>, k: nat)
    requires AwaitsConvergence(b, n, e) && k < |turns|
  {
    var s, turn := Play(b, e, n, Moves(turns[..k])).0, turns[k];
    && AllHarmless(s, turn.others, e.request)
    && Adverse(k, turn.answers, e, g)
    && (IsScale(e) && k == 5 ==>
          After(s, turn.others).clock < Lookup(b.leases, LeaseKey(e.request.target)).value.expiresAt)
  }

  ghost predicate Adversity(b: Shared, n: nat, e: Instance, g: Setback, turns: seq<Turn>)
    requires AwaitsConvergence(b, n, e)
  {
    forall k | 0 <= k < |turns| :: AdverseTurn(b, n, e, g, turns, k)
  }

  lemma StandsStill(b: Shared, n: nat, e: Instance, g: Setback, k: nat, s: Shared, t: Shared)
    requires Underway(b, n, e, g, k, s) && SharedInvariant(t) && InstanceInvariant(t, n, InstanceAfter(e, g, k))
    requires ViewOf(t, e.request) == ViewOf(s, e.request)
    ensures Underway(b, n, e, g, k, t)
  {
    hide SharedInvariant, InstanceInvariant, MayRestore, ViewOf, ViewAfter, InstanceAfter;
  }

  lemma Unaltered(b: Shared, n: nat, e: Instance, g: Setback)
    requires AwaitsConvergence(b, n, e) && (IsScale(e) ==> MayRestore(b, e, g))
    ensures InstanceAfter(e, g, 0) == e && Underway(b, n, e, g, 0, b)
  {
    hide SharedInvariant, InstanceInvariant, MayRestore, Case, RestoringPatch;
  }

  lemma {:induction false} RunsOn(b: Shared, n: nat, e: Instance, g: Setback, turns: seq<Turn>, k: nat)
    requires AwaitsConvergence(b, n, e) && (IsScale(e) ==> MayRestore(b, e, g))
    requires Adversity(b, n, e, g, turns) && k <= |turns| <= OutcomeTurnOf(e) + 2
    ensures var (s, f) := Play(b, e, n, Moves(turns[..k]));
            f == InstanceAfter(e, g, k) && Underway(b, n, e, g, k, s)
  {
    hide Underway, AwaitsConvergence, MayRestore, Play, PlayOne, Adverse, AllHarmless, After, InstanceAfter;
    if k == 0 {
      assert turns[..0] == [];
      NoMoves(b, e, n);
      Unaltered(b, n, e, g);
    } else {
      RunsOn(b, n, e, g, turns, k - 1);
      MoreTurns(b, e, n, turns, k - 1);
      assert AdverseTurn(b, n, e, g, turns, k - 1);
      var (s, f) := Play(b, e, n, Moves(turns[..k - 1]));
      AfterOthers(b, n, e, g, k - 1, s, turns[k - 1].others);
      var t := AnyTurn(b, n, e, g, k - 1, After(s, turns[k - 1].others), turns[k - 1].answers);
    }
  }

  lemma AfterOthers(b: Shared, n: nat, e: Instance, g: Setback, k: nat, s: Shared, others: seq<Event>)
    requires Underway(b, n, e, g, k, s) && AllHarmless(s, others, e.request)
    ensures Underway(b, n, e, g, k, After(s, others))
  {
    hide SharedInvariant, InstanceInvariant, MayRestore, ViewOf, ViewAfter, AllHarmless, After;
    HarmlessInterlude(s, n, InstanceAfter(e, g, k), others);
    StandsStill(b, n, e, g, k, s, After(s, others));
  }

  /** Settled with a recorded outcome, the lease given up, and the failure's audit events in order. */
  predicate EndsWith(b: Shared, e: Instance, t: Shared, f: Instance, done: Intervention) {
    && b.history != [] && t.history != []
    && f.pc.Exited? && f.pc.claim == Settled && !f.pc.unreleased && f.pc.result == Some(done)
    && Current(t).interventions == [done] && Current(t).incident.lifecycle == Current(b).incident.lifecycle
    && LeaseKey(e.request.target) !in t.leases
    && Notes(Current(t).events) == Notes(Current(b).events) + FailureNotes(done.state == RolledBack)
  }

  /**
   * A scale that definitely failed and left a state that is still live is undone: whatever harmless things others do,
   * one second write asks for the replicas the first one had found, and the Intervention ends rolled back.
   */
  lemma FailedScaleIsRestored(b: Shared, n: nat, e: Instance, g: Setback, turns: seq<Turn>)
    requires AwaitsConvergence(b, n, e) && IsScale(e) && MayRestore(b, e, g)
    requires Adversity(b, n, e, g, turns) && |turns| == 11
    ensures var (t, f) := Play(b, e, n, Moves(turns));
            && EndsWith(b, e, t, f, e.pc.intervention.(state := RolledBack))
            && Current(t).incident.intervention == RolledBackOutcome
            && |b.ledger| == 1 && |t.ledger| == 2 && t.ledger[0] == b.ledger[0]
            && t.ledger[1].kind == Restoration && t.ledger[1].instance == n && t.ledger[1].onto == g.observed
            && t.ledger[1].patch.target == e.request.target
            && RequestedReplicas(t.ledger[1].patch) == Some(b.ledger[0].onto.replicas)
  {
    hide SharedInvariant, InstanceInvariant, MayRestore, Play, Moves, Adversity, LeaseKey, Notes;
    hide RequestedReplicas, RestoringPatch;
    assert turns[..11] == turns;
    RunsOn(b, n, e, g, turns, 11);
    FirstWrite(b, n, e);
    ApprovedTarget(b, n, e);
    RestoringTarget(e, g);
    assert FailureNotes(true)[..4] == FailureNotes(true);
  }

  lemma FirstWrite(b: Shared, n: nat, e: Instance)
    requires AwaitsConvergence(b, n, e)
    ensures |b.ledger| == 1 && b.ledger[0].onto == e.pc.stage.before
  {
    hide SharedInvariant, SeenSound, LeaseSound, ClaimedAs;
  }

  /** A rollback or restart that definitely failed writes nothing more and ends failed. */
  lemma FailedActionIsEscalated(b: Shared, n: nat, e: Instance, g: Setback, turns: seq<Turn>)
    requires AwaitsConvergence(b, n, e) && !IsScale(e)
    requires Adversity(b, n, e, g, turns) && |turns| == 4
    ensures var (t, f) := Play(b, e, n, Moves(turns));
            && EndsWith(b, e, t, f, e.pc.intervention.(state := Failed))
            && Current(t).incident.intervention == FailedOutcome
            && t.ledger == b.ledger && |b.ledger| == 1
            && Lookup(t.cluster, e.request.target) == Lookup(b.cluster, e.request.target)
  {
    hide SharedInvariant, InstanceInvariant, MayRestore, Play, Moves, Adversity, LeaseKey, Notes;
    hide RestoringPatch;
    assert turns[..4] == turns;
    RunsOn(b, n, e, g, turns, 4);
    FirstWrite(b, n, e);
    assert FailureNotes(false)[..2] == FailureNotes(false);
  }
}
