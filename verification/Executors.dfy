/** The Executor as a program over its store, leases and Kubernetes: every sequential run follows the protocol. */
module Executors {
  import opened Wrappers
  import opened Incidents
  import opened ApprovalBindings
  import opened RecordOperations
  import opened RecordInvariants
  import opened RecordRuns
  import opened IncidentStores
  import opened WorkloadLeases
  import opened ProposalPolicy
  import opened InterventionQueues
  import opened Protocol
  import opened ProtocolInvariants
  import opened ProtocolSafety
  import opened ExecutorRuns
  import opened KubernetesProviders
  import opened PolicyEngine
  import opened Hosts

  datatype ExecutionError = IncidentMissing | WorkloadHeld | Stopped

  const NO_ANSWERS := Answers(false, false, Refused, NotLanded, NO_CONVERGENCE)

  // ---------------------------------------------------------------- the answers of a run

  function Faults(moves: seq<Own>): nat {
    if moves == [] then 0
    else
      var last := moves[|moves| - 1];
      Faults(moves[..|moves| - 1]) + if last.Step? && last.answers.fault then 1 else 0
  }

  /** What the provider says in one step: a dry-run only if policy gets that far. */
  function SaidIn(s: Shared, e: Instance, a: Answers): seq<Said> {
    if a.fault || !e.pc.Guarded? || e.pc.seen.proposal.None? then []
    else match e.pc.stage
         case Revalidating(_) => DryRunIn(s, e, a)
         case RevalidatingRestore(_, _) => DryRunIn(s, e, a)
         case Mutating(_) => [ReplySaid(a.reply)]
         case Restoring(_, _, _) => [ReplySaid(a.reply)]
         case Verifying(_) => [ConvergenceSaid(a.convergence)]
         case VerifyingRestored(_, _, _) => [ConvergenceSaid(a.convergence)]
         case _ => []
  }

  /** Whether the provider is asked something other than to inspect. */
  predicate Asks(pc: Pc) {
    pc.Guarded?
    && match pc.stage
       case Revalidating(_) => true
       case RevalidatingRestore(_, _) => true
       case Mutating(_) => true
       case Restoring(_, _, _) => true
       case Verifying(_) => true
       case VerifyingRestored(_, _, _) => true
       case _ => false
  }

  function DryRunIn(s: Shared, e: Instance, a: Answers): seq<Said>
    requires e.pc.Guarded? && e.pc.seen.proposal.Some? && (e.pc.stage.Revalidating? || e.pc.stage.RevalidatingRestore?)
  {
    var target := e.pc.seen.proposal.value.action.target;
    var d := Evaluate(e.pc.seen, Judged(e.pc), a.ready, Inspect(s.cluster, target), a.dryRun, s.clock);
    if d.status == PolicyRejected then [] else [DryRunSaid(a.dryRun)]
  }

  /** Everything the provider says in a run, in order. */
  function SaidOver(s: Shared, e: Instance, n: nat, moves: seq<Own>): seq<Said> {
    if moves == [] then []
    else
      var (t, f) := Play(s, e, n, moves[..|moves| - 1]);
      SaidOver(s, e, n, moves[..|moves| - 1])
      + match moves[|moves| - 1] case Step(a) => SaidIn(t, f, a) case Meanwhile(_) => []
  }

  lemma OneMoreMove(s: Shared, e: Instance, n: nat, moves: seq<Own>, m: Own)
    ensures Faults(moves + [m]) == Faults(moves) + if m.Step? && m.answers.fault then 1 else 0
    ensures var (t, f) := Play(s, e, n, moves);
            SaidOver(s, e, n, moves + [m]) ==
            SaidOver(s, e, n, moves) + if m.Step? then SaidIn(t, f, m.answers) else []
  {
    hide Play, SaidIn;
    assert (moves + [m])[..|moves + [m]| - 1] == moves;
  }

  /** What a call answers that only returns or raises. */
  function Answering(raised: bool): Answers {
    NO_ANSWERS.(fault := raised)
  }

  class DeterministicInterventionExecutor {
    const store: InMemoryIncidentStore
    const leases: WorkloadLeaseStore
    const kubernetes: KubernetesProvider
    const policy: DeterministicProposalPolicy
    const host: Host
    const owner: string

    ghost var from: Shared
    ghost var entry: Instance
    ghost var number: nat
    ghost var shared: Shared
    ghost var instance: Instance
    ghost var moves: seq<Own>
    ghost var faultsBefore: nat
    ghost var saidBefore: seq<Said>

    constructor (store: InMemoryIncidentStore, leases: WorkloadLeaseStore, kubernetes: KubernetesProvider,
                 enrollment: EnrollmentProvider, host: Host, owner: string)
      ensures this.store == store && this.leases == leases && this.kubernetes == kubernetes
      ensures this.host == host && this.owner == owner && policy.kubernetes == kubernetes
    {
      this.store, this.leases, this.kubernetes, this.host, this.owner := store, leases, kubernetes, host, owner;
      this.policy := new DeterministicProposalPolicy(kubernetes, enrollment);
    }

    /** The objects hold exactly what the protocol's shared state says. */
    ghost predicate Tracks(s: Shared, id: Ident)
      reads store, leases, kubernetes, host
    {
      && policy.kubernetes == kubernetes
      && s.history != [] && id in store.records && store.records[id] == Current(s)
      && id == Current(s).incident.incidentId
      && leases.documents == s.leases && leases.ttl == s.ttl
      && kubernetes.cluster == s.cluster
      && host.now == s.clock && host.nextUuid == s.nextUuid
    }

    /** The moves made so far are moves of the protocol, and lead from the start to where the objects are. */
    ghost predicate OnCourse()
      reads this
    {
      && SharedInvariant(shared) && InstanceInvariant(shared, number, instance)
      && Play(from, entry, number, moves) == (shared, instance)
    }

    /** The moves carry the answers the calls gave: every fault is a call that raised, and nothing said is left out. */
    ghost predicate Truthful()
      reads this, host`faults, kubernetes`said
    {
      && host.faults == faultsBefore + Faults(moves)
      && kubernetes.said == saidBefore + SaidOver(from, entry, number, moves)
    }

    /** The calls since the last move gave exactly the answers `a`. */
    ghost predicate Gave(a: Answers)
      reads this, host`faults, kubernetes`said
    {
      && host.faults == faultsBefore + Faults(moves) + (if a.fault then 1 else 0)
      && kubernetes.said == saidBefore + SaidOver(from, entry, number, moves) + SaidIn(shared, instance, a)
    }

    ghost predicate Following(q: InterventionRequest)
      reads this, store, leases, kubernetes, host
    {
      OnCourse() && Truthful() && instance.request == q && Tracks(shared, q.incidentId)
    }

    /** One protocol step, taken by the operation just performed. */
    ghost method Took(a: Answers)
      requires OnCourse() && AnswersPossible(shared, instance, a) && Gave(a)
      modifies this`shared, this`instance, this`moves
      ensures OnCourse() && Truthful()
      ensures old(shared).history != [] && (old(instance).pc.Guarded? ==> old(instance).pc.seen.proposal.Some?)
      ensures (shared, instance) == Execute(old(shared), number, old(instance), a)
    {
      hide SharedInvariant, InstanceInvariant, Execute, Play, PlayOne, SaidOver, Faults, SaidIn;
      StepKeeps(shared, number, instance, a);
      OneMoreMove(from, entry, number, moves, Step(a));
      PlayMore(from, entry, number, moves, Step(a));
      moves := moves + [Step(a)];
      var (t, e) := Execute(shared, number, instance, a);
      shared, instance := t, e;
    }

    /** A step in which the provider has nothing to say. */
    ghost method Replied(raised: bool)
      requires OnCourse() && AnswersPossible(shared, instance, Answering(raised))
      requires raised || !Asks(instance.pc)
      requires host.faults == faultsBefore + Faults(moves) + if raised then 1 else 0
      requires kubernetes.said == saidBefore + SaidOver(from, entry, number, moves)
      modifies this`shared, this`instance, this`moves
      ensures OnCourse() && Truthful()
      ensures old(shared).history != [] && (old(instance).pc.Guarded? ==> old(instance).pc.seen.proposal.Some?)
      ensures (shared, instance) == Execute(old(shared), number, old(instance), Answering(raised))
    {
      hide OnCourse, SaidOver, Faults, DryRunIn, Execute;
      Took(Answering(raised));
    }

    ghost method Waited(d: nat)
      requires OnCourse() && Truthful()
      modifies this`shared, this`moves
      ensures OnCourse() && Truthful() && shared == old(shared).(clock := old(shared).clock + d)
    {
      hide SharedInvariant, InstanceInvariant, Execute, Play, SaidOver, Faults;
      OneMoreMove(from, entry, number, moves, Meanwhile(Pass(d)));
      AroundKeeps(shared, number, instance, Pass(d));
      PlayMore(from, entry, number, moves, Meanwhile(Pass(d)));
      moves := moves + [Meanwhile(Pass(d))];
      shared := shared.(clock := shared.clock + d);
    }

    method Now(q: InterventionRequest) returns (t: Time)
      requires Following(q)
      modifies host`now, this`shared, this`moves
      ensures Following(q) && t == host.now == shared.clock
      ensures shared == old(shared).(clock := shared.clock)
    {
      hide Faults, SaidOver, SaidIn, Gave;
      hide SharedInvariant, InstanceInvariant, Play, OnCourse;
      var now, elapsed := host.Clock();
      Waited(elapsed);
      t := now;
    }

    /** A store call that carries a fresh audit event; it may raise before it has any effect. */
    method Submit(q: InterventionRequest, name: string, op: AuditEvent -> StoreOp)
      returns (accepted: bool, raised: bool)
      requires Following(q)
      modifies store, host`nextUuid, host`faults
      ensures OnCourse() && instance.request == q
      ensures host.faults == old(host.faults) + if raised then 1 else 0
      ensures var o := CallWithEvent(shared, op(FreshEvent(shared, q.incidentId, name)));
              if raised then !accepted && Tracks(shared, q.incidentId)
              else Tracks(o.shared, q.incidentId) && accepted == o.accepted
    {
      hide Faults, SaidOver, SaidIn, Gave;
      hide SharedInvariant, InstanceInvariant, Play, Apply;
      accepted := false;
      raised := host.Raises();
      if raised {
        return;
      }
      var id := host.FreshId();
      var event := AuditEvent(id, q.incidentId, OtherEvent(name), "deterministic-executor", None, 0);
      var r := store.Perform(q.incidentId, op(event));
      accepted := r.Success?;
      if accepted {
        OperationKeepsIdentity(old(store.records)[q.incidentId], op(event));
      }
    }

    method AppendAudit(q: InterventionRequest, name: string) returns (accepted: bool, raised: bool)
      requires Following(q)
      modifies store, host`nextUuid, host`faults
      ensures OnCourse() && instance.request == q
      ensures host.faults == old(host.faults) + if raised then 1 else 0
      ensures var o := Log(shared, q, name);
              if raised then !accepted && Tracks(shared, q.incidentId)
              else Tracks(o.shared, q.incidentId) && accepted == o.accepted
    {
      hide Faults, SaidOver, SaidIn, Gave;
      hide OnCourse, Apply;
      accepted, raised := Submit(q, name, e => AppendEvent(e));
    }

    // -------------------------------------------------------------- authority and claim

    /** Claims the Intervention under the version just read, or reports that it is resumed. */
    method ClaimOrResume(q: InterventionRequest, i: Intervention, lease: WorkloadLease, seen: InvestigationRecord,
                         approval: Approval, resuming: bool) returns (accepted: bool)
      requires Following(q)
      requires instance.pc == Guarded(i, lease, seen, approval, if resuming then Resuming else Claiming)
      modifies store, host`nextUuid, host`faults, this`shared, this`instance, this`moves
      ensures Following(q)
      ensures instance.pc == if accepted then Guarded(i, lease, seen, approval, Inspecting)
                             else if resuming then Halting(i, lease) else Refusing(lease)
    {
      hide Faults, SaidOver, SaidIn, Gave;
      hide OnCourse, Apply, FailureStep;
      var raised;
      if resuming {
        accepted, raised := AppendAudit(q, "intervention_resumed");
      } else {
        accepted, raised := Submit(q, "intervention_claimed",
                                   e => RecordIntervention(seen.incident.version, i, e));
      }
      Replied(raised);
    }

    /** Re-checks the recorded authority, then claims the Intervention or resumes it. */
    method Authorise(q: InterventionRequest, i: Intervention, lease: WorkloadLease, resuming: bool, now: Time)
      returns (seen: InvestigationRecord, approval: Option<Approval>, claimed: bool)
      requires Following(q) && instance.pc == Rechecking(i, resuming, lease) && instance.now == now
      modifies store, host`nextUuid, host`faults, this`shared, this`instance, this`moves
      ensures Following(q)
      ensures if approval.Some? then claimed && instance.pc == Guarded(i, lease, seen, approval.value, Inspecting)
              else instance.pc == if claimed then Halting(i, lease) else Refusing(lease)
    {
      hide Faults, SaidOver, SaidIn, Gave;
      hide OnCourse, AuthorityHolds, Apply, GuardedStep;
      seen := store.records[q.incidentId];
      approval := FindApproval(seen.approvals, q.approvalId);
      claimed := resuming;
      var raised := host.Raises();
      Replied(raised);
      if raised || !AuthorityHolds(seen, q, approval, now) {
        approval := None;
        return;
      }
      ApprovalFound(seen, q, approval, now);
      var accepted := ClaimOrResume(q, i, lease, seen, approval.value, resuming);
      if accepted {
        claimed := true;
      } else {
        approval := None;
      }
    }

    // -------------------------------------------------------------- inspection and revalidation

    /** The approved version must still be live, and policy must rebuild the reviewed patch on it. */
    method Validate(q: InterventionRequest, i: Intervention, lease: WorkloadLease, seen: InvestigationRecord,
                    approval: Approval) returns (before: Option<DeploymentState>)
      requires Following(q) && instance.pc == Guarded(i, lease, seen, approval, Inspecting)
      requires seen.proposal.Some?
      modifies store, host, kubernetes`dryRunPatches, kubernetes`said, this`shared, this`instance, this`moves
      ensures Following(q)
      ensures instance.pc == if before.Some? then Guarded(i, lease, seen, approval, Renewing(before.value))
                             else Halting(i, lease)
    {
      hide Truthful, Gave, Faults, SaidOver, SaidIn;
      hide OnCourse, Apply, FailureStep, Evaluate, Inspect, CallWithEvent, AtApprovedVersion, Record;
      hide RenewLease, Log, GuardedStep;
      before := InspectApproved(q, approval);
      if before.None? {
        return None;
      }
      var passed := Revalidate(q, i, lease, seen, approval, before.value);
      if !passed {
        return None;
      }
      var logged := Report(q, "intervention_validated");
      if !logged {
        return None;
      }
      logged := Report(q, "intervention_dry_run_passed");
      if !logged {
        return None;
      }
    }

    method InspectApproved(q: InterventionRequest, approval: Approval) returns (before: Option<DeploymentState>)
      requires Following(q) && instance.pc.Guarded? && instance.pc.stage.Inspecting?
      requires instance.pc.approval == approval && instance.pc.seen.proposal.Some?
      modifies host`faults, this`shared, this`instance, this`moves
      ensures Following(q)
      ensures var pc := old(instance.pc);
              instance.pc == if before.Some? then pc.(stage := Revalidating(before.value))
                             else Halting(pc.intervention, pc.lease)
    {
      hide Faults, SaidOver, SaidIn, Gave;
      hide OnCourse, Apply, FailureStep, Evaluate, Inspect, CallWithEvent, AtApprovedVersion, Record;
      hide RenewLease, Log;
      before := kubernetes.InspectDeployment(q.target);
      var raised := host.Raises();
      Replied(raised);
      if raised || before.None? || !AtApprovedVersion(approval, before.value) {
        before := None;
      }
    }

    method Revalidate(q: InterventionRequest, i: Intervention, lease: WorkloadLease, seen: InvestigationRecord,
                      approval: Approval, before: DeploymentState) returns (passed: bool)
      requires Following(q) && instance.pc == Guarded(i, lease, seen, approval, Revalidating(before))
      requires seen.proposal.Some?
      modifies host`now, host`faults, kubernetes`dryRunPatches, kubernetes`said, this`shared, this`instance, this`moves
      ensures Following(q)
      ensures instance.pc == if passed then Guarded(i, lease, seen, approval, ReportingValidated(before))
                             else Halting(i, lease)
    {
      hide Truthful, Gave, Faults, SaidOver, SaidIn;
      hide OnCourse, Tracks;
      var now := Now(q);
      var d := Judge(q, seen, seen.proposal.value, now);
      passed := d.Some? && d.value.status == PolicyPassed && d.value.patch == Some(q.patch);
    }

    /** Policy's verdict on the reviewed proposal or on the scale back; None if the evaluation raises. */
    method Judge(q: InterventionRequest, seen: InvestigationRecord, proposal: RemediationProposal, now: Time)
      returns (d: Option<PolicyDecision>)
      requires Following(q) && instance.pc.Guarded? && instance.pc.seen.proposal.Some? && now == shared.clock
      requires instance.pc.stage.Revalidating? || instance.pc.stage.RevalidatingRestore?
      requires seen == instance.pc.seen && proposal == Judged(instance.pc)
      modifies host`faults, kubernetes`dryRunPatches, kubernetes`said, this`shared, this`instance, this`moves
      ensures Following(q) && instance.pc == AfterJudgement(old(instance.pc), q, d)
    {
      hide Faults, SaidOver, SaidIn, OnCourse, Execute, Evaluate, Inspect;
      var raised := host.Raises();
      RaisedStep(shared, number, instance);
      if raised {
        Replied(true);
        return None;
      }
      var decision, ready, dryRun := policy.EvaluateProposal(seen, proposal, now);
      d := Some(decision);
      ghost var a := Answers(false, ready, dryRun, NotLanded, NO_CONVERGENCE);
      JudgedStep(shared, number, instance, a);
      Took(a);
    }

    /** One of the audit events that accompany a guarded run. */
    method Report(q: InterventionRequest, name: string) returns (logged: bool)
      requires Following(q) && instance.pc.Guarded? && instance.pc.seen.proposal.Some?
      requires name == NoteOf(instance.pc.stage) != "" && !instance.pc.stage.Resuming?
      modifies store, host`nextUuid, host`faults, this`shared, this`instance, this`moves
      ensures Following(q)
      ensures var pc := old(instance.pc);
              instance.pc == if logged then pc.(stage := AfterNote(pc.stage, pc.seen.proposal.value.action))
                             else Halting(pc.intervention, pc.lease)
    {
      hide Faults, SaidOver, SaidIn, Gave;
      hide OnCourse, GuardedStep, Log, NoteOf, AfterNote;
      StepOfLog(shared, number, q, instance.pc);
      var raised;
      logged, raised := AppendAudit(q, name);
      Replied(raised);
    }

    // -------------------------------------------------------------- the write

    /** One patch request; an answer that never arrives is an exception like any other. */
    method Write(q: InterventionRequest, patch: DeploymentPatch) returns (reply: ApplyReply)
      requires Following(q) && instance.pc.Guarded? && WriteStage(instance.pc.stage)
      requires instance.pc.seen.proposal.Some?
      requires patch == WrittenPatch(q, instance.pc.stage)
      modifies kubernetes`cluster, kubernetes`said, this`shared, this`instance, this`moves
      ensures Following(q)
      ensures var pc := old(instance.pc);
              instance.pc == if reply.Landed? then pc.(stage := ReportingStage(pc.stage))
                             else Halting(pc.intervention, pc.lease)
    {
      hide Faults, SaidOver;
      hide OnCourse, Apply, Evaluate, CallWithEvent, AtApprovedVersion, Record, RenewLease, Log, ActionConverged;
      hide Lands, Inspect;
      reply := kubernetes.ApplyDeploymentPatch(patch);
      LandsOnSomething(old(kubernetes.cluster), patch, reply);
      Took(Answers(false, false, Refused, reply, NO_CONVERGENCE));
    }

    /** Renews the lease and applies the reviewed patch once. */
    method Mutate(q: InterventionRequest, i: Intervention, lease: WorkloadLease, seen: InvestigationRecord,
                  approval: Approval, before: DeploymentState)
      returns (held: WorkloadLease, applied: Option<DeploymentState>)
      requires Following(q) && instance.pc == Guarded(i, lease, seen, approval, Renewing(before))
      requires seen.proposal.Some?
      modifies store, leases, host, kubernetes`cluster, kubernetes`said, this`shared, this`instance, this`moves
      ensures Following(q)
      ensures instance.pc == if applied.Some? then Guarded(i, held, seen, approval, Verifying(before))
                             else Halting(i, held)
    {
      hide Truthful, Gave, Faults, SaidOver, SaidIn;
      hide OnCourse, GuardedStep, Lands, Tracks;
      applied := None;
      held := lease;
      var renewed := RenewFor(q, lease);
      if renewed.None? {
        return;
      }
      held := renewed.value;
      var reply := Write(q, q.patch);
      if !reply.Landed? {
        return;
      }
      var logged := Report(q, "intervention_mutated");
      if logged {
        applied := Some(reply.after);
      }
    }

    method RenewFor(q: InterventionRequest, lease: WorkloadLease) returns (renewed: Option<WorkloadLease>)
      requires Following(q) && instance.pc.Guarded? && instance.pc.lease == lease
      requires instance.pc.stage.Renewing? || instance.pc.stage.RenewingRestore?
      requires instance.pc.seen.proposal.Some?
      modifies leases, host`now, host`faults, this`shared, this`instance, this`moves
      ensures Following(q)
      ensures if renewed.None? then instance.pc == Halting(old(instance.pc.intervention), lease)
              else if old(instance.pc.stage).Renewing?
              then instance.pc == old(instance.pc).(lease := renewed.value,
                                                    stage := Mutating(old(instance.pc.stage).before))
              else instance.pc == old(instance.pc).(stage := Restoring(old(instance.pc.stage).before,
                                                                       old(instance.pc.stage).observed,
                                                                       old(instance.pc.stage).patch))
    {
      hide Faults, SaidOver, SaidIn, Gave, OnCourse, Execute;
      var now := Now(q);
      var raised := host.Raises();
      RaisedStep(shared, number, instance);
      RenewalStep(shared, number, instance);
      if raised {
        Replied(true);
        return None;
      }
      var r := leases.Renew(lease, now);
      Replied(false);
      renewed := if r.Success? then Some(r.value) else None;
    }

    // -------------------------------------------------------------- the outcome

    /** Records a terminal state of the Intervention this run holds. */
    method Complete(q: InterventionRequest, i: Intervention, state: InterventionState, name: string)
      returns (r: Result<Intervention, ExecutionError>)
      requires Following(q) && instance.pc.Guarded? && instance.pc.intervention == i
      requires OutcomeOf(instance.pc.stage) == (state, name) && state != Running
      modifies store, host`nextUuid, host`faults, this`shared, this`instance, this`moves
      ensures Following(q)
      ensures Ended(old(instance.pc), instance.pc, r)
    {
      hide Faults, SaidOver, SaidIn, Gave;
      hide OnCourse, Apply, Evaluate, Inspect, CallWithEvent, AtApprovedVersion, RenewLease, Log, ActionConverged;
      var done := i.(state := state);
      var accepted, raised := Submit(q, name, e => UpdateIntervention(done, e));
      Replied(raised);
      r := if accepted then Success(done) else Failure(Stopped);
    }

    /** Verifies convergence, then records success, failure or restoration; anything unclear is an exception. */
    method Conclude(q: InterventionRequest, i: Intervention, lease: WorkloadLease, seen: InvestigationRecord,
                    approval: Approval, before: DeploymentState, applied: DeploymentState)
      returns (r: Result<Intervention, ExecutionError>)
      requires Following(q) && instance.pc == Guarded(i, lease, seen, approval, Verifying(before))
      requires seen.proposal.Some?
      modifies store, leases, host, kubernetes, this`shared, this`instance, this`moves
      ensures Following(q) && Ended(old(instance.pc), instance.pc, r)
    {
      hide Truthful, Gave, Faults, SaidOver, SaidIn;
      hide OnCourse, GuardedStep, Tracks, ActionConverged;
      var convergence := Verify(q, applied, before);
      if convergence.None? || convergence.value.status == Ambiguous || convergence.value.observed.None? {
        return Failure(Stopped);
      }
      var observed := convergence.value.observed.value;
      if convergence.value.status == DefinitelyFailed {
        r := HandleActionFailure(q, i, lease, seen, approval, before, observed);
        return;
      }
      if !ActionConverged(seen.proposal.value.action, before, observed) {
        return Failure(Stopped);
      }
      r := Complete(q, i, Succeeded, "intervention_converged");
    }

    method Verify(q: InterventionRequest, applied: DeploymentState, before: DeploymentState)
      returns (convergence: Option<ConvergenceResult>)
      requires Following(q) && instance.pc.Guarded? && instance.pc.stage == Verifying(before)
      requires instance.pc.seen.proposal.Some?
      modifies kubernetes`said, this`shared, this`instance, this`moves
      ensures Following(q)
      ensures var pc := old(instance.pc);
              instance.pc ==
              if convergence.None? || convergence.value.status == Ambiguous || convergence.value.observed.None?
              then Halting(pc.intervention, pc.lease)
              else if convergence.value.status == DefinitelyFailed
              then pc.(stage := ReportingFailed(before, convergence.value.observed.value))
              else if ActionConverged(pc.seen.proposal.value.action, before, convergence.value.observed.value)
              then pc.(stage := RecordingSucceeded)
              else Halting(pc.intervention, pc.lease)
    {
      hide Faults, SaidOver;
      hide OnCourse, Apply, Evaluate, Inspect, CallWithEvent, AtApprovedVersion, RenewLease, Log, ActionConverged;
      hide Record, FailureStep;
      convergence := kubernetes.VerifyConvergence(q.patch, applied);
      Took(Answers(false, false, Refused, NotLanded,
                   if convergence.Some? then convergence.value else NO_CONVERGENCE));
    }

    /** A failed scale is undone; any other failed action is escalated, never retried. */
    method HandleActionFailure(q: InterventionRequest, i: Intervention, lease: WorkloadLease,
                               seen: InvestigationRecord, approval: Approval, before: DeploymentState,
                               observed: DeploymentState) returns (r: Result<Intervention, ExecutionError>)
      requires Following(q) && instance.pc == Guarded(i, lease, seen, approval, ReportingFailed(before, observed))
      requires seen.proposal.Some?
      modifies store, leases, host, kubernetes, this`shared, this`instance, this`moves
      ensures Following(q) && Ended(old(instance.pc), instance.pc, r)
    {
      hide Truthful, Gave, Faults, SaidOver, SaidIn;
      hide OnCourse, GuardedStep, Tracks;
      var logged := Report(q, "intervention_action_failed");
      if !logged {
        return Failure(Stopped);
      }
      if seen.proposal.value.action.ScaleDeployment? {
        r := RestoreFailedScale(q, i, lease, seen, approval, before, observed);
      } else {
        r := Complete(q, i, Failed, "intervention_escalated");
      }
    }

    // -------------------------------------------------------------- restoration

    /** The inverse scale, only while the Deployment is exactly the failed state just observed. */
    method RestoreFailedScale(q: InterventionRequest, i: Intervention, lease: WorkloadLease,
                              seen: InvestigationRecord, approval: Approval, before: DeploymentState,
                              observed: DeploymentState) returns (r: Result<Intervention, ExecutionError>)
      requires Following(q) && instance.pc == Guarded(i, lease, seen, approval, Reinspecting(before, observed))
      requires seen.proposal.Some?
      modifies store, leases, host, kubernetes, this`shared, this`instance, this`moves
      ensures Following(q) && Ended(old(instance.pc), instance.pc, r)
    {
      hide Truthful, Gave, Faults, SaidOver, SaidIn;
      hide OnCourse, GuardedStep, Tracks, Evaluate, ActionConverged, Lands;
      r := Failure(Stopped);
      var patch := ReviewRestoration(q, i, lease, seen, approval, before, observed);
      if patch.None? {
        return;
      }
      var logged := Report(q, "intervention_restoration_validated");
      if !logged {
        return;
      }
      var renewed := RenewFor(q, lease);
      if renewed.None? {
        return;
      }
      var reply := Write(q, patch.value);
      if !reply.Landed? {
        return;
      }
      logged := Report(q, "intervention_restoration_mutated");
      if !logged {
        return;
      }
      var restored := VerifyRestored(q, patch.value, reply.after, seen.proposal.value.action.target, before,
                                     observed);
      if restored {
        r := Complete(q, i, RolledBack, "intervention_restored");
      }
    }

    /** Whether the Deployment is still exactly the failed state. */
    method Reinspect(q: InterventionRequest, before: DeploymentState, observed: DeploymentState)
      returns (unmoved: bool)
      requires Following(q) && instance.pc.Guarded? && instance.pc.stage == Reinspecting(before, observed)
      requires instance.pc.seen.proposal.Some?
      modifies host`faults, this`shared, this`instance, this`moves
      ensures Following(q)
      ensures var pc := old(instance.pc);
              instance.pc == if unmoved then pc.(stage := RevalidatingRestore(before, observed))
                             else Halting(pc.intervention, pc.lease)
    {
      hide Faults, SaidOver, SaidIn, Gave;
      hide OnCourse, Apply, Evaluate, Inspect, CallWithEvent, AtApprovedVersion, RenewLease, Log, ActionConverged;
      hide Record, ForwardStep;
      var current := kubernetes.InspectDeployment(q.target);
      var raised := host.Raises();
      Replied(raised);
      unmoved := !raised && current == Some(observed);
    }

    method ReviewRestoration(q: InterventionRequest, i: Intervention, lease: WorkloadLease,
                             seen: InvestigationRecord, approval: Approval, before: DeploymentState,
                             observed: DeploymentState) returns (patch: Option<DeploymentPatch>)
      requires Following(q) && instance.pc == Guarded(i, lease, seen, approval, Reinspecting(before, observed))
      requires seen.proposal.Some?
      modifies host`now, host`faults, kubernetes`dryRunPatches, kubernetes`said, this`shared, this`instance, this`moves
      ensures Following(q)
      ensures instance.pc == if patch.Some? then Guarded(i, lease, seen, approval,
                                                         ReportingRestore(before, observed, patch.value))
                             else Halting(i, lease)
    {
      hide Truthful, Gave, Faults, SaidOver, SaidIn;
      hide OnCourse, Tracks, GuardedStep;
      var unmoved := Reinspect(q, before, observed);
      if !unmoved {
        return None;
      }
      var now := Now(q);
      patch := EvaluateRestoration(q, i, seen, before, observed, now);
    }

    method EvaluateRestoration(q: InterventionRequest, i: Intervention, seen: InvestigationRecord,
                               before: DeploymentState, observed: DeploymentState, now: Time)
      returns (patch: Option<DeploymentPatch>)
      requires Following(q) && instance.pc.Guarded? && instance.pc.stage == RevalidatingRestore(before, observed)
      requires instance.pc.seen == seen && instance.pc.intervention == i && seen.proposal.Some? && now == shared.clock
      modifies host`faults, kubernetes`dryRunPatches, kubernetes`said, this`shared, this`instance, this`moves
      ensures Following(q)
      ensures var pc := old(instance.pc);
              instance.pc == if patch.Some? then pc.(stage := ReportingRestore(before, observed, patch.value))
                             else Halting(pc.intervention, pc.lease)
    {
      hide Truthful, Gave, Faults, SaidOver, SaidIn;
      hide OnCourse, Tracks;
      var d := Judge(q, seen, RestorationProposal(seen.proposal.value, i, before.replicas), now);
      patch := if d.Some? && d.value.status == PolicyPassed then d.value.patch else None;
    }

    method VerifyRestored(q: InterventionRequest, patch: DeploymentPatch, restored: DeploymentState,
                          target: WorkloadReference, before: DeploymentState, observed: DeploymentState)
      returns (converged: bool)
      requires Following(q) && instance.pc.Guarded? && instance.pc.seen.proposal.Some?
      requires target == instance.pc.seen.proposal.value.action.target
      requires instance.pc.stage == VerifyingRestored(before, observed, patch)
      modifies kubernetes`said, this`shared, this`instance, this`moves
      ensures Following(q)
      ensures var pc := old(instance.pc);
              instance.pc == if converged then pc.(stage := RecordingRolledBack)
                             else Halting(pc.intervention, pc.lease)
    {
      hide Faults, SaidOver;
      hide OnCourse, Apply, Evaluate, Inspect, CallWithEvent, AtApprovedVersion, RenewLease, Log, ActionConverged;
      hide Record, ForwardStep;
      var answer := kubernetes.VerifyConvergence(patch, restored);
      var convergence := if answer.Some? then answer.value else NO_CONVERGENCE;
      Took(Answers(false, false, Refused, NotLanded, convergence));
      converged := convergence.status == Converged && convergence.observed.Some?
                   && ActionConverged(ScaleDeployment(target, before.replicas), observed, convergence.observed.value);
    }

    // -------------------------------------------------------------- exceptions and the lease

    /** The halt's own read: whether the Intervention is still running. */
    method StillRunning(q: InterventionRequest, i: Intervention, lease: WorkloadLease)
      returns (running: bool, raised: bool)
      requires Following(q) && instance.pc == Halting(i, lease)
      modifies host`faults, this`shared, this`instance, this`moves
      ensures Following(q)
      ensures instance.pc == if raised then Releasing(lease, Unhalted, None)
                             else if running then RecordingHalt(i, lease) else Releasing(lease, Settled, None)
      ensures shared == old(shared)
    {
      hide Faults, SaidOver, SaidIn, Gave;
      hide Acquired, Releasable, FindByKey, FindApproval, Log, RenewLease;
      hide OnCourse, Apply, GuardedStep, AuthorityHolds, CallWithEvent;
      var stored := FindIntervention(store.records[q.incidentId].interventions, i.interventionId);
      raised := host.Raises();
      running := stored.Some? && stored.value.state == Running;
      Replied(raised);
    }

    /** After the claim an exception halts the Intervention, unless it is finished already or the halt raises too. */
    method RecordSafeHalt(q: InterventionRequest, i: Intervention, lease: WorkloadLease) returns (raised: bool)
      requires Following(q) && instance.pc == Halting(i, lease)
      modifies store, host`nextUuid, host`faults, this`shared, this`instance, this`moves
      ensures Following(q) && instance.pc == Releasing(lease, if raised then Unhalted else Settled, None)
    {
      hide Faults, SaidOver, SaidIn, Gave;
      hide Acquired, Releasable, FindByKey, FindApproval, Log, RenewLease;
      hide OnCourse, Apply, GuardedStep, AuthorityHolds, CallWithEvent;
      var running;
      running, raised := StillRunning(q, i, lease);
      if raised || !running {
        return;
      }
      var accepted;
      accepted, raised := Submit(q, "intervention_safe_halted", e => UpdateIntervention(i.(state := SafeHalted), e));
      Replied(raised);
    }

    method RecordRefusal(q: InterventionRequest, lease: WorkloadLease)
      requires Following(q) && instance.pc == Refusing(lease)
      modifies store, host`nextUuid, host`faults, this`shared, this`instance, this`moves
      ensures Following(q) && instance.pc == Releasing(lease, Unclaimed, None)
    {
      hide Faults, SaidOver, SaidIn, Gave;
      hide OnCourse, Apply, GuardedStep, AuthorityHolds, CallWithEvent, Log;
      var logged, raised := AppendAudit(q, "intervention_refused");
      Replied(raised);
    }

    /** Gives the lease up; a lease that belongs to someone else by now is only reported. */
    method Release(q: InterventionRequest, lease: WorkloadLease, r: Result<Intervention, ExecutionError>)
      returns (result: Result<Intervention, ExecutionError>)
      requires Following(q) && instance.pc.Releasing? && instance.pc.lease == lease
      requires instance.pc.result == if r.Success? then Some(r.value) else None
      modifies store, leases, host`nextUuid, host`faults, this`shared, this`instance, this`moves
      ensures Following(q)
      ensures instance.pc.Exited? && instance.pc.held == Some(lease) && instance.pc.claim == old(instance.pc.claim)
      ensures instance.pc.result == if result.Success? then Some(result.value) else None
    {
      hide Faults, SaidOver, SaidIn, Gave;
      hide OnCourse, GuardedStep, AuthorityHolds, CallWithEvent, Log;
      result := r;
      var released, raised := ReleaseLease(q, lease);
      if raised {
        return Failure(Stopped);
      }
      if !released {
        var logged;
        logged, raised := AppendAudit(q, "intervention_lease_release_skipped");
        Replied(raised);
        if !logged {
          result := Failure(Stopped);
        }
      }
    }

    method ReleaseLease(q: InterventionRequest, lease: WorkloadLease) returns (released: bool, raised: bool)
      requires Following(q) && instance.pc.Releasing? && instance.pc.lease == lease
      modifies leases, host`faults, this`shared, this`instance, this`moves
      ensures Following(q)
      ensures var pc := old(instance.pc);
              instance.pc == if raised then Exited(Some(lease), pc.claim, None, true)
                             else if released then Exited(Some(lease), pc.claim, pc.result, false)
                             else ReportingSkipped(lease, pc.claim, pc.result)
    {
      hide Faults, SaidOver, SaidIn, Gave;
      hide OnCourse, GuardedStep, AuthorityHolds, CallWithEvent, Log;
      released := false;
      raised := host.Raises();
      if raised {
        Replied(true);
        return;
      }
      var r := leases.Release(lease);
      Replied(false);
      released := r.Success?;
    }

    // -------------------------------------------------------------- one delivery

    /** Everything done under the lease. */
    method Attempt(q: InterventionRequest, i: Intervention, lease: WorkloadLease, resuming: bool, now: Time)
      returns (r: Result<Intervention, ExecutionError>, held: WorkloadLease)
      requires Following(q) && instance.pc == Rechecking(i, resuming, lease) && instance.now == now
      modifies store, leases, host, kubernetes, this`shared, this`instance, this`moves
      ensures Following(q) && instance.pc.Releasing? && instance.pc.lease == held
      ensures instance.pc.result == if r.Success? then Some(r.value) else None
    {
      hide Truthful, Gave, Faults, SaidOver, SaidIn;
      hide OnCourse, Execute, Tracks;
      held := lease;
      r := Failure(Stopped);
      var seen, approval, claimed := Authorise(q, i, lease, resuming, now);
      if approval.None? {
        if claimed {
          var raised := RecordSafeHalt(q, i, lease);
        } else {
          RecordRefusal(q, lease);
        }
        return;
      }
      r, held := Intervene(q, i, lease, seen, approval.value);
    }

    /** Everything done after the claim. */
    method Intervene(q: InterventionRequest, i: Intervention, lease: WorkloadLease, seen: InvestigationRecord,
                   approval: Approval) returns (r: Result<Intervention, ExecutionError>, held: WorkloadLease)
      requires Following(q) && instance.pc == Guarded(i, lease, seen, approval, Inspecting)
      modifies store, leases, host, kubernetes, this`shared, this`instance, this`moves
      ensures Following(q) && instance.pc.Releasing? && instance.pc.lease == held
      ensures instance.pc.result == if r.Success? then Some(r.value) else None
    {
      hide Truthful, Gave, Faults, SaidOver, SaidIn;
      hide Execute, Tracks, Play;
      GuardedHasProposal(shared, number, instance);
      hide OnCourse;
      held := lease;
      r := Failure(Stopped);
      var before := Validate(q, i, lease, seen, approval);
      if before.Some? {
        var applied;
        held, applied := Mutate(q, i, lease, seen, approval, before.value);
        if applied.Some? {
          r := Conclude(q, i, held, seen, approval, before.value, applied.value);
        }
      }
      if r.Failure? {
        var raised := RecordSafeHalt(q, i, held);
      }
    }

    /** Starts following the protocol: a delivery of a published request that has not written anything. */
    ghost method Begin(q: InterventionRequest, s: Shared, n: nat)
      requires Tracks(s, q.incidentId) && SharedInvariant(s) && q in s.queue && Silent(s.ledger, n)
      modifies this
      ensures Following(q) && from == shared == s && number == n && moves == []
      ensures faultsBefore == host.faults && saidBefore == kubernetes.said
      ensures entry == instance == Instance(q, owner, s.clock, Starting)
    {
      hide SharedInvariant;
      from, shared, number, moves := s, s, n, [];
      faultsBefore, saidBefore := host.faults, kubernetes.said;
      entry := Instance(q, owner, s.clock, Starting);
      instance := entry;
    }

    /** Looks the key up: a running Intervention is resumed, a finished one is a duplicate. */
    method Receive(q: InterventionRequest)
      returns (i: Intervention, duplicate: bool, resuming: bool, now: Time, raised: bool)
      requires Following(q) && instance.pc == Starting
      modifies host`now, host`faults, this`shared, this`instance, this`moves
      ensures Following(q) && instance.owner == old(instance.owner)
      ensures if raised then instance.pc == Exited(None, Unclaimed, None, false)
              else if duplicate then instance.pc == RejectingDuplicate(i)
              else instance.pc == Receiving(i, resuming) && instance.now == now
    {
      hide Acquired, Releasable, FindApproval, FindIntervention;
      hide Faults, SaidOver, SaidIn, Gave;
      hide OnCourse, Apply, GuardedStep, AuthorityHolds, CallWithEvent, Log;
      now := Now(q);
      raised := host.Raises();
      var found := FindByKey(store.records[q.incidentId].interventions, q.key);
      resuming := found.Some? && found.value.state == Running;
      duplicate := found.Some? && !resuming;
      i := if found.Some? then found.value else NewIntervention(q);
      Replied(raised);
    }

    method RejectDuplicate(q: InterventionRequest, found: Intervention)
      returns (r: Result<Intervention, ExecutionError>)
      requires Following(q) && instance.pc == RejectingDuplicate(found)
      modifies store, host`nextUuid, host`faults, this`shared, this`instance, this`moves
      ensures Following(q)
      ensures instance.pc == Exited(None, Unclaimed, if r.Success? then Some(r.value) else None, false)
    {
      hide Faults, SaidOver, SaidIn, Gave;
      hide OnCourse, Apply, GuardedStep, AuthorityHolds, CallWithEvent, Log;
      var logged, raised := AppendAudit(q, "intervention_duplicate_rejected");
      Replied(raised);
      r := if logged then Success(found) else Failure(Stopped);
    }

    /** The audit event of a delivery that goes on. */
    method Announce(q: InterventionRequest, i: Intervention, resuming: bool, now: Time) returns (logged: bool)
      requires Following(q) && instance.pc == Receiving(i, resuming) && instance.now == now && instance.owner == owner
      modifies store, host`nextUuid, host`faults, this`shared, this`instance, this`moves
      ensures Following(q)
      ensures if logged
              then instance.pc == Acquiring(i, resuming) && instance.now == now && instance.owner == owner
              else instance.pc == Exited(None, Unclaimed, None, false)
    {
      hide Faults, SaidOver, SaidIn, Gave;
      hide OnCourse, Apply, GuardedStep, AuthorityHolds, CallWithEvent, Log;
      var raised;
      logged, raised := AppendAudit(q, "intervention_received");
      Replied(raised);
    }

    method ReportBusy(q: InterventionRequest)
      requires Following(q) && instance.pc == ReportingBusy
      modifies store, host`nextUuid, host`faults, this`shared, this`instance, this`moves
      ensures Following(q) && instance.pc == Exited(None, Unclaimed, None, false)
    {
      hide Faults, SaidOver, SaidIn, Gave;
      hide OnCourse, Apply, GuardedStep, AuthorityHolds, CallWithEvent, Log;
      var logged, raised := AppendAudit(q, "intervention_refused");
      Replied(raised);
    }

    /** Takes the workload's lease, or reports that someone else holds it. */
    method Acquire(q: InterventionRequest, i: Intervention, resuming: bool, now: Time)
      returns (lease: Option<WorkloadLease>)
      requires Following(q) && instance.pc == Receiving(i, resuming) && instance.now == now && instance.owner == owner
      modifies store, leases, host`nextUuid, host`faults, this`shared, this`instance, this`moves
      ensures Following(q)
      ensures if lease.Some? then instance.pc == Rechecking(i, resuming, lease.value) && instance.now == now
              else instance.pc == Exited(None, Unclaimed, None, false)
    {
      hide Truthful, Gave, Faults, SaidOver, SaidIn;
      hide OnCourse, Tracks;
      var logged := Announce(q, i, resuming, now);
      if !logged {
        return None;
      }
      var raised;
      lease, raised := AcquireFor(q, i, resuming, now);
      if lease.None? && !raised {
        ReportBusy(q);
      }
    }

    method AcquireFor(q: InterventionRequest, i: Intervention, resuming: bool, now: Time)
      returns (lease: Option<WorkloadLease>, raised: bool)
      requires Following(q) && instance.pc == Acquiring(i, resuming) && instance.now == now && instance.owner == owner
      modifies leases, host`nextUuid, host`faults, this`shared, this`instance, this`moves
      ensures Following(q)
      ensures if raised then lease.None? && instance.pc == Exited(None, Unclaimed, None, false)
              else if lease.Some? then instance.pc == Rechecking(i, resuming, lease.value) && instance.now == now
              else instance.pc == ReportingBusy
    {
      hide FindByKey, FindApproval, Releasable, FindIntervention;
      hide Faults, SaidOver, SaidIn, Gave;
      hide OnCourse, Apply, GuardedStep, AuthorityHolds, CallWithEvent, Log;
      raised := host.Raises();
      if raised {
        Replied(true);
        lease := None;
        return;
      }
      var token := host.FreshId();
      lease := leases.Acquire(q.target, i.interventionId, owner, now, token);
      Replied(false);
    }

    /** One delivery, from the message to the exit. Every run of it is a run of the protocol. */
    method Consume(q: InterventionRequest, ghost s: Shared, ghost n: nat)
      returns (r: Result<Intervention, ExecutionError>)
      requires q.incidentId in store.records ==>
                 Tracks(s, q.incidentId) && SharedInvariant(s) && q in s.queue && Silent(s.ledger, n)
      modifies store, leases, host, kubernetes, this
      ensures q.incidentId !in old(store.records) ==>
                && r == Failure(IncidentMissing) && store.records == old(store.records)
                && leases.documents == old(leases.documents) && kubernetes.cluster == old(kubernetes.cluster)
      ensures q.incidentId in old(store.records) ==>
                && Following(q) && instance.pc.Exited?
                && from == s && number == n && entry == Instance(q, owner, s.clock, Starting)
                && instance.pc.result == (if r.Success? then Some(r.value) else None)
                && host.faults == old(host.faults) + Faults(moves)
                && kubernetes.said == old(kubernetes.said) + SaidOver(from, entry, number, moves)
                && StoppedSafely(shared, instance.pc)
    {
      hide Faults, SaidOver, SaidIn, Gave;
      hide SharedInvariant, Execute, Tracks, Silent, Play, InstanceInvariant, StoppedSafely;
      if q.incidentId !in store.records {
        return Failure(IncidentMissing);
      }
      Begin(q, s, n);
      var i, duplicate, resuming, now, raised := Receive(q);
      if raised {
        ExitIsSafe(shared, number, instance);
        return Failure(Stopped);
      }
      if duplicate {
        r := RejectDuplicate(q, i);
        ExitIsSafe(shared, number, instance);
        return;
      }
      var lease := Acquire(q, i, resuming, now);
      if lease.None? {
        ExitIsSafe(shared, number, instance);
        return Failure(WorkloadHeld);
      }
      var held;
      r, held := Attempt(q, i, lease.value, resuming, now);
      r := Release(q, held, r);
      ExitIsSafe(shared, number, instance);
    }
  }

  lemma ExitIsSafe(s: Shared, n: nat, e: Instance)
    requires s.history != [] && InstanceInvariant(s, n, e)
    ensures StoppedSafely(s, e.pc)
  {
    hide LeaseGone, LeaseSound, ClaimedAs, SeenSound, StageInvariant;
  }

  lemma GuardedHasProposal(s: Shared, n: nat, e: Instance)
    requires s.history != [] && InstanceInvariant(s, n, e) && e.pc.Guarded?
    ensures e.pc.seen.proposal.Some?
  {
    hide StageInvariant, LeaseSound, ClaimedAs;
  }

  /** A guarded part ended: with its result, or with an exception after the claim. */
  ghost predicate Ended(before: Pc, after: Pc, r: Result<Intervention, ExecutionError>)
    requires before.Guarded?
  {
    after == if r.Success? then Releasing(before.lease, Settled, Some(r.value))
             else Halting(before.intervention, before.lease)
  }

  /** Where the verdict of policy leads. */
  function AfterJudgement(pc: Pc, q: InterventionRequest, d: Option<PolicyDecision>): Pc
    requires pc.Guarded? && (pc.stage.Revalidating? || pc.stage.RevalidatingRestore?)
  {
    if d.None? || d.value.status != PolicyPassed || d.value.patch.None?
       || (pc.stage.Revalidating? && d.value.patch != Some(q.patch))
    then Halting(pc.intervention, pc.lease)
    else if pc.stage.Revalidating? then pc.(stage := ReportingValidated(pc.stage.before))
    else pc.(stage := ReportingRestore(pc.stage.before, pc.stage.observed, d.value.patch.value))
  }

  lemma JudgedStep(s: Shared, n: nat, e: Instance, a: Answers)
    requires s.history != [] && e.pc.Guarded? && e.pc.seen.proposal.Some? && !a.fault
    requires e.pc.stage.Revalidating? || e.pc.stage.RevalidatingRestore?
    ensures var target := e.pc.seen.proposal.value.action.target;
            var d := Evaluate(e.pc.seen, Judged(e.pc), a.ready, Inspect(s.cluster, target), a.dryRun, s.clock);
            && Execute(s, n, e, a) == (s, e.(pc := AfterJudgement(e.pc, e.request, Some(d))))
            && SaidIn(s, e, a) == if d.status != PolicyRejected then [DryRunSaid(a.dryRun)] else []
  {
    hide Evaluate, Inspect, Log, CallWithEvent, RenewLease, SendPatch, Record;
  }

  lemma RenewalStep(s: Shared, n: nat, e: Instance)
    requires s.history != [] && e.pc.Guarded? && e.pc.seen.proposal.Some?
    requires e.pc.stage.Renewing? || e.pc.stage.RenewingRestore?
    ensures var renewed := RenewLease(s, e.pc.lease);
            Execute(s, n, e, NO_ANSWERS) ==
            if renewed.Failure? then (s, e.(pc := Halting(e.pc.intervention, e.pc.lease)))
            else (renewed.value.0,
                  e.(pc := if e.pc.stage.Renewing?
                           then e.pc.(lease := renewed.value.1, stage := Mutating(e.pc.stage.before))
                           else e.pc.(stage := Restoring(e.pc.stage.before, e.pc.stage.observed, e.pc.stage.patch))))
  {
    hide Evaluate, Inspect, Log, CallWithEvent, SendPatch, Record, RenewLease;
  }

  lemma RaisedStep(s: Shared, n: nat, e: Instance)
    requires s.history != [] && (e.pc.Guarded? ==> e.pc.seen.proposal.Some?)
    ensures Execute(s, n, e, Answering(true)) == (s, e.(pc := Faulted(e.pc)))
  {
  }

  lemma StepOfLog(s: Shared, n: nat, q: InterventionRequest, pc: Pc)
    requires s.history != [] && pc.Guarded? && pc.seen.proposal.Some?
    requires NoteOf(pc.stage) != ""
    ensures GuardedStep(s, n, q, pc, NO_ANSWERS) ==
            Proceed(Log(s, q, NoteOf(pc.stage)), pc.lease, AfterNote(pc.stage, pc.seen.proposal.value.action))
    ensures !pc.stage.Claiming? && !Asks(pc)
  {
    hide Log, CallWithEvent, Evaluate, Inspect;
  }

  lemma ApprovalFound(r: InvestigationRecord, q: InterventionRequest, approval: Option<Approval>, now: Time)
    requires AuthorityHolds(r, q, approval, now)
    ensures approval.Some?
  {
  }

  lemma LandsOnSomething(c: Cluster, patch: DeploymentPatch, reply: ApplyReply)
    ensures !reply.NotLanded? && Lands(c, patch, reply.after) ==> Inspect(c, patch.target).Some?
  {
  }
}
