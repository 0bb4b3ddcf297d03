/** Deterministic policy: ordered checks, the exact patch, its shape, and one server-side dry-run. */
module ProposalPolicy {
  import opened Wrappers
  import opened Incidents

  const RESTART_TOKEN := "kubecouncil.io/restart-token"

  function EvidenceHash(evidence: seq<EvidenceObservation>): multiset<string> {
    if evidence == [] then multiset{}
    else EvidenceHash(evidence[..|evidence| - 1]) + multiset{evidence[|evidence| - 1].contentHash}
  }

  function FindRevision(revisions: seq<DeploymentRevision>, n: nat): (r: Option<DeploymentRevision>)
    ensures r.Some? ==> r.value in revisions && r.value.revision == n
    ensures r.None? <==> forall x <- revisions :: x.revision != n
  {
    if revisions == [] then None
    else if revisions[0].revision == n then Some(revisions[0])
    else
      assert revisions == [revisions[0]] + revisions[1..];
      FindRevision(revisions[1..], n)
  }

  // ---------------------------------------------------------------- the patch and its shape

  function BuildSpec(action: RemediationAction, state: DeploymentState): Option<map<string, Json>> {
    match action
    case RollbackDeployment(_, revision) =>
      var found := FindRevision(state.availableRevisions, revision);
      if found.None? then None else Some(map["template" := Object(found.value.podTemplate)])
    case ScaleDeployment(_, replicas) => Some(map["replicas" := Number(replicas)])
    case RestartDeployment(_, token) =>
      Some(map["template" := Object(map["metadata" := Object(map["annotations" := Object(map[
        RESTART_TOKEN := Text(token)])])])])
  }

  /** Undefined only for a rollback to a revision that is not in the Deployment's history. */
  function BuildPatch(action: RemediationAction, state: DeploymentState): Option<DeploymentPatch> {
    var spec := BuildSpec(action, state);
    if spec.None? then None
    else
      var metadata := map["name" := Text(action.target.name), "namespace" := Text(action.target.namespace),
                          "resourceVersion" := Text(state.resourceVersion)];
      Some(DeploymentPatch(action.ActionType(), action.target, state.resourceVersion,
                           map["apiVersion" := Text("apps/v1"), "kind" := Text("Deployment"),
                               "metadata" := Object(metadata), "spec" := Object(spec.value)]))
  }

  /** The one member of an object that has exactly that member, and holds an object there. */
  function OnlyObject(fields: map<string, Json>, name: string): Option<map<string, Json>> {
    if fields.Keys == {name} && fields[name].Object? then Some(fields[name].fields) else None
  }

  function PatchShapeIsExact(p: DeploymentPatch): bool {
    if p.body.Keys != {"apiVersion", "kind", "metadata", "spec"} then false
    else if !p.body["metadata"].Object? || !p.body["spec"].Object? then false
    else if p.body["metadata"].fields.Keys != {"name", "namespace", "resourceVersion"} then false
    else
      var spec := p.body["spec"].fields;
      if p.actionType == ScaleType then spec.Keys == {"replicas"} && spec["replicas"].Number?
      else
        var template := OnlyObject(spec, "template");
        if template.None? then false
        else if p.actionType == RollbackType then template.value != map[]
        else
          var metadata := OnlyObject(template.value, "metadata");
          if metadata.None? then false
          else
            var annotations := OnlyObject(metadata.value, "annotations");
            annotations.Some? && annotations.value.Keys == {RESTART_TOKEN} && annotations.value[RESTART_TOKEN].Text?
  }

  /** The replica count a scale patch asks for. */
  function RequestedReplicas(p: DeploymentPatch): Option<int> {
    if p.actionType == ScaleType && "spec" in p.body && p.body["spec"].Object?
       && "replicas" in p.body["spec"].fields && p.body["spec"].fields["replicas"].Number?
    then Some(p.body["spec"].fields["replicas"].value)
    else None
  }

  /** Builder and shape checker agree, except on a rollback to a revision with an empty template. */
  lemma ShapeAcceptsBuiltPatches(action: RemediationAction, state: DeploymentState)
    requires BuildPatch(action, state).Some?
    ensures PatchShapeIsExact(BuildPatch(action, state).value) <==>
            (action.RollbackDeployment? ==>
               FindRevision(state.availableRevisions, action.revision).value.podTemplate != map[])
    ensures action.ScaleDeployment? ==> RequestedReplicas(BuildPatch(action, state).value) == Some(action.replicas)
  {
    var p := BuildPatch(action, state).value;
    var spec := p.body["spec"].fields;
    match action
    case RollbackDeployment(_, revision) => assert OnlyObject(spec, "template").Some?;
    case ScaleDeployment(_, replicas) => assert spec.Keys == {"replicas"};
    case RestartDeployment(_, token) =>
      var template := OnlyObject(spec, "template");
      assert template.Some?;
      var metadata := OnlyObject(template.value, "metadata");
      assert metadata.Some?;
      assert OnlyObject(metadata.value, "annotations").Some?;
  }

  // ---------------------------------------------------------------- evaluation

  function Check(code: PolicyCheckCode, passed: bool): PolicyCheck {
    PolicyCheck(code, passed)
  }

  predicate WithinBounds(workload: Option<ManagedWorkload>, replicas: nat) {
    workload.Some? && workload.value.bounds.minimum <= replicas <= workload.value.bounds.maximum
  }

  function RequiredHeadroom(replicas: nat, state: DeploymentState): nat {
    if state.replicas < replicas then replicas - state.replicas else 0
  }

  function ActionChecks(action: RemediationAction, workload: Option<ManagedWorkload>, state: Option<DeploymentState>)
    : seq<PolicyCheck>
  {
    match action
    case RollbackDeployment(_, n) =>
      var revision := if state.Some? then FindRevision(state.value.availableRevisions, n) else None;
      [Check(RevisionAvailable, revision.Some?),
       Check(RestorationSafe, revision.Some? && revision.value.restorable && !revision.value.implicated)]
    case ScaleDeployment(_, replicas) =>
      [Check(ReplicaBoundsCheck, WithinBounds(workload, replicas)),
       Check(ReplicaQuota, state.Some? && RequiredHeadroom(replicas, state.value) <= state.value.headroom)]
    case RestartDeployment(_, _) => []
  }

  function BindingChecks(r: InvestigationRecord, proposal: RemediationProposal, ready: bool): seq<PolicyCheck> {
    [Check(ProposalScoped, proposal.incidentId == r.incident.incidentId),
     Check(EvidenceCurrent, proposal.evidenceHash == EvidenceHash(r.evidence)),
     Check(EnrollmentReady, ready)]
  }

  function WorkloadChecks(action: RemediationAction, workload: Option<ManagedWorkload>): seq<PolicyCheck> {
    [Check(TargetEnrolled, workload.Some?),
     Check(TargetExecutable, workload.Some? && workload.value.executable && !workload.value.protectedDependency),
     Check(ActionAllowed, workload.Some? && action.ActionType() in workload.value.allowedActions)]
  }

  function StateChecks(state: Option<DeploymentState>): seq<PolicyCheck> {
    [Check(LiveStateAvailable, state.Some?),
     Check(NoActiveIntervention, state.Some? && !state.value.activeIntervention)]
  }

  function Preflight(r: InvestigationRecord, proposal: RemediationProposal, ready: bool, state: Option<DeploymentState>)
    : seq<PolicyCheck>
  {
    var action := proposal.action;
    var workload := FindWorkload(r.profile.workloads, action.target);
    BindingChecks(r, proposal, ready) + WorkloadChecks(action, workload) + StateChecks(state)
    + ActionChecks(action, workload, state)
  }

  function FirstFailure(checks: seq<PolicyCheck>): (r: Option<PolicyCheckCode>)
    ensures r.None? <==> AllPassed(checks)
  {
    if checks == [] then None
    else if !checks[0].passed then Some(checks[0].code)
    else
      assert checks == [checks[0]] + checks[1..];
      FirstFailure(checks[1..])
  }

  function Decision(r: InvestigationRecord, proposal: RemediationProposal, checks: seq<PolicyCheck>,
                    status: PolicyStatus, state: Option<DeploymentState>, patch: Option<DeploymentPatch>,
                    diff: Option<string>, reason: Option<PolicyCheckCode>, now: Time): PolicyDecision
  {
    PolicyDecision(r.incident.incidentId, proposal.proposalId, status, checks, now,
                   if state.Some? then Some(state.value.resourceVersion) else None,
                   if state.Some? then Some(state.value.generation) else None,
                   if state.Some? then Some(state.value.revision) else None,
                   patch, diff, reason)
  }

  /** The verdict, given what enrolment, the cluster and the dry-run answered. */
  function Evaluate(r: InvestigationRecord, proposal: RemediationProposal, ready: bool, state: Option<DeploymentState>,
                    dryRun: DryRunResult, now: Time): PolicyDecision
  {
    var checks := Preflight(r, proposal, ready, state);
    var failure := FirstFailure(checks);
    if failure.Some? || state.None? then
      Decision(r, proposal, checks, PolicyRejected, state, None, None,
               if failure.Some? then failure else Some(LiveStateAvailable), now)
    else
      var patch := BuildPatch(proposal.action, state.value);
      if patch.None? || !PatchShapeIsExact(patch.value) then
        Decision(r, proposal, checks + [Check(PatchShape, false)], PolicyRejected, state, patch, None,
                 Some(PatchShape), now)
      else
        var shaped := checks + [Check(PatchShape, true)];
        match dryRun
        case Refused =>
          Decision(r, proposal, shaped + [Check(ServerDryRun, false)], DryRunFailed, state, patch, None,
                   Some(ServerDryRun), now)
        case Accepted(diff) =>
          Decision(r, proposal, shaped + [Check(ServerDryRun, true)], PolicyPassed, state, patch, Some(diff), None, now)
  }

  // ---------------------------------------------------------------- what the verdict means

  predicate ActionAcceptable(action: RemediationAction, workload: ManagedWorkload, state: DeploymentState) {
    match action
    case RollbackDeployment(_, n) =>
      exists x <- state.availableRevisions ::
        FindRevision(state.availableRevisions, n) == Some(x) && x.restorable && !x.implicated
    case ScaleDeployment(_, replicas) =>
      && workload.bounds.minimum <= replicas <= workload.bounds.maximum
      && replicas <= state.replicas + state.headroom
    case RestartDeployment(_, _) => true
  }

  /** Everything the authority chain and the live cluster must say before a patch is even built. */
  predicate Acceptable(r: InvestigationRecord, proposal: RemediationProposal, ready: bool,
                       state: Option<DeploymentState>)
  {
    && proposal.incidentId == r.incident.incidentId
    && proposal.evidenceHash == EvidenceHash(r.evidence)
    && ready
    && state.Some? && !state.value.activeIntervention
    && var workload := FindWorkload(r.profile.workloads, proposal.action.target);
    && workload.Some? && workload.value.executable && !workload.value.protectedDependency
    && proposal.action.ActionType() in workload.value.allowedActions
    && ActionAcceptable(proposal.action, workload.value, state.value)
  }

  predicate TemplateIsEmpty(action: RemediationAction, state: DeploymentState) {
    && action.RollbackDeployment?
    && var found := FindRevision(state.availableRevisions, action.revision);
    found.Some? && found.value.podTemplate == map[]
  }

  lemma PassedTogether(a: seq<PolicyCheck>, b: seq<PolicyCheck>)
    ensures AllPassed(a + b) <==> AllPassed(a) && AllPassed(b)
  {
    assert forall c :: c in a + b <==> c in a || c in b;
  }

  lemma ActionChecksMeaning(action: RemediationAction, workload: ManagedWorkload, state: DeploymentState)
    ensures AllPassed(ActionChecks(action, Some(workload), Some(state))) <==>
            ActionAcceptable(action, workload, state)
  {
    var checks := ActionChecks(action, Some(workload), Some(state));
    if AllPassed(checks) && !action.RestartDeployment? {
      assert checks[0] in checks && checks[1] in checks;
    }
  }

  lemma PreflightMeaning(r: InvestigationRecord, proposal: RemediationProposal, ready: bool,
                         state: Option<DeploymentState>)
    ensures AllPassed(Preflight(r, proposal, ready, state)) <==> Acceptable(r, proposal, ready, state)
  {
    hide ActionChecks, ActionAcceptable, AllPassed, EvidenceHash;
    var action := proposal.action;
    var workload := FindWorkload(r.profile.workloads, action.target);
    var binding, live := BindingChecks(r, proposal, ready), StateChecks(state);
    var enrolled := WorkloadChecks(action, workload);
    PassedTogether(binding, enrolled);
    PassedTogether(binding + enrolled, live);
    PassedTogether(binding + enrolled + live, ActionChecks(action, workload, state));
    BasicChecksMeaning(r, proposal, ready, workload, state);
    if workload.Some? && state.Some? {
      ActionChecksMeaning(action, workload.value, state.value);
    }
  }

  lemma BasicChecksMeaning(r: InvestigationRecord, proposal: RemediationProposal, ready: bool,
                           workload: Option<ManagedWorkload>, state: Option<DeploymentState>)
    ensures AllPassed(BindingChecks(r, proposal, ready)) <==>
            && proposal.incidentId == r.incident.incidentId
            && proposal.evidenceHash == EvidenceHash(r.evidence) && ready
    ensures AllPassed(WorkloadChecks(proposal.action, workload)) <==>
            && workload.Some? && workload.value.executable && !workload.value.protectedDependency
            && proposal.action.ActionType() in workload.value.allowedActions
    ensures AllPassed(StateChecks(state)) <==> state.Some? && !state.value.activeIntervention
  {
    var binding, live := BindingChecks(r, proposal, ready), StateChecks(state);
    var enrolled := WorkloadChecks(proposal.action, workload);
    assert binding[0] in binding && binding[1] in binding && binding[2] in binding;
    assert enrolled[0] in enrolled && enrolled[1] in enrolled && enrolled[2] in enrolled;
    assert live[0] in live && live[1] in live;
  }

  /** Passed holds exactly when every check and the dry-run pass; an empty rollback template is the one exception. */
  lemma PolicyVerdict(r: InvestigationRecord, proposal: RemediationProposal, ready: bool,
                      state: Option<DeploymentState>, dryRun: DryRunResult, now: Time)
    ensures Evaluate(r, proposal, ready, state, dryRun, now).status == PolicyPassed <==>
            && Acceptable(r, proposal, ready, state)
            && !TemplateIsEmpty(proposal.action, state.value)
            && dryRun.Accepted?
  {
    PreflightMeaning(r, proposal, ready, state);
    if Acceptable(r, proposal, ready, state) {
      ShapeAcceptsBuiltPatches(proposal.action, state.value);
    }
  }

  /** Every decision satisfies its own validator and pins the state it was made on. */
  lemma DecisionsAreValid(r: InvestigationRecord, proposal: RemediationProposal, ready: bool,
                          state: Option<DeploymentState>, dryRun: DryRunResult, now: Time)
    ensures var d := Evaluate(r, proposal, ready, state, dryRun, now);
            && ValidPolicyDecision(d)
            && d.incidentId == r.incident.incidentId && d.proposalId == proposal.proposalId
            && (d.patch.Some? ==>
                  && state.Some? && d.patch == BuildPatch(proposal.action, state.value)
                  && d.patch.value.target == proposal.action.target
                  && d.resourceVersion == Some(d.patch.value.resourceVersion))
  {
    var checks := Preflight(r, proposal, ready, state);
    var d := Evaluate(r, proposal, ready, state, dryRun, now);
    if FirstFailure(checks).None? && state.Some? && d.status != PolicyPassed {
      assert d.checks[|d.checks| - 1] in d.checks;
    }
    if state.None? {
      PreflightMeaning(r, proposal, ready, state);
    }
  }

  /** A passed scale stays inside the declared bounds and grows by at most the headroom of the state it saw. */
  lemma PassedScaleIsBounded(r: InvestigationRecord, proposal: RemediationProposal, ready: bool,
                             state: Option<DeploymentState>, dryRun: DryRunResult, now: Time)
    requires proposal.action.ScaleDeployment?
    requires Evaluate(r, proposal, ready, state, dryRun, now).status == PolicyPassed
    ensures var d := Evaluate(r, proposal, ready, state, dryRun, now);
            var workload := FindWorkload(r.profile.workloads, proposal.action.target);
            && workload.Some? && d.patch.Some? && state.Some?
            && RequestedReplicas(d.patch.value) == Some(proposal.action.replicas)
            && workload.value.bounds.minimum <= proposal.action.replicas <= workload.value.bounds.maximum
            && proposal.action.replicas <= state.value.replicas + state.value.headroom
  {
    PolicyVerdict(r, proposal, ready, state, dryRun, now);
    ShapeAcceptsBuiltPatches(proposal.action, state.value);
  }

  // ---------------------------------------------------------------- what a decision contains

  function Hashes(evidence: seq<EvidenceObservation>): seq<string> {
    seq(|evidence|, k requires 0 <= k < |evidence| => evidence[k].contentHash)
  }

  /** The evidence hash is that of all content hashes, whatever their order. */
  lemma {:induction false} EvidenceHashContents(evidence: seq<EvidenceObservation>)
    ensures EvidenceHash(evidence) == multiset(Hashes(evidence))
  {
    if evidence == [] {
      assert Hashes(evidence) == [];
    } else {
      var before, last := evidence[..|evidence| - 1], evidence[|evidence| - 1];
      EvidenceHashContents(before);
      assert Hashes(evidence) == Hashes(before) + [last.contentHash];
    }
  }

  /** The body addresses the Deployment that is the patch's target, at one version, and nothing else. */
  predicate PatchesDeployment(p: DeploymentPatch, version: Version) {
    && p.resourceVersion == version
    && p.body.Keys == {"apiVersion", "kind", "metadata", "spec"}
    && p.body["apiVersion"] == Text("apps/v1") && p.body["kind"] == Text("Deployment")
    && p.body["metadata"] == Object(map["name" := Text(p.target.name), "namespace" := Text(p.target.namespace),
                                        "resourceVersion" := Text(version)])
  }

  /** The one change the action stands for: a replica count, a restart token, or a recorded template. */
  predicate ChangesOnly(p: DeploymentPatch, action: RemediationAction, state: DeploymentState) {
    && "spec" in p.body && p.body["spec"].Object?
    && var spec := p.body["spec"].fields;
    match action
    case ScaleDeployment(_, replicas) => p.actionType == ScaleType && spec == map["replicas" := Number(replicas)]
    case RollbackDeployment(_, revision) =>
      p.actionType == RollbackType
      && exists x <- state.availableRevisions ::
           x.revision == revision && spec == map["template" := Object(x.podTemplate)]
    case RestartDeployment(_, token) =>
      var annotated := map["kubecouncil.io/restart-token" := Text(token)];
      p.actionType == RestartType
      && spec == map["template" := Object(map["metadata" := Object(map["annotations" := Object(annotated)])])]
  }

  /** Whatever was decided, a patch in the decision names exactly the proposal's target and asks for its action. */
  lemma DecidedPatchContents(r: InvestigationRecord, proposal: RemediationProposal, ready: bool,
                             state: Option<DeploymentState>, dryRun: DryRunResult, now: Time)
    ensures var d := Evaluate(r, proposal, ready, state, dryRun, now);
            && (d.status == PolicyPassed ==> d.patch.Some?)
            && (d.patch.Some? ==>
                  && state.Some? && d.patch.value.target == proposal.action.target
                  && PatchesDeployment(d.patch.value, state.value.resourceVersion)
                  && ChangesOnly(d.patch.value, proposal.action, state.value))
  {
    hide Preflight, FirstFailure, PatchShapeIsExact;
  }

  predicate FirstFailedAt(checks: seq<PolicyCheck>, k: nat, code: PolicyCheckCode) {
    && k < |checks| && checks[k] == Check(code, false)
    && forall j | 0 <= j < k :: checks[j].passed
  }

  lemma {:induction false} FirstFailureIsFirst(checks: seq<PolicyCheck>) returns (k: nat)
    ensures FirstFailure(checks).Some? ==> FirstFailedAt(checks, k, FirstFailure(checks).value)
  {
    k := 0;
    if checks != [] && checks[0].passed {
      var rest := FirstFailureIsFirst(checks[1..]);
      k := rest + 1;
    }
  }

  predicate PinsState(d: PolicyDecision, state: Option<DeploymentState>) {
    match state
    case None => d.resourceVersion.None? && d.generation.None? && d.revision.None?
    case Some(x) =>
      && d.resourceVersion == Some(x.resourceVersion) && d.generation == Some(x.generation)
      && d.revision == Some(x.revision)
  }

  /** A decision is about the inspected state, carries its time, and reports the first of its checks that failed. */
  lemma DecisionsReport(r: InvestigationRecord, proposal: RemediationProposal, ready: bool,
                        state: Option<DeploymentState>, dryRun: DryRunResult, now: Time)
    ensures var d := Evaluate(r, proposal, ready, state, dryRun, now);
            && PinsState(d, state) && d.evaluatedAt == now
            && Preflight(r, proposal, ready, state) <= d.checks
            && (d.status != PolicyPassed ==>
                  d.rejectionReason.Some? && exists k :: FirstFailedAt(d.checks, k, d.rejectionReason.value))
            && (d.status == PolicyPassed ==> dryRun.Accepted? && d.dryRunDiff == Some(dryRun.diff))
  {
    var checks := Preflight(r, proposal, ready, state);
    PreflightMeaning(r, proposal, ready, state);
    hide Preflight, BuildPatch, PatchShapeIsExact, EvidenceHash;
    var d := Evaluate(r, proposal, ready, state, dryRun, now);
    var k := FirstFailureIsFirst(checks);
    if FirstFailure(checks).None? {
      PassedAt(checks);
      if d.status == PolicyRejected {
        assert FirstFailedAt(d.checks, |checks|, PatchShape);
      } else if d.status == DryRunFailed {
        assert FirstFailedAt(d.checks, |checks| + 1, ServerDryRun);
      }
    }
  }

  lemma PassedAt(checks: seq<PolicyCheck>)
    requires AllPassed(checks)
    ensures forall j | 0 <= j < |checks| :: checks[j].passed
  {
  }
}
