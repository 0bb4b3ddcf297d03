/** The Kubernetes provider the Executor is written against, and the mutable fake that meets its contract. */
module KubernetesProviders {
  import opened Wrappers
  import opened Incidents
  import opened ProposalPolicy
  import opened WorkloadLeases
  import opened Protocol

  // ---------------------------------------------------------------- the contract

  /** What a provider answered to a dry-run, a patch request or a convergence check. */
  datatype Said =
    | DryRunSaid(dryRun: DryRunResult) | ReplySaid(reply: ApplyReply) | ConvergenceSaid(convergence: ConvergenceResult)

  const NO_CONVERGENCE := ConvergenceResult(Ambiguous, None)

  /** Any provider: reads are current, answers are free, and a landed patch compared equal and got a new version. */
  class KubernetesProvider {
    var cluster: Cluster
    var dryRunPatches: seq<DeploymentPatch>
    ghost var said: seq<Said>

    constructor (cluster: Cluster)
      ensures this.cluster == cluster && dryRunPatches == [] && said == []
    {
      this.cluster := cluster;
      dryRunPatches, said := [], [];
    }

    method InspectDeployment(t: WorkloadReference) returns (state: Option<DeploymentState>)
      ensures state == Inspect(cluster, t)
    {
      state := Inspect(cluster, t);
    }

    method DryRun(patch: DeploymentPatch) returns (r: DryRunResult)
      modifies this`dryRunPatches, this`said
      ensures dryRunPatches == old(dryRunPatches) + [patch] && said == old(said) + [DryRunSaid(r)]
    {
      dryRunPatches := dryRunPatches + [patch];
      var accepted: bool := *;
      r := if accepted then DryRunResult.Accepted(patch.target.name) else Refused;
      said := said + [DryRunSaid(r)];
    }

    method ApplyDeploymentPatch(patch: DeploymentPatch) returns (reply: ApplyReply)
      modifies this`cluster, this`said
      ensures said == old(said) + [ReplySaid(reply)]
      ensures if reply.NotLanded? then cluster == old(cluster)
              else Lands(old(cluster), patch, reply.after) && cluster == Installed(old(cluster), reply.after)
    {
      var answered: bool, after: DeploymentState := *, *;
      reply := NotLanded;
      if Lands(cluster, patch, after) {
        cluster := Installed(cluster, after);
        reply := if answered then Landed(after) else LandedUnanswered(after);
      }
      said := said + [ReplySaid(reply)];
    }

    /** None stands for an exception. */
    method VerifyConvergence(patch: DeploymentPatch, applied: DeploymentState) returns (r: Option<ConvergenceResult>)
      modifies this`said
      ensures r.Some? ==> ValidConvergence(r.value)
      ensures said == old(said) + [ConvergenceSaid(if r.Some? then r.value else NO_CONVERGENCE)]
    {
      var answer: ConvergenceResult := *;
      r := if ValidConvergence(answer) then Some(answer) else None;
      said := said + [ConvergenceSaid(if r.Some? then r.value else NO_CONVERGENCE)];
    }
  }

  // ---------------------------------------------------------------- the fake

  datatype ApplyError = Disappeared | VersionMismatch | DryRunRefused | MalformedPatch

  function ActionName(t: ActionType): string {
    match t
    case RollbackType => "rollback_deployment"
    case ScaleType => "scale_deployment"
    case RestartType => "restart_deployment"
  }

  function Member(fields: map<string, Json>, name: string): Option<map<string, Json>> {
    if name in fields && fields[name].Object? then Some(fields[name].fields) else None
  }

  function TextMember(fields: map<string, Json>, name: string): Option<string> {
    if name in fields && fields[name].Text? then Some(fields[name].text) else None
  }

  /** A text found by following object members. */
  function TextAt(fields: map<string, Json>, path: seq<string>): Option<string>
    requires path != []
    decreases |path|
  {
    if |path| == 1 then TextMember(fields, path[0])
    else
      var next := Member(fields, path[0]);
      if next.None? then None else TextAt(next.value, path[1..])
  }

  predicate Digit(c: char) {
    '0' <= c <= '9'
  }

  function ParseDigits(text: string): nat
    requires forall c <- text :: Digit(c)
  {
    if text == [] then 0
    else
      var last := text[|text| - 1];
      assert Digit(last);
      ParseDigits(text[..|text| - 1]) * 10 + (last as int - '0' as int)
  }

  function ParseRevision(text: string): Option<nat> {
    if text != [] && forall c <- text :: Digit(c) then Some(ParseDigits(text)) else None
  }

  /** What the patch does to the fields it names; None when it is not the exact patch its action needs. */
  function Patched(state: DeploymentState, patch: DeploymentPatch): Option<DeploymentState> {
    var spec := Member(patch.body, "spec");
    if spec.None? then None
    else
      match patch.actionType
      case RollbackType =>
        var text := TextAt(spec.value, ["template", "metadata", "labels", "revision"]);
        var revision := if text.Some? then ParseRevision(text.value) else None;
        if revision.None? then None else Some(state.(revision := revision.value))
      case ScaleType =>
        if "replicas" in spec.value && spec.value["replicas"].Number? && 0 <= spec.value["replicas"].value
        then Some(state.(replicas := spec.value["replicas"].value)) else None
      case RestartType =>
        var token := TextAt(spec.value, ["template", "metadata", "annotations", RESTART_TOKEN]);
        if token.None? then None
        else
          var template := map["metadata" := Object(map["annotations" := Object(map["restart-token" :=
                                                       Text(token.value)])])];
          Some(state.(revision := state.revision + 1,
                      availableRevisions := state.availableRevisions
                                            + [DeploymentRevision(state.revision + 1, template, true, false)]))
  }

  /** The state a patch leaves behind. */
  function FakeApplied(state: DeploymentState, patch: DeploymentPatch, headroom: Option<nat>): Option<DeploymentState> {
    var patched := Patched(state, patch);
    if patched.None? then None
    else Some(patched.value.(resourceVersion := state.resourceVersion + "-" + ActionName(patch.actionType),
                             generation := state.generation + 1,
                             headroom := if headroom.Some? then headroom.value else state.headroom))
  }

  class FakeExecutorKubernetesProvider {
    var states: map<WorkloadReference, DeploymentState>
    var dryRunError: bool
    var dryRunPatches: seq<DeploymentPatch>
    var appliedPatches: seq<DeploymentPatch>
    var externalVersion: Option<Version>
    var convergenceResults: seq<ConvergenceStatus>
    var headroomAfter: Option<nat>

    constructor (states: map<WorkloadReference, DeploymentState>)
      ensures this.states == states && appliedPatches == [] && dryRunPatches == [] && !dryRunError
      ensures externalVersion.None? && convergenceResults == [] && headroomAfter.None?
    {
      this.states := states;
      dryRunError := false;
      dryRunPatches, appliedPatches := [], [];
      externalVersion, headroomAfter, convergenceResults := None, None, [];
    }

    /** The state a patch meets: a scheduled concurrent writer gets in first. */
    function Met(t: WorkloadReference): Option<DeploymentState>
      reads this
    {
      if t !in states then None
      else if externalVersion.Some? then Some(states[t].(resourceVersion := externalVersion.value))
      else Some(states[t])
    }

    method DryRun(patch: DeploymentPatch) returns (r: Option<DryRunResult>)
      modifies this`dryRunPatches
      ensures dryRunPatches == old(dryRunPatches) + [patch]
      ensures r == if dryRunError then Some(Refused)
                   else if patch.target in states && Member(patch.body, "spec").Some?
                   then Some(DryRunResult.Accepted(patch.target.name)) else None
    {
      dryRunPatches := dryRunPatches + [patch];
      if dryRunError {
        return Some(Refused);
      }
      if patch.target !in states || Member(patch.body, "spec").None? {
        return None;
      }
      r := Some(DryRunResult.Accepted(patch.target.name));
    }

    /** Compare-and-swap on the resource version: lands with the new state, or leaves what it met in place. */
    method ApplyDeploymentPatch(patch: DeploymentPatch) returns (r: Result<DeploymentState, ApplyError>)
      modifies this
      ensures r.Success? ==>
                && old(Met(patch.target)).Some?
                && old(Met(patch.target)).value.resourceVersion == patch.resourceVersion
                && Some(r.value) == FakeApplied(old(Met(patch.target)).value, patch, old(headroomAfter))
                && states == old(states)[patch.target := r.value]
      ensures r.Failure? ==>
                && states == (if old(Met(patch.target)).Some?
                              then old(states)[patch.target := old(Met(patch.target)).value] else old(states))
                && (r.error.Disappeared? <==> patch.target !in old(states))
                && (r.error.VersionMismatch? <==>
                      && old(Met(patch.target)).Some?
                      && old(Met(patch.target)).value.resourceVersion != patch.resourceVersion)
      ensures appliedPatches == old(appliedPatches) + if r.Success? then [patch] else []
      ensures externalVersion.None? || patch.target !in old(states)
      ensures dryRunError == old(dryRunError) && convergenceResults == old(convergenceResults)
    {
      if patch.target !in states {
        return Failure(Disappeared);
      }
      var state := states[patch.target];
      if externalVersion.Some? {
        state := state.(resourceVersion := externalVersion.value);
        externalVersion := None;
      }
      states := states[patch.target := state];
      if patch.resourceVersion != state.resourceVersion {
        return Failure(VersionMismatch);
      }
      var dryRun := DryRun(patch);
      if dryRun.None? || dryRun.value.Refused? {
        return Failure(DryRunRefused);
      }
      var updated := FakeApplied(state, patch, headroomAfter);
      if updated.None? {
        return Failure(MalformedPatch);
      }
      headroomAfter := None;
      states := states[patch.target := updated.value];
      appliedPatches := appliedPatches + [patch];
      r := Success(updated.value);
    }

    /** None when the answer fails its own validator. */
    method VerifyConvergence(patch: DeploymentPatch) returns (r: Option<ConvergenceResult>)
      modifies this`convergenceResults
      ensures r.Some? ==> ValidConvergence(r.value) && r.value.observed == Lookup(states, patch.target)
      ensures r.Some? ==>
                r.value.status == if old(convergenceResults) != [] then old(convergenceResults)[0] else Converged
      ensures convergenceResults == if old(convergenceResults) != [] then old(convergenceResults)[1..] else []
    {
      var status := Converged;
      if convergenceResults != [] {
        status := convergenceResults[0];
        convergenceResults := convergenceResults[1..];
      }
      var answer := ConvergenceResult(status, Lookup(states, patch.target));
      r := if ValidConvergence(answer) then Some(answer) else None;
    }
  }

  // ---------------------------------------------------------------- the fake meets the contract

  /** Every version the register ever had is at most as long as its current one. */
  predicate VersionsGrow(c: Cluster, t: WorkloadReference) {
    t in c && c[t].current.Some? ==> forall v <- c[t].versions :: |v| <= |c[t].current.value|
  }

  /** On any register, whatever its history, the fake keeps the contract exactly when the derived version is new. */
  lemma FakeLandsExactly(c: Cluster, patch: DeploymentPatch, headroom: Option<nat>)
    requires Inspect(c, patch.target).Some? && Inspect(c, patch.target).value.target == patch.target
    requires Inspect(c, patch.target).value.resourceVersion == patch.resourceVersion
    requires FakeApplied(Inspect(c, patch.target).value, patch, headroom).Some?
    ensures var after := FakeApplied(Inspect(c, patch.target).value, patch, headroom).value;
            Lands(c, patch, after) <==>
            patch.resourceVersion + "-" + ActionName(patch.actionType) !in c[patch.target].versions
  {
  }

  /** Where no outside writer chose a version it always is: versions only grow, and so it stays. */
  lemma FakeMeetsContract(c: Cluster, patch: DeploymentPatch, headroom: Option<nat>)
    requires Inspect(c, patch.target).Some? && VersionsGrow(c, patch.target)
    requires Inspect(c, patch.target).value.target == patch.target
    requires Inspect(c, patch.target).value.resourceVersion == patch.resourceVersion == c[patch.target].current.value
    requires FakeApplied(Inspect(c, patch.target).value, patch, headroom).Some?
    ensures var after := FakeApplied(Inspect(c, patch.target).value, patch, headroom).value;
            && Lands(c, patch, after)
            && VersionsGrow(Installed(c, after), patch.target)
            && Inspect(Installed(c, after), patch.target) == Some(after)
  {
    var derived := patch.resourceVersion + "-" + ActionName(patch.actionType);
    assert |derived| > |patch.resourceVersion|;
    FakeLandsExactly(c, patch, headroom);
  }

  /** A scheduled writer that sets a never-used version can lead the next patch to a version used before. */
  lemma ExternalVersionMayCollide(state: DeploymentState, x: Version, patch: DeploymentPatch)
    requires state.resourceVersion == x + "-" + ActionName(patch.actionType)
    requires state.target == patch.target && patch.resourceVersion == x && Patched(state, patch).Some?
    ensures var outside := state.(resourceVersion := x);
            var before := Installed(map[], state);
            var c := Installed(before, outside);
            && Unused(before, outside) && Inspect(c, patch.target) == Some(outside)
            && FakeApplied(outside, patch, None).Some?
            && !Lands(c, patch, FakeApplied(outside, patch, None).value)
  {
    assert |state.resourceVersion| > |x|;
    FakeLandsExactly(Installed(Installed(map[], state), state.(resourceVersion := x)), patch, None);
  }

  lemma TextInTemplate(spec: map<string, Json>, template: map<string, Json>, path: seq<string>)
    requires path != [] && Member(spec, "template") == Some(template)
    ensures TextAt(spec, ["template"] + path) == TextAt(template, path)
  {
    assert (["template"] + path)[1..] == path;
  }

  /** The fake accepts the policy's own patches and does what the approved action asks for. */
  lemma FakeAppliesBuiltPatches(action: RemediationAction, state: DeploymentState, headroom: Option<nat>)
    requires BuildPatch(action, state).Some? && !action.RollbackDeployment?
    ensures var after := FakeApplied(state, BuildPatch(action, state).value, headroom);
            && after.Some?
            && (action.ScaleDeployment? ==>
                  after.value.replicas == action.replicas && after.value.revision == state.revision)
            && (state.target == action.target ==> ActionConverged(action, state, after.value))
  {
    var patch := BuildPatch(action, state).value;
    var spec := BuildSpec(action, state).value;
    assert Member(patch.body, "spec") == Some(spec);
    match action {
      case RestartDeployment(_, token) =>
        var template := Member(spec, "template").value;
        var metadata := Member(template, "metadata").value;
        var annotations := Member(metadata, "annotations").value;
        var path := ["metadata", "annotations", RESTART_TOKEN];
        assert path[1..] == ["annotations", RESTART_TOKEN] && path[1..][1..] == [RESTART_TOKEN];
        assert TextAt(annotations, [RESTART_TOKEN]) == Some(token);
        assert TextAt(metadata, path[1..]) == Some(token);
        TextInTemplate(spec, template, path);
        assert ["template"] + path == ["template", "metadata", "annotations", RESTART_TOKEN];
      case _ =>
    }
    assert |state.resourceVersion + "-" + ActionName(patch.actionType)| > |state.resourceVersion|;
  }

  /** A rollback patch is applied exactly when its template is labelled with a decimal revision, and to that one. */
  lemma FakeAppliesRollbacks(t: WorkloadReference, n: nat, state: DeploymentState, headroom: Option<nat>)
    requires BuildPatch(RollbackDeployment(t, n), state).Some?
    ensures var template := FindRevision(state.availableRevisions, n).value.podTemplate;
            var text := TextAt(template, ["metadata", "labels", "revision"]);
            var revision := if text.Some? then ParseRevision(text.value) else None;
            var after := FakeApplied(state, BuildPatch(RollbackDeployment(t, n), state).value, headroom);
            && (after.Some? <==> revision.Some?)
            && (after.Some? && state.target == t ==>
                  (ActionConverged(RollbackDeployment(t, n), state, after.value) <==> revision == Some(n)))
  {
    var action := RollbackDeployment(t, n);
    var patch := BuildPatch(action, state).value;
    var spec := BuildSpec(action, state).value;
    assert Member(patch.body, "spec") == Some(spec);
    TextInTemplate(spec, Member(spec, "template").value, ["metadata", "labels", "revision"]);
    assert ["template"] + ["metadata", "labels", "revision"] == ["template", "metadata", "labels", "revision"];
    assert |state.resourceVersion + "-" + ActionName(patch.actionType)| > |state.resourceVersion|;
  }
}
