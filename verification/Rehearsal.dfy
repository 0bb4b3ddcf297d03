/** Rehearsal plans: a deterministic validator whose verdict is free of action order, safe for quota, and exact. */
module Rehearsal {
  import opened Wrappers

  datatype Criticality = Critical | Important | Optional

  datatype Requests = Requests(cpu: nat, memory: nat)

  datatype Bounds = Bounds(minimum: int, maximum: int)

  datatype ServiceProfile =
    ServiceProfile(name: string, current: nat, minimum: nat, maximum: nat, requests: Requests,
                   criticality: Criticality, dependencies: seq<string>, modes: seq<string>, optional: bool,
                   hpa: Option<Bounds>)

  predicate ValidService(s: ServiceProfile) {
    && s.minimum <= s.current <= s.maximum && 1 <= s.maximum
    && (s.hpa.Some? ==> 0 <= s.hpa.value.minimum <= s.hpa.value.maximum && 1 <= s.hpa.value.maximum)
  }

  datatype CouncilActionType = ScaleTo | SetHpaBounds | SetResourceRequests | SetConfigMode | Suspend | Restore

  datatype Parameters =
    | Replicas(count: int) | HpaRange(minimum: int, maximum: int) | Resources(cpu: int, memory: int)
    | Mode(mode: string) | NoParameters | OtherParameters

  datatype CouncilAction =
    CouncilAction(kind: CouncilActionType, service: string, namespace: string, parameters: Parameters)

  datatype Field = ReplicaField | RequestField | ModeField | HpaField

  datatype PlanStatus = ValidPlan | InvalidPlan | InfeasiblePlan

  datatype CouncilPlan = CouncilPlan(namespace: string, actions: seq<CouncilAction>, infeasibleReason: string)

  datatype PlanError =
    | NamespaceMismatch | InfeasibleWithActions | ForeignNamespace(service: string) | UnknownService(service: string)
    | BadParameters(service: string) | Conflict(service: string, field: Field) | UndeclaredMode(service: string)
    | NotOptional(service: string) | BelowMinimum(service: string) | AboveMaximum(service: string)
    | HpaBelowMinimum(service: string) | HpaAboveMaximum(service: string) | HpaInverted(service: string)
    | CriticalReduced(service: string) | DependencyReduced(service: string, dependency: string)
    | CpuOverQuota | MemoryOverQuota

  // ---------------------------------------------------------------- profiles by name

  /** A name given twice means its last profile. */
  function Profiles(services: seq<ServiceProfile>): (r: map<string, ServiceProfile>)
    ensures forall n <- r :: r[n] in services && r[n].name == n
    ensures forall s <- services :: s.name in r
  {
    if services == [] then map[]
    else
      var before, last := services[..|services| - 1], services[|services| - 1];
      assert services == before + [last];
      Profiles(before)[last.name := last]
  }

  /** The distinct names, in order of first appearance. */
  function Names(services: seq<ServiceProfile>): (r: seq<string>)
    ensures forall n :: n in r <==> n in Profiles(services)
    ensures forall i, j | 0 <= i < j < |r| :: r[i] != r[j]
  {
    if services == [] then []
    else
      var before, last := Names(services[..|services| - 1]), services[|services| - 1].name;
      if last in before then before else before + [last]
  }

  datatype Draft =
    Draft(replicas: map<string, int>, requests: map<string, Requests>, hpa: map<string, Bounds>,
          changed: set<(string, Field)>, errors: seq<PlanError>)

  function HpaOf(s: ServiceProfile): Bounds {
    if s.hpa.Some? then s.hpa.value else Bounds(s.minimum, s.maximum)
  }

  function InitialDraft(p: map<string, ServiceProfile>, errors: seq<PlanError>): Draft {
    Draft(map n | n in p :: p[n].current, map n | n in p :: p[n].requests, map n | n in p :: HpaOf(p[n]), {}, errors)
  }

  // ---------------------------------------------------------------- one action

  function FieldOf(kind: CouncilActionType): Field {
    match kind
    case ScaleTo => ReplicaField
    case Suspend => ReplicaField
    case Restore => ReplicaField
    case SetResourceRequests => RequestField
    case SetConfigMode => ModeField
    case SetHpaBounds => HpaField
  }

  function Key(a: CouncilAction): (string, Field) {
    (a.service, FieldOf(a.kind))
  }

  predicate ParametersFit(a: CouncilAction) {
    match a.kind
    case ScaleTo => a.parameters.Replicas? && 0 <= a.parameters.count
    case SetHpaBounds =>
      a.parameters.HpaRange? && 0 <= a.parameters.minimum <= a.parameters.maximum && 1 <= a.parameters.maximum
    case SetResourceRequests => a.parameters.Resources? && 0 <= a.parameters.cpu && 0 <= a.parameters.memory
    case SetConfigMode => a.parameters.Mode? && a.parameters.mode != ""
    case Suspend => a.parameters.NoParameters?
    case Restore => a.parameters.NoParameters?
  }

  function Max(a: int, b: int): int {
    if a < b then b else a
  }

  /** The replica count an action asks for. */
  function ReplicaValue(a: CouncilAction, s: ServiceProfile): int
    requires ParametersFit(a) && FieldOf(a.kind) == ReplicaField
  {
    match a.kind
    case ScaleTo => a.parameters.count
    case Suspend => 0
    case _ => Max(s.current, s.minimum)
  }

  /** Errors an action earns on its own profile, apart from conflicts with other actions. */
  function OwnErrors(a: CouncilAction, s: ServiceProfile): seq<PlanError>
    requires ParametersFit(a)
  {
    if a.kind.SetConfigMode? && a.parameters.mode !in s.modes then [UndeclaredMode(s.name)]
    else if a.kind.Suspend? && (!s.optional || s.criticality != Optional) then [NotOptional(s.name)]
    else []
  }

  function Effect(d: Draft, a: CouncilAction, s: ServiceProfile): Draft
    requires ParametersFit(a)
  {
    match FieldOf(a.kind)
    case ReplicaField => d.(replicas := d.replicas[a.service := ReplicaValue(a, s)])
    case HpaField => d.(hpa := d.hpa[a.service := Bounds(a.parameters.minimum, a.parameters.maximum)])
    case RequestField => d.(requests := d.requests[a.service := Requests(a.parameters.cpu, a.parameters.memory)])
    case ModeField => d
  }

  function ValidateAction(d: Draft, a: CouncilAction, namespace: string, p: map<string, ServiceProfile>): Draft {
    var scoped := d.errors + if a.namespace != namespace then [ForeignNamespace(a.service)] else [];
    if a.service !in p then d.(errors := scoped + [UnknownService(a.service)])
    else if !ParametersFit(a) then d.(errors := scoped + [BadParameters(a.service)])
    else
      var conflict := if Key(a) in d.changed then [Conflict(a.service, FieldOf(a.kind))] else [];
      Effect(d.(changed := d.changed + {Key(a)}, errors := scoped + conflict + OwnErrors(a, p[a.service])), a,
             p[a.service])
  }

  function ValidateActions(d: Draft, actions: seq<CouncilAction>, namespace: string, p: map<string, ServiceProfile>)
    : Draft
  {
    if actions == [] then d
    else
      var before := ValidateActions(d, actions[..|actions| - 1], namespace, p);
      ValidateAction(before, actions[|actions| - 1], namespace, p)
  }

  // ---------------------------------------------------------------- the final allocation

  function BoundErrorsOf(s: ServiceProfile, replicas: int, hpa: Bounds): seq<PlanError> {
    (if replicas < s.minimum then [BelowMinimum(s.name)] else [])
    + (if s.maximum < replicas then [AboveMaximum(s.name)] else [])
    + (if hpa.minimum < s.minimum then [HpaBelowMinimum(s.name)] else [])
    + (if s.maximum < hpa.maximum then [HpaAboveMaximum(s.name)] else [])
    + (if hpa.maximum < hpa.minimum then [HpaInverted(s.name)] else [])
    + (if s.criticality.Critical? && replicas < s.minimum then [CriticalReduced(s.name)] else [])
  }

  function BoundErrors(services: seq<ServiceProfile>, d: Draft): seq<PlanError>
    requires forall s <- services :: s.name in d.replicas && s.name in d.hpa
  {
    if services == [] then []
    else
      var last := services[|services| - 1];
      BoundErrors(services[..|services| - 1], d) + BoundErrorsOf(last, d.replicas[last.name], d.hpa[last.name])
  }

  function DependencyErrorsOf(s: ServiceProfile, dependencies: seq<string>, d: Draft, p: map<string, ServiceProfile>)
    : seq<PlanError>
    requires p.Keys <= d.replicas.Keys
  {
    if dependencies == [] then []
    else
      var last := dependencies[|dependencies| - 1];
      DependencyErrorsOf(s, dependencies[..|dependencies| - 1], d, p)
      + if last in p && d.replicas[last] < p[last].minimum then [DependencyReduced(s.name, last)] else []
  }

  function DependencyErrors(services: seq<ServiceProfile>, d: Draft, p: map<string, ServiceProfile>): seq<PlanError>
    requires p.Keys <= d.replicas.Keys
  {
    if services == [] then []
    else
      var last := services[|services| - 1];
      DependencyErrors(services[..|services| - 1], d, p)
      + if last.criticality.Critical? then DependencyErrorsOf(last, last.dependencies, d, p) else []
  }

  function TotalCpu(names: seq<string>, d: Draft): int
    requires forall n <- names :: n in d.replicas && n in d.requests
  {
    if names == [] then 0
    else
      var last := names[|names| - 1];
      TotalCpu(names[..|names| - 1], d) + d.replicas[last] * d.requests[last].cpu
  }

  function TotalMemory(names: seq<string>, d: Draft): int
    requires forall n <- names :: n in d.replicas && n in d.requests
  {
    if names == [] then 0
    else
      var last := names[|names| - 1];
      TotalMemory(names[..|names| - 1], d) + d.replicas[last] * d.requests[last].memory
  }

  function QuotaErrors(names: seq<string>, d: Draft, quota: Requests): seq<PlanError>
    requires forall n <- names :: n in d.replicas && n in d.requests
  {
    (if quota.cpu < TotalCpu(names, d) then [CpuOverQuota] else [])
    + (if quota.memory < TotalMemory(names, d) then [MemoryOverQuota] else [])
  }

  lemma {:induction false} DraftCovers(d: Draft, actions: seq<CouncilAction>, namespace: string,
                                       p: map<string, ServiceProfile>)
    requires d.replicas.Keys == d.requests.Keys == d.hpa.Keys == p.Keys
    ensures var f := ValidateActions(d, actions, namespace, p);
            f.replicas.Keys == f.requests.Keys == f.hpa.Keys == p.Keys
  {
    if actions != [] {
      DraftCovers(d, actions[..|actions| - 1], namespace, p);
    }
  }

  /** Everything the validator has to say about a plan that is not declared infeasible. */
  function Allocation(actions: seq<CouncilAction>, mismatch: bool, namespace: string, services: seq<ServiceProfile>)
    : (d: Draft)
    ensures d.replicas.Keys == d.requests.Keys == d.hpa.Keys == Profiles(services).Keys
  {
    var p := Profiles(services);
    var start := InitialDraft(p, if mismatch then [NamespaceMismatch] else []);
    DraftCovers(start, actions, namespace, p);
    ValidateActions(start, actions, namespace, p)
  }

  function AllErrors(plan: CouncilPlan, namespace: string, services: seq<ServiceProfile>, quota: Requests)
    : seq<PlanError>
  {
    var p := Profiles(services);
    var d := Allocation(plan.actions, plan.namespace != namespace, namespace, services);
    d.errors + BoundErrors(services, d) + DependencyErrors(services, d, p) + QuotaErrors(Names(services), d, quota)
  }

  function Verdict(plan: CouncilPlan, namespace: string, services: seq<ServiceProfile>, quota: Requests): PlanStatus {
    if plan.infeasibleReason != "" then
      if plan.namespace == namespace && plan.actions == [] then InfeasiblePlan else InvalidPlan
    else if AllErrors(plan, namespace, services, quota) == [] then ValidPlan
    else InvalidPlan
  }

  // ---------------------------------------------------------------- which actions are accepted together

  predicate ActionOk(a: CouncilAction, namespace: string, p: map<string, ServiceProfile>) {
    a.namespace == namespace && a.service in p && ParametersFit(a) && OwnErrors(a, p[a.service]) == []
  }

  predicate KeysDistinct(actions: seq<CouncilAction>) {
    forall i, j | 0 <= i < j < |actions| :: Key(actions[i]) != Key(actions[j])
  }

  function KeySet(actions: seq<CouncilAction>): set<(string, Field)> {
    set a <- actions :: Key(a)
  }

  lemma DistinctAppend(actions: seq<CouncilAction>, a: CouncilAction)
    ensures KeysDistinct(actions + [a]) <==> KeysDistinct(actions) && Key(a) !in KeySet(actions)
    ensures KeySet(actions + [a]) == KeySet(actions) + {Key(a)}
  {
    var all := actions + [a];
    if KeysDistinct(all) {
      assert forall i | 0 <= i < |actions| :: all[i] == actions[i];
      assert forall i | 0 <= i < |actions| :: Key(all[i]) != Key(all[|actions|]);
    }
    if Key(a) in KeySet(actions) {
      var b :| b in actions && Key(b) == Key(a);
      var i :| 0 <= i < |actions| && actions[i] == b;
      assert Key(all[i]) == Key(all[|actions|]);
    }
    assert forall x :: x in all <==> x in actions || x == a;
  }

  lemma StepAccepted(d: Draft, a: CouncilAction, namespace: string, p: map<string, ServiceProfile>)
    ensures ValidateAction(d, a, namespace, p).errors == [] <==>
            d.errors == [] && ActionOk(a, namespace, p) && Key(a) !in d.changed
    ensures ValidateAction(d, a, namespace, p).errors == [] ==>
              ValidateAction(d, a, namespace, p).changed == d.changed + {Key(a)}
  {
  }

  /** No errors from the actions exactly when each is fine on its own and no two touch the same field. */
  lemma {:induction false} ActionsAccepted(d: Draft, actions: seq<CouncilAction>, namespace: string,
                                           p: map<string, ServiceProfile>)
    requires d.changed == {}
    ensures ValidateActions(d, actions, namespace, p).errors == [] <==>
            d.errors == [] && (forall a <- actions :: ActionOk(a, namespace, p)) && KeysDistinct(actions)
    ensures ValidateActions(d, actions, namespace, p).errors == [] ==>
              ValidateActions(d, actions, namespace, p).changed == KeySet(actions)
  {
    hide ActionOk, ValidateAction;
    if actions != [] {
      var before, last := actions[..|actions| - 1], actions[|actions| - 1];
      assert actions == before + [last];
      ActionsAccepted(d, before, namespace, p);
      DistinctAppend(before, last);
      StepAccepted(ValidateActions(d, before, namespace, p), last, namespace, p);
    }
  }

  // ---------------------------------------------------------------- what the actions leave behind

  predicate ActionReflected(d: Draft, a: CouncilAction, p: map<string, ServiceProfile>) {
    && a.service in p && ParametersFit(a)
    && a.service in d.replicas && a.service in d.requests && a.service in d.hpa
    && (match FieldOf(a.kind)
        case ReplicaField => d.replicas[a.service] == ReplicaValue(a, p[a.service])
        case HpaField => d.hpa[a.service] == Bounds(a.parameters.minimum, a.parameters.maximum)
        case RequestField => d.requests[a.service] == Requests(a.parameters.cpu, a.parameters.memory)
        case ModeField => true)
  }

  predicate NameUntouched(d: Draft, n: string, keys: set<(string, Field)>, s: ServiceProfile) {
    && n in d.replicas && n in d.requests && n in d.hpa
    && ((n, ReplicaField) !in keys ==> d.replicas[n] == s.current)
    && ((n, RequestField) !in keys ==> d.requests[n] == s.requests)
    && ((n, HpaField) !in keys ==> d.hpa[n] == HpaOf(s))
  }

  /** Every action's field holds its value, and every other field holds the profile's. */
  predicate Reflects(d: Draft, actions: seq<CouncilAction>, p: map<string, ServiceProfile>) {
    && (forall a <- actions :: ActionReflected(d, a, p))
    && (forall n <- p :: NameUntouched(d, n, KeySet(actions), p[n]))
  }

  lemma StepReflects(d: Draft, a: CouncilAction, namespace: string, p: map<string, ServiceProfile>,
                     b: CouncilAction)
    requires ValidateAction(d, a, namespace, p).errors == [] && ActionReflected(d, b, p) && Key(b) in d.changed
    ensures ActionReflected(ValidateAction(d, a, namespace, p), b, p)
  {
  }

  lemma StepLeavesUntouched(d: Draft, a: CouncilAction, namespace: string, p: map<string, ServiceProfile>, n: string,
                            keys: set<(string, Field)>, s: ServiceProfile)
    requires ValidateAction(d, a, namespace, p).errors == [] && NameUntouched(d, n, keys, s)
    ensures NameUntouched(ValidateAction(d, a, namespace, p), n, keys + {Key(a)}, s)
  {
  }

  lemma ReflectsMore(d: Draft, before: seq<CouncilAction>, last: CouncilAction, namespace: string,
                     p: map<string, ServiceProfile>)
    requires Reflects(d, before, p) && d.changed == KeySet(before)
    requires ValidateAction(d, last, namespace, p).errors == []
    requires d.replicas.Keys == d.requests.Keys == d.hpa.Keys == p.Keys
    ensures Reflects(ValidateAction(d, last, namespace, p), before + [last], p)
  {
    hide ValidateAction, ActionReflected, NameUntouched;
    var f := ValidateAction(d, last, namespace, p);
    DistinctAppend(before, last);
    forall b <- before + [last] ensures ActionReflected(f, b, p) {
      if b in before {
        StepReflects(d, last, namespace, p, b);
      } else {
        LastReflected(d, last, namespace, p);
      }
    }
    forall n <- p ensures NameUntouched(f, n, KeySet(before + [last]), p[n]) {
      StepLeavesUntouched(d, last, namespace, p, n, KeySet(before), p[n]);
    }
  }

  lemma {:induction false} ActionsReflected(actions: seq<CouncilAction>, namespace: string,
                                            p: map<string, ServiceProfile>)
    requires ValidateActions(InitialDraft(p, []), actions, namespace, p).errors == []
    ensures Reflects(ValidateActions(InitialDraft(p, []), actions, namespace, p), actions, p)
  {
    hide ValidateAction, Reflects;
    var start := InitialDraft(p, []);
    if actions == [] {
      InitialReflects(p);
    } else {
      var before, last := actions[..|actions| - 1], actions[|actions| - 1];
      var d := ValidateActions(start, before, namespace, p);
      assert actions == before + [last];
      StepAccepted(d, last, namespace, p);
      ActionsAccepted(start, before, namespace, p);
      ActionsReflected(before, namespace, p);
      DraftCovers(start, before, namespace, p);
      ReflectsMore(d, before, last, namespace, p);
    }
  }

  lemma InitialReflects(p: map<string, ServiceProfile>)
    ensures Reflects(InitialDraft(p, []), [], p)
  {
    assert KeySet([]) == {};
    forall n <- p ensures NameUntouched(InitialDraft(p, []), n, {}, p[n]) {
      InitialUntouched(p, n);
    }
  }

  lemma InitialUntouched(p: map<string, ServiceProfile>, n: string)
    requires n in p
    ensures NameUntouched(InitialDraft(p, []), n, {}, p[n])
  {
  }

  lemma LastReflected(d: Draft, a: CouncilAction, namespace: string, p: map<string, ServiceProfile>)
    requires ValidateAction(d, a, namespace, p).errors == []
    requires d.replicas.Keys >= p.Keys && d.requests.Keys >= p.Keys && d.hpa.Keys >= p.Keys
    ensures ActionReflected(ValidateAction(d, a, namespace, p), a, p)
  {
  }

  // ---------------------------------------------------------------- order does not matter

  lemma SameAllocation(d: Draft, e: Draft, x: seq<CouncilAction>, y: seq<CouncilAction>, p: map<string, ServiceProfile>)
    requires Reflects(d, x, p) && Reflects(e, y, p) && forall a :: a in x <==> a in y
    requires d.replicas.Keys == d.requests.Keys == d.hpa.Keys == p.Keys
    requires e.replicas.Keys == e.requests.Keys == e.hpa.Keys == p.Keys
    ensures d.replicas == e.replicas && d.requests == e.requests && d.hpa == e.hpa
  {
    hide Reflects;
    assert KeySet(x) == KeySet(y);
    forall n <- p ensures d.replicas[n] == e.replicas[n] && d.requests[n] == e.requests[n] && d.hpa[n] == e.hpa[n] {
      SameAt(d, e, x, y, p, n);
    }
  }

  lemma SameAt(d: Draft, e: Draft, x: seq<CouncilAction>, y: seq<CouncilAction>, p: map<string, ServiceProfile>,
               n: string)
    requires Reflects(d, x, p) && Reflects(e, y, p) && (forall a :: a in x <==> a in y) && n in p
    requires d.replicas.Keys == d.requests.Keys == d.hpa.Keys == p.Keys
    requires e.replicas.Keys == e.requests.Keys == e.hpa.Keys == p.Keys && KeySet(x) == KeySet(y)
    ensures d.replicas[n] == e.replicas[n] && d.requests[n] == e.requests[n] && d.hpa[n] == e.hpa[n]
  {
    assert NameUntouched(d, n, KeySet(x), p[n]) && NameUntouched(e, n, KeySet(y), p[n]);
    if (n, ReplicaField) in KeySet(x) {
      var a :| a in x && Key(a) == (n, ReplicaField);
      assert ActionReflected(d, a, p) && ActionReflected(e, a, p);
    }
    if (n, RequestField) in KeySet(x) {
      var a :| a in x && Key(a) == (n, RequestField);
      assert ActionReflected(d, a, p) && ActionReflected(e, a, p);
    }
    if (n, HpaField) in KeySet(x) {
      var a :| a in x && Key(a) == (n, HpaField);
      assert ActionReflected(d, a, p) && ActionReflected(e, a, p);
    }
  }

  /** Pairwise different keys, said of the bag of actions alone. */
  predicate BagDistinct(actions: seq<CouncilAction>) {
    && (forall a <- actions, b <- actions :: Key(a) == Key(b) ==> a == b)
    && (forall a <- actions :: multiset(actions)[a] == 1)
  }

  lemma TwoPlaces(s: seq<CouncilAction>, i: nat, j: nat)
    requires i < j < |s| && s[i] == s[j]
    ensures multiset(s)[s[i]] >= 2
  {
    assert s == s[..j] + s[j..];
    assert s[i] in s[..j] && s[j] in s[j..];
    assert s[..j][i] == s[i] && s[j..][0] == s[j];
  }

  lemma {:induction false} DistinctIsBagDistinct(actions: seq<CouncilAction>)
    ensures KeysDistinct(actions) <==> BagDistinct(actions)
  {
    if BagDistinct(actions) {
      forall i, j | 0 <= i < j < |actions| ensures Key(actions[i]) != Key(actions[j]) {
        if Key(actions[i]) == Key(actions[j]) {
          TwoPlaces(actions, i, j);
        }
      }
    }
    if KeysDistinct(actions) && actions != [] {
      var before, last := actions[..|actions| - 1], actions[|actions| - 1];
      assert actions == before + [last];
      DistinctAppend(before, last);
      DistinctIsBagDistinct(before);
      forall a <- actions ensures multiset(actions)[a] == 1 {
        assert multiset(actions) == multiset(before) + multiset{last};
        assert a in before ==> a != last;
      }
    }
  }

  lemma PermutedDistinct(x: seq<CouncilAction>, y: seq<CouncilAction>)
    requires multiset(x) == multiset(y)
    ensures forall a :: a in x <==> a in y
    ensures KeysDistinct(x) <==> KeysDistinct(y)
  {
    forall a ensures a in x <==> a in y {
      assert a in multiset(x) <==> a in multiset(y);
    }
    DistinctIsBagDistinct(x);
    DistinctIsBagDistinct(y);
  }

  lemma PermutedAllocation(x: seq<CouncilAction>, y: seq<CouncilAction>, mismatch: bool, namespace: string,
                           services: seq<ServiceProfile>)
    requires multiset(x) == multiset(y)
    ensures var d, e := Allocation(x, mismatch, namespace, services), Allocation(y, mismatch, namespace, services);
            && (d.errors == [] <==> e.errors == [])
            && (d.errors == [] ==> d.replicas == e.replicas && d.requests == e.requests && d.hpa == e.hpa)
  {
    hide Reflects, ActionOk, KeysDistinct, ValidateActions, Profiles;
    var p := Profiles(services);
    var start := InitialDraft(p, if mismatch then [NamespaceMismatch] else []);
    PermutedDistinct(x, y);
    ActionsAccepted(start, x, namespace, p);
    ActionsAccepted(start, y, namespace, p);
    if Allocation(x, mismatch, namespace, services).errors == [] {
      ActionsReflected(x, namespace, p);
      ActionsReflected(y, namespace, p);
      SameAllocation(Allocation(x, mismatch, namespace, services), Allocation(y, mismatch, namespace, services), x, y,
                     p);
    }
  }

  lemma {:induction false} SameBounds(services: seq<ServiceProfile>, d: Draft, e: Draft)
    requires forall s <- services :: s.name in d.replicas && s.name in d.hpa
    requires d.replicas == e.replicas && d.hpa == e.hpa
    ensures BoundErrors(services, d) == BoundErrors(services, e)
  {
    if services != [] {
      SameBounds(services[..|services| - 1], d, e);
    }
  }

  lemma {:induction false} SameTotals(names: seq<string>, d: Draft, e: Draft)
    requires forall n <- names :: n in d.replicas && n in d.requests
    requires d.replicas == e.replicas && d.requests == e.requests
    ensures TotalCpu(names, d) == TotalCpu(names, e) && TotalMemory(names, d) == TotalMemory(names, e)
  {
    if names != [] {
      SameTotals(names[..|names| - 1], d, e);
    }
  }

  lemma {:induction false} SameDependenciesOf(s: ServiceProfile, dependencies: seq<string>, d: Draft, e: Draft,
                                              p: map<string, ServiceProfile>)
    requires p.Keys <= d.replicas.Keys && d.replicas == e.replicas
    ensures DependencyErrorsOf(s, dependencies, d, p) == DependencyErrorsOf(s, dependencies, e, p)
  {
    if dependencies != [] {
      SameDependenciesOf(s, dependencies[..|dependencies| - 1], d, e, p);
    }
  }

  lemma {:induction false} SameDependencies(services: seq<ServiceProfile>, d: Draft, e: Draft,
                                            p: map<string, ServiceProfile>)
    requires p.Keys <= d.replicas.Keys && d.replicas == e.replicas
    ensures DependencyErrors(services, d, p) == DependencyErrors(services, e, p)
  {
    if services != [] {
      SameDependencies(services[..|services| - 1], d, e, p);
      var last := services[|services| - 1];
      SameDependenciesOf(last, last.dependencies, d, e, p);
    }
  }

  function WithActions(plan: CouncilPlan, actions: seq<CouncilAction>): CouncilPlan {
    plan.(actions := actions)
  }

  /** Permuting the actions never changes the verdict, nor what a valid plan ends with. */
  lemma VerdictIsOrderFree(plan: CouncilPlan, actions: seq<CouncilAction>, namespace: string,
                           services: seq<ServiceProfile>, quota: Requests)
    requires multiset(actions) == multiset(plan.actions)
    ensures Verdict(WithActions(plan, actions), namespace, services, quota) == Verdict(plan, namespace, services, quota)
    ensures var d := Allocation(plan.actions, plan.namespace != namespace, namespace, services);
            var e := Allocation(actions, plan.namespace != namespace, namespace, services);
            Verdict(plan, namespace, services, quota) == ValidPlan ==>
              d.replicas == e.replicas && d.requests == e.requests && d.hpa == e.hpa
  {
    hide Allocation, BoundErrors, DependencyErrors, TotalCpu, TotalMemory, Profiles, Names;
    var d := Allocation(plan.actions, plan.namespace != namespace, namespace, services);
    var e := Allocation(actions, plan.namespace != namespace, namespace, services);
    PermutedAllocation(plan.actions, actions, plan.namespace != namespace, namespace, services);
    assert actions == [] <==> plan.actions == [] by {
      assert |multiset(actions)| == |multiset(plan.actions)|;
    }
    if d.errors == [] {
      SameBounds(services, d, e);
      SameTotals(Names(services), d, e);
      SameDependencies(services, d, e, Profiles(services));
    }
  }

  // ---------------------------------------------------------------- what a valid plan is

  predicate Within(s: ServiceProfile, replicas: int, hpa: Bounds) {
    && s.minimum <= replicas <= s.maximum
    && s.minimum <= hpa.minimum <= hpa.maximum <= s.maximum
  }

  lemma {:induction false} BoundErrorsMeaning(services: seq<ServiceProfile>, d: Draft)
    requires forall s <- services :: s.name in d.replicas && s.name in d.hpa
    ensures BoundErrors(services, d) == [] <==>
            forall s <- services :: Within(s, d.replicas[s.name], d.hpa[s.name])
  {
    if services != [] {
      var before, last := services[..|services| - 1], services[|services| - 1];
      assert services == before + [last];
      BoundErrorsMeaning(before, d);
    }
  }

  lemma {:induction false} DependencyBelow(s: ServiceProfile, dependencies: seq<string>, d: Draft,
                                           p: map<string, ServiceProfile>)
    requires p.Keys <= d.replicas.Keys && DependencyErrorsOf(s, dependencies, d, p) != []
    ensures exists n <- p :: d.replicas[n] < p[n].minimum
  {
    var before := dependencies[..|dependencies| - 1];
    if DependencyErrorsOf(s, before, d, p) != [] {
      DependencyBelow(s, before, d, p);
    }
  }

  lemma {:induction false} DependenciesBelow(services: seq<ServiceProfile>, d: Draft, p: map<string, ServiceProfile>)
    requires p.Keys <= d.replicas.Keys && DependencyErrors(services, d, p) != []
    ensures exists n <- p :: d.replicas[n] < p[n].minimum
  {
    var before, last := services[..|services| - 1], services[|services| - 1];
    if DependencyErrors(before, d, p) != [] {
      DependenciesBelow(before, d, p);
    } else {
      DependencyBelow(last, last.dependencies, d, p);
    }
  }

  /** The critical-dependency loop never finds anything the bounds loop has not already refused. */
  lemma DependencyLoopIsImplied(services: seq<ServiceProfile>, d: Draft)
    requires Profiles(services).Keys <= d.replicas.Keys && Profiles(services).Keys <= d.hpa.Keys
    ensures BoundErrors(services, d) == [] ==> DependencyErrors(services, d, Profiles(services)) == []
  {
    hide BoundErrors, DependencyErrors;
    var p := Profiles(services);
    BoundErrorsMeaning(services, d);
    if DependencyErrors(services, d, p) != [] {
      DependenciesBelow(services, d, p);
      var n :| n in p && d.replicas[n] < p[n].minimum;
      assert p[n] in services && !Within(p[n], d.replicas[n], d.hpa[n]);
    }
  }

  // ---------------------------------------------------------------- what the sums count

  /** The resource requests of every pod there will be: one entry for each replica of each service. */
  function Pods(names: seq<string>, d: Draft): seq<Requests>
    requires forall n <- names :: n in d.replicas && n in d.requests && 0 <= d.replicas[n]
  {
    if names == [] then []
    else
      var last := names[|names| - 1];
      Pods(names[..|names| - 1], d) + seq(d.replicas[last], _ => d.requests[last])
  }

  function CpuOf(pods: seq<Requests>): nat {
    if pods == [] then 0 else CpuOf(pods[..|pods| - 1]) + pods[|pods| - 1].cpu
  }

  function MemoryOf(pods: seq<Requests>): nat {
    if pods == [] then 0 else MemoryOf(pods[..|pods| - 1]) + pods[|pods| - 1].memory
  }

  lemma {:induction false} MorePods(pods: seq<Requests>, r: Requests, count: nat)
    ensures CpuOf(pods + seq(count, _ => r)) == CpuOf(pods) + count * r.cpu
    ensures MemoryOf(pods + seq(count, _ => r)) == MemoryOf(pods) + count * r.memory
  {
    hide CpuOf, MemoryOf;
    if count == 0 {
      assert pods + seq(count, _ => r) == pods;
    } else {
      MorePods(pods, r, count - 1);
      OneMorePod(pods + seq(count - 1, _ => r), r);
      assert pods + seq(count, _ => r) == (pods + seq(count - 1, _ => r)) + [r];
      Once(count - 1, r.cpu);
      Once(count - 1, r.memory);
    }
  }

  lemma Once(count: nat, amount: nat)
    ensures (count + 1) * amount == count * amount + amount
  {
  }

  lemma OneMorePod(pods: seq<Requests>, r: Requests)
    ensures CpuOf(pods + [r]) == CpuOf(pods) + r.cpu && MemoryOf(pods + [r]) == MemoryOf(pods) + r.memory
  {
    assert (pods + [r])[..|pods|] == pods;
  }

  /** Both sums are those over all pods. */
  lemma {:induction false} TotalsCountPods(names: seq<string>, d: Draft)
    requires forall n <- names :: n in d.replicas && n in d.requests && 0 <= d.replicas[n]
    ensures TotalCpu(names, d) == CpuOf(Pods(names, d)) && TotalMemory(names, d) == MemoryOf(Pods(names, d))
  {
    if names != [] {
      var before, last := names[..|names| - 1], names[|names| - 1];
      TotalsCountPods(before, d);
      MorePods(Pods(before, d), d.requests[last], d.replicas[last]);
    }
  }

  predicate Distinct(names: seq<string>) {
    forall i, j | 0 <= i < j < |names| :: names[i] != names[j]
  }

  /** Among distinct services a change of one moves the sums by its replicas times its requests, after minus before. */
  lemma {:induction false} OneServiceMovesTotals(names: seq<string>, d: Draft, n: string, count: int, r: Requests)
    requires (forall x <- names :: x in d.replicas && x in d.requests) && Distinct(names) && n in names
    ensures var e := d.(replicas := d.replicas[n := count], requests := d.requests[n := r]);
            && TotalCpu(names, e) - TotalCpu(names, d) == count * r.cpu - d.replicas[n] * d.requests[n].cpu
            && TotalMemory(names, e) - TotalMemory(names, d) == count * r.memory - d.replicas[n] * d.requests[n].memory
  {
    var e := d.(replicas := d.replicas[n := count], requests := d.requests[n := r]);
    var before, last := names[..|names| - 1], names[|names| - 1];
    if last == n {
      OthersKeepTotals(before, d, e, n);
    } else {
      OneServiceMovesTotals(before, d, n, count, r);
    }
  }

  lemma {:induction false} OthersKeepTotals(names: seq<string>, d: Draft, e: Draft, n: string)
    requires (forall x <- names :: x in d.replicas && x in d.requests) && n !in names
    requires forall x <- names :: x in e.replicas && x in e.requests
    requires forall x <- names :: d.replicas[x] == e.replicas[x] && d.requests[x] == e.requests[x]
    ensures TotalCpu(names, e) == TotalCpu(names, d) && TotalMemory(names, e) == TotalMemory(names, d)
  {
    if names != [] {
      OthersKeepTotals(names[..|names| - 1], d, e, n);
    }
  }

  lemma {:induction false} NoReplicasNoTotals(names: seq<string>, d: Draft)
    requires forall n <- names :: n in d.replicas && n in d.requests && d.replicas[n] == 0
    ensures TotalCpu(names, d) == 0 && TotalMemory(names, d) == 0
  {
    if names != [] {
      NoReplicasNoTotals(names[..|names| - 1], d);
    }
  }

  // ---------------------------------------------------------------- the verdict in plain terms

  /** An action a plan may contain: scoped to the namespace, on a known service, well formed, and declared or safe. */
  predicate Permitted(a: CouncilAction, namespace: string, p: map<string, ServiceProfile>) {
    && a.namespace == namespace && a.service in p
    && (match a.kind
        case ScaleTo => a.parameters.Replicas? && 0 <= a.parameters.count
        case SetHpaBounds =>
          a.parameters.HpaRange? && 0 <= a.parameters.minimum <= a.parameters.maximum && 1 <= a.parameters.maximum
        case SetResourceRequests => a.parameters.Resources? && 0 <= a.parameters.cpu && 0 <= a.parameters.memory
        case SetConfigMode => a.parameters.Mode? && a.parameters.mode != "" && a.parameters.mode in p[a.service].modes
        case Suspend => a.parameters.NoParameters? && p[a.service].optional && p[a.service].criticality == Optional
        case Restore => a.parameters.NoParameters?)
  }

  predicate SetsReplicas(a: CouncilAction) {
    a.kind in {ScaleTo, Suspend, Restore}
  }

  /** Two actions on one service that set the same thing. */
  predicate Clash(a: CouncilAction, b: CouncilAction) {
    a.service == b.service && (a.kind == b.kind || (SetsReplicas(a) && SetsReplicas(b)))
  }

  predicate ClashFree(actions: seq<CouncilAction>) {
    forall i, j | 0 <= i < j < |actions| :: !Clash(actions[i], actions[j])
  }

  lemma SameKeyIsClash(a: CouncilAction, b: CouncilAction)
    ensures Key(a) == Key(b) <==> Clash(a, b)
  {
  }

  lemma DistinctKeysAreClashFree(actions: seq<CouncilAction>)
    ensures KeysDistinct(actions) <==> ClashFree(actions)
  {
    hide Clash, Key;
    forall i, j | 0 <= i < j < |actions|
      ensures Key(actions[i]) == Key(actions[j]) <==> Clash(actions[i], actions[j])
    {
      SameKeyIsClash(actions[i], actions[j]);
    }
  }

  lemma OkIsPermitted(a: CouncilAction, namespace: string, p: map<string, ServiceProfile>)
    ensures ActionOk(a, namespace, p) <==> Permitted(a, namespace, p)
  {
  }

  /** What a service ends with after one action, said of the action alone. */
  predicate Granted(d: Draft, a: CouncilAction, s: ServiceProfile)
    requires a.service in d.replicas && a.service in d.requests && a.service in d.hpa
  {
    match a.kind
    case ScaleTo => a.parameters.Replicas? && d.replicas[a.service] == a.parameters.count
    case Suspend => d.replicas[a.service] == 0
    case Restore => d.replicas[a.service] == if s.current < s.minimum then s.minimum else s.current
    case SetHpaBounds =>
      a.parameters.HpaRange? && d.hpa[a.service] == Bounds(a.parameters.minimum, a.parameters.maximum)
    case SetResourceRequests =>
      && a.parameters.Resources? && d.requests[a.service].cpu == a.parameters.cpu
      && d.requests[a.service].memory == a.parameters.memory
    case SetConfigMode => true
  }

  /** What no action sets stays what the profile says. */
  predicate LeftAlone(d: Draft, actions: seq<CouncilAction>, s: ServiceProfile)
    requires s.name in d.replicas && s.name in d.requests && s.name in d.hpa
  {
    && ((forall a <- actions | a.service == s.name :: !SetsReplicas(a)) ==> d.replicas[s.name] == s.current)
    && ((forall a <- actions | a.service == s.name :: a.kind != SetResourceRequests) ==>
          d.requests[s.name] == s.requests)
    && ((forall a <- actions | a.service == s.name :: a.kind != SetHpaBounds) ==>
          d.hpa[s.name] == if s.hpa.Some? then s.hpa.value else Bounds(s.minimum, s.maximum))
  }

  lemma UntouchedIsLeftAlone(d: Draft, actions: seq<CouncilAction>, s: ServiceProfile)
    requires NameUntouched(d, s.name, KeySet(actions), s)
    ensures LeftAlone(d, actions, s)
  {
    if (s.name, ReplicaField) in KeySet(actions) {
      var a :| a in actions && Key(a) == (s.name, ReplicaField);
      assert a.service == s.name && SetsReplicas(a);
    }
    if (s.name, RequestField) in KeySet(actions) {
      var a :| a in actions && Key(a) == (s.name, RequestField);
      assert a.service == s.name && a.kind == SetResourceRequests;
    }
    if (s.name, HpaField) in KeySet(actions) {
      var a :| a in actions && Key(a) == (s.name, HpaField);
      assert a.service == s.name && a.kind == SetHpaBounds;
    }
  }

  lemma ReflectedIsGranted(d: Draft, a: CouncilAction, p: map<string, ServiceProfile>)
    requires ActionReflected(d, a, p)
    ensures a.service in p && Granted(d, a, p[a.service])
  {
  }

  /** What a valid plan ends with: each action's setting, and the profile's wherever no action sets anything. */
  lemma ValidPlanAllocates(plan: CouncilPlan, namespace: string, services: seq<ServiceProfile>, quota: Requests)
    requires Verdict(plan, namespace, services, quota) == ValidPlan
    ensures var p := Profiles(services);
            var d := Allocation(plan.actions, false, namespace, services);
            && (forall a <- plan.actions :: a.service in p && Granted(d, a, p[a.service]))
            && (forall n <- p :: LeftAlone(d, plan.actions, p[n]))
  {
    hide ActionReflected, NameUntouched, Granted, LeftAlone, KeySet, ValidateActions, BoundErrors, DependencyErrors;
    hide TotalCpu, TotalMemory, Names;
    var p, d := Profiles(services), Allocation(plan.actions, false, namespace, services);
    ActionsAccepted(InitialDraft(p, if plan.namespace != namespace then [NamespaceMismatch] else []), plan.actions,
                    namespace, p);
    ActionsReflected(plan.actions, namespace, p);
    forall a <- plan.actions ensures a.service in p && Granted(d, a, p[a.service]) {
      ReflectedIsGranted(d, a, p);
    }
    forall n <- p ensures LeftAlone(d, plan.actions, p[n]) {
      UntouchedIsLeftAlone(d, plan.actions, p[n]);
    }
  }

  /** A name given twice means its last profile. */
  lemma {:induction false} LastProfileCounts(services: seq<ServiceProfile>, k: nat)
    requires k < |services| && forall j | k < j < |services| :: services[j].name != services[k].name
    ensures Profiles(services)[services[k].name] == services[k]
  {
    if k < |services| - 1 {
      LastProfileCounts(services[..|services| - 1], k);
    }
  }

  /** No service falls below zero replicas when each is within its own bounds. */
  lemma NamedAreWithin(services: seq<ServiceProfile>, d: Draft)
    requires Profiles(services).Keys <= d.replicas.Keys && Profiles(services).Keys <= d.requests.Keys
    requires Profiles(services).Keys <= d.hpa.Keys
    requires forall s <- services :: Within(s, d.replicas[s.name], d.hpa[s.name])
    ensures forall n <- Names(services) :: n in d.replicas && n in d.requests && 0 <= d.replicas[n]
  {
    var p := Profiles(services);
    forall n <- Names(services) ensures 0 <= d.replicas[n] {
      assert n in p && p[n] in services && Within(p[n], d.replicas[n], d.hpa[n]);
    }
  }

  /** Valid exactly when the actions fit together, every service stays in its bounds and all pods in the quota. */
  lemma PlanVerdict(plan: CouncilPlan, namespace: string, services: seq<ServiceProfile>, quota: Requests)
    ensures var p := Profiles(services);
            var d := Allocation(plan.actions, plan.namespace != namespace, namespace, services);
            Verdict(plan, namespace, services, quota) == ValidPlan <==>
            && plan.infeasibleReason == "" && plan.namespace == namespace
            && (forall a <- plan.actions :: Permitted(a, namespace, p)) && ClashFree(plan.actions)
            && (forall s <- services :: Within(s, d.replicas[s.name], d.hpa[s.name]))
            && (forall n <- Names(services) :: n in d.replicas && n in d.requests && 0 <= d.replicas[n])
            && CpuOf(Pods(Names(services), d)) <= quota.cpu && MemoryOf(Pods(Names(services), d)) <= quota.memory
    ensures Verdict(plan, namespace, services, quota) == InfeasiblePlan <==>
            plan.infeasibleReason != "" && plan.namespace == namespace && plan.actions == []
  {
    hide BoundErrors, DependencyErrors, ActionOk, KeysDistinct, TotalCpu, TotalMemory, Within, ValidateActions, Names;
    hide Permitted, ClashFree, CpuOf, MemoryOf, Pods;
    var p := Profiles(services);
    var d := Allocation(plan.actions, plan.namespace != namespace, namespace, services);
    ActionsAccepted(InitialDraft(p, if plan.namespace != namespace then [NamespaceMismatch] else []), plan.actions,
                    namespace, p);
    forall a ensures ActionOk(a, namespace, p) <==> Permitted(a, namespace, p) {
      OkIsPermitted(a, namespace, p);
    }
    DistinctKeysAreClashFree(plan.actions);
    BoundErrorsMeaning(services, d);
    DependencyLoopIsImplied(services, d);
    if forall s <- services :: Within(s, d.replicas[s.name], d.hpa[s.name]) {
      NamedAreWithin(services, d);
      TotalsCountPods(Names(services), d);
    }
  }

  // ---------------------------------------------------------------- what every error says

  /** An action that gets as far as setting something. */
  predicate Counts(a: CouncilAction, p: map<string, ServiceProfile>) {
    a.service in p && ParametersFit(a)
  }

  /** The errors one action earns after the actions `before`. */
  predicate Earns(e: PlanError, before: seq<CouncilAction>, a: CouncilAction, namespace: string,
                  p: map<string, ServiceProfile>)
  {
    match e
    case ForeignNamespace(s) => a.service == s && a.namespace != namespace
    case UnknownService(s) => a.service == s && s !in p
    case BadParameters(s) => a.service == s && s in p && !ParametersFit(a)
    case Conflict(s, f) =>
      Counts(a, p) && a.service == s && FieldOf(a.kind) == f && exists b <- before :: Counts(b, p) && Clash(b, a)
    case UndeclaredMode(s) =>
      Counts(a, p) && p[a.service].name == s && a.kind == SetConfigMode && a.parameters.mode !in p[a.service].modes
    case NotOptional(s) =>
      && Counts(a, p) && p[a.service].name == s && a.kind == Suspend
      && !(p[a.service].optional && p[a.service].criticality == Optional)
    case _ => false
  }

  function CountingKeys(actions: seq<CouncilAction>, p: map<string, ServiceProfile>): set<(string, Field)> {
    set a <- actions | Counts(a, p) :: Key(a)
  }

  lemma KeyCounted(before: seq<CouncilAction>, a: CouncilAction, p: map<string, ServiceProfile>)
    ensures Key(a) in CountingKeys(before, p) <==> exists b <- before :: Counts(b, p) && Clash(b, a)
  {
    hide Counts, Clash, Key;
    forall b ensures Key(b) == Key(a) <==> Clash(b, a) {
      SameKeyIsClash(b, a);
    }
  }

  lemma StepEarns(d: Draft, before: seq<CouncilAction>, a: CouncilAction, namespace: string,
                  p: map<string, ServiceProfile>, e: PlanError)
    requires d.changed == CountingKeys(before, p)
    ensures e in ValidateAction(d, a, namespace, p).errors <==> e in d.errors || Earns(e, before, a, namespace, p)
  {
    hide ParametersFit, CountingKeys, Clash, Key, ReplicaValue;
    KeyCounted(before, a, p);
  }

  lemma StepCounts(d: Draft, before: seq<CouncilAction>, a: CouncilAction, namespace: string,
                   p: map<string, ServiceProfile>)
    requires d.changed == CountingKeys(before, p)
    ensures ValidateAction(d, a, namespace, p).changed == CountingKeys(before + [a], p)
  {
    hide ParametersFit;
    assert forall x :: x in before + [a] <==> x in before || x == a;
  }

  lemma {:induction false} ActionsEarn(d: Draft, actions: seq<CouncilAction>, namespace: string,
                                       p: map<string, ServiceProfile>, e: PlanError)
    requires d.changed == {}
    ensures ValidateActions(d, actions, namespace, p).changed == CountingKeys(actions, p)
    ensures e in ValidateActions(d, actions, namespace, p).errors <==>
            e in d.errors || exists k | 0 <= k < |actions| :: Earns(e, actions[..k], actions[k], namespace, p)
  {
    hide ValidateAction, Earns;
    if actions != [] {
      var before, last := actions[..|actions| - 1], actions[|actions| - 1];
      assert actions == before + [last];
      ActionsEarn(d, before, namespace, p, e);
      var f := ValidateActions(d, before, namespace, p);
      StepEarns(f, before, last, namespace, p, e);
      StepCounts(f, before, last, namespace, p);
      forall k | 0 <= k < |actions|
        ensures actions[..k] == if k < |before| then before[..k] else before
      {
      }
    }
  }

  lemma {:induction false} BoundErrorsEach(services: seq<ServiceProfile>, d: Draft, e: PlanError)
    requires forall s <- services :: s.name in d.replicas && s.name in d.hpa
    ensures e in BoundErrors(services, d) <==>
            exists s <- services :: e in BoundErrorsOf(s, d.replicas[s.name], d.hpa[s.name])
  {
    hide BoundErrorsOf;
    if services != [] {
      var before, last := services[..|services| - 1], services[|services| - 1];
      assert services == before + [last];
      BoundErrorsEach(before, d, e);
    }
  }

  lemma {:induction false} DependencyErrorsEach(s: ServiceProfile, dependencies: seq<string>, d: Draft,
                                                p: map<string, ServiceProfile>, e: PlanError)
    requires p.Keys <= d.replicas.Keys
    ensures e in DependencyErrorsOf(s, dependencies, d, p) <==>
            exists t <- dependencies :: e == DependencyReduced(s.name, t) && t in p && d.replicas[t] < p[t].minimum
  {
    if dependencies != [] {
      var before, last := dependencies[..|dependencies| - 1], dependencies[|dependencies| - 1];
      assert dependencies == before + [last];
      DependencyErrorsEach(s, before, d, p, e);
    }
  }

  lemma {:induction false} AllDependencyErrors(services: seq<ServiceProfile>, d: Draft, p: map<string, ServiceProfile>,
                                               e: PlanError)
    requires p.Keys <= d.replicas.Keys
    ensures e in DependencyErrors(services, d, p) <==>
            exists s <- services, t <- s.dependencies ::
              && s.criticality == Critical && e == DependencyReduced(s.name, t)
              && t in p && d.replicas[t] < p[t].minimum
  {
    if services != [] {
      var before, last := services[..|services| - 1], services[|services| - 1];
      assert services == before + [last];
      AllDependencyErrors(before, d, p, e);
      DependencyErrorsEach(last, last.dependencies, d, p, e);
    }
  }

  /** What an error says of the plan and of the allocation it leads to. */
  predicate Says(e: PlanError, plan: CouncilPlan, namespace: string, services: seq<ServiceProfile>, quota: Requests,
                 d: Draft)
    requires d.replicas.Keys == d.requests.Keys == d.hpa.Keys == Profiles(services).Keys
  {
    var p := Profiles(services);
    match e
    case NamespaceMismatch => plan.namespace != namespace
    case InfeasibleWithActions => false
    case ForeignNamespace(s) => exists a <- plan.actions :: a.service == s && a.namespace != namespace
    case UnknownService(s) => s !in p && exists a <- plan.actions :: a.service == s
    case BadParameters(s) => s in p && exists a <- plan.actions :: a.service == s && !ParametersFit(a)
    case Conflict(s, f) => exists i, j | 0 <= i < j < |plan.actions| :: Contend(plan.actions, i, j, s, f, p)
    case UndeclaredMode(s) =>
      && s in p && exists a <- plan.actions ::
           a.service == s && ParametersFit(a) && a.kind == SetConfigMode && a.parameters.mode !in p[s].modes
    case NotOptional(s) =>
      && s in p && !(p[s].optional && p[s].criticality == Optional)
      && exists a <- plan.actions :: a.service == s && ParametersFit(a) && a.kind == Suspend
    case DependencyReduced(s, t) =>
      && t in p && d.replicas[t] < p[t].minimum
      && exists x <- services :: x.name == s && x.criticality == Critical && t in x.dependencies
    case CpuOverQuota => quota.cpu < TotalCpu(Names(services), d)
    case MemoryOverQuota => quota.memory < TotalMemory(Names(services), d)
    case _ => SomeBound(e, services, d)
  }

  predicate SomeBound(e: PlanError, services: seq<ServiceProfile>, d: Draft)
    requires d.replicas.Keys == d.hpa.Keys == Profiles(services).Keys
  {
    exists x <- services :: OneBound(e, x, d)
  }

  /** Two actions that set the same thing of a service, the later one being this field of it. */
  predicate Contend(actions: seq<CouncilAction>, i: nat, j: nat, s: string, f: Field, p: map<string, ServiceProfile>)
    requires i < j < |actions|
  {
    && Counts(actions[i], p) && Counts(actions[j], p) && Clash(actions[i], actions[j])
    && actions[j].service == s && FieldOf(actions[j].kind) == f
  }

  lemma EarnedSays(plan: CouncilPlan, namespace: string, services: seq<ServiceProfile>, quota: Requests, d: Draft,
                   e: PlanError)
    requires d.replicas.Keys == d.requests.Keys == d.hpa.Keys == Profiles(services).Keys
    ensures (exists k | 0 <= k < |plan.actions| ::
               Earns(e, plan.actions[..k], plan.actions[k], namespace, Profiles(services))) <==>
            OfActions(e) && Says(e, plan, namespace, services, quota, d)
  {
    hide Clash, ParametersFit, Contend, SomeBound, TotalCpu, TotalMemory, Names;
    var p, actions := Profiles(services), plan.actions;
    if e.Conflict? {
      ConflictEarned(actions, namespace, p, e);
    } else if OfActions(e) {
      forall a <- actions ensures exists k | 0 <= k < |actions| :: actions[k] == a {
      }
    }
  }

  lemma ConflictEarned(actions: seq<CouncilAction>, namespace: string, p: map<string, ServiceProfile>, e: PlanError)
    requires e.Conflict?
    ensures (exists k | 0 <= k < |actions| :: Earns(e, actions[..k], actions[k], namespace, p)) <==>
            (exists i, j | 0 <= i < j < |actions| :: Contend(actions, i, j, e.service, e.field, p))
  {
    hide Clash, ParametersFit;
    if k :| 0 <= k < |actions| && Earns(e, actions[..k], actions[k], namespace, p) {
      var b :| b in actions[..k] && Counts(b, p) && Clash(b, actions[k]);
      var i :| 0 <= i < k && actions[..k][i] == b;
      assert Contend(actions, i, k, e.service, e.field, p);
    }
    if i, j :| 0 <= i < j < |actions| && Contend(actions, i, j, e.service, e.field, p) {
      assert actions[..j][i] == actions[i];
      assert Earns(e, actions[..j], actions[j], namespace, p);
    }
  }

  lemma BoundErrorSays(plan: CouncilPlan, namespace: string, services: seq<ServiceProfile>, quota: Requests, d: Draft,
                       e: PlanError)
    requires d.replicas.Keys == d.requests.Keys == d.hpa.Keys == Profiles(services).Keys
    ensures (exists s <- services :: e in BoundErrorsOf(s, d.replicas[s.name], d.hpa[s.name])) <==>
            OfBounds(e) && Says(e, plan, namespace, services, quota, d)
  {
    hide Says, OneBound, BoundErrorsOf, OfBounds;
    SaysOfBounds(plan, namespace, services, quota, d, e);
    forall s <- services
      ensures e in BoundErrorsOf(s, d.replicas[s.name], d.hpa[s.name]) <==> OneBound(e, s, d)
      ensures OneBound(e, s, d) ==> OfBounds(e)
    {
      BoundErrorIs(s, d, e);
    }
  }

  lemma SaysOfBounds(plan: CouncilPlan, namespace: string, services: seq<ServiceProfile>, quota: Requests, d: Draft,
                     e: PlanError)
    requires d.replicas.Keys == d.requests.Keys == d.hpa.Keys == Profiles(services).Keys
    ensures OfBounds(e) ==> (Says(e, plan, namespace, services, quota, d) <==> SomeBound(e, services, d))
  {
    hide Counts, Contend, TotalCpu, TotalMemory, Names, SomeBound, ParametersFit, Profiles;
  }

  /** Errors about a dependency, the quota or the plan as a whole. */
  lemma OtherErrorSays(plan: CouncilPlan, namespace: string, services: seq<ServiceProfile>, quota: Requests, d: Draft,
                       e: PlanError)
    requires d.replicas.Keys == d.requests.Keys == d.hpa.Keys == Profiles(services).Keys
    requires !OfActions(e) && !OfBounds(e)
    ensures Says(e, plan, namespace, services, quota, d) <==>
            || (e == NamespaceMismatch && plan.namespace != namespace)
            || e in DependencyErrors(services, d, Profiles(services))
            || e in QuotaErrors(Names(services), d, quota)
  {
    hide Counts, Contend, TotalCpu, TotalMemory, Names, OneBound, ParametersFit, DependencyErrors, Profiles;
    AllDependencyErrors(services, d, Profiles(services), e);
  }

  /** Dependencies and the quota give errors of their own kinds only. */
  lemma OwnKinds(services: seq<ServiceProfile>, d: Draft, quota: Requests, e: PlanError)
    requires d.replicas.Keys == d.requests.Keys == Profiles(services).Keys && (OfActions(e) || OfBounds(e))
    ensures e !in DependencyErrors(services, d, Profiles(services)) && e !in QuotaErrors(Names(services), d, quota)
  {
    hide TotalCpu, TotalMemory, Names, DependencyErrors, Profiles;
    AllDependencyErrors(services, d, Profiles(services), e);
  }

  predicate OneBound(e: PlanError, x: ServiceProfile, d: Draft)
    requires x.name in d.replicas && x.name in d.hpa
  {
    match e
    case BelowMinimum(s) => x.name == s && d.replicas[s] < x.minimum
    case AboveMaximum(s) => x.name == s && x.maximum < d.replicas[s]
    case HpaBelowMinimum(s) => x.name == s && d.hpa[s].minimum < x.minimum
    case HpaAboveMaximum(s) => x.name == s && x.maximum < d.hpa[s].maximum
    case HpaInverted(s) => x.name == s && d.hpa[s].maximum < d.hpa[s].minimum
    case CriticalReduced(s) => x.name == s && x.criticality == Critical && d.replicas[s] < x.minimum
    case _ => false
  }

  lemma BoundErrorIs(s: ServiceProfile, d: Draft, e: PlanError)
    requires s.name in d.replicas && s.name in d.hpa
    ensures e in BoundErrorsOf(s, d.replicas[s.name], d.hpa[s.name]) <==> OneBound(e, s, d)
    ensures OneBound(e, s, d) ==> OfBounds(e)
  {
  }

  predicate OfBounds(e: PlanError) {
    || e.BelowMinimum? || e.AboveMaximum? || e.HpaBelowMinimum? || e.HpaAboveMaximum? || e.HpaInverted?
    || e.CriticalReduced?
  }

  predicate OfActions(e: PlanError) {
    e.ForeignNamespace? || e.UnknownService? || e.BadParameters? || e.Conflict? || e.UndeclaredMode? || e.NotOptional?
  }

  /** The errors of a plan are exactly those whose statement is true of it. */
  lemma ErrorsExactly(plan: CouncilPlan, namespace: string, services: seq<ServiceProfile>, quota: Requests,
                      e: PlanError)
    ensures var d := Allocation(plan.actions, plan.namespace != namespace, namespace, services);
            e in AllErrors(plan, namespace, services, quota) <==> Says(e, plan, namespace, services, quota, d)
  {
    hide ValidateActions, Names, TotalCpu, TotalMemory, BoundErrors, DependencyErrors, Contend, ParametersFit;
    hide BoundErrorsOf, OneBound, Earns, Profiles, Says, OfActions, OfBounds, QuotaErrors;
    var p := Profiles(services);
    var d := Allocation(plan.actions, plan.namespace != namespace, namespace, services);
    BoundErrorSays(plan, namespace, services, quota, d, e);
    if OfActions(e) || OfBounds(e) {
      OwnKinds(services, d, quota, e);
      NotMismatch(e);
    } else {
      OtherErrorSays(plan, namespace, services, quota, d, e);
    }
    ActionsEarn(InitialDraft(p, if plan.namespace != namespace then [NamespaceMismatch] else []), plan.actions,
                namespace, p, e);
    EarnedSays(plan, namespace, services, quota, d, e);
    BoundErrorsEach(services, d, e);
  }

  lemma NotMismatch(e: PlanError)
    requires OfActions(e) || OfBounds(e)
    ensures e != NamespaceMismatch
  {
  }

  // ---------------------------------------------------------------- applying a valid plan

  /**
   * The rehearsal namespace as the Kubernetes client sees it: Deployments, autoscalers, the ConfigMaps there are, and
   * the autoscalers the API server lets go down to zero replicas.
   */
  datatype RehearsalCluster =
    RehearsalCluster(replicas: map<string, int>, requests: map<string, Requests>, hpa: map<string, Bounds>,
                     modes: map<string, string>, configMaps: set<string>, reachZero: set<string>)

  const PREFIX := "kc-rehearsal-"

  predicate InRehearsal(namespace: string) {
    PREFIX <= namespace
  }

  function ConfigMapOf(service: string): string {
    service + "-config"
  }

  /**
   * None stands for an exception: a missing object, a missing parameter, a foreign namespace, or a patch the API server
   * refuses. The resource patch is a merge patch, so its container list, one container without an image, replaces the
   * whole list: it is always refused.
   */
  function ApplyAction(c: RehearsalCluster, a: CouncilAction): Option<RehearsalCluster> {
    if !InRehearsal(a.namespace) then None
    else
      match a.kind
      case ScaleTo =>
        if a.service in c.replicas && a.parameters.Replicas?
        then Some(c.(replicas := c.replicas[a.service := a.parameters.count])) else None
      case SetHpaBounds =>
        if a.service in c.hpa && a.parameters.HpaRange? && (1 <= a.parameters.minimum || a.service in c.reachZero)
        then Some(c.(hpa := c.hpa[a.service := Bounds(a.parameters.minimum, a.parameters.maximum)])) else None
      case SetResourceRequests => None
      case SetConfigMode =>
        if ConfigMapOf(a.service) in c.configMaps && a.service in c.replicas && a.parameters.Mode?
        then Some(c.(modes := c.modes[a.service := a.parameters.mode])) else None
      case Suspend => if a.service in c.replicas then Some(c.(replicas := c.replicas[a.service := 0])) else None
      case Restore => if a.service in c.replicas then Some(c) else None
  }

  function ApplyActions(c: RehearsalCluster, actions: seq<CouncilAction>): Option<RehearsalCluster> {
    if actions == [] then Some(c)
    else
      var before := ApplyActions(c, actions[..|actions| - 1]);
      if before.None? then None else ApplyAction(before.value, actions[|actions| - 1])
  }

  /** The cluster the profiles were taken from. */
  predicate Matches(c: RehearsalCluster, p: map<string, ServiceProfile>) {
    && c.replicas.Keys == c.requests.Keys == p.Keys && c.hpa.Keys <= p.Keys
    && (forall n <- p :: c.replicas[n] == p[n].current && c.requests[n] == p[n].requests)
    && (forall n <- p :: n in c.hpa <==> p[n].hpa.Some?)
    && (forall n <- c.hpa :: p[n].hpa == Some(c.hpa[n]))
  }

  /** The same objects exist, with the drafted values. */
  predicate Agrees(c: RehearsalCluster, d: Draft, start: RehearsalCluster) {
    && c.replicas == d.replicas && c.requests == d.requests
    && c.hpa.Keys == start.hpa.Keys && c.configMaps == start.configMaps && c.reachZero == start.reachZero
    && forall n <- c.hpa :: n in d.hpa && c.hpa[n] == d.hpa[n]
  }

  /**
   * What validation does not look at: the action sets no resource requests, and the autoscaler or ConfigMap it patches
   * exists and takes the patch.
   */
  predicate Applicable(a: CouncilAction, c: RehearsalCluster) {
    match a.kind
    case SetResourceRequests => false
    case SetHpaBounds =>
      a.service in c.hpa && a.parameters.HpaRange? && (1 <= a.parameters.minimum || a.service in c.reachZero)
    case SetConfigMode => ConfigMapOf(a.service) in c.configMaps
    case _ => true
  }

  lemma StepApplies(c: RehearsalCluster, d: Draft, a: CouncilAction, namespace: string, p: map<string, ServiceProfile>,
                    start: RehearsalCluster)
    requires Agrees(c, d, start) && InRehearsal(namespace)
    requires d.replicas.Keys == d.requests.Keys == d.hpa.Keys == p.Keys
    requires ValidateAction(d, a, namespace, p).errors == []
    requires a.kind.Restore? && a.service in p ==>
               d.replicas[a.service] == Max(p[a.service].current, p[a.service].minimum)
    ensures ApplyAction(c, a).Some? <==> Applicable(a, start)
  {
  }

  lemma StepAgrees(c: RehearsalCluster, d: Draft, a: CouncilAction, namespace: string, p: map<string, ServiceProfile>,
                   start: RehearsalCluster)
    requires Agrees(c, d, start) && InRehearsal(namespace)
    requires d.replicas.Keys == d.requests.Keys == d.hpa.Keys == p.Keys
    requires ValidateAction(d, a, namespace, p).errors == []
    requires a.kind.Restore? && a.service in p ==>
               d.replicas[a.service] == Max(p[a.service].current, p[a.service].minimum)
    ensures ApplyAction(c, a).Some? <==> Applicable(a, start)
    ensures ApplyAction(c, a).Some? ==> Agrees(ApplyAction(c, a).value, ValidateAction(d, a, namespace, p), start)
  {
    StepApplies(c, d, a, namespace, p, start);
    hide Applicable;
    match a.kind {
      case ScaleTo =>
      case SetHpaBounds =>
      case _ =>
    }
  }

  lemma {:induction false} ApplyingAgrees(c: RehearsalCluster, actions: seq<CouncilAction>, namespace: string,
                                          p: map<string, ServiceProfile>)
    requires Matches(c, p) && InRehearsal(namespace) && forall n <- p :: ValidService(p[n])
    requires ValidateActions(InitialDraft(p, []), actions, namespace, p).errors == []
    ensures ApplyActions(c, actions).Some? <==> forall a <- actions :: Applicable(a, c)
    ensures ApplyActions(c, actions).Some? ==>
              Agrees(ApplyActions(c, actions).value, ValidateActions(InitialDraft(p, []), actions, namespace, p), c)
  {
    hide ValidateAction, ApplyAction, Agrees, Applicable, Reflects;
    var start := InitialDraft(p, []);
    if actions == [] {
      MatchingAgrees(c, p);
    } else {
      var before, last := actions[..|actions| - 1], actions[|actions| - 1];
      assert actions == before + [last];
      var d := ValidateActions(start, before, namespace, p);
      StepAccepted(d, last, namespace, p);
      ActionsAccepted(start, before, namespace, p);
      ActionsReflected(before, namespace, p);
      DraftCovers(start, before, namespace, p);
      ApplyingAgrees(c, before, namespace, p);
      RestoreFindsCurrent(d, before, last, namespace, p);
      if ApplyActions(c, before).Some? {
        StepAgrees(ApplyActions(c, before).value, d, last, namespace, p, c);
      }
    }
  }

  lemma RestoreFindsCurrent(d: Draft, before: seq<CouncilAction>, a: CouncilAction, namespace: string,
                            p: map<string, ServiceProfile>)
    requires Reflects(d, before, p) && Key(a) !in KeySet(before) && forall n <- p :: ValidService(p[n])
    requires a.service in p ==> a.service in d.replicas
    ensures a.kind.Restore? && a.service in p ==>
              d.replicas[a.service] == Max(p[a.service].current, p[a.service].minimum)
  {
    if a.kind.Restore? && a.service in p {
      assert NameUntouched(d, a.service, KeySet(before), p[a.service]);
    }
  }

  lemma MatchingAgrees(c: RehearsalCluster, p: map<string, ServiceProfile>)
    requires Matches(c, p)
    ensures Agrees(c, InitialDraft(p, []), c)
  {
  }

  /**
   * Applying a valid plan action by action reaches what was validated if and only if no action sets resource requests,
   * every autoscaler and ConfigMap an action patches exists, and no autoscaler is refused a minimum of zero.
   */
  lemma AppliedAsValidated(c: RehearsalCluster, plan: CouncilPlan, namespace: string, services: seq<ServiceProfile>,
                           quota: Requests)
    requires Verdict(plan, namespace, services, quota) == ValidPlan && Matches(c, Profiles(services))
    requires InRehearsal(namespace) && forall s <- services :: ValidService(s)
    ensures ApplyActions(c, plan.actions).Some? <==> forall a <- plan.actions :: Applicable(a, c)
    ensures ApplyActions(c, plan.actions).Some? ==>
              Agrees(ApplyActions(c, plan.actions).value, Allocation(plan.actions, false, namespace, services), c)
  {
    hide Agrees, Applicable, ApplyActions, BoundErrors, DependencyErrors, TotalCpu, TotalMemory, Matches;
    hide ValidService;
    hide ValidateActions, Profiles, Names, Within, ActionOk, KeysDistinct;
    var p := Profiles(services);
    PlanVerdict(plan, namespace, services, quota);
    assert forall n <- p :: ValidService(p[n]);
    ActionsAccepted(InitialDraft(p, []), plan.actions, namespace, p);
    ApplyingAgrees(c, plan.actions, namespace, p);
  }

  function PlainService(name: string): ServiceProfile {
    ServiceProfile(name, 1, 1, 1, Requests(0, 0), Important, [], [], false, None)
  }

  function RequestPlan(namespace: string, service: string, cpu: nat, memory: nat): CouncilPlan {
    CouncilPlan(namespace, [CouncilAction(SetResourceRequests, service, namespace, Resources(cpu, memory))], "")
  }

  lemma OneAction(d: Draft, a: CouncilAction, namespace: string, p: map<string, ServiceProfile>)
    ensures ValidateActions(d, [a], namespace, p) == ValidateAction(d, a, namespace, p)
  {
    hide ValidateAction;
    assert [a][..0] == [];
    assert ValidateActions(d, [], namespace, p) == d;
  }

  lemma OneProfile(s: ServiceProfile)
    ensures Profiles([s]) == map[s.name := s] && Names([s]) == [s.name]
  {
    assert [s][..0] == [];
    assert Profiles([]) == map[] && Names([]) == [];
  }

  lemma RequestAllocation(namespace: string, service: string, cpu: nat, memory: nat)
    ensures var s, plan := PlainService(service), RequestPlan(namespace, service, cpu, memory);
            && Profiles([s]) == map[service := s] && Names([s]) == [service]
            && var d := Allocation(plan.actions, false, namespace, [s]);
            && d.replicas[service] == 1 && d.requests[service] == Requests(cpu, memory)
            && d.hpa[service] == HpaOf(s)
  {
    hide ValidateActions, Profiles, Names;
    var s, plan := PlainService(service), RequestPlan(namespace, service, cpu, memory);
    OneProfile(s);
    OneAction(InitialDraft(Profiles([s]), []), plan.actions[0], namespace, Profiles([s]));
    assert plan.actions == [plan.actions[0]];
  }

  lemma RequestPlanIsValid(namespace: string, service: string, cpu: nat, memory: nat)
    ensures Verdict(RequestPlan(namespace, service, cpu, memory), namespace, [PlainService(service)],
                    Requests(cpu, memory)) == ValidPlan
  {
    hide Allocation, Names, Profiles, Verdict;
    var plan, s := RequestPlan(namespace, service, cpu, memory), PlainService(service);
    var d := Allocation(plan.actions, false, namespace, [s]);
    RequestAllocation(namespace, service, cpu, memory);
    assert [service][..0] == [];
    assert TotalCpu([service], d) == cpu && TotalMemory([service], d) == memory;
    PlanVerdict(plan, namespace, [s], Requests(cpu, memory));
  }

  /** The smallest failure: a valid plan with one resource-request action is refused by every cluster. */
  lemma ValidPlanNeverApplies(namespace: string, service: string, cpu: nat, memory: nat, c: RehearsalCluster)
    ensures ValidService(PlainService(service))
    ensures Verdict(RequestPlan(namespace, service, cpu, memory), namespace, [PlainService(service)],
                    Requests(cpu, memory)) == ValidPlan
    ensures ApplyActions(c, RequestPlan(namespace, service, cpu, memory).actions).None?
  {
    hide Verdict;
    RequestPlanIsValid(namespace, service, cpu, memory);
  }

  // ---------------------------------------------------------------- the validator

  class CouncilPlanValidator {
    constructor () {
    }

    method CheckBounds(services: seq<ServiceProfile>, d: Draft) returns (errors: seq<PlanError>)
      requires forall s <- services :: s.name in d.replicas && s.name in d.hpa
      ensures errors == BoundErrors(services, d)
    {
      errors := [];
      for i := 0 to |services|
        invariant errors == BoundErrors(services[..i], d)
      {
        var service := services[i];
        assert services[..i + 1][..i] == services[..i];
        errors := errors + BoundErrorsOf(service, d.replicas[service.name], d.hpa[service.name]);
      }
      assert services[..|services|] == services;
    }

    method CheckDependencies(services: seq<ServiceProfile>, d: Draft, p: map<string, ServiceProfile>)
      returns (errors: seq<PlanError>)
      requires p.Keys <= d.replicas.Keys
      ensures errors == DependencyErrors(services, d, p)
    {
      errors := [];
      for i := 0 to |services|
        invariant errors == DependencyErrors(services[..i], d, p)
      {
        var service := services[i];
        assert services[..i + 1][..i] == services[..i];
        var more := [];
        if service.criticality.Critical? {
          for j := 0 to |service.dependencies|
            invariant more == DependencyErrorsOf(service, service.dependencies[..j], d, p)
          {
            var name := service.dependencies[j];
            assert service.dependencies[..j + 1][..j] == service.dependencies[..j];
            if name in p && d.replicas[name] < p[name].minimum {
              more := more + [DependencyReduced(service.name, name)];
            }
          }
          assert service.dependencies[..|service.dependencies|] == service.dependencies;
        }
        errors := errors + more;
      }
      assert services[..|services|] == services;
    }

    method SumRequests(names: seq<string>, d: Draft) returns (cpu: int, memory: int)
      requires forall n <- names :: n in d.replicas && n in d.requests
      ensures cpu == TotalCpu(names, d) && memory == TotalMemory(names, d)
    {
      cpu, memory := 0, 0;
      for i := 0 to |names|
        invariant cpu == TotalCpu(names[..i], d) && memory == TotalMemory(names[..i], d)
      {
        assert names[..i + 1][..i] == names[..i];
        cpu := cpu + d.replicas[names[i]] * d.requests[names[i]].cpu;
        memory := memory + d.replicas[names[i]] * d.requests[names[i]].memory;
      }
      assert names[..|names|] == names;
    }

    method CheckActions(start: Draft, actions: seq<CouncilAction>, namespace: string, p: map<string, ServiceProfile>)
      returns (d: Draft)
      ensures d == ValidateActions(start, actions, namespace, p)
    {
      hide ValidateAction;
      d := start;
      for i := 0 to |actions|
        invariant d == ValidateActions(start, actions[..i], namespace, p)
      {
        assert actions[..i + 1][..i] == actions[..i];
        d := ValidateAction(d, actions[i], namespace, p);
      }
      assert actions[..|actions|] == actions;
    }

    /** Runs every check even after a failure, so that a repair sees all errors. */
    method Validate(plan: CouncilPlan, namespace: string, services: seq<ServiceProfile>, quota: Requests)
      returns (status: PlanStatus, errors: seq<PlanError>)
      ensures status == Verdict(plan, namespace, services, quota)
      ensures status == InvalidPlan <==> errors != []
      ensures plan.infeasibleReason == "" ==> errors == AllErrors(plan, namespace, services, quota)
    {
      hide ValidateActions, BoundErrors, DependencyErrors, TotalCpu, TotalMemory, Profiles, Names;
      var p := Profiles(services);
      errors := if plan.namespace != namespace then [NamespaceMismatch] else [];
      if plan.infeasibleReason != "" {
        if plan.actions != [] {
          errors := errors + [InfeasibleWithActions];
        }
        return if errors != [] then InvalidPlan else InfeasiblePlan, errors;
      }
      var d := CheckActions(InitialDraft(p, errors), plan.actions, namespace, p);
      DraftCovers(InitialDraft(p, errors), plan.actions, namespace, p);
      errors := d.errors;
      var more := CheckBounds(services, d);
      errors := errors + more;
      more := CheckDependencies(services, d, p);
      errors := errors + more;
      var cpu, memory := SumRequests(Names(services), d);
      more := [];
      if quota.cpu < cpu {
        more := more + [CpuOverQuota];
      }
      if quota.memory < memory {
        more := more + [MemoryOverQuota];
      }
      errors := errors + more;
      status := if errors != [] then InvalidPlan else ValidPlan;
    }
  }
}
