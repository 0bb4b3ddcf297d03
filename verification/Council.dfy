/** One specialist of the council: a bounded loop of analyses and gateway queries, for any model behaviour. */
module Council {
  import opened Wrappers
  import opened Incidents
  import opened RecordOperations
  import opened RecordInvariants
  import opened IncidentStores
  import opened ProtocolInvariants
  import opened Hosts
  import opened EvidenceGateway

  function KindsOf(role: SpecialistRole): set<EvidenceQueryKind> {
    match role
    case Health => {WorkloadState, PodEvents}
    case Logs => {PodLogs}
    case Metrics => {MetricsQuery, AlertPolicy}
    case Change => {ChangeHistory}
  }

  predicate HasRoleEvidence(r: InvestigationRecord, role: SpecialistRole) {
    exists e <- r.evidence :: e.query in KindsOf(role)
  }

  predicate MappingAllowed(r: InvestigationRecord, role: SpecialistRole, identifier: string) {
    exists m <- r.profile.evidenceMappings :: m.identifier == identifier && m.kind in KindsOf(role)
  }

  /** Any answer a model, its validation or its deadline may give. */
  datatype Analysis =
    | FindingProduced(finding: SpecialistFinding)
    | QueryRequested(identifier: string)
    | Malformed | DeadlineExceeded | InvocationFailed

  datatype SpecialistStatus = SpecialistSucceeded | SpecialistFailed | SpecialistTimedOut | InvestigationAborted

  function InvocationsOf(items: seq<ModelInvocation>, role: SpecialistRole): (r: seq<ModelInvocation>)
    ensures forall m <- r :: m in items && m.role == Some(role)
  {
    if items == [] then []
    else
      var last := items[|items| - 1];
      var rest := InvocationsOf(items[..|items| - 1], role);
      if last.role == Some(role) then rest + [last] else rest
  }

  function ToolCalls(items: seq<ModelInvocation>): nat {
    if items == [] then 0 else ToolCalls(items[..|items| - 1]) + items[|items| - 1].toolCount
  }

  lemma {:induction false} InvocationsOfAppend(items: seq<ModelInvocation>, m: ModelInvocation, role: SpecialistRole)
    ensures InvocationsOf(items + [m], role) == InvocationsOf(items, role) + if m.role == Some(role) then [m] else []
  {
    assert (items + [m])[..|items|] == items;
  }

  lemma ToolCallsAppend(items: seq<ModelInvocation>, m: ModelInvocation)
    ensures ToolCalls(items + [m]) == ToolCalls(items) + m.toolCount
  {
    assert (items + [m])[..|items|] == items;
  }

  function FindingsOf(findings: seq<SpecialistFinding>, role: SpecialistRole): (r: seq<SpecialistFinding>)
    ensures forall f <- r :: f in findings && f.specialist == role
  {
    if findings == [] then []
    else
      var last := findings[|findings| - 1];
      FindingsOf(findings[..|findings| - 1], role) + if last.specialist == role then [last] else []
  }

  lemma FindingsOfAppend(findings: seq<SpecialistFinding>, f: SpecialistFinding)
    ensures FindingsOf(findings + [f], f.specialist) == FindingsOf(findings, f.specialist) + [f]
  {
    assert (findings + [f])[..|findings|] == findings;
  }

  /** One answer of the model, with the record as it was when the answer arrived. */
  datatype Heard = Heard(answer: Analysis, record: InvestigationRecord)

  /** A query of this round can be put: an allowlisted mapping of the role, a provider, and budget left. */
  predicate Askable(r: InvestigationRecord, role: SpecialistRole, identifier: string, round: nat,
                    sources: set<EvidenceSource>)
  {
    && WithinBudget(r, role, round)
    && exists m <- r.profile.evidenceMappings ::
         m.identifier == identifier && m.kind in KindsOf(role) && m.source in sources
  }

  /** What a specialist's run comes to: queries first, and then the verdict on the last answer. */
  predicate RunEnds(news: seq<Heard>, id: Ident, role: SpecialistRole, status: SpecialistStatus) {
    && (forall k | 0 <= k < |news| - 1 :: news[k].answer.QueryRequested?)
    && if news == [] then status == SpecialistFailed
       else
         var last := news[|news| - 1];
         match last.answer
         case FindingProduced(f) =>
           if f.incidentId != id || f.specialist != role then status == SpecialistFailed
           else if FindingFits(last.record, f) then status == SpecialistSucceeded
           else status == InvestigationAborted
         case DeadlineExceeded => status == SpecialistTimedOut
         case _ => status == SpecialistFailed
  }

  /** The finding a successful run ends with. */
  function Reported(news: seq<Heard>, status: SpecialistStatus): seq<SpecialistFinding> {
    if status.SpecialistSucceeded? && news != [] && news[|news| - 1].answer.FindingProduced?
    then [news[|news| - 1].answer.finding]
    else []
  }

  /** What the other specialists, and operators, may do to the record while this one waits for its model. */
  predicate OthersOnly(role: SpecialistRole, a: InvestigationRecord, b: InvestigationRecord) {
    && b.incident.incidentId == a.incident.incidentId && b.profile == a.profile && b.window == a.window
    && a.evidence <= b.evidence && a.queries <= b.queries && a.invocations <= b.invocations && a.events <= b.events
    && QueriesOf(b.queries, role) == QueriesOf(a.queries, role)
    && InvocationsOf(b.invocations, role) == InvocationsOf(a.invocations, role)
    && FindingsOf(b.findings, role) == FindingsOf(a.findings, role)
  }

  lemma InvocationKeepsBudget(r: InvestigationRecord, m: ModelInvocation, next: nat)
    requires Investigable(r, next) && m.incidentId == r.incident.incidentId && m.invocationId == Uuid(next)
    ensures var s := Apply(r, AppendInvocation(m));
            && s == Success(r.(invocations := r.invocations + [m]))
            && Investigable(r.(invocations := r.invocations + [m]), next + 1)
  {
    hide QueriesOf;
    InvocationValid(r, m);
    hide ValidRecord;
    assert forall x <- r.invocations :: x.invocationId != m.invocationId;
  }

  lemma InvocationValid(r: InvestigationRecord, m: ModelInvocation)
    requires ValidRecord(r) && m.incidentId == r.incident.incidentId
    ensures ValidRecord(r.(invocations := r.invocations + [m]))
  {
    hide ValidProfile, ValidPolicyDecision, ValidApproval, ValidAssessment;
    var s := r.(invocations := r.invocations + [m]);
    assert Grounded(s) by {
      assert forall id :: HasQuery(r, id) == HasQuery(s, id);
      assert forall id :: HasEvidence(r, id) == HasEvidence(s, id);
    }
    assert Authorized(s) by {
      assert PolicyIsPassed(r) == PolicyIsPassed(s);
      assert forall id :: HasApproval(r, id) == HasApproval(s, id);
      assert forall id :: HasIntervention(r, id) == HasIntervention(s, id);
    }
  }

  /** How far a specialist's own part of the record has moved. */
  predicate Progressed(a: InvestigationRecord, b: InvestigationRecord, role: SpecialistRole, analyses: nat,
                       answered: nat, asked: nat)
  {
    && b.profile == a.profile
    && |InvocationsOf(b.invocations, role)| == |InvocationsOf(a.invocations, role)| + analyses
    && ToolCalls(InvocationsOf(b.invocations, role)) == ToolCalls(InvocationsOf(a.invocations, role)) + answered
    && |QueriesOf(b.queries, role)| == |QueriesOf(a.queries, role)| + asked
  }

  class BoundedIncidentCouncil {
    const store: InMemoryIncidentStore
    const host: Host
    const gateway: EvidenceQueryGateway
    ghost var heard: seq<Heard>

    constructor (gateway: EvidenceQueryGateway)
      ensures this.gateway == gateway && store == gateway.store && host == gateway.host
    {
      this.gateway, this.store, this.host := gateway, gateway.store, gateway.host;
      heard := [];
    }

    ghost predicate Ready(id: Ident)
      reads gateway.store, gateway.host
    {
      store == gateway.store && host == gateway.host && gateway.Ready(id)
    }

    /** Waits for the model; meanwhile the other specialists go on. */
    method Analyze(id: Ident, role: SpecialistRole) returns (a: Analysis)
      requires Ready(id)
      modifies store, host`nextUuid, this`heard
      ensures Ready(id) && heard == old(heard) + [Heard(a, store.records[id])]
      ensures store.records == old(store.records)[id := store.records[id]]
      ensures OthersOnly(role, old(store.records)[id], store.records[id])
      ensures Progressed(old(store.records)[id], store.records[id], role, 0, 0, 0)
    {
      hide Investigable, QueriesOf, InvocationsOf, ToolCalls;
      var later: nat, moved: InvestigationRecord := *, *;
      if host.nextUuid <= later && OthersOnly(role, store.records[id], moved) && Investigable(moved, later) {
        store.records := store.records[id := moved];
        host.nextUuid := later;
      }
      a := *;
      heard := heard + [Heard(a, store.records[id])];
    }

    method AppendInvocation(id: Ident, role: SpecialistRole, valid: bool, tools: nat)
      requires Ready(id)
      modifies store, host`nextUuid
      ensures Ready(id)
      ensures Progressed(old(store.records)[id], store.records[id], role, 1, tools, 0)
      ensures store.records == old(store.records)[id := store.records[id]]
      ensures SameReports(old(store.records)[id], store.records[id])
    {
      hide Investigable, Apply, QueriesOf, InvocationsOf, ToolCalls;
      var invocationId := host.FreshId();
      var invocation := ModelInvocation(invocationId, id, Some(role), tools, valid);
      InvocationKeepsBudget(store.records[id], invocation, old(host.nextUuid));
      InvocationsOfAppend(store.records[id].invocations, invocation, role);
      ToolCallsAppend(InvocationsOf(store.records[id].invocations, role), invocation);
      var appended := store.Perform(id, StoreOp.AppendInvocation(invocation));
    }

    method Audit(id: Ident, role: SpecialistRole, name: string)
      requires Ready(id)
      modifies store, host`nextUuid
      ensures Ready(id)
      ensures Progressed(old(store.records)[id], store.records[id], role, 0, 0, 0)
      ensures store.records == old(store.records)[id := store.records[id]]
      ensures SameReports(old(store.records)[id], store.records[id])
    {
      hide Investigable, QueriesOf, InvocationsOf, ToolCalls;
      gateway.Audit(id, name, "incident-council");
    }

    method Fail(id: Ident, role: SpecialistRole, status: SpecialistStatus) returns (r: SpecialistStatus)
      requires Ready(id)
      modifies store, host`nextUuid
      ensures Ready(id) && r == status
      ensures Progressed(old(store.records)[id], store.records[id], role, 1, 0, 0)
      ensures store.records == old(store.records)[id := store.records[id]]
      ensures store.records[id].findings == old(store.records)[id].findings
    {
      hide Investigable, QueriesOf, InvocationsOf, ToolCalls;
      AppendInvocation(id, role, false, 0);
      Audit(id, role, if status.SpecialistTimedOut? then "specialist_timed_out" else "specialist_failed");
      r := status;
    }

    /** Puts a permitted query to the gateway. */
    method AskGateway(id: Ident, role: SpecialistRole, identifier: string, round: nat)
      returns (answered: bool, ghost asked: nat)
      requires Ready(id)
      modifies store, host`nextUuid, gateway.adapters.Values
      ensures Ready(id)
      ensures store.records == old(store.records)[id := store.records[id]]
      ensures Progressed(old(store.records)[id], store.records[id], role, 0, 0, asked)
      ensures asked <= 1 && (answered ==> asked == 1)
      ensures asked == 1 <==> Askable(old(store.records)[id], role, identifier, round, gateway.adapters.Keys)
      ensures store.records[id].findings == old(store.records)[id].findings
    {
      hide Investigable, QueriesOf, InvocationsOf, ToolCalls, WithinBudget, AnswersQuery, Keepable, Carries;
      hide AskedOften, Timely, Noted, Progressed, BudgetKept;
      answered, asked := false, 0;
      var before := store.records[id];
      if !MappingAllowed(before, role, identifier) {
        Unmoved(before, role);
        return;
      }
      ghost var m :| m in before.profile.evidenceMappings && m.identifier == identifier && m.kind in KindsOf(role);
      MappingsAreDistinct(before, host.nextUuid, identifier);
      var r := gateway.Execute(id, role, identifier, round);
      asked := QueriesAfter(before, store.records[id], role, round, r.Success?);
      answered := r.Success?;
    }

    /** A query request: answered with one tool call, or the end of the specialist's run. */
    method Query(id: Ident, role: SpecialistRole, identifier: string, completed: nat)
      returns (answered: bool, ghost asked: nat)
      requires Ready(id) && completed <= 2
      modifies store, host`nextUuid, gateway.adapters.Values
      ensures Ready(id)
      ensures store.records == old(store.records)[id := store.records[id]]
      ensures Progressed(old(store.records)[id], store.records[id], role, 1, if answered then 1 else 0, asked)
      ensures asked <= 1 && (answered ==> asked == 1)
      ensures asked == 1 <==>
                completed < 2
                && Askable(old(store.records)[id], role, identifier, completed + 1, gateway.adapters.Keys)
      ensures store.records[id].findings == old(store.records)[id].findings
    {
      hide Investigable, QueriesOf, InvocationsOf, ToolCalls, WithinBudget, Askable;
      answered, asked := false, 0;
      if completed < 2 {
        answered, asked := AskGateway(id, role, identifier, completed + 1);
      }
      AppendInvocation(id, role, true, if answered then 1 else 0);
      if !answered {
        Audit(id, role, "specialist_failed");
      }
    }

    /** The finding that ends a successful run is recorded; one that does not fit aborts the whole investigation. */
    method Report(id: Ident, role: SpecialistRole, finding: SpecialistFinding) returns (status: SpecialistStatus)
      requires Ready(id)
      modifies store, host`nextUuid
      ensures Ready(id) && store.records == old(store.records)[id := store.records[id]]
      ensures Progressed(old(store.records)[id], store.records[id], role, 1, 0, 0)
      ensures status == if FindingFits(old(store.records)[id], finding) then SpecialistSucceeded
                        else InvestigationAborted
      ensures store.records[id].findings ==
              old(store.records)[id].findings
              + if FindingFits(old(store.records)[id], finding) then [finding] else []
    {
      hide Investigable, QueriesOf, InvocationsOf, ToolCalls, ApplyFinding, FindingFits;
      AppendInvocation(id, role, true, 0);
      ghost var before := store.records[id];
      SameFit(old(store.records)[id], before, finding);
      FindingAccepted(before, finding, host.nextUuid);
      var recorded := store.Perform(id, StoreOp.AppendFinding(finding));
      if recorded.Failure? {
        return InvestigationAborted;
      }
      FindingKeepsBudget(before, finding, host.nextUuid);
      Audit(id, role, "specialist_completed");
      status := SpecialistSucceeded;
    }

    /** The last answer of a run: a finding of this specialist is reported, anything else fails. */
    method Conclude(id: Ident, role: SpecialistRole, answer: Analysis) returns (status: SpecialistStatus)
      requires Ready(id) && !answer.QueryRequested?
      modifies store, host`nextUuid
      ensures Ready(id) && store.records == old(store.records)[id := store.records[id]]
      ensures Progressed(old(store.records)[id], store.records[id], role, 1, 0, 0)
      ensures RunEnds([Heard(answer, old(store.records)[id])], id, role, status)
      ensures FindingsOf(store.records[id].findings, role) ==
              FindingsOf(old(store.records)[id].findings, role)
              + Reported([Heard(answer, old(store.records)[id])], status)
    {
      hide Investigable, QueriesOf, InvocationsOf, ToolCalls, FindingsOf, FindingFits, Progressed;
      if answer.FindingProduced? && answer.finding.incidentId == id && answer.finding.specialist == role {
        ghost var before := store.records[id].findings;
        FindingsOfAppend(before, answer.finding);
        assert before + [] == before;
        status := Report(id, role, answer.finding);
      } else {
        status := Fail(id, role, if answer.DeadlineExceeded? then SpecialistTimedOut else SpecialistFailed);
      }
    }

    /**
     * At most three analyses, each with one invocation record, and at most two queries, for any model behaviour. The
     * last answer decides: a fitting finding is recorded and succeeds, one that does not fit aborts.
     */
    method RunSpecialist(id: Ident, role: SpecialistRole)
      returns (status: SpecialistStatus, ghost analyses: nat, ghost asked: nat)
      requires Ready(id)
      modifies store, host`nextUuid, gateway.adapters.Values, this`heard
      ensures id in store.records && BudgetKept(store.records[id])
      ensures old(heard) <= heard && |heard| == |old(heard)| + analyses
      ensures analyses == 0 <==> !HasRoleEvidence(old(store.records)[id], role)
      ensures RunEnds(heard[|old(heard)|..], id, role, status)
      ensures FindingsOf(store.records[id].findings, role) ==
              FindingsOf(old(store.records)[id].findings, role)
              + Reported(heard[|old(heard)|..], status)
      ensures analyses <= 3 && asked <= 2
      ensures asked <= store.records[id].profile.evidenceBudget.queriesPerSpecialist
      ensures exists answered: nat ::
                answered <= asked <= answered + 1 && answered <= analyses <= answered + 1
                && Progressed(old(store.records)[id], store.records[id], role, analyses, answered, asked)
    {
      hide Investigable, QueriesOf, InvocationsOf, ToolCalls, BudgetKept, FindingsOf, FindingFits, RunEnds, Askable;
      hide Progressed;
      ghost var start := store.records[id];
      Audit(id, role, "specialist_started");
      if !HasRoleEvidence(store.records[id], role) {
        ghost var between := store.records[id];
        Audit(id, role, "specialist_failed");
        ProgressedThen(start, between, store.records[id], role, 0, 0, 0, 0, 0, 0);
        AskedWithinBudget(start, store.records[id], host.nextUuid, role, 0, 0, 0);
        RunEndsAfter([], Heard(DeadlineExceeded, start), id, role);
        assert heard[|old(heard)|..] == [];
        return SpecialistFailed, 0, 0;
      }
      ghost var between, answered := store.records[id], 0;
      status, analyses, answered, asked := Rounds(id, role);
      ProgressedThen(start, between, store.records[id], role, 0, 0, 0, analyses, answered, asked);
      AskedWithinBudget(start, store.records[id], host.nextUuid, role, analyses, answered, asked);
    }

    /** The analyses themselves: queries until an answer ends the run. */
    method Rounds(id: Ident, role: SpecialistRole)
      returns (status: SpecialistStatus, ghost analyses: nat, ghost answered: nat, ghost asked: nat)
      requires Ready(id)
      modifies store, host`nextUuid, gateway.adapters.Values, this`heard
      ensures Ready(id) && store.records.Keys == old(store.records).Keys
      ensures old(heard) <= heard && |heard| == |old(heard)| + analyses && 1 <= analyses <= 3 && asked <= 2
      ensures answered <= asked <= answered + 1 && answered <= analyses <= answered + 1
      ensures Progressed(old(store.records)[id], store.records[id], role, analyses, answered, asked)
      ensures RunEnds(heard[|old(heard)|..], id, role, status)
      ensures FindingsOf(store.records[id].findings, role) ==
              FindingsOf(old(store.records)[id].findings, role)
              + Reported(heard[|old(heard)|..], status)
    {
      hide Investigable, QueriesOf, InvocationsOf, ToolCalls, BudgetKept, FindingsOf, FindingFits, RunEnds, Askable;
      hide Progressed, HasRoleEvidence;
      analyses, answered, asked := 0, 0, 0;
      var completed := 0;
      ghost var start, news: seq<Heard> := store.records[id], [];
      Unmoved(start, role);
      while true
        invariant store.records.Keys == old(store.records).Keys
        invariant Ready(id) && completed <= 2
        invariant analyses == answered == asked == completed
        invariant heard == old(heard) + news && |news| == completed
        invariant forall k | 0 <= k < |news| :: news[k].answer.QueryRequested?
        invariant FindingsOf(store.records[id].findings, role) == FindingsOf(start.findings, role)
        invariant Progressed(start, store.records[id], role, analyses, answered, asked)
        decreases 2 - completed
      {
        ghost var before := store.records[id];
        var analysis := Analyze(id, role);
        ghost var waited := store.records[id];
        ProgressedThen(start, before, waited, role, completed, completed, completed, 0, 0, 0);
        RunEndsAfter(news, Heard(analysis, waited), id, role);
        analyses := analyses + 1;
        if !analysis.QueryRequested? {
          status := Conclude(id, role, analysis);
          assert heard[|old(heard)|..] == news + [Heard(analysis, waited)];
          ProgressedThen(start, waited, store.records[id], role, completed, completed, completed, 1, 0, 0);
          return;
        }
        var replied, more := Query(id, role, analysis.identifier, completed);
        ProgressedThen(start, waited, store.records[id], role, completed, completed, completed, 1,
                       if replied then 1 else 0, more);
        asked := asked + more;
        if !replied {
          status := SpecialistFailed;
          assert heard[|old(heard)|..] == news + [Heard(analysis, waited)];
          return;
        }
        news := news + [Heard(analysis, waited)];
        answered, completed := answered + 1, completed + 1;
      }
    }
  }

  lemma ProgressedThen(a: InvestigationRecord, b: InvestigationRecord, c: InvestigationRecord, role: SpecialistRole,
                       analyses: nat, answered: nat, asked: nat, more: nat, tools: nat, queries: nat)
    requires Progressed(a, b, role, analyses, answered, asked) && Progressed(b, c, role, more, tools, queries)
    ensures Progressed(a, c, role, analyses + more, answered + tools, asked + queries)
  {
  }

  lemma AskedWithinBudget(a: InvestigationRecord, b: InvestigationRecord, next: nat, role: SpecialistRole,
                          analyses: nat, answered: nat, asked: nat)
    requires Investigable(b, next) && Progressed(a, b, role, analyses, answered, asked)
    ensures BudgetKept(b) && asked <= b.profile.evidenceBudget.queriesPerSpecialist
  {
    hide ValidRecord, IdsPast, QueriesOf, InvocationsOf, ToolCalls;
    assert RoleWithinBudget(b.queries, role, b.profile.evidenceBudget.queriesPerSpecialist);
  }

  /** Queries before the last answer leave the verdict to it. */
  lemma RunEndsAfter(news: seq<Heard>, last: Heard, id: Ident, role: SpecialistRole)
    requires forall k | 0 <= k < |news| :: news[k].answer.QueryRequested?
    ensures forall status :: RunEnds([last], id, role, status) ==> RunEnds(news + [last], id, role, status)
    ensures last.answer.QueryRequested? ==> RunEnds(news + [last], id, role, SpecialistFailed)
    ensures RunEnds([], id, role, SpecialistFailed)
  {
  }

  lemma Unmoved(r: InvestigationRecord, role: SpecialistRole)
    ensures Progressed(r, r, role, 0, 0, 0)
  {
  }

  lemma QueriesAfter(a: InvestigationRecord, b: InvestigationRecord, role: SpecialistRole, round: nat, success: bool)
    returns (asked: nat)
    requires Executed(a, b, role, round, success)
    ensures Progressed(a, b, role, 0, 0, asked) && asked <= 1 && (success ==> asked == 1)
    ensures asked == |b.queries| - |a.queries| && b.findings == a.findings
  {
    hide QueriesOf, InvocationsOf, ToolCalls, WithinBudget;
    if b.queries == a.queries {
      asked := 0;
    } else {
      asked := 1;
      var q := b.queries[|a.queries|];
      assert b.queries == a.queries + [q];
      QueriesOfAppend(a.queries, q, role);
    }
  }

  predicate SameReports(a: InvestigationRecord, b: InvestigationRecord) {
    b.findings == a.findings && b.evidence == a.evidence && b.incident.incidentId == a.incident.incidentId
  }

  /** The first finding of its specialist, about this incident, citing recorded evidence only. */
  predicate FindingFits(r: InvestigationRecord, f: SpecialistFinding) {
    && f.incidentId == r.incident.incidentId
    && (forall x <- r.findings :: x.findingId != f.findingId && x.specialist != f.specialist)
    && (forall c <- f.citations :: HasEvidence(r, c))
  }

  lemma SameFit(a: InvestigationRecord, b: InvestigationRecord, f: SpecialistFinding)
    requires SameReports(a, b)
    ensures FindingFits(a, f) <==> FindingFits(b, f)
  {
    assert forall id :: HasEvidence(a, id) == HasEvidence(b, id);
  }

  lemma FindingValid(r: InvestigationRecord, f: SpecialistFinding)
    requires ValidRecord(r) && FindingFits(r, f)
    ensures ValidRecord(r.(findings := r.findings + [f]))
  {
    hide ValidProfile, ValidPolicyDecision, ValidApproval, ValidAssessment;
    var s := r.(findings := r.findings + [f]);
    assert Grounded(s) by {
      assert forall id :: HasQuery(r, id) == HasQuery(s, id);
      assert forall id :: HasEvidence(r, id) == HasEvidence(s, id);
    }
    assert Authorized(s) by {
      assert PolicyIsPassed(r) == PolicyIsPassed(s);
      assert forall id :: HasApproval(r, id) == HasApproval(s, id);
      assert forall id :: HasIntervention(r, id) == HasIntervention(s, id);
    }
  }

  /** The store takes a finding exactly when it fits. */
  lemma FindingAccepted(r: InvestigationRecord, f: SpecialistFinding, next: nat)
    requires Investigable(r, next)
    ensures ApplyFinding(r, f).Success? <==> FindingFits(r, f)
    ensures FindingFits(r, f) ==> ApplyFinding(r, f) == Success(r.(findings := r.findings + [f]))
  {
    if FindingFits(r, f) {
      FindingValid(r, f);
    }
    hide ValidRecord, BudgetKept, IdsPast;
  }

  lemma FindingKeepsBudget(r: InvestigationRecord, f: SpecialistFinding, next: nat)
    requires Investigable(r, next) && ApplyFinding(r, f).Success?
    ensures var s := ApplyFinding(r, f).value;
            Investigable(s, next) && s == r.(findings := s.findings)
  {
    hide ValidRecord, QueriesOf;
  }
}
