/** The deterministic evidence gateway: allowlisted, budgeted queries with one safe retry. */
module EvidenceGateway {
  import opened Wrappers
  import opened Incidents
  import opened RecordOperations
  import opened RecordInvariants
  import opened IncidentStores
  import opened Protocol
  import opened ProtocolInvariants
  import opened ProtocolSteps
  import opened Hosts

  // ---------------------------------------------------------------- budgets

  /** The queries of one specialist, in the order they were recorded. */
  function QueriesOf(queries: seq<EvidenceQuery>, role: SpecialistRole): (r: seq<EvidenceQuery>)
    ensures forall q <- r :: q in queries && q.specialist == role
    ensures |r| <= |queries|
  {
    if queries == [] then []
    else
      var last := queries[|queries| - 1];
      var rest := QueriesOf(queries[..|queries| - 1], role);
      if last.specialist == role then rest + [last] else rest
  }

  predicate RoundsRise(queries: seq<EvidenceQuery>) {
    forall i, j | 0 <= i <= j < |queries| :: queries[i].round <= queries[j].round
  }

  predicate RoleWithinBudget(queries: seq<EvidenceQuery>, role: SpecialistRole, budget: nat) {
    && |QueriesOf(queries, role)| <= budget
    && RoundsRise(QueriesOf(queries, role))
    && forall q <- QueriesOf(queries, role) :: 1 <= q.round <= budget
  }

  predicate OneEvidencePerQuery(evidence: seq<EvidenceObservation>) {
    forall i, j | 0 <= i < j < |evidence| :: evidence[i].queryId.Some? ==> evidence[i].queryId != evidence[j].queryId
  }

  /** What the gateway, as the only writer of queries, keeps for every specialist. */
  predicate BudgetKept(r: InvestigationRecord) {
    && (forall role: SpecialistRole :: RoleWithinBudget(r.queries, role, r.profile.evidenceBudget.queriesPerSpecialist))
    && OneEvidencePerQuery(r.evidence)
  }

  /** Identifiers handed out so far are below `next`. */
  predicate IdsPast(r: InvestigationRecord, next: nat) {
    && EventsPast(r, next)
    && (forall q <- r.queries :: q.queryId.Uuid? ==> q.queryId.serial < next)
    && (forall e <- r.evidence :: e.evidenceId.Uuid? ==> e.evidenceId.serial < next)
    && (forall e <- r.evidence :: e.queryId.Some? && e.queryId.value.Uuid? ==> e.queryId.value.serial < next)
    && (forall f <- r.retrievalFailures :: f.failureId.Uuid? ==> f.failureId.serial < next)
    && (forall m <- r.invocations :: m.invocationId.Uuid? ==> m.invocationId.serial < next)
  }

  predicate Investigable(r: InvestigationRecord, next: nat) {
    ValidRecord(r) && BudgetKept(r) && IdsPast(r, next)
  }

  lemma {:induction false} QueriesOfAppend(queries: seq<EvidenceQuery>, q: EvidenceQuery, role: SpecialistRole)
    ensures QueriesOf(queries + [q], role) == QueriesOf(queries, role) + if q.specialist == role then [q] else []
  {
    assert (queries + [q])[..|queries|] == queries;
  }

  // ---------------------------------------------------------------- mappings and observations

  function FindMapping(mappings: seq<EvidenceMapping>, identifier: string): (r: Option<EvidenceMapping>)
    ensures r.Some? ==> r.value in mappings && r.value.identifier == identifier
    ensures r.None? <==> forall m <- mappings :: m.identifier != identifier
  {
    if mappings == [] then None
    else if mappings[0].identifier == identifier then Some(mappings[0])
    else
      assert mappings == [mappings[0]] + mappings[1..];
      FindMapping(mappings[1..], identifier)
  }

  datatype RawObservation =
    RawObservation(source: EvidenceSource, kind: EvidenceQueryKind, scope: WorkloadReference,
                   observedAt: Option<Time>, itemCount: nat, contentHash: string)

  datatype ProviderAnswer = Answered(raw: RawObservation, late: bool) | Retryable | Fatal

  datatype GatewayError = NotAllowlisted | BudgetExhausted | ProviderUnavailable | ProviderFailed | StoreRefused

  function MaxRound(queries: seq<EvidenceQuery>): (r: nat)
    ensures forall q <- queries :: q.round <= r
    ensures queries != [] ==> exists q <- queries :: q.round == r
  {
    if queries == [] then 0
    else
      var last, rest := queries[|queries| - 1], MaxRound(queries[..|queries| - 1]);
      assert queries == queries[..|queries| - 1] + [last];
      if rest <= last.round then last.round else rest
  }

  predicate BudgetAllows(r: InvestigationRecord, role: SpecialistRole, round: nat) {
    var maximum := r.profile.evidenceBudget.queriesPerSpecialist;
    var prior := QueriesOf(r.queries, role);
    && 1 <= round <= maximum && |prior| < maximum
    && (prior != [] ==> MaxRound(prior) <= round)
  }

  /** The specialist has queries left, and the round is one of its budget and not before an earlier one. */
  predicate WithinBudget(r: InvestigationRecord, role: SpecialistRole, round: nat) {
    var maximum := r.profile.evidenceBudget.queriesPerSpecialist;
    && 1 <= round <= maximum && |QueriesOf(r.queries, role)| < maximum
    && forall q <- r.queries | q.specialist == role :: q.round <= round
  }

  lemma BudgetExactly(r: InvestigationRecord, role: SpecialistRole, round: nat)
    ensures BudgetAllows(r, role, round) <==> WithinBudget(r, role, round)
  {
    forall q <- r.queries | q.specialist == role ensures q in QueriesOf(r.queries, role) {
      QueryIsItsOwn(r.queries, q);
    }
  }

  lemma {:induction false} QueryIsItsOwn(queries: seq<EvidenceQuery>, q: EvidenceQuery)
    requires q in queries
    ensures q in QueriesOf(queries, q.specialist)
  {
    var last := queries[|queries| - 1];
    if q != last {
      assert queries == queries[..|queries| - 1] + [last];
      QueryIsItsOwn(queries[..|queries| - 1], q);
    }
  }

  /** The observation the gateway retains, if the provider stayed inside its resolved scope, window and size. */
  function SafeObservation(r: InvestigationRecord, mapping: EvidenceMapping, raw: RawObservation, queryId: Ident,
                           evidenceId: Ident): Option<EvidenceObservation>
  {
    var observedAt := if raw.observedAt.Some? then raw.observedAt.value else r.window.endedAt;
    var limit := if r.profile.evidenceBudget.logLines < 100 then r.profile.evidenceBudget.logLines else 100;
    if !(raw.source == mapping.source && raw.kind == mapping.kind && raw.scope == mapping.scope) then None
    else if !(r.window.startedAt <= observedAt <= r.window.endedAt) then None
    else if raw.kind != MetricsQuery && raw.kind != PodLogs && limit < raw.itemCount then None
    else Some(EvidenceObservation(evidenceId, r.incident.incidentId, raw.kind, Some(queryId), r.window.windowId,
                                  observedAt, raw.scope, raw.contentHash))
  }

  // ---------------------------------------------------------------- store calls always fit

  lemma RoleKeepsBudget(r: InvestigationRecord, q: EvidenceQuery, role: SpecialistRole)
    requires RoleWithinBudget(r.queries, role, r.profile.evidenceBudget.queriesPerSpecialist)
    requires BudgetAllows(r, q.specialist, q.round)
    ensures RoleWithinBudget(r.queries + [q], role, r.profile.evidenceBudget.queriesPerSpecialist)
  {
    hide QueriesOf, MaxRound;
    QueriesOfAppend(r.queries, q, role);
    var prior := QueriesOf(r.queries, role);
    if role == q.specialist {
      RiseAppend(prior, q);
    }
  }

  lemma RiseAppend(prior: seq<EvidenceQuery>, q: EvidenceQuery)
    requires RoundsRise(prior) && (prior != [] ==> MaxRound(prior) <= q.round)
    ensures RoundsRise(prior + [q])
  {
    hide MaxRound;
    assert forall i | 0 <= i < |prior| :: prior[i] in prior && prior[i].round <= q.round;
  }

  lemma QueryKeepsBudget(r: InvestigationRecord, q: EvidenceQuery, next: nat)
    requires Investigable(r, next) && BudgetAllows(r, q.specialist, q.round)
    requires q.incidentId == r.incident.incidentId && q.target in Enrolled(r.profile) && q.queryId == Uuid(next)
    ensures var s := ApplyQuery(r, q);
            && s.Success? && s.value == r.(queries := r.queries + [q])
            && Investigable(s.value, next + 1) && HasQuery(s.value, q.queryId)
  {
    hide ValidRecord, Enrolled, BudgetAllows, RoleWithinBudget;
    var s := r.(queries := r.queries + [q]);
    assert ApplyQuery(r, q) == Success(s);
    assert ValidRecord(s) by {
      AppendQueryValid(r, q);
    }
    forall role: SpecialistRole
      ensures RoleWithinBudget(s.queries, role, s.profile.evidenceBudget.queriesPerSpecialist)
    {
      RoleKeepsBudget(r, q, role);
    }
    assert s.queries[|r.queries|] == q;
  }

  lemma EvidenceKeepsBudget(r: InvestigationRecord, e: EvidenceObservation, next: nat)
    requires Investigable(r, next) && e.queryId.Some? && HasQuery(r, e.queryId.value)
    requires forall x <- r.evidence :: x.queryId != e.queryId
    requires e.queryId.value.Uuid? ==> e.queryId.value.serial < next
    requires e.incidentId == r.incident.incidentId && e.windowId == r.window.windowId
    requires r.window.startedAt <= e.observedAt <= r.window.endedAt && e.scope in Enrolled(r.profile)
    requires e.evidenceId == Uuid(next)
    ensures var s := ApplyEvidence(r, e);
            && s.Success? && s.value == r.(evidence := r.evidence + [e]) && Investigable(s.value, next + 1)
  {
    hide ValidRecord, Enrolled, QueriesOf, HasQuery;
    var s := r.(evidence := r.evidence + [e]);
    assert !HasEvidence(r, e.evidenceId);
    assert ApplyEvidence(r, e) == Success(s);
    assert ValidRecord(s) by {
      AppendEvidenceValid(r, e);
    }
    assert OneEvidencePerQuery(s.evidence);
  }

  lemma FailureKeepsBudget(r: InvestigationRecord, f: EvidenceRetrievalFailure, next: nat)
    requires Investigable(r, next) && f.incidentId == r.incident.incidentId && f.failureId == Uuid(next)
    ensures var s := ApplyRetrievalFailure(r, f);
            && s.Success? && s.value == r.(retrievalFailures := r.retrievalFailures + [f])
            && Investigable(s.value, next + 1)
  {
    hide ValidRecord, QueriesOf;
    var s := r.(retrievalFailures := r.retrievalFailures + [f]);
    assert ApplyRetrievalFailure(r, f) == Success(s);
    assert Apply(r, AppendRetrievalFailure(f)) == Success(s);
    assert ValidRecord(s) by {
      AppendOtherValid(r, AppendRetrievalFailure(f));
    }
  }

  lemma EventKeepsBudget(r: InvestigationRecord, e: AuditEvent, next: nat)
    requires Investigable(r, next) && e.incidentId == r.incident.incidentId && e.eventId == Uuid(next)
    ensures var s := Apply(r, AppendEvent(e));
            && s.Success? && s.value == r.(events := Stamped(r, e)) && Investigable(s.value, next + 1)
  {
    hide ValidRecord, QueriesOf;
    LogAccepted(r, e, next);
    var s := r.(events := Stamped(r, e));
    assert ValidRecord(s) by {
      AppendOtherValid(r, AppendEvent(e));
    }
  }

  // ---------------------------------------------------------------- the gateway

  /** The observation belongs to the query and stays inside its scope, its kind and the immutable window. */
  predicate AnswersQuery(e: EvidenceObservation, q: EvidenceQuery, w: EvidenceWindow) {
    && e.queryId == Some(q.queryId) && e.scope == q.target && e.query == q.kind
    && w.startedAt <= e.observedAt <= w.endedAt
  }

  /** The query is the one an allowlisted mapping of the profile resolves to. */
  predicate Resolves(p: ApplicationProfile, identifier: string, q: EvidenceQuery) {
    exists m <- p.evidenceMappings :: m.identifier == identifier && q.kind == m.kind && q.target == m.scope
  }

  /** Exactly these audit events were appended, in this order. */
  predicate Noted(before: seq<AuditEvent>, after: seq<AuditEvent>, names: seq<string>) {
    && before <= after && |after| == |before| + |names|
    && forall k | 0 <= k < |names| :: after[|before| + k].eventType == OtherEvent(names[k])
  }

  lemma NotedTwice(before: seq<AuditEvent>, between: seq<AuditEvent>, after: seq<AuditEvent>, x: string, y: string)
    requires Noted(before, between, [x]) && Noted(between, after, [y])
    ensures Noted(before, after, [x, y])
  {
    assert between[|before|] == after[|before|];
    assert [x][0] == x && [y][0] == y;
  }

  /** One `execute`: a rejected request leaves the record alone, a provider failure keeps the query but no evidence. */
  predicate Executed(a: InvestigationRecord, b: InvestigationRecord, role: SpecialistRole, round: nat, success: bool) {
    && b == a.(queries := b.queries, evidence := b.evidence, retrievalFailures := b.retrievalFailures,
               events := b.events)
    && if b.queries == a.queries
       then !success && b.evidence == a.evidence && b.retrievalFailures == a.retrievalFailures && b.events == a.events
       else
         && |b.queries| == |a.queries| + 1 && a.queries <= b.queries
         && b.queries[|a.queries|].specialist == role && b.queries[|a.queries|].round == round
         && WithinBudget(a, role, round)
         && Noted(a.events, b.events, ["evidence_query_requested", if success then "evidence_query_completed"
                                                                   else "evidence_query_failed"])
         && if success
            then
              && |b.evidence| == |a.evidence| + 1 && a.evidence <= b.evidence
              && AnswersQuery(b.evidence[|a.evidence|], b.queries[|a.queries|], a.window)
              && b.retrievalFailures == a.retrievalFailures
            else
              && b.evidence == a.evidence
              && |b.retrievalFailures| == |a.retrievalFailures| + 1 && a.retrievalFailures <= b.retrievalFailures
  }

  // ---------------------------------------------------------------- what the provider's answers lead to

  /** What the answers of one query come to: the last one, unless it failed or came after the deadline. */
  function Timely(answers: seq<ProviderAnswer>): Option<RawObservation> {
    if answers == [] then None
    else
      var last := answers[|answers| - 1];
      if last.Answered? && !last.late then Some(last.raw) else None
  }

  /** Asked again after retryable failures only, and no more often than allowed. */
  predicate AskedOften(answers: seq<ProviderAnswer>, maximum: nat) {
    && 1 <= |answers| <= maximum
    && (forall k | 0 <= k < |answers| - 1 :: answers[k].Retryable?)
    && (answers[|answers| - 1].Retryable? ==> |answers| == maximum)
  }

  /** When an observation without its own time is taken to have been made. */
  function TimeOf(r: InvestigationRecord, raw: RawObservation): Time {
    match raw.observedAt
    case Some(t) => t
    case None => r.window.endedAt
  }

  /** The answer stayed inside source, kind, scope and window, and is no longer than its kind may be. */
  predicate Keepable(r: InvestigationRecord, m: EvidenceMapping, raw: RawObservation) {
    && raw.source == m.source && raw.kind == m.kind && raw.scope == m.scope
    && r.window.startedAt <= TimeOf(r, raw) <= r.window.endedAt
    && (raw.kind in {MetricsQuery, PodLogs}
        || (raw.itemCount <= 100 && raw.itemCount <= r.profile.evidenceBudget.logLines))
  }

  /** The evidence says what the provider answered. */
  predicate Carries(e: EvidenceObservation, r: InvestigationRecord, raw: RawObservation, queryId: Ident) {
    && e.contentHash == raw.contentHash && e.observedAt == TimeOf(r, raw)
    && e.query == raw.kind && e.scope == raw.scope && e.queryId == Some(queryId)
    && e.incidentId == r.incident.incidentId && e.windowId == r.window.windowId
  }

  lemma SafeExactly(r: InvestigationRecord, m: EvidenceMapping, raw: RawObservation, queryId: Ident, evidenceId: Ident)
    ensures var safe := SafeObservation(r, m, raw, queryId, evidenceId);
            && (safe.Some? <==> Keepable(r, m, raw))
            && (safe.Some? ==> Carries(safe.value, r, raw, queryId))
  {
  }

  /** One `execute` through the mapping `m`, given whether its provider is there and what it answered. */
  predicate ExecutedBy(a: InvestigationRecord, b: InvestigationRecord, role: SpecialistRole, round: nat,
                       m: EvidenceMapping, available: bool, answers: seq<ProviderAnswer>, maximum: nat,
                       r: Result<InvestigationRecord, GatewayError>)
  {
    if !WithinBudget(a, role, round) then r == Failure(BudgetExhausted) && b == a
    else if !available then r == Failure(ProviderUnavailable) && b == a
    else
      && AskedOften(answers, maximum) && |b.queries| == |a.queries| + 1
      && var kept := Timely(answers).Some? && Keepable(a, m, Timely(answers).value);
      if kept
      then
        && r.Success? && |b.evidence| == |a.evidence| + 1
        && Carries(b.evidence[|a.evidence|], a, Timely(answers).value, b.queries[|a.queries|].queryId)
      else r == Failure(ProviderFailed)
  }

  function RoleName(role: SpecialistRole): string {
    match role
    case Health => "health"
    case Logs => "logs"
    case Metrics => "metrics"
    case Change => "change"
  }

  class EvidenceQueryAdapter {
    var calls: nat
    ghost var given: seq<ProviderAnswer>

    constructor ()
      ensures calls == 0 && given == []
    {
      calls, given := 0, [];
    }

    method Query() returns (a: ProviderAnswer)
      modifies this
      ensures calls == old(calls) + 1 && given == old(given) + [a]
    {
      calls := calls + 1;
      a := *;
      given := given + [a];
    }
  }

  class EvidenceQueryGateway {
    const store: InMemoryIncidentStore
    const host: Host
    const adapters: map<EvidenceSource, EvidenceQueryAdapter>
    const maximumAttempts: nat

    constructor (store: InMemoryIncidentStore, host: Host, adapters: map<EvidenceSource, EvidenceQueryAdapter>,
                 maximumAttempts: nat)
      requires 1 <= maximumAttempts <= 2
      ensures this.store == store && this.host == host && this.adapters == adapters
      ensures this.maximumAttempts == maximumAttempts
    {
      this.store, this.host, this.adapters, this.maximumAttempts := store, host, adapters, maximumAttempts;
    }

    ghost predicate Ready(id: Ident)
      reads store, host
    {
      && 1 <= maximumAttempts <= 2
      && id in store.records && store.records[id].incident.incidentId == id
      && Investigable(store.records[id], host.nextUuid)
    }

    /** Retries only retryable failures, and at most up to the attempt limit; a late answer is dropped. */
    method QueryProvider(adapter: EvidenceQueryAdapter) returns (raw: Option<RawObservation>)
      requires 1 <= maximumAttempts
      modifies adapter
      ensures old(adapter.given) <= adapter.given
      ensures var answers := Since(old(adapter.given), adapter.given);
              && AskedOften(answers, maximumAttempts) && raw == Timely(answers)
              && adapter.calls == old(adapter.calls) + |answers|
    {
      raw := None;
      ghost var answers: seq<ProviderAnswer> := [];
      for attempt := 0 to maximumAttempts
        invariant adapter.calls == old(adapter.calls) + attempt && |answers| == attempt
        invariant adapter.given == old(adapter.given) + answers
        invariant forall k | 0 <= k < attempt :: answers[k].Retryable?
      {
        var answer := adapter.Query();
        answers := answers + [answer];
        match answer {
          case Answered(r, late) =>
            raw := if late then None else Some(r);
            return;
          case Fatal => return;
          case Retryable =>
        }
      }
    }

    method Audit(id: Ident, name: string, actor: string)
      requires Ready(id)
      modifies store, host`nextUuid
      ensures Ready(id) && old(host.nextUuid) <= host.nextUuid
      ensures store.records == old(store.records)[id := store.records[id]]
      ensures store.records[id] == old(store.records)[id].(events := store.records[id].events)
      ensures Noted(old(store.records)[id].events, store.records[id].events, [name])
    {
      hide Investigable, Apply;
      var eventId := host.FreshId();
      var event := AuditEvent(eventId, id, OtherEvent(name), actor, None, 0);
      EventKeepsBudget(store.records[id], event, old(host.nextUuid));
      var noted := store.Perform(id, StoreOp.AppendEvent(event));
    }

    method RecordFailure(id: Ident)
      requires Ready(id)
      modifies store, host`nextUuid
      ensures Ready(id)
      ensures store.records == old(store.records)[id := store.records[id]]
      ensures var a, b := old(store.records)[id], store.records[id];
              && b == a.(retrievalFailures := b.retrievalFailures, events := b.events)
              && |b.retrievalFailures| == |a.retrievalFailures| + 1 && a.retrievalFailures <= b.retrievalFailures
              && Noted(a.events, b.events, ["evidence_query_failed"])
    {
      hide Investigable, ApplyRetrievalFailure;
      var failureId := host.FreshId();
      var failure := EvidenceRetrievalFailure(failureId, id);
      FailureKeepsBudget(store.records[id], failure, old(host.nextUuid));
      var recorded := store.Perform(id, StoreOp.AppendRetrievalFailure(failure));
      Audit(id, "evidence_query_failed", "evidence-gateway");
    }

    /** Records the query before the provider is asked; evidence is retained only if it stayed in scope. */
    method Execute(id: Ident, role: SpecialistRole, identifier: string, round: nat)
      returns (r: Result<InvestigationRecord, GatewayError>)
      requires Ready(id)
      modifies store, host`nextUuid, adapters.Values
      ensures Ready(id)
      ensures store.records == old(store.records)[id := store.records[id]]
      ensures Executed(old(store.records)[id], store.records[id], role, round, r.Success?)
      ensures r.Success? ==> r.value == store.records[id]
      ensures var a, b := old(store.records)[id], store.records[id];
              b.queries != a.queries ==> Resolves(a.profile, identifier, b.queries[|a.queries|])
      ensures (forall m <- old(store.records)[id].profile.evidenceMappings :: m.identifier != identifier) ==>
                r == Failure(NotAllowlisted) && store.records == old(store.records)
      ensures forall m <- old(store.records)[id].profile.evidenceMappings | m.identifier == identifier ::
                ExecutedBy(old(store.records)[id], store.records[id], role, round, m, m.source in adapters,
                           if m.source in adapters then Since(old(adapters[m.source].given), adapters[m.source].given)
                           else [], maximumAttempts, r)
    {
      hide Investigable, BudgetAllows, WithinBudget, Apply, Keepable, Carries, AskedOften, Timely;
      var record := store.records[id];
      var mapping := FindMapping(record.profile.evidenceMappings, identifier);
      MappingsAreDistinct(record, host.nextUuid, identifier);
      BudgetExactly(record, role, round);
      if mapping.None? {
        return Failure(NotAllowlisted);
      }
      if !BudgetAllows(record, role, round) {
        return Failure(BudgetExhausted);
      }
      if mapping.value.source !in adapters {
        return Failure(ProviderUnavailable);
      }
      var queryId := RecordQuery(id, role, mapping.value, round);
      SameScope(record, store.records[id], mapping.value);
      var answered := Ask(id, role, mapping.value, queryId);
      r := if answered then Success(store.records[id]) else Failure(ProviderFailed);
    }

    /** Asks the provider for a recorded query, and keeps its evidence or a retrieval failure. */
    method Ask(id: Ident, role: SpecialistRole, mapping: EvidenceMapping, queryId: Ident) returns (answered: bool)
      requires Ready(id) && HasQuery(store.records[id], queryId) && queryId.Uuid? && queryId.serial < host.nextUuid
      requires mapping in store.records[id].profile.evidenceMappings && mapping.source in adapters
      requires forall x <- store.records[id].evidence :: x.queryId != Some(queryId)
      modifies store, host`nextUuid, adapters.Values
      ensures Ready(id)
      ensures store.records == old(store.records)[id := store.records[id]]
      ensures var a, b := old(store.records)[id], store.records[id];
              && b == a.(evidence := b.evidence, retrievalFailures := b.retrievalFailures, events := b.events)
              && Noted(a.events, b.events, ["evidence_query_requested", if answered then "evidence_query_completed"
                                                                        else "evidence_query_failed"])
              && if answered
                 then
                   && |b.evidence| == |a.evidence| + 1 && a.evidence <= b.evidence
                   && b.evidence[|a.evidence|].queryId == Some(queryId)
                   && b.evidence[|a.evidence|].query == mapping.kind
                   && b.evidence[|a.evidence|].scope == mapping.scope
                   && a.window.startedAt <= b.evidence[|a.evidence|].observedAt <= a.window.endedAt
                   && b.retrievalFailures == a.retrievalFailures
                 else
                   && b.evidence == a.evidence
                   && |b.retrievalFailures| == |a.retrievalFailures| + 1 && a.retrievalFailures <= b.retrievalFailures
      ensures var a, b := old(store.records)[id], store.records[id];
              var answers := Since(old(adapters[mapping.source].given), adapters[mapping.source].given);
              && AskedOften(answers, maximumAttempts)
              && (answered <==> Timely(answers).Some? && Keepable(a, mapping, Timely(answers).value))
              && (answered ==> Carries(b.evidence[|a.evidence|], a, Timely(answers).value, queryId))
    {
      hide Investigable, HasQuery, Apply, Keepable, Carries, AskedOften, Timely, Noted;
      Audit(id, "evidence_query_requested", "specialist:" + RoleName(role));
      ghost var noted := store.records[id].events;
      SameQueries(old(store.records)[id], store.records[id], queryId);
      SameScope(old(store.records)[id], store.records[id], mapping);
      var raw := QueryProvider(adapters[mapping.source]);
      answered := Retain(id, mapping, raw, queryId);
      if answered {
        Audit(id, "evidence_query_completed", "evidence-gateway");
      } else {
        RecordFailure(id);
      }
      NotedTwice(old(store.records)[id].events, noted, store.records[id].events, "evidence_query_requested",
                 if answered then "evidence_query_completed" else "evidence_query_failed");
    }

    method RecordQuery(id: Ident, role: SpecialistRole, mapping: EvidenceMapping, round: nat) returns (queryId: Ident)
      requires Ready(id) && BudgetAllows(store.records[id], role, round)
      requires mapping in store.records[id].profile.evidenceMappings
      modifies store, host`nextUuid
      ensures Ready(id) && HasQuery(store.records[id], queryId)
      ensures store.records == old(store.records)[id := store.records[id]]
      ensures var a, b := old(store.records)[id], store.records[id];
              exists q: EvidenceQuery ::
                && b == a.(queries := a.queries + [q]) && q.specialist == role && q.round == round
                && q.queryId == queryId && q.kind == mapping.kind && q.target == mapping.scope
      ensures forall x <- store.records[id].evidence :: x.queryId != Some(queryId)
      ensures queryId.Uuid? && queryId.serial < host.nextUuid
    {
      hide BudgetAllows, Apply, BudgetKept, ValidRecord;
      queryId := host.FreshId();
      var query := EvidenceQuery(queryId, id, role, mapping.kind, mapping.scope, round);
      MappingsAreEnrolled(store.records[id], mapping);
      QueryKeepsBudget(store.records[id], query, old(host.nextUuid));
      assert Apply(store.records[id], StoreOp.AppendQuery(query)) == ApplyQuery(store.records[id], query) by {
        ApplyOfQuery(store.records[id], query);
      }
      var recorded := store.Perform(id, StoreOp.AppendQuery(query));
    }

    /** Keeps the provider's answer as evidence when it is safe. */
    method Retain(id: Ident, mapping: EvidenceMapping, raw: Option<RawObservation>, queryId: Ident)
      returns (retained: bool)
      requires Ready(id) && HasQuery(store.records[id], queryId) && queryId.Uuid? && queryId.serial < host.nextUuid
      requires mapping in store.records[id].profile.evidenceMappings
      requires forall x <- store.records[id].evidence :: x.queryId != Some(queryId)
      modifies store, host`nextUuid
      ensures Ready(id)
      ensures store.records == old(store.records)[id := store.records[id]]
      ensures var a, b := old(store.records)[id], store.records[id];
              if retained then exists e: EvidenceObservation ::
                                 && b == a.(evidence := a.evidence + [e]) && e.queryId == Some(queryId)
                                 && e.query == mapping.kind && e.scope == mapping.scope
                                 && a.window.startedAt <= e.observedAt <= a.window.endedAt
                                 && raw.Some? && Carries(e, a, raw.value, queryId)
              else b == a
      ensures retained <==> raw.Some? && Keepable(old(store.records)[id], mapping, raw.value)
    {
      hide BudgetKept, ValidRecord, HasQuery, Apply, Keepable, Carries;
      if raw.None? {
        return false;
      }
      var evidenceId := host.FreshId();
      var record := store.records[id];
      IdsLater(record, old(host.nextUuid));
      var safe := SafeObservation(record, mapping, raw.value, queryId, evidenceId);
      SafeExactly(record, mapping, raw.value, queryId, evidenceId);
      if safe.None? {
        return false;
      }
      MappingsAreEnrolled(record, mapping);
      EvidenceKeepsBudget(record, safe.value, old(host.nextUuid));
      assert Apply(record, StoreOp.AppendEvidence(safe.value)) == ApplyEvidence(record, safe.value) by {
        ApplyOfEvidence(record, safe.value);
      }
      var appended := store.Perform(id, StoreOp.AppendEvidence(safe.value));
      retained := true;
    }
  }

  function Since<T>(before: seq<T>, after: seq<T>): seq<T> {
    if |before| <= |after| then after[|before|..] else []
  }

  /** Keeping evidence depends on the window and the profile only. */
  lemma SameScope(a: InvestigationRecord, b: InvestigationRecord, m: EvidenceMapping)
    requires a.window == b.window && a.profile == b.profile && a.incident.incidentId == b.incident.incidentId
    ensures forall raw: RawObservation :: Keepable(a, m, raw) == Keepable(b, m, raw)
    ensures forall e: EvidenceObservation, raw, id :: Carries(e, a, raw, id) == Carries(e, b, raw, id)
  {
  }

  lemma {:induction false} TheMapping(mappings: seq<EvidenceMapping>, m: EvidenceMapping)
    requires m in mappings
    requires forall i, k | 0 <= i < k < |mappings| :: mappings[i].identifier != mappings[k].identifier
    ensures FindMapping(mappings, m.identifier) == Some(m)
  {
    if mappings[0] != m {
      TheMapping(mappings[1..], m);
      var k :| 0 < k < |mappings| && mappings[k] == m;
    }
  }

  lemma MappingsAreDistinct(r: InvestigationRecord, next: nat, identifier: string)
    requires Investigable(r, next)
    ensures forall m <- r.profile.evidenceMappings | m.identifier == identifier ::
              FindMapping(r.profile.evidenceMappings, identifier) == Some(m)
  {
    hide BudgetKept, IdsPast, FindMapping;
    forall m <- r.profile.evidenceMappings | m.identifier == identifier
      ensures FindMapping(r.profile.evidenceMappings, identifier) == Some(m)
    {
      TheMapping(r.profile.evidenceMappings, m);
    }
  }

  lemma SameQueries(a: InvestigationRecord, b: InvestigationRecord, id: Ident)
    requires a.queries == b.queries
    ensures HasQuery(a, id) == HasQuery(b, id)
  {
  }

  lemma ApplyOfQuery(r: InvestigationRecord, q: EvidenceQuery)
    ensures Apply(r, StoreOp.AppendQuery(q)) == ApplyQuery(r, q)
  {
  }

  lemma ApplyOfEvidence(r: InvestigationRecord, e: EvidenceObservation)
    ensures Apply(r, StoreOp.AppendEvidence(e)) == ApplyEvidence(r, e)
  {
  }

  lemma MappingsAreEnrolled(r: InvestigationRecord, m: EvidenceMapping)
    requires ValidRecord(r) && m in r.profile.evidenceMappings
    ensures m.scope in Enrolled(r.profile)
  {
  }

  lemma IdsLater(r: InvestigationRecord, next: nat)
    requires Investigable(r, next)
    ensures Investigable(r, next + 1)
  {
    hide ValidRecord, BudgetKept;
  }
}
