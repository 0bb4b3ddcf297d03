/** Alert ingestion under at-least-once delivery: one consumer, crashes between any two store calls. */
module Alerts {
  import opened Wrappers
  import opened Incidents
  import opened RecordOperations
  import opened RecordInvariants
  import opened RecordRuns
  import opened IncidentStores
  import opened Protocol
  import opened ProtocolSteps

  datatype AlertNotification =
    AlertNotification(notificationId: Ident, applicationId: string, namespace: string, workloadName: string,
                      observedAt: Time, windowStart: Option<Time>, windowEnd: Option<Time>,
                      providerIncidentId: Option<string>, state: ProviderState)

  function Normalize(n: AlertNotification): AlertSignal {
    AlertSignal(n.notificationId, n.applicationId, n.namespace, n.workloadName, n.observedAt, n.windowStart,
                n.windowEnd, n.providerIncidentId)
  }

  function SignalFrom(n: AlertNotification, id: Ident): AlertSignalEvidence {
    AlertSignalEvidence(n.notificationId, id, Normalize(n), n.state)
  }

  function AuditFrom(n: AlertNotification, id: Ident, eventId: Ident): AuditEvent {
    AuditEvent(eventId, id, if n.state.AlertClosed? then ProviderAlertClosed else AlertSignalReceived, "alert-consumer",
               Some(n.notificationId), 0)
  }

  // ---------------------------------------------------------------- correlation

  function FindByName(workloads: seq<ManagedWorkload>, name: string): (r: Option<ManagedWorkload>)
    ensures r.Some? ==> r.value in workloads && r.value.reference.name == name
    ensures r.None? <==> forall w <- workloads :: w.reference.name != name
  {
    if workloads == [] then None
    else if workloads[0].reference.name == name then Some(workloads[0])
    else
      assert workloads == [workloads[0]] + workloads[1..];
      FindByName(workloads[1..], name)
  }

  /** The same workload, or one declared to depend on the other. */
  predicate Related(p: ApplicationProfile, left: string, right: string) {
    left == right ||
    var l, r := FindByName(p.workloads, left), FindByName(p.workloads, right);
    l.Some? && r.Some? && (right in l.value.dependencies || left in r.value.dependencies)
  }

  predicate SharesProviderIncident(n: AlertNotification, r: InvestigationRecord) {
    && n.providerIncidentId.Some? && n.providerIncidentId.value != ""
    && exists s <- r.alertSignals :: s.signal.providerIncidentId == n.providerIncidentId
  }

  predicate SharesWorkload(p: ApplicationProfile, n: AlertNotification, r: InvestigationRecord) {
    exists s <- r.alertSignals :: s.signal.workloadName != "" && Related(p, n.workloadName, s.signal.workloadName)
  }

  /** An unresolved, unclosed incident close enough in time, with a related earlier signal. */
  predicate Qualifies(p: ApplicationProfile, window: nat, n: AlertNotification, r: InvestigationRecord) {
    && r.incident.applicationId == n.applicationId
    && r.incident.lifecycle != Resolved && r.incident.lifecycle != Closed
    && n.observedAt - r.incident.openedAt <= window && r.incident.openedAt - n.observedAt <= window
    && (SharesProviderIncident(n, r) || SharesWorkload(p, n, r))
  }

  predicate HasSignal(r: InvestigationRecord, id: Ident) {
    exists s <- r.alertSignals :: s.notificationId == id
  }

  predicate HasAudit(r: InvestigationRecord, id: Ident) {
    exists e <- r.events :: e.notificationId == Some(id)
  }

  function FindByNotification(records: Records, listing: seq<Ident>, id: Ident): (r: Option<Ident>)
    requires forall x <- listing :: x in records
    ensures r.Some? ==> r.value in listing && HasSignal(records[r.value], id)
    ensures r.None? <==> forall x <- listing :: !HasSignal(records[x], id)
  {
    if listing == [] then None
    else if HasSignal(records[listing[0]], id) then Some(listing[0])
    else
      assert listing == [listing[0]] + listing[1..];
      FindByNotification(records, listing[1..], id)
  }

  /** The position, from `k` on, of the first listed incident that qualifies. */
  function FirstQualifying(p: ApplicationProfile, window: nat, records: Records, listing: seq<Ident>,
                           n: AlertNotification, k: nat): (first: nat)
    requires k <= |listing| && forall x <- listing :: x in records
    ensures k <= first <= |listing|
    ensures first < |listing| ==> Qualifies(p, window, n, records[listing[first]])
    ensures forall j | k <= j < first :: !Qualifies(p, window, n, records[listing[j]])
    decreases |listing| - k
  {
    if k == |listing| || Qualifies(p, window, n, records[listing[k]]) then k
    else FirstQualifying(p, window, records, listing, n, k + 1)
  }

  function FindCorrelated(p: ApplicationProfile, window: nat, records: Records, listing: seq<Ident>,
                          n: AlertNotification): Option<Ident>
    requires forall x <- listing :: x in records
  {
    var k := FirstQualifying(p, window, records, listing, n, 0);
    if k < |listing| then Some(listing[k]) else None
  }

  /** A later signal joins the most recently opened incident that qualifies, and only if one does. */
  lemma CorrelationRule(p: ApplicationProfile, window: nat, records: Records, listing: seq<Ident>, n: AlertNotification)
    requires IsListing(records, listing)
    ensures var found := FindCorrelated(p, window, records, listing, n);
            && (found.None? <==> forall id <- records :: !Qualifies(p, window, n, records[id]))
            && (found.Some? ==>
                  && found.value in records && Qualifies(p, window, n, records[found.value])
                  && forall id <- records | Qualifies(p, window, n, records[id]) ::
                       records[id].incident.openedAt <= records[found.value].incident.openedAt)
  {
    hide Qualifies;
    var k := FirstQualifying(p, window, records, listing, n, 0);
    forall id <- records | Qualifies(p, window, n, records[id])
      ensures k < |listing| && records[id].incident.openedAt <= records[listing[k]].incident.openedAt
    {
      assert id in listing;
      var j :| 0 <= j < |listing| && listing[j] == id;
    }
  }

  /** One declared workload of the profile depends on another by name. */
  predicate DependsOn(p: ApplicationProfile, left: string, right: string) {
    && (exists w <- p.workloads :: w.reference.name == left && right in w.dependencies)
    && (exists w <- p.workloads :: w.reference.name == right)
  }

  /** Some signal of the incident has the same provider incident, the same workload, or a declared dependency. */
  predicate SignalRelates(p: ApplicationProfile, n: AlertNotification, s: AlertSignal) {
    || (n.providerIncidentId.Some? && n.providerIncidentId.value != "" && s.providerIncidentId == n.providerIncidentId)
    || (s.workloadName != ""
        && (s.workloadName == n.workloadName || DependsOn(p, n.workloadName, s.workloadName)
            || DependsOn(p, s.workloadName, n.workloadName)))
  }

  /** What makes an incident qualify, field by field. */
  lemma QualifiesExactly(p: ApplicationProfile, window: nat, n: AlertNotification, r: InvestigationRecord)
    requires ValidProfile(p)
    ensures Qualifies(p, window, n, r) <==>
            && r.incident.applicationId == n.applicationId && r.incident.lifecycle !in {Resolved, Closed}
            && r.incident.openedAt - window <= n.observedAt <= r.incident.openedAt + window
            && exists s <- r.alertSignals :: SignalRelates(p, n, s.signal)
  {
    hide Related, ValidProfile, DependsOn;
    forall s <- r.alertSignals
      ensures Related(p, n.workloadName, s.signal.workloadName) <==>
              || s.signal.workloadName == n.workloadName || DependsOn(p, n.workloadName, s.signal.workloadName)
              || DependsOn(p, s.signal.workloadName, n.workloadName)
    {
      RelatedExactly(p, n.workloadName, s.signal.workloadName);
    }
  }

  lemma RelatedExactly(p: ApplicationProfile, left: string, right: string)
    requires ValidProfile(p)
    ensures Related(p, left, right) <==> left == right || DependsOn(p, left, right) || DependsOn(p, right, left)
  {
    forall v <- p.workloads, w <- p.workloads | v.reference.name == w.reference.name ensures v == w {
      var i :| 0 <= i < |p.workloads| && p.workloads[i] == v;
      var j :| 0 <= j < |p.workloads| && p.workloads[j] == w;
      assert i < j || j < i || i == j;
    }
  }

  // ---------------------------------------------------------------- exactly once

  function Signals(r: InvestigationRecord): set<Ident> {
    set s <- r.alertSignals :: s.notificationId
  }

  predicate DistinctSignals(items: seq<AlertSignalEvidence>) {
    forall i, j | 0 <= i < j < |items| :: items[i].notificationId != items[j].notificationId
  }

  predicate DistinctAudits(events: seq<AuditEvent>) {
    forall i, j | 0 <= i < j < |events| ::
      events[i].notificationId.Some? ==> events[i].notificationId != events[j].notificationId
  }

  /** Within one incident a notification appears at most once, and is audited at most once and only there. */
  predicate OnceInRecord(r: InvestigationRecord) {
    && DistinctSignals(r.alertSignals)
    && DistinctAudits(r.events)
    && (forall e <- r.events :: e.notificationId.Some? ==> e.notificationId.value in Signals(r))
  }

  /** Across incidents no notification appears twice. */
  predicate OnceOverall(records: Records) {
    && (forall id <- records :: OnceInRecord(records[id]) && records[id].incident.incidentId == id)
    && (forall a <- records, b <- records | a != b :: Signals(records[a]) !! Signals(records[b]))
  }

  /** In one incident, once, with its one audit event. */
  predicate Ingested(records: Records, notificationId: Ident) {
    exists id <- records :: HasSignal(records[id], notificationId) && HasAudit(records[id], notificationId)
  }

  // ---------------------------------------------------------------- the consumer as a step machine

  /** `seen` is the record as the lookup, the creation or the append returned it. */
  datatype Consumer =
    | Idle
    | Looking(n: AlertNotification)
    | Correlating(n: AlertNotification)
    | CreatingIncident(n: AlertNotification)
    | AppendingSignal(n: AlertNotification, id: Ident, seen: InvestigationRecord)
    | EnsuringAudit(n: AlertNotification, id: Ident, seen: InvestigationRecord)
    | Acknowledging(n: AlertNotification, id: Ident)

  datatype Ingestion = Ingestion(records: Records, consumer: Consumer, acknowledged: set<Ident>)

  /** `Proceed` carries what the next store call may use: a listing and fresh identifiers. */
  datatype IngestionEvent =
    | Delivery(n: AlertNotification, enrolled: bool)
    | Proceed(listing: seq<Ident>, incidentId: Ident, windowId: Ident, eventId: Ident)
    | CrashConsumer
    | Other(call: StoreCall)

  /** Nobody else appends alert signals or events that name a notification. */
  predicate LeavesAlerts(c: StoreCall) {
    c.Performing? ==>
      && !c.op.AppendAlertSignal?
      && (EventOf(c.op).Some? ==> EventOf(c.op).value.notificationId.None?)
  }

  /** A header replacement that its version lets through was derived from that header by a legal transition. */
  ghost predicate DerivesHeader(records: Records, c: StoreCall) {
    c.Performing? && c.op.CompareAndSet? && c.incidentId in records
    && c.op.expectedVersion == records[c.incidentId].incident.version == c.op.replacement.version ==>
      exists l, o, v :: TransitionIncident(records[c.incidentId].incident, l, o, v) == Some(c.op.replacement)
  }

  ghost predicate PossibleIngestion(s: Ingestion, v: IngestionEvent) {
    match v
    case Delivery(_, _) => s.consumer.Idle?
    case Proceed(listing, incidentId, _, _) => IsListing(s.records, listing) && incidentId !in s.records
    case CrashConsumer => true
    case Other(c) => LeavesAlerts(c) && FreshCall(s.records, c) && DerivesHeader(s.records, c)
  }

  function CallThen(s: Ingestion, c: StoreCall, next: InvestigationRecord -> Consumer): Ingestion {
    var r := MemoryResult(s.records, c);
    if r.Success? then s.(records := MemoryAfter(s.records, c), consumer := next(r.value)) else s.(consumer := Idle)
  }

  /** One atomic step; an exception ends the delivery unacknowledged. */
  function Ingest(p: ApplicationProfile, window: nat, s: Ingestion, v: IngestionEvent): Ingestion
    requires v.Proceed? ==> forall x <- v.listing :: x in s.records
  {
    match v
    case Delivery(n, enrolled) =>
      s.(consumer := if n.applicationId == p.applicationId && enrolled then Looking(n) else Idle)
    case CrashConsumer => s.(consumer := Idle)
    case Other(c) => s.(records := MemoryAfter(s.records, c))
    case Proceed(listing, incidentId, windowId, eventId) =>
      match s.consumer
      case Idle => s
      case Looking(n) =>
        var found := FindByNotification(s.records, listing, n.notificationId);
        s.(consumer := if found.Some? then EnsuringAudit(n, found.value, s.records[found.value]) else Correlating(n))
      case Correlating(n) =>
        var found := FindCorrelated(p, window, s.records, listing, n);
        s.(consumer := if found.Some? then AppendingSignal(n, found.value, s.records[found.value])
                       else if n.state.AlertClosed? then Idle else CreatingIncident(n))
      case CreatingIncident(n) =>
        CallThen(s, Creating(p, Normalize(n), incidentId, windowId),
                 (r: InvestigationRecord) => AppendingSignal(n, r.incident.incidentId, r))
      case AppendingSignal(n, id, _) =>
        CallThen(s, Performing(id, StoreOp.AppendAlertSignal(SignalFrom(n, id))),
                 (r: InvestigationRecord) => EnsuringAudit(n, id, r))
      case EnsuringAudit(n, id, seen) =>
        if HasAudit(seen, n.notificationId) then s.(consumer := Acknowledging(n, id))
        else CallThen(s, Performing(id, StoreOp.AppendEvent(AuditFrom(n, id, eventId))),
                      (r: InvestigationRecord) => Acknowledging(n, id))
      case Acknowledging(n, _) => s.(consumer := Idle, acknowledged := s.acknowledged + {n.notificationId})
  }

  // ---------------------------------------------------------------- the invariant

  predicate NowhereYet(records: Records, id: Ident) {
    forall x <- records :: !HasSignal(records[x], id)
  }

  predicate ConsumerInvariant(s: Ingestion) {
    match s.consumer
    case Idle => true
    case Looking(_) => true
    case Correlating(n) => NowhereYet(s.records, n.notificationId)
    case CreatingIncident(n) => NowhereYet(s.records, n.notificationId) && n.state.AlertOpen?
    case AppendingSignal(n, id, _) => NowhereYet(s.records, n.notificationId) && id in s.records
    case EnsuringAudit(n, id, seen) =>
      && id in s.records && HasSignal(s.records[id], n.notificationId)
      && (HasAudit(seen, n.notificationId) <==> HasAudit(s.records[id], n.notificationId))
    case Acknowledging(n, id) =>
      id in s.records && HasSignal(s.records[id], n.notificationId) && HasAudit(s.records[id], n.notificationId)
  }

  predicate IngestionInvariant(s: Ingestion) {
    && OnceOverall(s.records)
    && ConsumerInvariant(s)
    && (forall x <- s.acknowledged :: Ingested(s.records, x))
  }

  // ---------------------------------------------------------------- effects of store calls

  /** What alert ingestion reads off a record. */
  predicate SameAlerts(a: InvestigationRecord, b: InvestigationRecord) {
    && b.alertSignals == a.alertSignals
    && (b.events == a.events
        || (|b.events| == |a.events| + 1 && a.events <= b.events && b.events[|a.events|].notificationId.None?))
  }

  lemma OthersLeaveAlerts(r: InvestigationRecord, op: StoreOp)
    requires Apply(r, op).Success? && LeavesAlerts(Performing(r.incident.incidentId, op))
    ensures SameAlerts(r, Apply(r, op).value)
  {
    hide Apply;
    EventsAfter(r, op);
    SignalsAfter(r, op);
  }

  lemma SignalsAfter(r: InvestigationRecord, op: StoreOp)
    requires Apply(r, op).Success? && !op.AppendAlertSignal?
    ensures Apply(r, op).value.alertSignals == r.alertSignals
  {
    hide ValidRecord, AssessmentsOf, ExpectedProgress;
  }

  lemma SameAlertsOnce(a: InvestigationRecord, b: InvestigationRecord)
    requires SameAlerts(a, b) && OnceInRecord(a)
    ensures OnceInRecord(b)
    ensures forall x :: HasSignal(a, x) == HasSignal(b, x)
    ensures forall x :: HasAudit(a, x) == HasAudit(b, x)
  {
    forall x ensures HasAudit(a, x) == HasAudit(b, x) {
      if HasAudit(a, x) {
        var e :| e in a.events && e.notificationId == Some(x);
        assert e in b.events;
      }
      if HasAudit(b, x) {
        var e :| e in b.events && e.notificationId == Some(x);
        assert e in a.events;
      }
    }
  }

  lemma SignalAppended(r: InvestigationRecord, s: AlertSignalEvidence)
    requires ApplyAlertSignal(r, s).Success? && OnceInRecord(r)
    ensures var t := ApplyAlertSignal(r, s).value;
            && OnceInRecord(t) && Signals(t) == Signals(r) + {s.notificationId}
            && t.events == r.events && t.incident == r.incident
  {
    var t := ApplyAlertSignal(r, s).value;
    assert t.alertSignals == r.alertSignals + [s];
    assert Signals(t) == Signals(r) + {s.notificationId};
    assert forall x <- r.alertSignals :: x.notificationId != s.notificationId;
  }

  lemma AuditAppended(r: InvestigationRecord, e: AuditEvent, id: Ident)
    requires ApplyEvent(r, e).Success? && OnceInRecord(r) && e.notificationId == Some(id)
    requires HasSignal(r, id) && !HasAudit(r, id)
    ensures var t := ApplyEvent(r, e).value;
            && OnceInRecord(t) && t.alertSignals == r.alertSignals && t.incident == r.incident
            && HasAudit(t, id) && (forall x :: HasAudit(r, x) ==> HasAudit(t, x))
  {
    var t := ApplyEvent(r, e).value;
    var last := |t.events| - 1;
    assert t.events[..last] == r.events && t.events[last].notificationId == Some(id);
    assert forall x <- r.events :: x.notificationId != Some(id);
    assert t.events[last] in t.events;
    forall x | HasAudit(r, x) ensures HasAudit(t, x) {
      var y :| y in r.events && y.notificationId == Some(x);
      assert y in t.events;
    }
  }

  /** Replacing one incident keeps uniqueness when no other incident has its signals. */
  lemma ReplacedOnce(m: Records, id: Ident, r: InvestigationRecord)
    requires OnceOverall(m) && OnceInRecord(r) && r.incident.incidentId == id
    requires forall a <- m | a != id :: Signals(m[a]) !! Signals(r)
    ensures OnceOverall(m[id := r])
  {
    hide OnceInRecord, Signals;
  }

  lemma StillIngested(m: Records, id: Ident, r: InvestigationRecord, x: Ident)
    requires Ingested(m, x)
    requires id in m ==>
               forall y :: (HasSignal(m[id], y) ==> HasSignal(r, y)) && (HasAudit(m[id], y) ==> HasAudit(r, y))
    ensures Ingested(m[id := r], x)
  {
    hide HasSignal, HasAudit;
    var a :| a in m && HasSignal(m[a], x) && HasAudit(m[a], x);
    assert a in m[id := r];
  }

  lemma SignalsAreHad(r: InvestigationRecord)
    ensures forall x :: x in Signals(r) <==> HasSignal(r, x)
  {
  }

  // ---------------------------------------------------------------- steps keep the invariant

  lemma OtherKeepsIngestion(s: Ingestion, c: StoreCall)
    requires IngestionInvariant(s) && LeavesAlerts(c) && FreshCall(s.records, c)
    ensures IngestionInvariant(s.(records := MemoryAfter(s.records, c)))
  {
    hide Apply, CreateRecord, HasSignal, HasAudit, Signals, OnceInRecord, SameAlerts, Ingested, LeavesAlerts;
    var r := MemoryResult(s.records, c);
    if r.Success? {
      match c {
        case Creating(p, signal, id, windowId) =>
          CreatedHasNoAlerts(p, signal, id, windowId);
          InstallEmpty(s, id, r.value);
        case Performing(id, op) =>
          IdentityOf(s.records, id);
          OperationKeepsIdentity(s.records[id], op);
          LeavesAlertsOf(s.records[id], c);
          OthersLeaveAlerts(s.records[id], op);
          InstallSame(s, id, r.value);
      }
    }
  }

  lemma IdentityOf(m: Records, id: Ident)
    requires OnceOverall(m) && id in m
    ensures m[id].incident.incidentId == id && OnceInRecord(m[id])
  {
  }

  lemma LeavesAlertsOf(r: InvestigationRecord, c: StoreCall)
    requires LeavesAlerts(c) && c.Performing?
    ensures LeavesAlerts(Performing(r.incident.incidentId, c.op))
  {
  }

  lemma CreatedHasNoAlerts(p: ApplicationProfile, signal: AlertSignal, id: Ident, windowId: Ident)
    requires CreateRecord(p, signal, id, windowId).Success?
    ensures var r := CreateRecord(p, signal, id, windowId).value;
            r.alertSignals == [] && r.events == [] && r.incident.incidentId == id && OnceInRecord(r) && Signals(r) == {}
  {
  }

  lemma InstallEmpty(s: Ingestion, id: Ident, r: InvestigationRecord)
    requires IngestionInvariant(s) && id !in s.records
    requires r.alertSignals == [] && r.incident.incidentId == id && OnceInRecord(r) && Signals(r) == {}
    ensures IngestionInvariant(s.(records := s.records[id := r]))
  {
    hide OnceInRecord, Ingested, HasAudit, OnceOverall;
    ReplacedOnceEmpty(s.records, id, r);
    assert forall x :: !HasSignal(r, x);
    hide HasSignal;
    forall x <- s.acknowledged ensures Ingested(s.records[id := r], x) {
      StillIngested(s.records, id, r, x);
    }
  }

  lemma ReplacedOnceEmpty(m: Records, id: Ident, r: InvestigationRecord)
    requires OnceOverall(m) && OnceInRecord(r) && r.incident.incidentId == id && Signals(r) == {}
    ensures OnceOverall(m[id := r])
  {
    hide OnceInRecord, Signals;
    ReplacedOnce(m, id, r);
  }

  lemma InstallSame(s: Ingestion, id: Ident, r: InvestigationRecord)
    requires IngestionInvariant(s) && id in s.records && SameAlerts(s.records[id], r) && r.incident.incidentId == id
    ensures IngestionInvariant(s.(records := s.records[id := r]))
  {
    hide OnceInRecord, Ingested, HasAudit, HasSignal, SameAlerts, OnceOverall;
    IdentityOf(s.records, id);
    SameAlertsOnce(s.records[id], r);
    SameSignalsOnce(s.records, id, r);
    forall x <- s.acknowledged ensures Ingested(s.records[id := r], x) {
      StillIngested(s.records, id, r, x);
    }
  }

  lemma SameSignalsOnce(m: Records, id: Ident, r: InvestigationRecord)
    requires OnceOverall(m) && id in m && SameAlerts(m[id], r) && OnceInRecord(r) && r.incident.incidentId == id
    ensures OnceOverall(m[id := r])
  {
    hide OnceInRecord;
    assert Signals(r) == Signals(m[id]);
    hide Signals;
    ReplacedOnce(m, id, r);
  }

  lemma CreatingKeeps(p: ApplicationProfile, window: nat, s: Ingestion, v: IngestionEvent)
    requires IngestionInvariant(s) && PossibleIngestion(s, v) && v.Proceed? && s.consumer.CreatingIncident?
    ensures IngestionInvariant(Ingest(p, window, s, v))
  {
    hide CreateRecord, HasSignal, HasAudit, Signals, OnceInRecord, Ingested, OnceOverall, IsListing;
    var n := s.consumer.n;
    var r := CreateRecord(p, Normalize(n), v.incidentId, v.windowId);
    if r.Success? {
      CreatedHasNoAlerts(p, Normalize(n), v.incidentId, v.windowId);
      InstallEmpty(s, v.incidentId, r.value);
      SignalsAreHad(r.value);
    }
  }

  lemma AppendingKeeps(p: ApplicationProfile, window: nat, s: Ingestion, v: IngestionEvent)
    requires IngestionInvariant(s) && PossibleIngestion(s, v) && v.Proceed? && s.consumer.AppendingSignal?
    ensures IngestionInvariant(Ingest(p, window, s, v))
  {
    hide HasAudit, OnceInRecord, Ingested, OnceOverall, IsListing, ApplyAlertSignal;
    var n, id := s.consumer.n, s.consumer.id;
    var r := s.records[id];
    var result := ApplyAlertSignal(r, SignalFrom(n, id));
    if result.Success? {
      IdentityOf(s.records, id);
      SignalAppended(r, SignalFrom(n, id));
      InstallSignal(s.records, id, result.value, n.notificationId);
      HadAfter(r, result.value, n.notificationId);
      forall x <- s.acknowledged ensures Ingested(s.records[id := result.value], x) {
        StillIngested(s.records, id, result.value, x);
      }
    }
  }

  lemma InstallSignal(m: Records, id: Ident, r: InvestigationRecord, x: Ident)
    requires OnceOverall(m) && id in m && OnceInRecord(r) && r.incident.incidentId == id && NowhereYet(m, x)
    requires Signals(r) == Signals(m[id]) + {x}
    ensures OnceOverall(m[id := r])
  {
    hide OnceInRecord;
    forall a <- m | a != id ensures Signals(m[a]) !! Signals(r) {
      SignalsAreHad(m[a]);
    }
    hide Signals, HasSignal;
    ReplacedOnce(m, id, r);
  }

  lemma HadAfter(r: InvestigationRecord, t: InvestigationRecord, x: Ident)
    requires Signals(t) == Signals(r) + {x} && t.events == r.events
    ensures HasSignal(t, x)
    ensures forall y :: (HasSignal(r, y) ==> HasSignal(t, y)) && (HasAudit(r, y) ==> HasAudit(t, y))
  {
    SignalsAreHad(r);
    SignalsAreHad(t);
    assert x in Signals(t);
    hide HasSignal;
    forall y | HasSignal(r, y) ensures HasSignal(t, y) {
      assert y in Signals(r);
    }
  }

  lemma AuditingKeeps(p: ApplicationProfile, window: nat, s: Ingestion, v: IngestionEvent)
    requires IngestionInvariant(s) && PossibleIngestion(s, v) && v.Proceed? && s.consumer.EnsuringAudit?
    ensures IngestionInvariant(Ingest(p, window, s, v))
  {
    hide HasAudit, HasSignal, OnceInRecord, Ingested, OnceOverall, IsListing, ApplyEvent, Signals;
    var n, id, seen := s.consumer.n, s.consumer.id, s.consumer.seen;
    var r, e := s.records[id], AuditFrom(n, id, v.eventId);
    var result := ApplyEvent(r, e);
    if !HasAudit(seen, n.notificationId) && result.Success? {
      IdentityOf(s.records, id);
      AuditAppended(r, e, n.notificationId);
      SameSignals(r, result.value);
      InstallAudit(s.records, id, result.value);
      forall x <- s.acknowledged ensures Ingested(s.records[id := result.value], x) {
        StillIngested(s.records, id, result.value, x);
      }
    }
  }

  lemma SameSignals(r: InvestigationRecord, t: InvestigationRecord)
    requires t.alertSignals == r.alertSignals
    ensures Signals(t) == Signals(r) && forall x :: HasSignal(r, x) == HasSignal(t, x)
  {
  }

  lemma InstallAudit(m: Records, id: Ident, r: InvestigationRecord)
    requires OnceOverall(m) && id in m && OnceInRecord(r) && r.incident.incidentId == id && Signals(r) == Signals(m[id])
    ensures OnceOverall(m[id := r])
  {
    hide OnceInRecord, Signals;
    ReplacedOnce(m, id, r);
  }

  lemma SearchingKeeps(p: ApplicationProfile, window: nat, s: Ingestion, v: IngestionEvent)
    requires IngestionInvariant(s) && PossibleIngestion(s, v) && v.Proceed?
    requires s.consumer.Looking? || s.consumer.Correlating? || s.consumer.Acknowledging? || s.consumer.Idle?
    ensures IngestionInvariant(Ingest(p, window, s, v))
  {
    hide HasAudit, HasSignal, Qualifies, OnceOverall;
  }

  /** Every step, of the consumer and of anyone else, and every crash keeps exactly-once ingestion. */
  lemma IngestKeeps(p: ApplicationProfile, window: nat, s: Ingestion, v: IngestionEvent)
    requires IngestionInvariant(s) && PossibleIngestion(s, v)
    ensures IngestionInvariant(Ingest(p, window, s, v))
  {
    hide OnceOverall, Ingested, IsListing, CallThen, MemoryAfter, HasSignal, HasAudit;
    match v {
      case Delivery(_, _) =>
      case CrashConsumer =>
      case Other(c) => OtherKeepsIngestion(s, c);
      case Proceed(_, _, _, _) =>
        match s.consumer {
          case CreatingIncident(_) => CreatingKeeps(p, window, s, v);
          case AppendingSignal(_, _, _) => AppendingKeeps(p, window, s, v);
          case EnsuringAudit(_, _, _) => AuditingKeeps(p, window, s, v);
          case _ => SearchingKeeps(p, window, s, v);
        }
    }
  }

  // ---------------------------------------------------------------- runs

  const NOTHING_INGESTED := Ingestion(map[], Idle, {})

  ghost predicate IngestionRun(p: ApplicationProfile, window: nat, events: seq<IngestionEvent>)
    decreases |events|, 0
  {
    events == [] ||
    (IngestionRun(p, window, events[..|events| - 1])
     && PossibleIngestion(IngestedBy(p, window, events[..|events| - 1]), events[|events| - 1]))
  }

  ghost function IngestedBy(p: ApplicationProfile, window: nat, events: seq<IngestionEvent>): Ingestion
    requires IngestionRun(p, window, events)
    decreases |events|, 1
  {
    if events == [] then NOTHING_INGESTED
    else Ingest(p, window, IngestedBy(p, window, events[..|events| - 1]), events[|events| - 1])
  }

  lemma {:induction false} RunKeepsIngestion(p: ApplicationProfile, window: nat, events: seq<IngestionEvent>)
    requires IngestionRun(p, window, events)
    ensures IngestionInvariant(IngestedBy(p, window, events))
  {
    hide IngestionInvariant, Ingest, PossibleIngestion;
    if events == [] {
      EmptyIsSound();
    } else {
      RunKeepsIngestion(p, window, events[..|events| - 1]);
      IngestKeeps(p, window, IngestedBy(p, window, events[..|events| - 1]), events[|events| - 1]);
    }
  }

  lemma EmptyIsSound()
    ensures IngestionInvariant(NOTHING_INGESTED)
  {
  }

  function SignalCount(items: seq<AlertSignalEvidence>, id: Ident): nat {
    if items == [] then 0
    else SignalCount(items[..|items| - 1], id) + if items[|items| - 1].notificationId == id then 1 else 0
  }

  function AuditCount(events: seq<AuditEvent>, id: Ident): nat {
    if events == [] then 0
    else AuditCount(events[..|events| - 1], id) + if events[|events| - 1].notificationId == Some(id) then 1 else 0
  }

  lemma {:induction false} DistinctSignalCount(items: seq<AlertSignalEvidence>, id: Ident)
    requires DistinctSignals(items)
    ensures SignalCount(items, id) == if exists s <- items :: s.notificationId == id then 1 else 0
  {
    if items != [] {
      var before, last := items[..|items| - 1], items[|items| - 1];
      assert DistinctSignals(before) by {
        assert forall k | 0 <= k < |before| :: before[k] == items[k];
      }
      DistinctSignalCount(before, id);
      assert items == before + [last];
      assert forall s :: s in items <==> s in before || s == last;
    }
  }

  lemma {:induction false} DistinctAuditCount(events: seq<AuditEvent>, id: Ident)
    requires DistinctAudits(events)
    ensures AuditCount(events, id) == if exists e <- events :: e.notificationId == Some(id) then 1 else 0
  {
    if events != [] {
      var before, last := events[..|events| - 1], events[|events| - 1];
      assert DistinctAudits(before) by {
        assert forall k | 0 <= k < |before| :: before[k] == events[k];
      }
      DistinctAuditCount(before, id);
      assert events == before + [last];
      assert forall e :: e in events <==> e in before || e == last;
    }
  }

  /** The notification is in this incident once, audited once, and in no other incident at all. */
  predicate ExactlyOnceIn(records: Records, id: Ident, x: Ident)
    requires id in records
  {
    && SignalCount(records[id].alertSignals, x) == 1 && AuditCount(records[id].events, x) == 1
    && forall y <- records | y != id ::
         SignalCount(records[y].alertSignals, x) == 0 && AuditCount(records[y].events, x) == 0
  }

  lemma IngestedExactlyOnce(records: Records, x: Ident)
    requires OnceOverall(records) && Ingested(records, x)
    ensures exists id <- records :: ExactlyOnceIn(records, id, x)
  {
    hide SignalCount, AuditCount;
    var id :| id in records && HasSignal(records[id], x) && HasAudit(records[id], x);
    DistinctSignalCount(records[id].alertSignals, x);
    DistinctAuditCount(records[id].events, x);
    SignalsAreHad(records[id]);
    forall y <- records | y != id
      ensures SignalCount(records[y].alertSignals, x) == 0 && AuditCount(records[y].events, x) == 0
    {
      DistinctSignalCount(records[y].alertSignals, x);
      DistinctAuditCount(records[y].events, x);
      SignalsAreHad(records[y]);
      assert x in Signals(records[id]) && x !in Signals(records[y]);
    }
    assert ExactlyOnceIn(records, id, x);
  }

  /** Under redelivery and crashes every acknowledged notification is ingested exactly once. */
  lemma AcknowledgedExactlyOnce(p: ApplicationProfile, window: nat, events: seq<IngestionEvent>, x: Ident)
    requires IngestionRun(p, window, events) && x in IngestedBy(p, window, events).acknowledged
    ensures var records := IngestedBy(p, window, events).records;
            exists id <- records :: ExactlyOnceIn(records, id, x)
  {
    hide OnceOverall, Ingested, ExactlyOnceIn, ConsumerInvariant;
    RunKeepsIngestion(p, window, events);
    hide IngestionRun, IngestedBy;
    IngestedExactlyOnce(IngestedBy(p, window, events).records, x);
  }

  // ---------------------------------------------------------------- what ingestion leaves alone

  /** Neither the header, nor a decision, nor an Intervention. */
  predicate SameStanding(a: InvestigationRecord, b: InvestigationRecord) {
    a.incident == b.incident && a.interventions == b.interventions && a.approvals == b.approvals
  }

  lemma AlertCallsKeepStanding(r: InvestigationRecord, op: StoreOp)
    requires op.AppendAlertSignal? || op.AppendEvent?
    ensures Apply(r, op).Success? ==> SameStanding(r, Apply(r, op).value)
  {
  }

  /** A step of the consumer never changes the header, and so the lifecycle, of an existing incident. */
  lemma IngestionLeavesLifecycle(p: ApplicationProfile, window: nat, s: Ingestion, v: IngestionEvent, id: Ident)
    requires IngestionInvariant(s) && PossibleIngestion(s, v) && v.Proceed? && id in s.records
    ensures var t := Ingest(p, window, s, v); id in t.records && SameStanding(s.records[id], t.records[id])
  {
    hide CreateRecord, OnceOverall, HasSignal, HasAudit, Ingested, IsListing, SameStanding, Apply;
    assert SameStanding(s.records[id], s.records[id]) by {
      StandingReflexive(s.records[id]);
    }
    match s.consumer {
      case CreatingIncident(_) => CreationUsesItsId(p, s, v);
      case AppendingSignal(n, x, _) =>
        IdentityOf(s.records, x);
        OperationKeepsIdentityOf(s.records[x], StoreOp.AppendAlertSignal(SignalFrom(n, x)));
      case EnsuringAudit(n, x, _) =>
        IdentityOf(s.records, x);
        OperationKeepsIdentityOf(s.records[x], StoreOp.AppendEvent(AuditFrom(n, x, v.eventId)));
      case _ =>
    }
  }

  /** Only an open alert ever creates an incident; a provider closure at most joins one. */
  lemma ClosureNeverCreates(p: ApplicationProfile, window: nat, s: Ingestion, v: IngestionEvent)
    requires IngestionInvariant(s) && PossibleIngestion(s, v) && !v.Other?
    ensures Ingest(p, window, s, v).records.Keys != s.records.Keys ==>
              s.consumer.CreatingIncident? && s.consumer.n.state == AlertOpen
  {
    hide OnceOverall, NowhereYet, HasSignal, HasAudit, Ingested, IsListing, SameStanding, Apply, Qualifies;
    match s.consumer {
      case AppendingSignal(n, x, _) =>
        IdentityOf(s.records, x);
        OperationKeepsIdentityOf(s.records[x], StoreOp.AppendAlertSignal(SignalFrom(n, x)));
      case EnsuringAudit(n, x, _) =>
        if v.Proceed? {
          IdentityOf(s.records, x);
          OperationKeepsIdentityOf(s.records[x], StoreOp.AppendEvent(AuditFrom(n, x, v.eventId)));
        }
      case _ =>
    }
  }

  lemma StandingReflexive(r: InvestigationRecord)
    ensures SameStanding(r, r)
  {
  }

  lemma OperationKeepsIdentityOf(r: InvestigationRecord, op: StoreOp)
    requires op.AppendAlertSignal? || op.AppendEvent?
    ensures Apply(r, op).Success? ==>
              Apply(r, op).value.incident.incidentId == r.incident.incidentId && SameStanding(r, Apply(r, op).value)
  {
    AlertCallsKeepStanding(r, op);
  }

  lemma CreationUsesItsId(p: ApplicationProfile, s: Ingestion, v: IngestionEvent)
    requires v.Proceed? && s.consumer.CreatingIncident?
    ensures var r := CreateRecord(p, Normalize(s.consumer.n), v.incidentId, v.windowId);
            r.Success? ==> r.value.incident.incidentId == v.incidentId
  {
  }

  /** An incident left without signals by a crash right after its creation is never joined by a later signal. */
  lemma StrandedIsNeverJoined(p: ApplicationProfile, window: nat, records: Records, listing: seq<Ident>,
                              n: AlertNotification, id: Ident)
    requires IsListing(records, listing) && id in records && records[id].alertSignals == []
    ensures FindCorrelated(p, window, records, listing, n) != Some(id)
  {
  }
}
