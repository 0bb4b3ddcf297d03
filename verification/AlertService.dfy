/** The alert ingestion service as a program: every call of it is a step of the ingestion machine. */
module AlertServices {
  import opened Wrappers
  import opened Incidents
  import opened RecordOperations
  import opened RecordInvariants
  import opened RecordRuns
  import opened IncidentStores
  import opened ProtocolInvariants
  import opened Hosts
  import opened Alerts
  import opened AlertJoins
  import PolicyEngine

  /** Every incident is still there, with the header it had. */
  predicate HeadersKept(a: Records, b: Records) {
    forall id <- a :: id in b && b[id].incident == a[id].incident
  }

  lemma StepKeepsHeaders(p: ApplicationProfile, window: nat, s: Ingestion, v: IngestionEvent)
    requires IngestionInvariant(s) && PossibleIngestion(s, v) && v.Proceed?
    ensures HeadersKept(s.records, Ingest(p, window, s, v).records)
  {
    hide IngestionInvariant, Ingest;
    forall id <- s.records ensures id in Ingest(p, window, s, v).records
                                   && Ingest(p, window, s, v).records[id].incident == s.records[id].incident {
      IngestionLeavesLifecycle(p, window, s, v, id);
      assert SameStanding(s.records[id], Ingest(p, window, s, v).records[id]);
    }
  }

  /** Exactly-once ingestion and sound joins, with nothing acknowledged by this service yet. */
  predicate Sound(p: ApplicationProfile, window: nat, records: Records, c: Consumer) {
    IngestionInvariant(Ingestion(records, c, {})) && JoinInvariant(p, window, Ingestion(records, c, {}))
  }

  /** All facts about one step, in the form the service uses them. */
  lemma ServiceStep(p: ApplicationProfile, window: nat, records: Records, c: Consumer, v: IngestionEvent)
    requires Sound(p, window, records, c) && v.Proceed? && !c.Acknowledging?
    requires PossibleIngestion(Ingestion(records, c, {}), v)
    ensures var t := Ingest(p, window, Ingestion(records, c, {}), v);
            Sound(p, window, t.records, t.consumer) && HeadersKept(records, t.records) && t.acknowledged == {}
  {
    hide IngestionInvariant, JoinInvariant, PossibleIngestion, HeadersKept;
    ProceedsOverStored(Ingestion(records, c, {}), v);
    IngestKeeps(p, window, Ingestion(records, c, {}), v);
    IngestJoins(p, window, Ingestion(records, c, {}), v);
    StepKeepsHeaders(p, window, Ingestion(records, c, {}), v);
    NothingAcknowledged(p, window, records, c, v);
  }

  lemma ProceedsOverStored(s: Ingestion, v: IngestionEvent)
    requires PossibleIngestion(s, v) && v.Proceed?
    ensures forall x <- v.listing :: x in s.records
  {
  }

  lemma NothingAcknowledged(p: ApplicationProfile, window: nat, records: Records, c: Consumer, v: IngestionEvent)
    requires v.Proceed? && !c.Acknowledging? && forall x <- v.listing :: x in records
    ensures var t := Ingest(p, window, Ingestion(records, c, {}), v);
            t == Ingestion(t.records, t.consumer, {})
  {
    hide MemoryResult, MemoryAfter, FindByNotification, FindCorrelated, HasAudit;
  }

  // ---------------------------------------------------------------- the service

  class InMemoryAlertMessage {
    const notification: AlertNotification
    var acknowledged: bool

    constructor (notification: AlertNotification)
      ensures this.notification == notification && !acknowledged
    {
      this.notification := notification;
      acknowledged := false;
    }

    method Acknowledge()
      modifies this
      ensures acknowledged
    {
      acknowledged := true;
    }
  }

  datatype IngestionError = NotEnrolledTarget | ProviderClosureOnly | RefusedCall

  /** Identifiers of incidents and audit events handed out so far are below `next`. */
  predicate UuidsPast(records: Records, next: nat) {
    && (forall id <- records :: id.Uuid? ==> id.serial < next)
    && (forall id <- records :: EventsPast(records[id], next))
  }

  // ---------------------------------------------------------------- what one message leads to

  /** The stored signal repeats the notification, field by field. */
  predicate Tells(s: AlertSignalEvidence, n: AlertNotification, id: Ident) {
    && s.notificationId == n.notificationId && s.incidentId == id && s.providerState == n.state
    && s.signal == AlertSignal(n.notificationId, n.applicationId, n.namespace, n.workloadName, n.observedAt,
                               n.windowStart, n.windowEnd, n.providerIncidentId)
  }

  /** An alert may open an incident: in a declared namespace, on an enrolled workload, with a window in the budget. */
  predicate MayOpen(p: ApplicationProfile, n: AlertNotification) {
    var budget := p.evidenceBudget.windowMinutes * 60;
    var from := if n.windowStart.Some? then n.windowStart.value else n.observedAt - budget;
    var to := if n.windowEnd.Some? then n.windowEnd.value else n.observedAt;
    && n.state == AlertOpen && n.applicationId == p.applicationId && n.namespace in p.namespaces
    && WorkloadReference(n.namespace, n.workloadName) in Enrolled(p)
    && from < to <= n.observedAt && to - from <= budget
  }

  predicate Known(records: Records, n: AlertNotification) {
    exists id <- records :: HasSignal(records[id], n.notificationId)
  }

  predicate Joinable(p: ApplicationProfile, window: nat, records: Records, n: AlertNotification) {
    exists id <- records :: Qualifies(p, window, n, records[id])
  }

  /** It is the latest opened incident that qualifies. */
  predicate IsJoined(p: ApplicationProfile, window: nat, records: Records, n: AlertNotification, id: Ident) {
    && id in records && Qualifies(p, window, n, records[id])
    && forall x <- records | Qualifies(p, window, n, records[x]) ::
         records[x].incident.openedAt <= records[id].incident.openedAt
  }

  /** The signal was added to a record that is otherwise as before, or to a newly opened one. */
  predicate SignalAdded(before: Records, after: Records, n: AlertNotification, id: Ident) {
    && id in after && after == before[id := after[id]] && after[id].alertSignals != []
    && var last := |after[id].alertSignals| - 1;
    && Tells(after[id].alertSignals[last], n, id)
    && if id in before
       then after[id] == before[id].(alertSignals := before[id].alertSignals + [after[id].alertSignals[last]])
       else
         && last == 0 && after[id].events == [] && after[id].incident.lifecycle == Open
         && after[id].incident.openedAt == n.observedAt
  }

  /** Where the notification belongs: where it is already, where it joins, or in a new incident. */
  predicate Placed(p: ApplicationProfile, window: nat, before: Records, after: Records, n: AlertNotification,
                   id: Ident)
  {
    if Known(before, n) then id in before && HasSignal(before[id], n.notificationId) && after == before
    else
      && SignalAdded(before, after, n, id)
      && if Joinable(p, window, before, n) then IsJoined(p, window, before, n, id) else id !in before
  }

  /** At most one audit event of the consumer was added to that incident, and nothing else changed. */
  predicate Audited(before: Records, after: Records, n: AlertNotification, id: Ident) {
    && id in before && id in after && after == before[id := after[id]]
    && if HasAudit(before[id], n.notificationId) then after == before
       else
         && after[id] == before[id].(events := after[id].events)
         && |after[id].events| == |before[id].events| + 1 && before[id].events <= after[id].events
         && EndsWithAudit(after[id].events, n)
  }

  class AlertIngestionService {
    const store: InMemoryIncidentStore
    const profile: ApplicationProfile
    const enrollment: PolicyEngine.EnrollmentProvider
    const host: Host
    const window: nat

    constructor (store: InMemoryIncidentStore, profile: ApplicationProfile,
                 enrollment: PolicyEngine.EnrollmentProvider, host: Host, window: nat)
      ensures this.store == store && this.profile == profile && this.host == host && this.window == window
      ensures this.enrollment == enrollment
    {
      this.store, this.profile, this.enrollment, this.host, this.window := store, profile, enrollment, host, window;
    }

    /** The consumer stands at `c`, over the records as they are stored. */
    ghost predicate Standing(c: Consumer)
      reads store, host
    {
      Sound(profile, window, store.records, c) && UuidsPast(store.records, host.nextUuid)
    }

    /** The incident that has the signal already, joins it, or is created for it. */
    method Locate(n: AlertNotification) returns (r: Result<(Ident, InvestigationRecord), IngestionError>)
      requires Standing(Looking(n)) && n.applicationId == profile.applicationId
      modifies store, host`nextUuid
      ensures if r.Success? then Standing(EnsuringAudit(n, r.value.0, r.value.1)) else Standing(Idle)
      ensures HeadersKept(old(store.records), store.records)
      ensures r.Success? <==> Known(old(store.records), n) || Joinable(profile, window, old(store.records), n)
                              || MayOpen(profile, n)
      ensures if r.Success?
              then
                && Placed(profile, window, old(store.records), store.records, n, r.value.0)
                && r.value.0 in store.records && r.value.1 == store.records[r.value.0]
              else store.records == old(store.records)
    {
      hide Sound, IsListing, HasSignal, HasAudit, FindCorrelated, CallThen, OnceOverall, Qualifies, UuidsPast;
      hide MayOpen, SignalAdded;
      var listing := store.List();
      ListedAreStored(store.records, listing);
      FreshIsUnused(store.records, host.nextUuid);
      ghost var v := Proceed(listing, Uuid(host.nextUuid), Uuid(host.nextUuid), Uuid(host.nextUuid));
      ServiceStep(profile, window, store.records, Looking(n), v);
      AllAreListed(store.records, listing);
      var found := FindByNotification(store.records, listing, n.notificationId);
      if found.Some? {
        return Success((found.value, store.records[found.value]));
      }
      var again := store.List();
      ListedAreStored(store.records, again);
      v := Proceed(again, Uuid(host.nextUuid), Uuid(host.nextUuid), Uuid(host.nextUuid));
      ServiceStep(profile, window, store.records, Correlating(n), v);
      CorrelationRule(profile, window, store.records, again, n);
      var joined := FindCorrelated(profile, window, store.records, again, n);
      if joined.Some? {
        QualifiedIsOurs(profile, window, n, store.records[joined.value]);
        r := AppendSignal(n, joined.value, store.records[joined.value]);
        return;
      }
      if n.state.AlertClosed? {
        IdleAfterwards(profile, window, store.records, Correlating(n));
        ClosureMayNotOpen(profile, n);
        return Failure(ProviderClosureOnly);
      }
      r := CreateFor(n);
    }

    method CreateFor(n: AlertNotification) returns (r: Result<(Ident, InvestigationRecord), IngestionError>)
      requires Standing(CreatingIncident(n)) && n.state.AlertOpen? && n.applicationId == profile.applicationId
      modifies store, host`nextUuid
      ensures if r.Success? then Standing(EnsuringAudit(n, r.value.0, r.value.1)) else Standing(Idle)
      ensures HeadersKept(old(store.records), store.records)
      ensures r.Success? <==> MayOpen(profile, n)
      ensures if r.Success?
              then
                && r.value.0 !in old(store.records) && SignalAdded(old(store.records), store.records, n, r.value.0)
                && r.value.0 in store.records && r.value.1 == store.records[r.value.0]
              else store.records == old(store.records)
    {
      hide Sound, HasSignal, HasAudit, OnceOverall, CreateRecord, MayOpen, Tells;
      ghost var before := store.records;
      SomeListing(store.records);
      ghost var listing :| IsListing(store.records, listing);
      ListedAreStored(store.records, listing);
      FreshIsUnused(store.records, host.nextUuid);
      var incidentId := host.FreshId();
      var windowId := host.FreshId();
      ServiceStep(profile, window, store.records, CreatingIncident(n),
                  Proceed(listing, incidentId, windowId, windowId));
      OpensExactly(profile, n, incidentId, windowId);
      var created := store.Create(profile, Normalize(n), incidentId, windowId);
      if created.Failure? {
        return Failure(RefusedCall);
      }
      ghost var middle := store.records;
      r := AppendSignal(n, incidentId, created.value);
      NewWithSignal(before, middle, store.records, n, incidentId);
      HeadersTransitive(before, middle, store.records);
    }

    /** The append asks neither for the lifecycle nor for the version of what was looked up. */
    method AppendSignal(n: AlertNotification, id: Ident, ghost seen: InvestigationRecord)
      returns (r: Result<(Ident, InvestigationRecord), IngestionError>)
      requires Standing(AppendingSignal(n, id, seen))
      requires id in store.records && store.records[id].incident.applicationId == n.applicationId
      modifies store
      ensures r.Success? && r.value.0 == id && Standing(EnsuringAudit(n, id, r.value.1))
      ensures HeadersKept(old(store.records), store.records)
      ensures SignalAdded(old(store.records), store.records, n, id)
      ensures id in store.records && r.value.1 == store.records[id]
    {
      hide Sound, HasSignal, HasAudit, OnceOverall, Apply, UuidsPast, Tells;
      SomeListing(store.records);
      ghost var listing :| IsListing(store.records, listing);
      ListedAreStored(store.records, listing);
      FreshIsUnused(store.records, host.nextUuid);
      ghost var v := Proceed(listing, Uuid(host.nextUuid), Uuid(host.nextUuid), Uuid(host.nextUuid));
      ServiceStep(profile, window, store.records, AppendingSignal(n, id, seen), v);
      StoredUnderOwnId(profile, window, store.records, AppendingSignal(n, id, seen));
      SignalAccepted(profile, window, store.records, n, id, seen);
      var appended := store.Perform(id, StoreOp.AppendAlertSignal(SignalFrom(n, id)));
      PerformedUuids(old(store.records), id, StoreOp.AppendAlertSignal(SignalFrom(n, id)), host.nextUuid);
      r := if appended.Success? then Success((id, appended.value)) else Failure(RefusedCall);
    }

    /** Adds the audit event unless the record just read has it. */
    method EnsureAudit(n: AlertNotification, id: Ident, seen: InvestigationRecord)
      returns (r: Option<InvestigationRecord>)
      requires Standing(EnsuringAudit(n, id, seen)) && id in store.records && seen == store.records[id]
      modifies store, host`nextUuid
      ensures r.Some? && Standing(Acknowledging(n, id))
      ensures HeadersKept(old(store.records), store.records)
      ensures Audited(old(store.records), store.records, n, id)
      ensures id in store.records && r.value == store.records[id]
    {
      hide Sound, HasSignal, HasAudit, OnceOverall, Apply, UuidsPast;
      SomeListing(store.records);
      ghost var listing :| IsListing(store.records, listing);
      ListedAreStored(store.records, listing);
      FreshIsUnused(store.records, host.nextUuid);
      var eventId := host.FreshId();
      ServiceStep(profile, window, store.records, EnsuringAudit(n, id, seen),
                  Proceed(listing, eventId, eventId, eventId));
      LaterUuids(store.records, old(host.nextUuid));
      if HasAudit(seen, n.notificationId) {
        return Some(seen);
      }
      StoredUnderOwnId(profile, window, store.records, EnsuringAudit(n, id, seen));
      AuditAccepted(store.records, n, id, old(host.nextUuid));
      var audited := store.Perform(id, StoreOp.AppendEvent(AuditFrom(n, id, eventId)));
      PerformedUuids(old(store.records), id, StoreOp.AppendEvent(AuditFrom(n, id, eventId)), host.nextUuid);
      r := if audited.Success? then Some(audited.value) else None;
    }

    /** Persists the signal and its audit event before it acknowledges; an exception leaves it unacknowledged. */
    method Consume(message: InMemoryAlertMessage) returns (r: Result<InvestigationRecord, IngestionError>)
      requires OnceOverall(store.records) && UuidsPast(store.records, host.nextUuid) && !message.acknowledged
      requires JoinedEverywhere(profile, window, store.records)
      modifies store, host, message
      ensures r.Success? <==>
                && enrollment.ready && message.notification.applicationId == profile.applicationId
                && WorkloadReference(message.notification.namespace, message.notification.workloadName)
                   in Enrolled(profile)
                && (Known(old(store.records), message.notification)
                    || Joinable(profile, window, old(store.records), message.notification)
                    || MayOpen(profile, message.notification))
      ensures if r.Success?
              then
                && var id := r.value.incident.incidentId;
                && id in store.records && store.records[id] == r.value
                && exists placed: Records ::
                     && Placed(profile, window, old(store.records), placed, message.notification, id)
                     && Audited(placed, store.records, message.notification, id)
              else store.records == old(store.records)
      ensures OnceOverall(store.records) && UuidsPast(store.records, host.nextUuid)
      ensures JoinedEverywhere(profile, window, store.records)
      ensures message.acknowledged <==> r.Success?
      ensures r.Success? ==> Ingested(store.records, message.notification.notificationId)
      ensures HeadersKept(old(store.records), store.records)
    {
      hide OnceOverall, UuidsPast, HasSignal, HasAudit, JoinedEverywhere, Known, Joinable, MayOpen, Placed;
      var n := message.notification;
      var enrolled := enrollment.Ready();
      if n.applicationId != profile.applicationId || !enrolled
         || WorkloadReference(n.namespace, n.workloadName) !in Enrolled(profile)
      {
        return Failure(NotEnrolledTarget);
      }
      hide Audited, HeadersKept;
      ghost var before := store.records;
      var located := Locate(n);
      if located.Failure? {
        return Failure(located.error);
      }
      ghost var middle := store.records;
      StoredUnderOwnId(profile, window, middle, EnsuringAudit(n, located.value.0, located.value.1));
      var final := EnsureAudit(n, located.value.0, located.value.1);
      IdentityStays(middle, store.records, n, located.value.0);
      HeadersTransitive(before, middle, store.records);
      if final.None? {
        return Failure(RefusedCall);
      }
      message.Acknowledge();
      r := Success(final.value);
    }
  }

  /** The last event is the consumer's, names the notification, and says whether the provider closed the alert. */
  predicate EndsWithAudit(events: seq<AuditEvent>, n: AlertNotification) {
    && events != []
    && var e := events[|events| - 1];
    && e.notificationId == Some(n.notificationId) && e.actor == "alert-consumer"
    && e.eventType == if n.state == AlertClosed then ProviderAlertClosed else AlertSignalReceived
  }

  lemma AllAreListed(records: Records, listing: seq<Ident>)
    requires IsListing(records, listing)
    ensures forall id <- records :: id in listing
  {
  }

  lemma QualifiedIsOurs(p: ApplicationProfile, window: nat, n: AlertNotification, r: InvestigationRecord)
    requires Qualifies(p, window, n, r)
    ensures r.incident.applicationId == n.applicationId
  {
  }

  lemma ClosureMayNotOpen(p: ApplicationProfile, n: AlertNotification)
    requires n.state.AlertClosed?
    ensures !MayOpen(p, n)
  {
  }

  /** The store opens an incident exactly for an alert that may open one. */
  lemma OpensExactly(p: ApplicationProfile, n: AlertNotification, id: Ident, windowId: Ident)
    requires n.state.AlertOpen?
    ensures var r := CreateRecord(p, Normalize(n), id, windowId);
            && (r.Success? <==> MayOpen(p, n))
            && (r.Success? ==>
                  && r.value.incident == Incident(id, n.applicationId, p.version, n.observedAt, Open, NotInvestigated,
                                                  NotIntervened, 0)
                  && r.value.alertSignals == [] && r.value.events == [])
  {
  }

  lemma NewWithSignal(before: Records, middle: Records, after: Records, n: AlertNotification, id: Ident)
    requires id !in before && id in middle && middle == before[id := middle[id]]
    requires middle[id].alertSignals == [] && middle[id].events == [] && middle[id].incident.lifecycle == Open
    requires middle[id].incident.openedAt == n.observedAt && SignalAdded(middle, after, n, id)
    ensures SignalAdded(before, after, n, id)
  {
    assert after == before[id := after[id]];
  }

  /** Nobody has the signal yet and the application is the same, so the append is accepted. */
  lemma SignalAccepted(p: ApplicationProfile, window: nat, records: Records, n: AlertNotification, id: Ident,
                       seen: InvestigationRecord)
    requires Sound(p, window, records, AppendingSignal(n, id, seen))
    requires id in records && records[id].incident.applicationId == n.applicationId
    ensures Tells(SignalFrom(n, id), n, id)
    ensures Apply(records[id], StoreOp.AppendAlertSignal(SignalFrom(n, id))) ==
            Success(records[id].(alertSignals := records[id].alertSignals + [SignalFrom(n, id)]))
  {
    hide JoinInvariant, OnceInRecord;
    assert !HasSignal(records[id], n.notificationId);
  }

  lemma AuditAccepted(records: Records, n: AlertNotification, id: Ident, next: nat)
    requires UuidsPast(records, next) && id in records && records[id].incident.incidentId == id
    ensures var result := Apply(records[id], StoreOp.AppendEvent(AuditFrom(n, id, Uuid(next))));
            && result == Success(records[id].(events := Stamped(records[id], AuditFrom(n, id, Uuid(next)))))
            && EndsWithAudit(result.value.events, n)
  {
    assert EventsPast(records[id], next);
  }

  lemma LaterUuids(records: Records, next: nat)
    requires UuidsPast(records, next)
    ensures UuidsPast(records, next + 1)
  {
    forall id <- records ensures EventsPast(records[id], next + 1) {
      assert EventsPast(records[id], next);
    }
  }

  lemma IdentityStays(before: Records, after: Records, n: AlertNotification, id: Ident)
    requires Audited(before, after, n, id) && before[id].incident.incidentId == id
    ensures after[id].incident.incidentId == id
  {
  }

  lemma HeadersTransitive(a: Records, b: Records, c: Records)
    requires HeadersKept(a, b) && HeadersKept(b, c)
    ensures HeadersKept(a, c)
  {
  }

  lemma ListedAreStored(records: Records, listing: seq<Ident>)
    requires IsListing(records, listing)
    ensures forall x <- listing :: x in records
  {
  }

  lemma FreshIsUnused(records: Records, next: nat)
    requires UuidsPast(records, next)
    ensures Uuid(next) !in records
  {
  }

  lemma IdleAfterwards(p: ApplicationProfile, window: nat, records: Records, c: Consumer)
    requires Sound(p, window, records, c)
    ensures Sound(p, window, records, Idle)
  {
  }

  lemma StoredUnderOwnId(p: ApplicationProfile, window: nat, records: Records, c: Consumer)
    requires Sound(p, window, records, c)
    ensures forall id <- records :: records[id].incident.incidentId == id
  {
    hide OnceInRecord, ConsumerInvariant, JoinInvariant;
  }

  lemma PerformedUuids(records: Records, id: Ident, op: StoreOp, next: nat)
    requires UuidsPast(records, next) && (op.AppendEvent? ==> op.event.eventId.Uuid? && op.event.eventId.serial < next)
    requires op.AppendEvent? || op.AppendAlertSignal?
    ensures id in records && records[id].incident.incidentId == id ==>
              UuidsPast(MemoryAfter(records, Performing(id, op)), next)
  {
    if id in records && Apply(records[id], op).Success? {
      assert EventsPast(records[id], next);
    }
  }

  lemma {:induction false} SomeListing(records: Records)
    ensures exists listing :: IsListing(records, listing)
  {
    ListingOf(records, records.Keys);
    var listing :| ListsAmong(records, records.Keys, listing);
    assert IsListing(records, listing);
  }

  ghost predicate ListsAmong(records: Records, among: set<Ident>, listing: seq<Ident>)
    requires among <= records.Keys
  {
    && (forall id :: id in listing <==> id in among)
    && (forall i, j | 0 <= i < j < |listing| :: listing[i] != listing[j])
    && (forall i, j | 0 <= i < j < |listing| ::
          records[listing[j]].incident.openedAt <= records[listing[i]].incident.openedAt)
  }

  lemma ListingOf(records: Records, among: set<Ident>)
    requires among <= records.Keys
    ensures exists listing :: ListsAmong(records, among, listing)
  {
    if among == {} {
      assert ListsAmong(records, among, []);
    } else {
      LatestExists(records, among);
      var first :| IsLatest(records, among, first);
      ListingOf(records, among - {first});
      var rest :| ListsAmong(records, among - {first}, rest);
      assert ListsAmong(records, among, [first] + rest);
    }
  }
}
