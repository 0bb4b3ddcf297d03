/** Which incident a signal joins, over whole ingestion runs: what was looked up, what others did meanwhile. */
module AlertJoins {
  import opened Wrappers
  import opened Incidents
  import opened RecordOperations
  import opened RecordInvariants
  import opened RecordRuns
  import opened IncidentStores
  import opened Alerts
  import IncidentApi

  /** Resolved or closed: no longer an incident a signal should join. */
  predicate Ended(r: InvestigationRecord) {
    r.incident.lifecycle == Resolved || r.incident.lifecycle == Closed
  }

  predicate SameProvider(a: AlertSignal, b: AlertSignal) {
    && a.providerIncidentId.Some? && a.providerIncidentId.value != ""
    && b.providerIncidentId == a.providerIncidentId
  }

  /** The same provider incident, or the same or a dependent workload. */
  predicate Correlated(p: ApplicationProfile, a: AlertSignal, b: AlertSignal) {
    SameProvider(a, b) || (b.workloadName != "" && Related(p, a.workloadName, b.workloadName))
  }

  predicate CorrelatedBefore(p: ApplicationProfile, items: seq<AlertSignalEvidence>, k: nat)
    requires k < |items|
  {
    exists j | 0 <= j < k :: Correlated(p, items[k].signal, items[j].signal)
  }

  /** The first signal opened the incident; a later one is close to its opening and correlated to an earlier one. */
  predicate JoinedAt(p: ApplicationProfile, window: nat, r: InvestigationRecord, k: nat)
    requires k < |r.alertSignals|
  {
    var s := r.alertSignals[k].signal;
    && s.applicationId == r.incident.applicationId
    && (if k == 0 then s.observedAt == r.incident.openedAt
        else
          && s.observedAt <= r.incident.openedAt + window && r.incident.openedAt <= s.observedAt + window
          && CorrelatedBefore(p, r.alertSignals, k))
  }

  predicate AllJoined(p: ApplicationProfile, window: nat, r: InvestigationRecord) {
    forall k | 0 <= k < |r.alertSignals| :: JoinedAt(p, window, r, k)
  }

  /** What alert correlation reads off a header; it never changes. */
  predicate SameOpening(a: InvestigationRecord, b: InvestigationRecord) {
    b.incident.openedAt == a.incident.openedAt && b.incident.applicationId == a.incident.applicationId
  }

  /** Created for this very notification, and without a signal yet. */
  predicate CreatedFor(n: AlertNotification, r: InvestigationRecord) {
    && r.alertSignals == [] && r.incident.lifecycle == Open
    && r.incident.openedAt == n.observedAt && r.incident.applicationId == n.applicationId
  }

  /** The incident the signal goes to qualified when it was looked up, or was created for it. */
  predicate Chosen(p: ApplicationProfile, window: nat, n: AlertNotification, seen: InvestigationRecord,
                   r: InvestigationRecord)
  {
    && (Qualifies(p, window, n, seen) || CreatedFor(n, seen))
    && r.alertSignals == seen.alertSignals && SameOpening(seen, r)
  }

  predicate JoinedEverywhere(p: ApplicationProfile, window: nat, m: Records) {
    forall id <- m :: AllJoined(p, window, m[id])
  }

  predicate JoinInvariant(p: ApplicationProfile, window: nat, s: Ingestion) {
    && JoinedEverywhere(p, window, s.records)
    && (s.consumer.AppendingSignal? ==>
          s.consumer.id in s.records && Chosen(p, window, s.consumer.n, s.consumer.seen, s.records[s.consumer.id]))
  }

  // ---------------------------------------------------------------- one store call

  /** Whatever a call does to the header, the opening stays, and what has ended stays ended. */
  lemma HeaderAfter(r: InvestigationRecord, op: StoreOp)
    requires Apply(r, op).Success?
    requires op.CompareAndSet? && op.expectedVersion == r.incident.version == op.replacement.version ==>
               exists l, o, v :: TransitionIncident(r.incident, l, o, v) == Some(op.replacement)
    ensures SameOpening(r, Apply(r, op).value) && (Ended(r) ==> Ended(Apply(r, op).value))
  {
    hide ValidRecord, Stamped, AssessmentsOf, ExpectedProgress;
  }

  lemma JoinsAlike(p: ApplicationProfile, window: nat, a: InvestigationRecord, b: InvestigationRecord)
    requires AllJoined(p, window, a) && b.alertSignals == a.alertSignals && SameOpening(a, b)
    ensures AllJoined(p, window, b)
  {
    hide CorrelatedBefore;
    forall k | 0 <= k < |b.alertSignals| ensures JoinedAt(p, window, b, k) {
      assert JoinedAt(p, window, a, k);
    }
  }

  /** Appending the signal to the chosen incident keeps every join sound. */
  lemma AppendJoins(p: ApplicationProfile, window: nat, n: AlertNotification, seen: InvestigationRecord,
                    r: InvestigationRecord, id: Ident)
    requires Chosen(p, window, n, seen, r) && AllJoined(p, window, r)
    requires ApplyAlertSignal(r, SignalFrom(n, id)).Success?
    ensures AllJoined(p, window, ApplyAlertSignal(r, SignalFrom(n, id)).value)
  {
    hide Related;
    var t := ApplyAlertSignal(r, SignalFrom(n, id)).value;
    var last := |r.alertSignals|;
    forall k | 0 <= k < |t.alertSignals| ensures JoinedAt(p, window, t, k) {
      if k < last {
        assert JoinedAt(p, window, r, k);
        if k > 0 {
          var j :| 0 <= j < k && Correlated(p, r.alertSignals[k].signal, r.alertSignals[j].signal);
          assert Correlated(p, t.alertSignals[k].signal, t.alertSignals[j].signal);
        }
      } else if Qualifies(p, window, n, seen) {
        QualifyingSignal(p, window, n, seen);
        var j :| 0 <= j < last && Correlated(p, Normalize(n), seen.alertSignals[j].signal);
        assert t.alertSignals[j] == r.alertSignals[j];
        assert Correlated(p, t.alertSignals[k].signal, t.alertSignals[j].signal);
      }
    }
  }

  lemma QualifyingSignal(p: ApplicationProfile, window: nat, n: AlertNotification, r: InvestigationRecord)
    requires Qualifies(p, window, n, r)
    ensures exists j | 0 <= j < |r.alertSignals| :: Correlated(p, Normalize(n), r.alertSignals[j].signal)
  {
    hide Related;
    if SharesProviderIncident(n, r) {
      var s :| s in r.alertSignals && s.signal.providerIncidentId == n.providerIncidentId;
      var j :| 0 <= j < |r.alertSignals| && r.alertSignals[j] == s;
      assert Correlated(p, Normalize(n), r.alertSignals[j].signal);
    } else {
      var s :| s in r.alertSignals && s.signal.workloadName != "" && Related(p, n.workloadName, s.signal.workloadName);
      var j :| 0 <= j < |r.alertSignals| && r.alertSignals[j] == s;
      assert Correlated(p, Normalize(n), r.alertSignals[j].signal);
    }
  }

  /** The council and the close endpoint derive their headers: equal versions mean the header they had read. */
  lemma CallersDeriveHeaders(records: Records, id: Ident, seen: InvestigationRecord, version: nat,
                             replacement: Incident)
    requires id in records && Extends(seen, records[id]) && PreparedFrom(seen, version, replacement)
    ensures DerivesHeader(records, Performing(id, CompareAndSet(version, replacement)))
  {
    var r := records[id];
    if version == r.incident.version == replacement.version {
      assert replacement.version == seen.incident.version;
      assert seen.incident == r.incident;
      if BeginsInvestigation(seen, version, replacement) {
        assert TransitionIncident(r.incident, Investigating, NotInvestigated, r.incident.intervention)
               == Some(replacement);
      } else {
        assert TransitionIncident(r.incident, Closed, r.incident.investigation, r.incident.intervention)
               == Some(replacement);
      }
    }
  }

  // ---------------------------------------------------------------- every step

  lemma InstalledJoins(p: ApplicationProfile, window: nat, m: Records, id: Ident, r: InvestigationRecord)
    requires JoinedEverywhere(p, window, m) && AllJoined(p, window, r)
    ensures JoinedEverywhere(p, window, m[id := r])
  {
    hide AllJoined;
  }

  lemma OtherJoins(p: ApplicationProfile, window: nat, s: Ingestion, c: StoreCall)
    requires IngestionInvariant(s) && JoinInvariant(p, window, s) && PossibleIngestion(s, Other(c))
    ensures JoinInvariant(p, window, Ingest(p, window, s, Other(c)))
  {
    hide Apply, CreateRecord, OnceOverall, ConsumerInvariant, AllJoined, Qualifies, CreatedFor, Ingested, SameOpening;
    var r := MemoryResult(s.records, c);
    if r.Success? {
      match c {
        case Creating(q, signal, id, windowId) =>
          CreatedHasNoAlerts(q, signal, id, windowId);
          NothingJoined(p, window, r.value);
          InstalledJoins(p, window, s.records, id, r.value);
        case Performing(id, op) =>
          StoredUnderOwn(s, id);
          OperationKeepsIdentity(s.records[id], op);
          SignalsAfter(s.records[id], op);
          HeaderAfter(s.records[id], op);
          JoinsAlike(p, window, s.records[id], r.value);
          InstalledJoins(p, window, s.records, id, r.value);
          if s.consumer.AppendingSignal? {
            OpeningTransitive(s.consumer.seen, s.records[id], r.value);
          }
      }
    }
  }

  lemma OpeningTransitive(a: InvestigationRecord, b: InvestigationRecord, c: InvestigationRecord)
    requires SameOpening(b, c)
    ensures SameOpening(a, b) ==> SameOpening(a, c)
  {
  }

  lemma StoredUnderOwn(s: Ingestion, id: Ident)
    requires IngestionInvariant(s) && id in s.records
    ensures s.records[id].incident.incidentId == id
  {
    hide OnceInRecord, ConsumerInvariant, Ingested;
  }

  lemma NothingJoined(p: ApplicationProfile, window: nat, r: InvestigationRecord)
    requires r.alertSignals == []
    ensures AllJoined(p, window, r)
  {
  }

  lemma CreationJoins(p: ApplicationProfile, window: nat, s: Ingestion, v: IngestionEvent)
    requires IngestionInvariant(s) && JoinInvariant(p, window, s) && PossibleIngestion(s, v) && v.Proceed?
    requires s.consumer.CreatingIncident?
    ensures JoinInvariant(p, window, Ingest(p, window, s, v))
  {
    hide OnceOverall, ConsumerInvariant, Ingested, AllJoined, Qualifies, IsListing;
    var n := s.consumer.n;
    var r := CreateRecord(p, Normalize(n), v.incidentId, v.windowId);
    if r.Success? {
      NothingJoined(p, window, r.value);
      InstalledJoins(p, window, s.records, v.incidentId, r.value);
    }
  }

  lemma AppendingJoins(p: ApplicationProfile, window: nat, s: Ingestion, v: IngestionEvent)
    requires IngestionInvariant(s) && JoinInvariant(p, window, s) && PossibleIngestion(s, v) && v.Proceed?
    requires s.consumer.AppendingSignal?
    ensures JoinInvariant(p, window, Ingest(p, window, s, v))
  {
    hide OnceOverall, ConsumerInvariant, Ingested, AllJoined, Qualifies, IsListing;
    var n, id, seen := s.consumer.n, s.consumer.id, s.consumer.seen;
    var result := ApplyAlertSignal(s.records[id], SignalFrom(n, id));
    if result.Success? {
      StoredUnderOwn(s, id);
      AppendJoins(p, window, n, seen, s.records[id], id);
      InstalledJoins(p, window, s.records, id, result.value);
    }
  }

  lemma AuditingJoins(p: ApplicationProfile, window: nat, s: Ingestion, v: IngestionEvent)
    requires IngestionInvariant(s) && JoinInvariant(p, window, s) && PossibleIngestion(s, v) && v.Proceed?
    requires s.consumer.EnsuringAudit?
    ensures JoinInvariant(p, window, Ingest(p, window, s, v))
  {
    hide OnceOverall, ConsumerInvariant, Ingested, AllJoined, IsListing, HasAudit;
    var n, id := s.consumer.n, s.consumer.id;
    if id in s.records {
      StoredUnderOwn(s, id);
      var r := s.records[id];
      var result := ApplyEvent(r, AuditFrom(n, id, v.eventId));
      if result.Success? {
        JoinsAlike(p, window, r, result.value);
        InstalledJoins(p, window, s.records, id, result.value);
      }
    }
  }

  lemma CorrelatingJoins(p: ApplicationProfile, window: nat, s: Ingestion, v: IngestionEvent)
    requires JoinInvariant(p, window, s) && PossibleIngestion(s, v) && v.Proceed? && s.consumer.Correlating?
    ensures JoinInvariant(p, window, Ingest(p, window, s, v))
  {
    hide AllJoined, Qualifies, IsListing, FirstQualifying;
    ListedHere(s.records, v.listing);
    CorrelationRule(p, window, s.records, v.listing, s.consumer.n);
  }

  lemma ListedHere(records: Records, listing: seq<Ident>)
    requires IsListing(records, listing)
    ensures forall x <- listing :: x in records
  {
  }

  /** Every step, of the consumer and of anyone else, keeps every join sound. */
  lemma IngestJoins(p: ApplicationProfile, window: nat, s: Ingestion, v: IngestionEvent)
    requires IngestionInvariant(s) && JoinInvariant(p, window, s) && PossibleIngestion(s, v)
    ensures JoinInvariant(p, window, Ingest(p, window, s, v))
  {
    hide IngestionInvariant, AllJoined, Chosen, IsListing, CallThen, MemoryAfter, FindCorrelated, FindByNotification;
    match v {
      case Other(c) => OtherJoins(p, window, s, c);
      case Proceed(_, _, _, _) =>
        match s.consumer {
          case Correlating(_) => CorrelatingJoins(p, window, s, v);
          case CreatingIncident(_) => CreationJoins(p, window, s, v);
          case AppendingSignal(_, _, _) => AppendingJoins(p, window, s, v);
          case EnsuringAudit(_, _, _) => AuditingJoins(p, window, s, v);
          case _ =>
        }
      case _ =>
    }
  }

  // ---------------------------------------------------------------- runs

  lemma {:induction false} RunKeepsJoins(p: ApplicationProfile, window: nat, events: seq<IngestionEvent>)
    requires IngestionRun(p, window, events)
    ensures JoinInvariant(p, window, IngestedBy(p, window, events))
  {
    hide JoinInvariant, Ingest, PossibleIngestion;
    if events == [] {
      NothingIsJoined(p, window);
    } else {
      RunKeepsJoins(p, window, events[..|events| - 1]);
      RunKeepsIngestion(p, window, events[..|events| - 1]);
      IngestJoins(p, window, IngestedBy(p, window, events[..|events| - 1]), events[|events| - 1]);
    }
  }

  lemma NothingIsJoined(p: ApplicationProfile, window: nat)
    ensures JoinInvariant(p, window, NOTHING_INGESTED)
  {
  }

  /** One of the two declared workloads lists the other among its dependencies. */
  predicate Adjacent(p: ApplicationProfile, left: string, right: string) {
    exists v <- p.workloads, w <- p.workloads ::
      v.reference.name == left && w.reference.name == right && (right in v.dependencies || left in w.dependencies)
  }

  /** In every run every stored signal but the first is in the window and correlated to an earlier one. */
  lemma EverySignalBelongs(p: ApplicationProfile, window: nat, events: seq<IngestionEvent>, id: Ident, k: nat)
    requires IngestionRun(p, window, events) && id in IngestedBy(p, window, events).records
    requires k < |IngestedBy(p, window, events).records[id].alertSignals|
    ensures var r := IngestedBy(p, window, events).records[id];
            var s := r.alertSignals[k].signal;
            && s.applicationId == r.incident.applicationId
            && (k == 0 ==> s.observedAt == r.incident.openedAt)
            && (k > 0 ==>
                  && s.observedAt <= r.incident.openedAt + window && r.incident.openedAt <= s.observedAt + window
                  && exists j | 0 <= j < k ::
                       || SameProvider(s, r.alertSignals[j].signal)
                       || r.alertSignals[j].signal.workloadName == s.workloadName
                       || Adjacent(p, s.workloadName, r.alertSignals[j].signal.workloadName))
  {
    hide Chosen, Related, Adjacent, SameProvider;
    RunKeepsJoins(p, window, events);
    hide IngestionRun, IngestedBy;
    var r := IngestedBy(p, window, events).records[id];
    assert JoinedAt(p, window, r, k);
    if k > 0 {
      var j :| 0 <= j < k && Correlated(p, r.alertSignals[k].signal, r.alertSignals[j].signal);
      if !SameProvider(r.alertSignals[k].signal, r.alertSignals[j].signal) {
        RelatedIsAdjacent(p, r.alertSignals[k].signal.workloadName, r.alertSignals[j].signal.workloadName);
      }
    }
  }

  lemma RelatedIsAdjacent(p: ApplicationProfile, left: string, right: string)
    requires Related(p, left, right)
    ensures left == right || Adjacent(p, left, right)
  {
  }

  // ---------------------------------------------------------------- an incident that ends before its signal arrives

  /** Since this delivery's lookup some other caller resolved or closed the chosen incident. */
  ghost predicate EndedMeanwhile(p: ApplicationProfile, window: nat, events: seq<IngestionEvent>, id: Ident)
    requires IngestionRun(p, window, events)
  {
    events != [] &&
    var before, v := events[..|events| - 1], events[|events| - 1];
    var s, t := IngestedBy(p, window, before), IngestedBy(p, window, events);
    && s.consumer.AppendingSignal?
    && (EndedMeanwhile(p, window, before, id)
        || (v.Other? && id in s.records && id in t.records && !Ended(s.records[id]) && Ended(t.records[id])))
  }

  lemma FreshlyChosen(p: ApplicationProfile, window: nat, s: Ingestion, v: IngestionEvent)
    requires IngestionInvariant(s) && PossibleIngestion(s, v) && !s.consumer.AppendingSignal?
    requires Ingest(p, window, s, v).consumer.AppendingSignal?
    ensures var t := Ingest(p, window, s, v);
            v.Proceed? && t.consumer.id in t.records && !Ended(t.records[t.consumer.id])
  {
    hide OnceOverall, ConsumerInvariant, Ingested, IsListing, FirstQualifying, SharesProviderIncident, SharesWorkload;
    if s.consumer.Correlating? {
      ListedHere(s.records, v.listing);
      CorrelationRule(p, window, s.records, v.listing, s.consumer.n);
    }
  }

  lemma OtherWhileAppending(p: ApplicationProfile, window: nat, s: Ingestion, v: IngestionEvent)
    requires IngestionInvariant(s) && PossibleIngestion(s, v) && s.consumer.AppendingSignal?
    requires Ingest(p, window, s, v).consumer.AppendingSignal?
    ensures var t := Ingest(p, window, s, v);
            && v.Other? && t.consumer == s.consumer && s.consumer.id in s.records && s.consumer.id in t.records
            && (Ended(s.records[s.consumer.id]) ==> Ended(t.records[s.consumer.id]))
  {
    hide OnceOverall, Ingested, IsListing, Apply, CreateRecord, LeavesAlerts;
    var c, id := v.call, s.consumer.id;
    if MemoryResult(s.records, c).Success? && c.Performing? {
      StoredUnderOwn(s, c.incidentId);
      OperationKeepsIdentity(s.records[c.incidentId], c.op);
      HeaderAfter(s.records[c.incidentId], c.op);
    } else if c.Creating? && MemoryResult(s.records, c).Success? {
      CreatedHasNoAlerts(c.profile, c.signal, c.incidentId, c.windowId);
    }
  }

  lemma {:induction false} ChosenStaysActive(p: ApplicationProfile, window: nat, events: seq<IngestionEvent>)
    requires IngestionRun(p, window, events) && IngestedBy(p, window, events).consumer.AppendingSignal?
    ensures var s := IngestedBy(p, window, events);
            && s.consumer.id in s.records
            && (Ended(s.records[s.consumer.id]) <==> EndedMeanwhile(p, window, events, s.consumer.id))
  {
    hide IngestionInvariant, Ingest, PossibleIngestion, Ended;
    var before, v := events[..|events| - 1], events[|events| - 1];
    var s := IngestedBy(p, window, before);
    RunKeepsIngestion(p, window, before);
    if s.consumer.AppendingSignal? {
      ChosenStaysActive(p, window, before);
      OtherWhileAppending(p, window, s, v);
    } else {
      FreshlyChosen(p, window, s, v);
    }
  }

  /**
   * Where the signal is stored the incident is still active exactly when no other caller resolved or closed it after
   * the lookup; the append itself never asks.
   */
  lemma StoredOnActiveExactly(p: ApplicationProfile, window: nat, events: seq<IngestionEvent>, v: IngestionEvent)
    requires IngestionRun(p, window, events) && PossibleIngestion(IngestedBy(p, window, events), v) && v.Proceed?
    requires IngestedBy(p, window, events).consumer.AppendingSignal?
    ensures var s := IngestedBy(p, window, events);
            var t, id := Ingest(p, window, s, v), s.consumer.id;
            && t.consumer.EnsuringAudit?
            && id in t.records && HasSignal(t.records[id], s.consumer.n.notificationId)
            && (!Ended(t.records[id]) <==> !EndedMeanwhile(p, window, events, id))
  {
    hide EndedMeanwhile, IngestionInvariant, JoinInvariant;
    RunKeepsIngestion(p, window, events);
    RunKeepsJoins(p, window, events);
    ChosenStaysActive(p, window, events);
    var s := IngestedBy(p, window, events);
    hide IngestionRun, IngestedBy;
    AppendAccepted(p, window, s, v);
  }

  /** The append to the chosen incident is always accepted, whatever became of the incident. */
  lemma AppendAccepted(p: ApplicationProfile, window: nat, s: Ingestion, v: IngestionEvent)
    requires IngestionInvariant(s) && JoinInvariant(p, window, s) && PossibleIngestion(s, v) && v.Proceed?
    requires s.consumer.AppendingSignal?
    ensures var t, id := Ingest(p, window, s, v), s.consumer.id;
            && t.consumer.EnsuringAudit? && id in s.records && id in t.records
            && HasSignal(t.records[id], s.consumer.n.notificationId)
            && t.records[id].incident == s.records[id].incident
  {
    hide OnceOverall, Ingested, IsListing, JoinedEverywhere, SharesProviderIncident, SharesWorkload;
    var n, id := s.consumer.n, s.consumer.id;
    StoredUnderOwn(s, id);
    assert !HasSignal(s.records[id], n.notificationId);
    var r := ApplyAlertSignal(s.records[id], SignalFrom(n, id));
    assert r.Success?;
    assert r.value.alertSignals[|s.records[id].alertSignals|] == SignalFrom(n, id);
  }

  /** Another caller closes the incident under its current version. */
  function CloseCall(r: InvestigationRecord): IngestionEvent {
    var header := r.incident.(lifecycle := Closed);
    Other(Performing(r.incident.incidentId, CompareAndSet(header.version, header)))
  }

  /** The run in which it fails: another caller closes the chosen incident, and the signal lands on a closed one. */
  lemma SignalLandsOnClosed(p: ApplicationProfile, window: nat, s: Ingestion, v: IngestionEvent)
    requires IngestionInvariant(s) && JoinInvariant(p, window, s) && s.consumer.AppendingSignal?
    requires s.consumer.id in s.records && RecordInvariant(s.records[s.consumer.id]) && v.Proceed?
    requires PossibleIngestion(Ingest(p, window, s, CloseCall(s.records[s.consumer.id])), v)
    ensures var close := CloseCall(s.records[s.consumer.id]);
            var t := Ingest(p, window, Ingest(p, window, s, close), v);
            && PossibleIngestion(s, close)
            && t.consumer.EnsuringAudit? && t.consumer.id == s.consumer.id && s.consumer.id in t.records
            && t.records[s.consumer.id].incident.lifecycle == Closed
            && HasSignal(t.records[s.consumer.id], s.consumer.n.notificationId)
  {
    hide OnceOverall, Ingested, RecordInvariant, IsListing, HasSignal, Chosen, IngestionInvariant, JoinInvariant;
    var id := s.consumer.id;
    var r, close := s.records[id], CloseCall(s.records[id]);
    StoredUnderOwn(s, id);
    IncidentApi.CloseAccepted(r, r.incident.version);
    IngestKeeps(p, window, s, close);
    IngestJoins(p, window, s, close);
    AppendAccepted(p, window, Ingest(p, window, s, close), v);
  }
}
