/** The close endpoint: one compare-and-set under the version its client saw, then one audit event. */
module IncidentApi {
  import opened Wrappers
  import opened Incidents
  import opened RecordOperations
  import opened RecordInvariants
  import opened RecordRuns
  import opened IncidentStores
  import opened Protocol
  import opened ProtocolInvariants
  import opened ProtocolSteps
  import opened Hosts

  datatype CloseError = IncidentNotFound | CloseRejected(reason: StoreError)

  /** Closed under a new version, with one more event and nothing else changed. */
  predicate ClosedFrom(before: InvestigationRecord, after: InvestigationRecord) {
    && after == before.(incident := Bumped(before.incident.(lifecycle := Closed)), events := after.events)
    && before.events <= after.events && |after.events| == |before.events| + 1
  }

  class IncidentsEndpoint {
    const store: InMemoryIncidentStore
    const host: Host

    constructor (store: InMemoryIncidentStore, host: Host)
      ensures this.store == store && this.host == host
    {
      this.store, this.host := store, host;
    }

    /** Closing succeeds from every lifecycle, exactly under the current version, and keeps a running Intervention. */
    method CloseIncident(id: Ident, expectedVersion: nat, principal: string)
      returns (r: Result<InvestigationRecord, CloseError>)
      requires id in store.records ==>
                 RecordInvariant(store.records[id]) && EventsPast(store.records[id], host.nextUuid)
                 && store.records[id].incident.incidentId == id
      modifies store, host`nextUuid
      ensures r.Success? <==>
              id in old(store.records) && old(store.records)[id].incident.version == expectedVersion
      ensures r.Failure? ==> store.records == old(store.records)
      ensures r.Success? ==>
                && store.records == old(store.records)[id := r.value]
                && ClosedFrom(old(store.records)[id], r.value)
    {
      hide RecordInvariant, Apply, EventsPast, ValidRecord;
      if id !in store.records {
        return Failure(IncidentNotFound);
      }
      var record := store.records[id];
      var replacement := TransitionIncident(record.incident, Closed, record.incident.investigation,
                                            record.incident.intervention);
      CloseAccepted(record, expectedVersion);
      var closed := store.Perform(id, CompareAndSet(expectedVersion, replacement.value));
      if closed.Failure? {
        return Failure(CloseRejected(closed.error));
      }
      var eventId := host.FreshId();
      var event := AuditEvent(eventId, id, OtherEvent("incident_closed"), principal, None, 0);
      LogAccepted(closed.value, event, old(host.nextUuid));
      var noted := store.Perform(id, AppendEvent(event));
      r := Success(noted.value);
    }
  }

  lemma CloseAccepted(r: InvestigationRecord, version: nat)
    requires RecordInvariant(r)
    ensures TransitionIncident(r.incident, Closed, r.incident.investigation, r.incident.intervention).Some?
    ensures var next := TransitionIncident(r.incident, Closed, r.incident.investigation, r.incident.intervention).value;
            var result := Apply(r, CompareAndSet(version, next));
            && (result.Success? <==> r.incident.version == version)
            && (result.Success? ==>
                  result.value == r.(incident := Bumped(r.incident.(lifecycle := Closed)))
                  && (forall n: nat :: EventsPast(r, n) ==> EventsPast(result.value, n)))
  {
    hide RecordInvariant, ValidRecord;
    var next := r.incident.(lifecycle := Closed);
    HeaderChangeValid(r, Bumped(next));
  }

  lemma HeaderChangeValid(r: InvestigationRecord, header: Incident)
    requires RecordInvariant(r)
    requires header.incidentId == r.incident.incidentId && header.applicationId == r.incident.applicationId
    ensures ValidRecord(r.(incident := header))
  {
    hide ValidProfile, ValidPolicyDecision, ValidApproval, ValidAssessment, Coupled, ApprovalBound;
    var s := r.(incident := header);
    assert Grounded(s) by {
      assert forall id :: HasQuery(r, id) == HasQuery(s, id);
      assert forall id :: HasEvidence(r, id) == HasEvidence(s, id);
    }
    assert Authorized(s) by {
      assert PolicyIsPassed(r) == PolicyIsPassed(s);
      assert forall id :: HasApproval(r, id) == HasApproval(s, id);
      assert forall id :: HasIntervention(r, id) == HasIntervention(s, id);
    }
  }
}
