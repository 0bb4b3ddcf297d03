/** The in-memory store, the document store that refines it, and the replay of its timeline. */
module IncidentStores {
  import opened Wrappers
  import opened Incidents
  import opened RecordOperations
  import opened RecordInvariants
  import opened RecordRuns

  type Records = map<Ident, InvestigationRecord>

  // ---------------------------------------------------------------- what one call does

  /** One service call: the creation of an Incident, or an operation on a stored one. */
  datatype StoreCall =
    | Creating(profile: ApplicationProfile, signal: AlertSignal, incidentId: Ident, windowId: Ident)
    | Performing(incidentId: Ident, op: StoreOp)

  predicate ValidCall(c: StoreCall) {
    if c.Creating? then ValidProfile(c.profile) else ValidArguments(c.op)
  }

  function MemoryResult(m: Records, c: StoreCall): Update {
    match c
    case Creating(p, signal, id, windowId) => CreateRecord(p, signal, id, windowId)
    case Performing(id, op) => if id in m then Apply(m[id], op) else Failure(NoSuchIncident)
  }

  function MemoryAfter(m: Records, c: StoreCall): Records {
    var r := MemoryResult(m, c);
    if r.Success? then m[r.value.incident.incidentId := r.value] else m
  }

  /** The stored incidents, most recently opened first. */
  ghost predicate IsListing(records: Records, listing: seq<Ident>) {
    && (forall id :: id in listing <==> id in records)
    && (forall i, j | 0 <= i < j < |listing| :: listing[i] != listing[j])
    && (forall i, j | 0 <= i < j < |listing| ::
          records[listing[j]].incident.openedAt <= records[listing[i]].incident.openedAt)
  }

  ghost predicate IsLatest(records: Records, among: set<Ident>, id: Ident)
    requires among <= records.Keys
  {
    id in among && forall x <- among :: records[x].incident.openedAt <= records[id].incident.openedAt
  }

  lemma LatestExists(records: Records, among: set<Ident>)
    requires among <= records.Keys && among != {}
    ensures exists id :: IsLatest(records, among, id)
  {
    var one :| one in among;
    var rest := among - {one};
    if rest == {} {
      assert among == {one};
      assert IsLatest(records, among, one);
    } else {
      LatestExists(records, rest);
      var best :| IsLatest(records, rest, best);
      var winner := if records[best].incident.openedAt <= records[one].incident.openedAt then one else best;
      assert among == rest + {one};
      assert IsLatest(records, among, winner);
    }
  }

  class InMemoryIncidentStore {
    var records: Records

    constructor ()
      ensures records == map[]
    {
      records := map[];
    }

    method Create(p: ApplicationProfile, signal: AlertSignal, incidentId: Ident, windowId: Ident) returns (r: Update)
      modifies this
      ensures r == MemoryResult(old(records), Creating(p, signal, incidentId, windowId))
      ensures records == MemoryAfter(old(records), Creating(p, signal, incidentId, windowId))
    {
      r := CreateRecord(p, signal, incidentId, windowId);
      if r.Success? {
        Replace(r.value);
      }
    }

    /** All incidents by opening time, latest first; ties in any order. */
    method List() returns (listing: seq<Ident>)
      ensures IsListing(records, listing)
    {
      listing := [];
      var remaining := records.Keys;
      while remaining != {}
        invariant remaining <= records.Keys
        invariant forall id :: id in listing <==> id in records && id !in remaining
        invariant forall i, j | 0 <= i < j < |listing| :: listing[i] != listing[j]
        invariant forall i, j | 0 <= i < j < |listing| ::
                    records[listing[j]].incident.openedAt <= records[listing[i]].incident.openedAt
        invariant forall x <- listing, y <- remaining ::
                    records[y].incident.openedAt <= records[x].incident.openedAt
      {
        LatestExists(records, remaining);
        var next :| next in remaining && forall x <- remaining ::
                      records[x].incident.openedAt <= records[next].incident.openedAt;
        listing, remaining := listing + [next], remaining - {next};
      }
    }

    /** Checks the operation against the stored record and replaces it only on success. */
    method Perform(id: Ident, op: StoreOp) returns (r: Update)
      modifies this
      ensures r == MemoryResult(old(records), Performing(id, op))
      ensures records == MemoryAfter(old(records), Performing(id, op))
    {
      if id !in records {
        return Failure(NoSuchIncident);
      }
      r := Apply(records[id], op);
      if r.Success? {
        Replace(r.value);
      }
    }

    method Replace(r: InvestigationRecord)
      modifies this
      ensures records == old(records)[r.incident.incidentId := r]
    {
      records := records[r.incident.incidentId := r];
    }
  }

  // ---------------------------------------------------------------- documents

  /** A stored JSON document: the dumped fields of a record. Dumping loses nothing. */
  datatype Document = Document(fields: InvestigationRecord)

  function Dump(r: InvestigationRecord): Document {
    Document(r)
  }

  /** Reading a document back runs every validator again. */
  function Parse(d: Document): Update {
    if ValidRecord(d.fields) then Success(d.fields) else Failure(InvalidRecord)
  }

  class InMemoryDocumentDatabase {
    var documents: map<Ident, Document>

    constructor ()
      ensures documents == map[]
    {
      documents := map[];
    }

    method Create(id: Ident, value: Document) returns (created: bool)
      modifies this
      ensures created <==> id !in old(documents)
      ensures documents == if created then old(documents)[id := value] else old(documents)
    {
      created := id !in documents;
      if created {
        documents := documents[id := value];
      }
    }

    method Read(id: Ident) returns (d: Option<Document>)
      ensures d == if id in documents then Some(documents[id]) else None
    {
      d := if id in documents then Some(documents[id]) else None;
    }

    method Replace(id: Ident, value: Document)
      requires id in documents
      modifies this
      ensures documents == old(documents)[id := value]
    {
      documents := documents[id := value];
    }
  }

  function DocumentResult(docs: map<Ident, Document>, c: StoreCall): Update {
    match c
    case Creating(p, signal, id, windowId) =>
      var created := CreateRecord(p, signal, id, windowId);
      if created.Failure? then created
      else if id in docs then Failure(AlreadyRecorded) else created
    case Performing(id, op) =>
      if id !in docs then Failure(NoSuchIncident)
      else
        var current := Parse(docs[id]);
        if current.Failure? then current else Apply(current.value, op)
  }

  function DocumentAfter(docs: map<Ident, Document>, c: StoreCall): map<Ident, Document> {
    var r := DocumentResult(docs, c);
    if r.Success? then docs[c.incidentId := Dump(r.value)] else docs
  }

  class FirestoreIncidentStore {
    const database: InMemoryDocumentDatabase

    constructor (database: InMemoryDocumentDatabase)
      ensures this.database == database
    {
      this.database := database;
    }

    method Create(p: ApplicationProfile, signal: AlertSignal, incidentId: Ident, windowId: Ident) returns (r: Update)
      modifies database
      ensures r == DocumentResult(old(database.documents), Creating(p, signal, incidentId, windowId))
      ensures database.documents == DocumentAfter(old(database.documents), Creating(p, signal, incidentId, windowId))
    {
      var delegate := new InMemoryIncidentStore();
      r := delegate.Create(p, signal, incidentId, windowId);
      if r.Failure? {
        return;
      }
      var created := database.Create(incidentId, Dump(r.value));
      if !created {
        r := Failure(AlreadyRecorded);
      }
    }

    /** One transaction: parse, run the operation on a fresh in-memory delegate, and write back what it stored. */
    method Mutate(id: Ident, op: StoreOp) returns (r: Update)
      modifies database
      ensures r == DocumentResult(old(database.documents), Performing(id, op))
      ensures database.documents == DocumentAfter(old(database.documents), Performing(id, op))
    {
      var document := database.Read(id);
      if document.None? {
        return Failure(NoSuchIncident);
      }
      var current := Parse(document.value);
      if current.Failure? {
        return current;
      }
      var delegate := new InMemoryIncidentStore();
      delegate.records := map[id := current.value];
      r := delegate.Perform(id, op);
      if r.Success? {
        database.Replace(id, Dump(r.value));
      }
    }
  }

  // ---------------------------------------------------------------- refinement

  /** The documents are exactly the dumped records, each under its own id, and each parses back. */
  predicate Mirrors(docs: map<Ident, Document>, m: Records) {
    && docs.Keys == m.Keys
    && (forall id <- m :: docs[id] == Dump(m[id]) && m[id].incident.incidentId == id && ValidRecord(m[id]))
  }

  lemma CreatedIsValid(p: ApplicationProfile, signal: AlertSignal, incidentId: Ident, windowId: Ident)
    requires ValidProfile(p) && CreateRecord(p, signal, incidentId, windowId).Success?
    ensures var r := CreateRecord(p, signal, incidentId, windowId).value;
            ValidRecord(r) && r.incident.incidentId == incidentId
  {
  }

  lemma OperationKeepsIdentity(r: InvestigationRecord, op: StoreOp)
    requires Apply(r, op).Success?
    ensures Apply(r, op).value.incident.incidentId == r.incident.incidentId
  {
    hide ValidRecord, AssessmentsOf, ExpectedProgress, Stamped, ReplaceIntervention;
  }

  /** Creation gets a fresh identifier, as uuids are. */
  predicate FreshCall(m: Records, c: StoreCall) {
    c.Creating? ==> c.incidentId !in m
  }

  /** One call: same answer, still mirrored, and a refused call leaves every document as it was. */
  lemma CallRefines(docs: map<Ident, Document>, m: Records, c: StoreCall)
    requires Mirrors(docs, m) && ValidCall(c) && FreshCall(m, c)
    ensures DocumentResult(docs, c) == MemoryResult(m, c)
    ensures Mirrors(DocumentAfter(docs, c), MemoryAfter(m, c))
    ensures DocumentResult(docs, c).Failure? ==> DocumentAfter(docs, c) == docs
  {
    hide Apply, CreateRecord, ValidRecord, ValidArguments, ValidProfile;
    var r := MemoryResult(m, c);
    if r.Success? {
      match c {
        case Creating(p, signal, id, windowId) => CreatedIsValid(p, signal, id, windowId);
        case Performing(id, op) =>
          ApplyPreservesValidity(m[id], op);
          OperationKeepsIdentity(m[id], op);
      }
    }
  }

  function MemoryRun(m: Records, calls: seq<StoreCall>): (Records, seq<Update>) {
    if calls == [] then (m, [])
    else
      var (n, results) := MemoryRun(m, calls[..|calls| - 1]);
      var c := calls[|calls| - 1];
      (MemoryAfter(n, c), results + [MemoryResult(n, c)])
  }

  function DocumentRun(docs: map<Ident, Document>, calls: seq<StoreCall>): (map<Ident, Document>, seq<Update>) {
    if calls == [] then (docs, [])
    else
      var (n, results) := DocumentRun(docs, calls[..|calls| - 1]);
      var c := calls[|calls| - 1];
      (DocumentAfter(n, c), results + [DocumentResult(n, c)])
  }

  predicate RunnableCalls(calls: seq<StoreCall>) {
    calls == [] ||
    var before := calls[..|calls| - 1];
    RunnableCalls(before) && ValidCall(calls[|calls| - 1]) && FreshCall(MemoryRun(map[], before).0, calls[|calls| - 1])
  }

  /** Any sequence of calls gets the same answers from both stores, and no stored document is ever rejected. */
  lemma {:induction false} DocumentStoreRefines(calls: seq<StoreCall>)
    requires RunnableCalls(calls)
    ensures DocumentRun(map[], calls).1 == MemoryRun(map[], calls).1
    ensures Mirrors(DocumentRun(map[], calls).0, MemoryRun(map[], calls).0)
    ensures forall id <- DocumentRun(map[], calls).0 :: Parse(DocumentRun(map[], calls).0[id]).Success?
  {
    hide DocumentAfter, DocumentResult, MemoryAfter, MemoryResult, ValidRecord, ValidCall, FreshCall;
    if calls != [] {
      var before, c := calls[..|calls| - 1], calls[|calls| - 1];
      DocumentStoreRefines(before);
      CallRefines(DocumentRun(map[], before).0, MemoryRun(map[], before).0, c);
    }
  }

  // ---------------------------------------------------------------- the timeline

  /** The events after a cursor, in order. */
  function Timeline(events: seq<AuditEvent>, after: int): seq<AuditEvent> {
    if events == [] then []
    else
      var rest := Timeline(events[..|events| - 1], after);
      if after < events[|events| - 1].cursor then rest + [events[|events| - 1]] else rest
  }

  /** What a reader positioned at `cursor` has not seen yet. */
  function Unseen(events: seq<AuditEvent>, cursor: nat): seq<AuditEvent> {
    if cursor <= |events| then events[cursor..] else []
  }

  /** The cursor of a reader who has seen everything from `cursor` on. */
  function Advanced(events: seq<AuditEvent>, cursor: nat): nat {
    if cursor <= |events| then |events| else cursor
  }

  /** With cursors 1..n, filtering by cursor is dropping a prefix. */
  lemma {:induction false} TimelineIsSuffix(events: seq<AuditEvent>, after: nat)
    requires Numbered(events)
    ensures Timeline(events, after) == Unseen(events, after)
  {
    if events != [] {
      var before := events[..|events| - 1];
      assert Numbered(before) by {
        assert forall k | 0 <= k < |before| :: before[k] == events[k];
      }
      TimelineIsSuffix(before, after);
      assert events == before + [events[|events| - 1]];
      if after < |events| {
        assert before[after..] + [events[|events| - 1]] == events[after..];
      }
    }
  }

  lemma UnseenGrows(a: seq<AuditEvent>, b: seq<AuditEvent>, cursor: nat)
    requires a <= b
    ensures Unseen(b, cursor) == Unseen(a, cursor) + Unseen(b, Advanced(a, cursor))
    ensures Advanced(b, Advanced(a, cursor)) == Advanced(b, cursor)
  {
    if cursor <= |a| {
      assert b[cursor..] == b[cursor..|a|] + b[|a|..];
      assert b[cursor..|a|] == a[cursor..];
    }
  }

  /** One poll: every listed event is sent, and the cursor follows the last one sent. */
  method Poll(events: seq<AuditEvent>, cursor: nat) returns (sent: seq<AuditEvent>, next: nat)
    requires Numbered(events)
    ensures sent == Timeline(events, cursor) == Unseen(events, cursor)
    ensures next == Advanced(events, cursor)
  {
    TimelineIsSuffix(events, cursor);
    var page := Timeline(events, cursor);
    sent, next := [], cursor;
    for i := 0 to |page|
      invariant sent == page[..i]
      invariant next == if i == 0 then cursor else page[i - 1].cursor
    {
      next := page[i].cursor;
      sent := sent + [page[i]];
    }
  }

  /** The stream over successive states of a growing record sends each event after the cursor once, in order. */
  method Stream(states: seq<seq<AuditEvent>>, cursor: nat) returns (sent: seq<AuditEvent>)
    requires forall k | 0 <= k < |states| :: Numbered(states[k])
    requires forall i, j | 0 <= i <= j < |states| :: states[i] <= states[j]
    ensures sent == if states == [] then [] else Unseen(states[|states| - 1], cursor)
  {
    sent := [];
    var current := cursor;
    for k := 0 to |states|
      invariant k == 0 ==> current == cursor && sent == []
      invariant k != 0 ==> current == Advanced(states[k - 1], cursor) && sent == Unseen(states[k - 1], cursor)
    {
      UnseenGrows(if k == 0 then [] else states[k - 1], states[k], cursor);
      var page, next := Poll(states[k], current);
      sent, current := sent + page, next;
    }
  }
}
