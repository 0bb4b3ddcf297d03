/** Expiring workload leases: one document per lease key, changed by atomic transactions. */
module WorkloadLeases {
  import opened Wrappers
  import opened Incidents

  const SEPARATOR := "--deployment--"

  datatype LeaseError = LostBeforeRenewal | OwnershipChanged | ExpiredBeforeRenewal | OwnedByAnother

  function LeaseKey(t: WorkloadReference): string {
    t.namespace + SEPARATOR + t.name
  }

  // ---------------------------------------------------------------- transactions on one document

  predicate Holds(doc: Option<WorkloadLease>, lease: WorkloadLease) {
    doc.Some? && doc.value.token == lease.token && doc.value.owner == lease.owner
  }

  /** The lease granted at `now`, unless an unexpired one stands in the way. */
  function Acquired(doc: Option<WorkloadLease>, t: WorkloadReference, interventionId: Ident, owner: string, now: Time,
                    token: Ident, ttl: nat): Option<WorkloadLease>
  {
    if doc.Some? && now < doc.value.expiresAt then None
    else Some(WorkloadLease(t, interventionId, owner, token, now, now + ttl))
  }

  function Renewed(doc: Option<WorkloadLease>, lease: WorkloadLease, now: Time, ttl: nat)
    : Result<WorkloadLease, LeaseError>
  {
    if doc.None? then Failure(LostBeforeRenewal)
    else if !Holds(doc, lease) then Failure(OwnershipChanged)
    else if doc.value.expiresAt <= now then Failure(ExpiredBeforeRenewal)
    else Success(doc.value.(expiresAt := now + ttl))
  }

  predicate Releasable(doc: Option<WorkloadLease>, lease: WorkloadLease) {
    doc.None? || Holds(doc, lease)
  }

  // ---------------------------------------------------------------- the store

  function Lookup<K, V>(m: map<K, V>, k: K): Option<V> {
    if k in m then Some(m[k]) else None
  }

  class WorkloadLeaseStore {
    var documents: map<string, WorkloadLease>
    const ttl: nat

    constructor (ttl: nat)
      ensures documents == map[] && this.ttl == ttl
    {
      documents := map[];
      this.ttl := ttl;
    }

    function Document(t: WorkloadReference): Option<WorkloadLease>
      reads this
    {
      Lookup(documents, LeaseKey(t))
    }

    /** Claims the document when it is absent or expired; an unexpired lease is left as it is. */
    method Acquire(t: WorkloadReference, interventionId: Ident, owner: string, now: Time, token: Ident)
      returns (lease: Option<WorkloadLease>)
      modifies this
      ensures lease == Acquired(old(Document(t)), t, interventionId, owner, now, token, ttl)
      ensures documents == if lease.Some? then old(documents)[LeaseKey(t) := lease.value] else old(documents)
    {
      var key := LeaseKey(t);
      if key in documents && now < documents[key].expiresAt {
        return None;
      }
      lease := Some(WorkloadLease(t, interventionId, owner, token, now, now + ttl));
      documents := documents[key := lease.value];
    }

    method Renew(lease: WorkloadLease, now: Time) returns (r: Result<WorkloadLease, LeaseError>)
      modifies this
      ensures r == Renewed(old(Document(lease.target)), lease, now, ttl)
      ensures documents == if r.Success? then old(documents)[LeaseKey(lease.target) := r.value] else old(documents)
    {
      var key := LeaseKey(lease.target);
      if key !in documents {
        return Failure(LostBeforeRenewal);
      }
      var existing := documents[key];
      if existing.token != lease.token || existing.owner != lease.owner {
        return Failure(OwnershipChanged);
      }
      if existing.expiresAt <= now {
        return Failure(ExpiredBeforeRenewal);
      }
      r := Success(existing.(expiresAt := now + ttl));
      documents := documents[key := r.value];
    }

    method Release(lease: WorkloadLease) returns (r: Result<(), LeaseError>)
      modifies this
      ensures r.Success? <==> Releasable(old(Document(lease.target)), lease)
      ensures documents == if r.Success? then old(documents) - {LeaseKey(lease.target)} else old(documents)
    {
      var key := LeaseKey(lease.target);
      if key in documents && (documents[key].token != lease.token || documents[key].owner != lease.owner) {
        return Failure(OwnedByAnother);
      }
      documents := documents - {key};
      r := Success(());
    }
  }

  // ---------------------------------------------------------------- lease keys

  /** Within one namespace the key tells workloads apart. */
  lemma KeysWithinNamespace(a: WorkloadReference, b: WorkloadReference)
    requires |a.namespace| == |b.namespace|
    ensures LeaseKey(a) == LeaseKey(b) <==> a == b
  {
    if LeaseKey(a) == LeaseKey(b) {
      assert LeaseKey(a)[..|a.namespace|] == a.namespace && LeaseKey(b)[..|b.namespace|] == b.namespace;
      assert LeaseKey(a)[|a.namespace| + |SEPARATOR|..] == a.name;
      assert LeaseKey(b)[|b.namespace| + |SEPARATOR|..] == b.name;
    }
  }

  predicate Alphanumeric(c: char) {
    'a' <= c <= 'z' || '0' <= c <= '9'
  }

  /** What a workload reference accepts as a namespace or a name. */
  predicate LegalName(s: string) {
    && s != "" && Alphanumeric(s[0]) && Alphanumeric(s[|s| - 1])
    && forall c <- s :: Alphanumeric(c) || c == '-'
  }

  /** The second namespace is the first one followed by `--deployment`, or by the separator and text without a dash. */
  predicate Confusable(m: string, n: string) {
    m < n && var d := n[|m|..];
    d == SEPARATOR[..12] || (SEPARATOR < d && d[|SEPARATOR|] != '-')
  }

  /** Two different legal workloads of these namespaces share a lease key. */
  predicate SharedKey(m: string, n: string, x: string, y: string) {
    && LegalName(m) && LegalName(n) && LegalName(x) && LegalName(y)
    && WorkloadReference(m, x) != WorkloadReference(n, y)
    && LeaseKey(WorkloadReference(m, x)) == LeaseKey(WorkloadReference(n, y))
  }

  /** The separator overlaps itself only by its last one or two characters. */
  lemma SeparatorOverlaps(d: string, x: string, y: string)
    requires d != [] && SEPARATOR + x == d + (SEPARATOR + y)
    ensures d == SEPARATOR[..12] || d == SEPARATOR[..13] || SEPARATOR <= d
  {
    var key, k := SEPARATOR + x, |d|;
    assert key[..k] == d;
    if |SEPARATOR| <= k {
      assert key[..|SEPARATOR|] == SEPARATOR;
    } else {
      assert d == SEPARATOR[..k];
      assert SEPARATOR[k] == key[k] == SEPARATOR[0] == '-';
      assert k + 1 < |SEPARATOR| ==> SEPARATOR[k + 1] == key[k + 1] == SEPARATOR[1] == '-';
    }
  }

  /** A legal namespace does not end in a dash, and a legal name does not begin with one. */
  lemma LegalOverlap(n: string, d: string, x: string, y: string)
    requires LegalName(n) && LegalName(x) && d != [] && |d| <= |n| && n[|n| - |d|..] == d
    requires SEPARATOR + x == d + (SEPARATOR + y)
    ensures d == SEPARATOR[..12] || (SEPARATOR < d && d[|SEPARATOR|] != '-')
  {
    SeparatorOverlaps(d, x, y);
    assert d[|d| - 1] == n[|n| - 1];
    assert d != SEPARATOR[..13] && d != SEPARATOR;
    if SEPARATOR < d {
      assert (SEPARATOR + x)[|SEPARATOR|] == x[0];
      assert (d + (SEPARATOR + y))[|SEPARATOR|] == d[|SEPARATOR|];
    }
  }

  lemma SharedMeansConfusable(m: string, n: string, x: string, y: string)
    requires SharedKey(m, n, x, y) && |m| <= |n|
    ensures Confusable(m, n)
  {
    hide LegalName;
    var a, b := WorkloadReference(m, x), WorkloadReference(n, y);
    if |m| == |n| {
      KeysWithinNamespace(a, b);
    } else {
      assert LeaseKey(a)[..|m|] == m && LeaseKey(b)[..|m|] == n[..|m|];
      assert LeaseKey(a)[|m|..] == SEPARATOR + x;
      assert LeaseKey(b)[|m|..] == n[|m|..] + (SEPARATOR + y);
      LegalOverlap(n, n[|m|..], x, y);
    }
  }

  lemma OverlapShares(m: string, d: string, x: string, y: string)
    requires d != [] && SEPARATOR + x == d + (SEPARATOR + y)
    requires LegalName(m) && LegalName(m + d) && LegalName(x) && LegalName(y)
    ensures SharedKey(m, m + d, x, y)
  {
    hide LegalName;
    assert LeaseKey(WorkloadReference(m, x)) == m + (SEPARATOR + x);
    assert LeaseKey(WorkloadReference(m + d, y)) == m + (d + (SEPARATOR + y));
    assert |m| != |m + d|;
  }

  /** The rest of a legal namespace after the separator makes a legal name for the other workload. */
  lemma LegalRest(n: string, rest: string)
    requires LegalName(n) && rest != "" && rest[0] != '-' && |rest| <= |n| && n[|n| - |rest|..] == rest
    ensures LegalName(rest + SEPARATOR + "z")
  {
    assert forall k | 0 <= k < |rest| :: rest[k] == n[|n| - |rest| + k];
    forall c <- rest ensures Alphanumeric(c) || c == '-' {
      assert c in n;
    }
  }

  lemma ConfusableMeansShared(m: string, n: string) returns (x: string)
    requires LegalName(m) && LegalName(n) && Confusable(m, n)
    ensures SharedKey(m, n, x, "z")
  {
    hide LegalName;
    var d := n[|m|..];
    assert n == m + d;
    assert LegalName("z") && LegalName("deployment--z") by { LegalWitnesses(); }
    if SEPARATOR < d {
      x := d[14..] + SEPARATOR + "z";
      assert d == SEPARATOR + d[14..];
      assert SEPARATOR + x == d + (SEPARATOR + "z");
      LegalRest(n, d[14..]);
    } else {
      x := "deployment--z";
      assert d == "--deployment";
      assert SEPARATOR + x == d + (SEPARATOR + "z");
    }
    OverlapShares(m, d, x, "z");
  }

  lemma LegalWitnesses()
    ensures LegalName("z") && LegalName("deployment--z")
  {
  }

  /**
   * The lease key fails to tell legal workloads apart exactly between confusable namespaces: in every other pair of
   * namespaces, one namespace included, distinct workloads have distinct keys.
   */
  lemma KeysCollideExactly(m: string, n: string)
    requires LegalName(m) && LegalName(n)
    ensures (exists x, y :: SharedKey(m, n, x, y)) <==> Confusable(m, n) || Confusable(n, m)
  {
    hide SharedKey, Confusable, LegalName;
    if exists x, y :: SharedKey(m, n, x, y) {
      var x, y :| SharedKey(m, n, x, y);
      if |m| <= |n| {
        SharedMeansConfusable(m, n, x, y);
      } else {
        SharedIsSymmetric(m, n, x, y);
        SharedMeansConfusable(n, m, y, x);
      }
    }
    if Confusable(m, n) {
      var x := ConfusableMeansShared(m, n);
    } else if Confusable(n, m) {
      var x := ConfusableMeansShared(n, m);
      SharedIsSymmetric(n, m, x, "z");
    }
  }

  lemma SharedIsSymmetric(m: string, n: string, x: string, y: string)
    requires SharedKey(m, n, x, y)
    ensures SharedKey(n, m, y, x)
  {
    hide LegalName;
  }

  /** Two legal workloads that share one lease. */
  lemma KeysCollide()
    ensures SharedKey("x", "x--deployment--y", "y--deployment--z", "z")
  {
    assert LeaseKey(WorkloadReference("x", "y--deployment--z")) == "x--deployment--y--deployment--z"
           == LeaseKey(WorkloadReference("x--deployment--y", "z"));
    assert |"x"| != |"x--deployment--y"|;
  }
}
