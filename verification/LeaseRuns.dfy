/** Every interleaving of acquisitions, renewals and releases on one lease document. */
module LeaseRuns {
  import opened Wrappers
  import opened Incidents
  import opened WorkloadLeases

  /** One successful acquisition: the recorded start, the real start, and the end of its validity. */
  datatype Grant = Grant(token: Ident, recordedFrom: Time, grantedAt: Time, until: Time)

  /** `beliefs` holds, per holder that has not released, the lease the store last returned to it. */
  datatype LeaseSystem =
    LeaseSystem(doc: Option<WorkloadLease>, clock: Time, nextToken: nat, beliefs: map<Ident, WorkloadLease>,
                grants: seq<Grant>)

  /** `now` may be a clock reading taken earlier than the transaction it is used in. */
  datatype LeaseEvent =
    | Tick(elapsed: nat)
    | TryAcquire(target: WorkloadReference, interventionId: Ident, owner: string, now: Time)
    | TryRenew(token: Ident, now: Time)
    | TryRelease(token: Ident)

  const EMPTY := LeaseSystem(None, 0, 0, map[], [])

  predicate Possible(s: LeaseSystem, e: LeaseEvent) {
    match e
    case Tick(_) => true
    case TryAcquire(_, _, _, now) => now <= s.clock
    case TryRenew(token, now) => token in s.beliefs && now <= s.clock
    case TryRelease(token) => token in s.beliefs
  }

  function CutShort(grants: seq<Grant>, clock: Time): seq<Grant>
    requires grants != []
  {
    var last := |grants| - 1;
    grants[last := grants[last].(until := if clock < grants[last].until then clock else grants[last].until)]
  }

  function Next(s: LeaseSystem, e: LeaseEvent, ttl: nat): LeaseSystem
    requires Possible(s, e)
  {
    match e
    case Tick(elapsed) => s.(clock := s.clock + elapsed)
    case TryAcquire(t, interventionId, owner, now) =>
      var token := Uuid(s.nextToken);
      var lease := Acquired(s.doc, t, interventionId, owner, now, token, ttl);
      if lease.None? then s.(nextToken := s.nextToken + 1)
      else LeaseSystem(lease, s.clock, s.nextToken + 1, s.beliefs[token := lease.value],
                       s.grants + [Grant(token, now, s.clock, now + ttl)])
    case TryRenew(token, now) =>
      var renewed := Renewed(s.doc, s.beliefs[token], now, ttl);
      if renewed.Failure? || s.grants == [] then s
      else
        var last := |s.grants| - 1;
        s.(doc := Some(renewed.value), beliefs := s.beliefs[token := renewed.value],
           grants := s.grants[last := s.grants[last].(until := renewed.value.expiresAt)])
    case TryRelease(token) =>
      var rest := s.beliefs - {token};
      if !Releasable(s.doc, s.beliefs[token]) then s.(beliefs := rest)
      else if s.doc.None? || s.grants == [] then s.(doc := None, beliefs := rest)
      else s.(doc := None, beliefs := rest, grants := CutShort(s.grants, s.clock))
  }

  predicate Run(events: seq<LeaseEvent>, ttl: nat)
    decreases |events|, 0
  {
    events == [] ||
    (Run(events[..|events| - 1], ttl) && Possible(After(events[..|events| - 1], ttl), events[|events| - 1]))
  }

  function After(events: seq<LeaseEvent>, ttl: nat): LeaseSystem
    requires Run(events, ttl)
    decreases |events|, 1
  {
    if events == [] then EMPTY else Next(After(events[..|events| - 1], ttl), events[|events| - 1], ttl)
  }

  /** A holder whose last returned lease has not expired really holds the document, and holds it last. */
  predicate BeliefsSound(s: LeaseSystem) {
    forall t <- s.beliefs | s.clock < s.beliefs[t].expiresAt ::
      && s.doc.Some?
      && s.doc.value.token == t
      && s.beliefs[t].expiresAt <= s.doc.value.expiresAt
      && s.grants != [] && s.grants[|s.grants| - 1].token == t
  }

  /** Possession, from the moment of the grant to its expiry or release, is never shared. */
  predicate PossessionDisjoint(s: LeaseSystem) {
    forall i, j | 0 <= i < j < |s.grants| :: s.grants[i].until <= s.grants[j].grantedAt
  }

  predicate LeaseInvariant(s: LeaseSystem) {
    && BeliefsSound(s)
    && PossessionDisjoint(s)
    && (forall i | 0 <= i < |s.grants| :: s.grants[i].grantedAt <= s.clock && s.grants[i].token.Uuid?
                                        && s.grants[i].token.serial < s.nextToken)
    && (forall t <- s.beliefs :: t.Uuid? && t.serial < s.nextToken && s.beliefs[t].token == t)
    && (match s.doc
        case None => forall i | 0 <= i < |s.grants| :: s.grants[i].until <= s.clock
        case Some(lease) =>
          && s.grants != []
          && s.grants[|s.grants| - 1].token == lease.token
          && s.grants[|s.grants| - 1].until == lease.expiresAt
          && (lease.token in s.beliefs ==> s.beliefs[lease.token].expiresAt <= lease.expiresAt
                                           && s.beliefs[lease.token].owner == lease.owner))
  }

  lemma ReleaseKeepsLeaseInvariant(s: LeaseSystem, token: Ident, ttl: nat)
    requires LeaseInvariant(s) && token in s.beliefs
    ensures LeaseInvariant(Next(s, TryRelease(token), ttl))
  {
    var n := Next(s, TryRelease(token), ttl);
    assert forall t <- n.beliefs :: t in s.beliefs && n.beliefs[t] == s.beliefs[t];
  }

  lemma AcquireKeepsLeaseInvariant(s: LeaseSystem, e: LeaseEvent, ttl: nat)
    requires LeaseInvariant(s) && Possible(s, e) && e.TryAcquire?
    ensures LeaseInvariant(Next(s, e, ttl))
  {
  }

  lemma RenewKeepsLeaseInvariant(s: LeaseSystem, e: LeaseEvent, ttl: nat)
    requires LeaseInvariant(s) && Possible(s, e) && e.TryRenew?
    ensures LeaseInvariant(Next(s, e, ttl))
  {
  }

  lemma NextKeepsLeaseInvariant(s: LeaseSystem, e: LeaseEvent, ttl: nat)
    requires LeaseInvariant(s) && Possible(s, e)
    ensures LeaseInvariant(Next(s, e, ttl))
  {
    hide Acquired, Renewed, Releasable;
    match e {
      case TryRelease(token) => ReleaseKeepsLeaseInvariant(s, token, ttl);
      case TryAcquire(_, _, _, _) => AcquireKeepsLeaseInvariant(s, e, ttl);
      case TryRenew(_, _) => RenewKeepsLeaseInvariant(s, e, ttl);
      case Tick(_) =>
    }
  }

  /** Lease belief is sound in every run, also when executors pass clock readings taken earlier. */
  lemma {:induction false} LeaseBelief(events: seq<LeaseEvent>, ttl: nat)
    requires Run(events, ttl)
    ensures BeliefsSound(After(events, ttl)) && PossessionDisjoint(After(events, ttl))
    ensures LeaseInvariant(After(events, ttl))
  {
    if events != [] {
      LeaseBelief(events[..|events| - 1], ttl);
      NextKeepsLeaseInvariant(After(events[..|events| - 1], ttl), events[|events| - 1], ttl);
    }
  }

  // ---------------------------------------------------------------- recorded intervals

  predicate Punctual(events: seq<LeaseEvent>, ttl: nat)
    requires Run(events, ttl)
  {
    events == [] ||
    var before, last := After(events[..|events| - 1], ttl), events[|events| - 1];
    Punctual(events[..|events| - 1], ttl) && (last.TryAcquire? ==> last.now == before.clock)
  }

  lemma {:induction false} PunctualGrants(events: seq<LeaseEvent>, ttl: nat)
    requires Run(events, ttl) && Punctual(events, ttl)
    ensures forall g <- After(events, ttl).grants :: g.recordedFrom == g.grantedAt
  {
    if events != [] {
      PunctualGrants(events[..|events| - 1], ttl);
      LeaseBelief(events[..|events| - 1], ttl);
      var s, n := After(events[..|events| - 1], ttl), After(events, ttl);
      forall g <- n.grants ensures g.recordedFrom == g.grantedAt {
        var i :| 0 <= i < |n.grants| && n.grants[i] == g;
        assert i < |s.grants| ==> s.grants[i] in s.grants;
      }
    }
  }

  /** Every granted acquisition used a reading not earlier than the end of every grant before it. */
  predicate FreshReadings(events: seq<LeaseEvent>, ttl: nat)
    requires Run(events, ttl)
  {
    events == [] ||
    var before, last := After(events[..|events| - 1], ttl), events[|events| - 1];
    FreshReadings(events[..|events| - 1], ttl) && FreshStep(before, last, ttl)
  }

  predicate FreshStep(s: LeaseSystem, e: LeaseEvent, ttl: nat)
    requires Possible(s, e)
  {
    |Next(s, e, ttl).grants| > |s.grants| && e.TryAcquire? ==> forall g <- s.grants :: g.until <= e.now
  }

  /** The recorded validity intervals of distinct tokens do not overlap, and begin in the order of their grants. */
  predicate RecordedDisjoint(s: LeaseSystem) {
    forall i, j | 0 <= i < j < |s.grants| :: s.grants[i].until <= s.grants[j].recordedFrom
  }

  /** One operation keeps recorded intervals apart exactly when its reading is fresh. */
  lemma StepKeepsRecorded(s: LeaseSystem, e: LeaseEvent, ttl: nat)
    requires LeaseInvariant(s) && Possible(s, e)
    ensures RecordedDisjoint(Next(s, e, ttl)) <==> RecordedDisjoint(s) && FreshStep(s, e, ttl)
  {
    hide Renewed, Releasable, BeliefsSound, PossessionDisjoint;
    var n := Next(s, e, ttl);
    assert |n.grants| >= |s.grants| && forall i | 0 <= i < |s.grants| - 1 :: n.grants[i] == s.grants[i];
    assert forall i | 0 <= i < |s.grants| :: n.grants[i].recordedFrom == s.grants[i].recordedFrom;
    if |n.grants| == |s.grants| + 1 {
      assert n.grants == s.grants + [n.grants[|s.grants|]];
      if RecordedDisjoint(n) {
        forall g <- s.grants ensures g.until <= e.now {
          var i :| 0 <= i < |s.grants| && s.grants[i] == g;
          assert n.grants[i].until <= n.grants[|s.grants|].recordedFrom;
        }
        forall i, j | 0 <= i < j < |s.grants| ensures s.grants[i].until <= s.grants[j].recordedFrom {
          assert n.grants[i].until <= n.grants[j].recordedFrom;
        }
      }
    } else if RecordedDisjoint(n) {
      forall i, j | 0 <= i < j < |s.grants| ensures s.grants[i].until <= s.grants[j].recordedFrom {
        assert n.grants[i].until <= n.grants[j].recordedFrom;
      }
    }
  }

  /** Recorded intervals are disjoint in exactly the runs whose granted acquisitions used fresh readings. */
  lemma {:induction false} RecordedIntervalsExactly(events: seq<LeaseEvent>, ttl: nat)
    requires Run(events, ttl)
    ensures RecordedDisjoint(After(events, ttl)) <==> FreshReadings(events, ttl)
  {
    hide RecordedDisjoint, FreshStep, Next, Possible;
    if events == [] {
      NothingGranted();
    } else {
      RecordedIntervalsExactly(events[..|events| - 1], ttl);
      LeaseBelief(events[..|events| - 1], ttl);
      StepKeepsRecorded(After(events[..|events| - 1], ttl), events[|events| - 1], ttl);
    }
  }

  lemma NothingGranted()
    ensures RecordedDisjoint(EMPTY)
  {
  }

  /** So they are disjoint when every acquisition reads the clock at the moment of the grant. */
  lemma RecordedIntervalsDisjoint(events: seq<LeaseEvent>, ttl: nat)
    requires Run(events, ttl) && Punctual(events, ttl)
    ensures RecordedDisjoint(After(events, ttl)) && FreshReadings(events, ttl)
  {
    LeaseBelief(events, ttl);
    PunctualGrants(events, ttl);
    var grants := After(events, ttl).grants;
    forall i, j | 0 <= i < j < |grants| ensures grants[i].until <= grants[j].recordedFrom {
      assert grants[j] in grants;
    }
    RecordedIntervalsExactly(events, ttl);
  }

  /** With a stale reading they can: the second lease claims to have begun before the first one did. */
  lemma StaleClockOverlaps(t: WorkloadReference)
    ensures var events := [Tick(10), TryAcquire(t, Name("a"), "a", 10), Tick(10), TryRelease(Uuid(0)),
                           TryAcquire(t, Name("b"), "b", 5)];
            Run(events, 30) && var grants := After(events, 30).grants;
            |grants| == 2 && grants[1].recordedFrom < grants[0].recordedFrom < grants[1].recordedFrom + 30
  {
    var e0 := [Tick(10)];
    var e1 := e0 + [TryAcquire(t, Name("a"), "a", 10)];
    var e2 := e1 + [Tick(10)];
    var e3 := e2 + [TryRelease(Uuid(0))];
    var e4 := e3 + [TryAcquire(t, Name("b"), "b", 5)];
    assert e0[..0] == [] && e1[..1] == e0 && e2[..2] == e1 && e3[..3] == e2 && e4[..4] == e3;
    assert Run(e0, 30) && After(e0, 30) == EMPTY.(clock := 10);
    assert Run(e1, 30) && After(e1, 30).doc.Some?;
    assert Run(e2, 30) && Run(e3, 30) && After(e3, 30).doc.None?;
    assert Run(e4, 30);
    assert e4 == [Tick(10), TryAcquire(t, Name("a"), "a", 10), Tick(10), TryRelease(Uuid(0)),
                  TryAcquire(t, Name("b"), "b", 5)];
  }
}
