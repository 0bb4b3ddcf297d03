/** Recovery stabilization: recorded progress is exactly the length of the contiguous satisfied run ending there. */
module Stabilization {
  import opened Wrappers
  import opened Incidents
  import opened RecordOperations
  import opened RecordInvariants

  /** The last `n` windows are satisfied and back to back. */
  predicate Contiguous(s: seq<RecoveryAssessment>, n: nat) {
    && n <= |s|
    && (forall i | |s| - n <= i < |s| :: s[i].criteriaSatisfied)
    && (forall i | |s| - n < i < |s| :: s[i - 1].endedAt == s[i].startedAt)
  }

  /** `n` is the greatest length of a contiguous satisfied run at the end of `s`. */
  predicate IsRunLength(s: seq<RecoveryAssessment>, n: nat) {
    Contiguous(s, n) && !Contiguous(s, n + 1)
  }

  /** The window has the declared length and, when satisfied, carried the declared application traffic. */
  predicate Sufficient(p: ApplicationProfile, a: RecoveryAssessment) {
    && a.endedAt - a.startedAt == p.recoveryCriteria.windowSeconds
    && a.requiredStableWindows == p.recoveryCriteria.requiredStableWindows
    && (a.criteriaSatisfied ==>
          exists j <- p.journeys :: j.name == p.recoveryCriteria.journeyName && j.minimumRequestCount <= a.requestCount)
  }

  /** The assessments of the Intervention of entry `k`, up to and including that entry. */
  function RunAt(items: seq<RecoveryAssessment>, k: nat): seq<RecoveryAssessment>
    requires k < |items|
  {
    AssessmentsOf(items[..k + 1], items[k].interventionId)
  }

  /** The last window starts when the one before it has ended. */
  predicate EndsInOrder(s: seq<RecoveryAssessment>) {
    2 <= |s| ==> s[|s| - 2].endedAt <= s[|s| - 1].startedAt
  }

  predicate OneAfterAnother(s: seq<RecoveryAssessment>) {
    forall i | 0 < i < |s| :: s[i - 1].endedAt <= s[i].startedAt
  }

  predicate ExactAt(r: InvestigationRecord, k: nat)
    requires k < |r.assessments|
  {
    && Sufficient(r.profile, r.assessments[k])
    && IsRunLength(RunAt(r.assessments, k), r.assessments[k].stableWindows)
    && EndsInOrder(RunAt(r.assessments, k))
  }

  predicate ProgressExact(r: InvestigationRecord) {
    forall k | 0 <= k < |r.assessments| :: ExactAt(r, k)
  }

  predicate ResolvedIsStable(r: InvestigationRecord) {
    r.incident.lifecycle == Resolved ==>
      && r.assessments != []
      && r.profile.recoveryCriteria.requiredStableWindows <= r.assessments[|r.assessments| - 1].stableWindows
  }

  lemma RunLengthUnique(s: seq<RecoveryAssessment>, m: nat, n: nat)
    requires IsRunLength(s, m) && Contiguous(s, n)
    ensures n <= m
  {
    if m < n {
      assert Contiguous(s, m + 1);
    }
  }

  lemma AssessmentsOfAppend(items: seq<RecoveryAssessment>, a: RecoveryAssessment, id: Ident)
    ensures AssessmentsOf(items + [a], id) ==
            AssessmentsOf(items, id) + if a.interventionId == id then [a] else []
  {
    assert (items + [a])[..|items|] == items;
  }

  /** The last assessment of an Intervention carries that Intervention's run length. */
  lemma LastOfIntervention(r: InvestigationRecord, n: nat, id: Ident)
    requires ProgressExact(r) && n <= |r.assessments|
    ensures var s := AssessmentsOf(r.assessments[..n], id);
            s == [] || IsRunLength(s, s[|s| - 1].stableWindows)
  {
    if n != 0 {
      var items := r.assessments[..n - 1];
      assert r.assessments[..n] == items + [r.assessments[n - 1]];
      AssessmentsOfAppend(items, r.assessments[n - 1], id);
      if r.assessments[n - 1].interventionId == id {
        assert ExactAt(r, n - 1);
        assert RunAt(r.assessments, n - 1) == AssessmentsOf(r.assessments[..n], id);
      } else {
        LastOfIntervention(r, n - 1, id);
      }
    }
  }

  lemma {:induction false} WindowsInOrder(r: InvestigationRecord, n: nat, id: Ident)
    requires ProgressExact(r) && n <= |r.assessments|
    ensures OneAfterAnother(AssessmentsOf(r.assessments[..n], id))
  {
    if n != 0 {
      var items, last := r.assessments[..n - 1], r.assessments[n - 1];
      assert r.assessments[..n] == items + [last];
      WindowsInOrder(r, n - 1, id);
      AssessmentsOfAppend(items, last, id);
      if last.interventionId == id {
        assert ExactAt(r, n - 1);
        assert RunAt(r.assessments, n - 1) == AssessmentsOf(items, id) + [last];
      }
    }
  }

  lemma ContiguousAppend(s: seq<RecoveryAssessment>, a: RecoveryAssessment, n: nat)
    ensures Contiguous(s + [a], n + 1) <==>
            && a.criteriaSatisfied
            && Contiguous(s, n)
            && (n != 0 ==> s[|s| - 1].endedAt == a.startedAt)
  {
    var t := s + [a];
    if Contiguous(t, n + 1) {
      assert t[|t| - 1] == a;
      assert forall i | |s| - n <= i < |s| :: s[i] == t[i];
    } else if n <= |s| && n != 0 && s[|s| - 1].endedAt == a.startedAt && a.criteriaSatisfied {
      var i :| || (|t| - (n + 1) <= i < |t| && !t[i].criteriaSatisfied)
               || (|t| - (n + 1) < i < |t| && t[i - 1].endedAt != t[i].startedAt);
      assert i == |s| || (i < |s| && s[i] == t[i]);
    }
  }

  /** What the store recomputes from the previous assessment alone is the true run length. */
  lemma ProgressIsRunLength(s: seq<RecoveryAssessment>, a: RecoveryAssessment)
    requires s == [] || IsRunLength(s, s[|s| - 1].stableWindows)
    requires forall x <- s :: x.criteriaSatisfied <==> 1 <= x.stableWindows
    ensures IsRunLength(s + [a], ExpectedProgress(s, a.criteriaSatisfied, a.startedAt))
  {
    var n := ExpectedProgress(s, a.criteriaSatisfied, a.startedAt);
    ContiguousAppend(s, a, n);
    if n != 0 {
      ContiguousAppend(s, a, n - 1);
    }
  }

  lemma AcceptedAssessment(r: InvestigationRecord, version: nat, a: RecoveryAssessment, e: AuditEvent)
    requires ApplyAssessment(r, version, a, e).Success?
    ensures var s := ApplyAssessment(r, version, a, e).value;
            && s == r.(incident := s.incident, assessments := r.assessments + [a], events := Stamped(r, e))
            && e.eventType == ExpectedEvent(a.criteriaSatisfied, s.incident.lifecycle == Resolved)
            && Sufficient(r.profile, a)
            && EndsInOrder(AssessmentsOf(r.assessments, a.interventionId) + [a])
            && a.stableWindows == ExpectedProgress(AssessmentsOf(r.assessments, a.interventionId),
                                                   a.criteriaSatisfied, a.startedAt)
            && (s.incident.lifecycle == Resolved <==>
                r.profile.recoveryCriteria.requiredStableWindows <= a.stableWindows)
  {
    hide ValidRecord, AssessmentsOf, ExpectedProgress;
  }

  lemma AssessmentKeepsProgress(r: InvestigationRecord, version: nat, a: RecoveryAssessment, e: AuditEvent)
    requires ValidRecord(r) && ProgressExact(r) && ApplyAssessment(r, version, a, e).Success?
    ensures ProgressExact(ApplyAssessment(r, version, a, e).value)
    ensures ResolvedIsStable(ApplyAssessment(r, version, a, e).value)
  {
    AcceptedAssessment(r, version, a, e);
    AssessmentsAreValid(r);
    hide ValidRecord, ApplyAssessment;
    AppendKeepsProgress(r, ApplyAssessment(r, version, a, e).value, a);
  }

  lemma AppendKeepsProgress(r: InvestigationRecord, s: InvestigationRecord, a: RecoveryAssessment)
    requires ProgressExact(r) && Sufficient(r.profile, a)
    requires EndsInOrder(AssessmentsOf(r.assessments, a.interventionId) + [a])
    requires forall x <- r.assessments :: x.criteriaSatisfied <==> 1 <= x.stableWindows
    requires s.assessments == r.assessments + [a] && s.profile == r.profile
    requires a.stableWindows == ExpectedProgress(AssessmentsOf(r.assessments, a.interventionId), a.criteriaSatisfied,
                                                 a.startedAt)
    ensures ProgressExact(s)
  {
    LatestRun(r, a.interventionId);
    ProgressIsRunLength(AssessmentsOf(r.assessments, a.interventionId), a);
    AssessmentsOfAppend(r.assessments, a, a.interventionId);
    hide AssessmentsOf, IsRunLength, Sufficient, EndsInOrder;
    forall k | 0 <= k < |s.assessments| ensures ExactAt(s, k) {
      if k < |r.assessments| {
        assert ExactAt(r, k);
        assert s.assessments[..k + 1] == r.assessments[..k + 1];
      } else {
        assert s.assessments[..k + 1] == s.assessments;
      }
    }
  }

  lemma LatestRun(r: InvestigationRecord, id: Ident)
    requires ProgressExact(r)
    ensures var s := AssessmentsOf(r.assessments, id); s == [] || IsRunLength(s, s[|s| - 1].stableWindows)
  {
    assert r.assessments[..|r.assessments|] == r.assessments;
    LastOfIntervention(r, |r.assessments|, id);
  }

  lemma AssessmentsAreValid(r: InvestigationRecord)
    requires ValidRecord(r)
    ensures forall a <- r.assessments :: a.criteriaSatisfied <==> 1 <= a.stableWindows
  {
  }

  /** Only a recovery assessment adds windows or resolves an Incident. */
  lemma OtherStepsLeaveProgress(history: seq<InvestigationRecord>, op: StoreOp)
    requires Reaches(history) && Admissible(history, op) && !op.RecordAssessment?
    requires Apply(history[|history| - 1], op).Success?
    ensures var r, s := history[|history| - 1], Apply(history[|history| - 1], op).value;
            && s.assessments == r.assessments
            && s.profile == r.profile
            && (s.incident.lifecycle == Resolved ==> r.incident.lifecycle == Resolved)
  {
    hide ValidRecord, Extends;
  }

  lemma StepKeepsProgress(history: seq<InvestigationRecord>, op: StoreOp)
    requires Reaches(history) && Admissible(history, op)
    requires ProgressExact(history[|history| - 1]) && ResolvedIsStable(history[|history| - 1])
    requires Apply(history[|history| - 1], op).Success?
    ensures ProgressExact(Apply(history[|history| - 1], op).value)
    ensures ResolvedIsStable(Apply(history[|history| - 1], op).value)
  {
    hide ValidRecord, Coupled, Extends, ApplyAssessment;
    if op.RecordAssessment? {
      AssessmentKeepsProgress(history[|history| - 1], op.expectedVersion, op.assessment, op.event);
    } else {
      OtherStepsLeaveProgress(history, op);
      SameAssessmentsSameProgress(history[|history| - 1], Apply(history[|history| - 1], op).value);
    }
  }

  lemma SameAssessmentsSameProgress(r: InvestigationRecord, s: InvestigationRecord)
    requires ProgressExact(r) && s.assessments == r.assessments && s.profile == r.profile
    ensures ProgressExact(s)
  {
    forall k | 0 <= k < |s.assessments| ensures ExactAt(s, k) {
      assert ExactAt(r, k);
    }
  }

  /** Resolved means the required number of satisfied, adjacent, full-length, well-trafficked windows. */
  predicate StableFor(r: InvestigationRecord, i: Intervention, n: nat) {
    var s := AssessmentsOf(r.assessments, i.interventionId);
    && i in r.interventions && i.state == Succeeded
    && Contiguous(s, n)
    && (forall k | |s| - n <= k < |s| :: Sufficient(r.profile, s[k]))
  }

  lemma SufficientAll(r: InvestigationRecord, id: Ident)
    requires ProgressExact(r)
    ensures forall a <- AssessmentsOf(r.assessments, id) :: Sufficient(r.profile, a)
  {
    forall a <- AssessmentsOf(r.assessments, id) ensures Sufficient(r.profile, a) {
      var k :| 0 <= k < |r.assessments| && r.assessments[k] == a;
      assert ExactAt(r, k);
    }
  }

  lemma ResolvedPhase(r: InvestigationRecord)
    requires KeepsRecord(r) && ResolvedIsStable(r) && r.incident.lifecycle == Resolved
    ensures |r.interventions| == 1 && r.interventions[0].state == Succeeded
    ensures r.assessments[|r.assessments| - 1].interventionId == r.interventions[0].interventionId
  {
    assert HasIntervention(r, r.assessments[|r.assessments| - 1].interventionId);
  }

  lemma FinalRun(r: InvestigationRecord)
    requires ProgressExact(r) && r.assessments != []
    ensures var last := r.assessments[|r.assessments| - 1];
            IsRunLength(AssessmentsOf(r.assessments, last.interventionId), last.stableWindows)
  {
    var last := r.assessments[|r.assessments| - 1];
    assert r.assessments[..|r.assessments|] == r.assessments;
    assert ExactAt(r, |r.assessments| - 1);
  }

  lemma ResolvedMeansStable(r: InvestigationRecord)
    requires KeepsRecord(r) && ProgressExact(r) && ResolvedIsStable(r) && r.incident.lifecycle == Resolved
    ensures |r.interventions| == 1
    ensures StableFor(r, r.interventions[0], r.profile.recoveryCriteria.requiredStableWindows)
  {
    ResolvedPhase(r);
    FinalRun(r);
    SufficientAll(r, r.interventions[0].interventionId);
    hide KeepsRecord, ProgressExact, AssessmentsOf;
  }

  /** Exactness: an accepted window resolves the Incident if and only if it completes a stable run. */
  lemma ResolvesExactlyWhenStable(r: InvestigationRecord, version: nat, a: RecoveryAssessment, e: AuditEvent)
    requires KeepsRecord(r) && ProgressExact(r)
    requires ApplyAssessment(r, version, a, e).Success?
    ensures var s := ApplyAssessment(r, version, a, e).value;
            s.incident.lifecycle == Resolved <==>
            Contiguous(AssessmentsOf(s.assessments, a.interventionId), s.profile.recoveryCriteria.requiredStableWindows)
  {
    AcceptedAssessment(r, version, a, e);
    AssessmentKeepsProgress(r, version, a, e);
    hide KeepsRecord, AssessmentsOf, ApplyAssessment, ExpectedProgress, ProgressExact, ResolvedIsStable;
    var s := ApplyAssessment(r, version, a, e).value;
    FinalRun(s);
    var required := s.profile.recoveryCriteria.requiredStableWindows;
    var run := AssessmentsOf(s.assessments, a.interventionId);
    if Contiguous(run, required) {
      RunLengthUnique(run, a.stableWindows, required);
    }
  }

  /** Synthetic probes never advance stabilization: without the minimum traffic a window counts for nothing. */
  lemma SyntheticWindowNeverCounts(r: InvestigationRecord, k: nat)
    requires KeepsRecord(r) && ProgressExact(r) && k < |r.assessments|
    requires forall j <- r.profile.journeys | j.name == r.profile.recoveryCriteria.journeyName ::
               r.assessments[k].requestCount < j.minimumRequestCount
    ensures !r.assessments[k].criteriaSatisfied && r.assessments[k].stableWindows == 0
  {
    assert ExactAt(r, k);
    AssessmentsAreValid(r);
    hide KeepsRecord, IsRunLength;
  }
}
