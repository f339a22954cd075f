// A stopped search resumes by replaying its saved rows.
module PlanReplay {
  import opened Prelude
  import opened NativeSearch
  import opened NativeBounds
  import opened NativePlan
  import opened PlanFacts

  // The store may gain rows, but a settled row stays as it is.
  ghost predicate Keeps(rows: map<int, Row>, later: map<int, Row>) {
    forall b :: Answered(rows, b) ==> b in later && later[b] == rows[b]
  }

  predicate AllAnswered(rows: map<int, Row>, runs: seq<Run>) {
    forall i :: 0 <= i < |runs| ==> Answered(rows, runs[i].batch)
  }

  lemma {:induction false} PointsKept(rows: map<int, Row>, later: map<int, Row>, runs: seq<Run>)
    requires Recorded(rows, runs) && AllAnswered(rows, runs) && Keeps(rows, later)
    ensures Recorded(later, runs) && PointsOf(later, runs) == PointsOf(rows, runs)
  {
    if runs != [] {
      PointsKept(rows, later, runs[..|runs| - 1]);
    }
  }

  // The acceptance batch that a settled run list would take again as a point.
  function Reasked(s: Search, runs: seq<Run>): Option<int>
    requires Recorded(s.rows, runs)
  {
    var points := PointsOf(s.rows, runs);
    Refinement(s.rows, OutcomeOf(s.entry, runs, points, s.slo, s.caps), points, s.slo)
  }

  lemma RefinementKept(rows: map<int, Row>, later: map<int, Row>, outcome: Outcome, points: seq<Point>, slo: real)
    requires Keeps(rows, later)
    ensures var before := Refinement(rows, outcome, points, slo);
            before.Some? ==> Refinement(later, outcome, points, slo) == before
  {
    assert outcome.Interpolated? && Refinement(rows, outcome, points, slo).Some? ==> Answered(rows, outcome.batch);
  }

  lemma AskKept(s: Search, later: map<int, Row>, runs: seq<Run>)
    requires Recorded(s.rows, runs) && AllAnswered(s.rows, runs) && Keeps(s.rows, later)
    ensures Recorded(later, runs)
    ensures var t := s.(rows := later);
            && VerdictAt(t, runs) == VerdictAt(s, runs)
            && (Ask(s, runs).Some? ==> Ask(t, runs) == Ask(s, runs) && (Refines(t, runs) <==> Refines(s, runs)))
            && (Ask(s, runs).None? ==> Ask(t, runs) == Reasked(t, runs))
            && PointsOf(later, runs) == PointsOf(s.rows, runs)
  {
    var t := s.(rows := later);
    PointsKept(s.rows, later, runs);
    if runs != [] {
      AskUnfolds(s, runs);
      AskUnfolds(t, runs);
      var points := PointsOf(s.rows, runs);
      RefinementKept(s.rows, later, OutcomeOf(s.entry, runs, points, s.slo, s.caps), points, s.slo);
    }
    hide Following, OutcomeOf, Refinement, PointsOf, VerdictOf;
  }

  lemma ReplayAnswered(s: Search, runs: seq<Run>)
    requires Replay(s, runs)
    ensures AllAnswered(s.rows, runs)
  {
    hide Ask, VerdictAt;
    forall i | 0 <= i < |runs|
      ensures Answered(s.rows, runs[i].batch)
    {
      assert Grows(s, runs[..i], runs[i]);
    }
  }

  lemma GrowsKept(s: Search, later: map<int, Row>, runs: seq<Run>, next: Run)
    requires Recorded(s.rows, runs) && AllAnswered(s.rows, runs) && Keeps(s.rows, later)
    requires Grows(s, runs, next)
    ensures Recorded(later, runs) && Grows(s.(rows := later), runs, next)
  {
    AskKept(s, later, runs);
    hide Ask, VerdictAt;
  }

  lemma ReplayKept(s: Search, later: map<int, Row>, runs: seq<Run>)
    requires Replay(s, runs) && Keeps(s.rows, later)
    ensures Replay(s.(rows := later), runs)
  {
    hide Grows, Answered, PointsOf;
    ReplayAnswered(s, runs);
    PointsKept(s.rows, later, runs);
    forall k | 0 <= k < |runs|
      ensures Recorded(later, runs[..k]) && Grows(s.(rows := later), runs[..k], runs[k])
    {
      GrowsKept(s, later, runs[..k], runs[k]);
    }
  }

  // ----- Determinism

  lemma GrowsUnique(s: Search, runs: seq<Run>, a: Run, b: Run)
    requires Recorded(s.rows, runs) && Grows(s, runs, a) && Grows(s, runs, b)
    ensures a == b
  {
    hide Ask, VerdictAt;
  }

  lemma {:induction false} ReplaysAgree(s: Search, a: seq<Run>, b: seq<Run>)
    requires Replay(s, a) && Replay(s, b) && |a| <= |b|
    ensures a == b[..|a|]
  {
    hide Grows;
    if a != [] {
      var k := |a| - 1;
      ReplayPrefix(s, a, k);
      ReplaysAgree(s, a[..k], b);
      assert Grows(s, a[..k], a[k]);
      assert Grows(s, b[..k], b[k]);
      GrowsUnique(s, a[..k], a[k], b[k]);
    }
  }

  lemma StoppedDoesNotGrow(s: Search, plan: Plan, next: Run)
    requires Recorded(s.rows, plan.runs) && Stops(s, plan)
    ensures !Grows(s, plan.runs, next)
  {
    hide Ask, VerdictAt, FinalOutcome, PointsOf;
  }

  lemma StopUnique(s: Search, a: Plan, b: Plan)
    requires a.runs == b.runs && Recorded(s.rows, a.runs) && Stops(s, a) && Stops(s, b)
    ensures a == b
  {
    hide Ask, VerdictAt, FinalOutcome, PointsOf;
  }

  // A finished replay is not a proper prefix of another.
  lemma PlanCovers(s: Search, plan: Plan, runs: seq<Run>)
    requires IsPlan(s, plan) && Replay(s, runs)
    ensures runs <= plan.runs
  {
    hide Grows, Stops;
    if |plan.runs| < |runs| {
      ReplaysAgree(s, plan.runs, runs);
      assert Grows(s, runs[..|plan.runs|], runs[|plan.runs|]);
      StoppedDoesNotGrow(s, plan, runs[|plan.runs|]);
      assert false;
    } else {
      ReplaysAgree(s, runs, plan.runs);
    }
  }

  // The plan is a pure function of the screen and the saved rows.
  lemma PlanUnique(s: Search, a: Plan, b: Plan)
    requires IsPlan(s, a) && IsPlan(s, b)
    ensures a == b
  {
    hide Grows, Stops;
    PlanCovers(s, a, b.runs);
    PlanCovers(s, b, a.runs);
    StopUnique(s, a, b);
  }

  // ----- Resume is replay

  lemma StopsKept(s: Search, later: map<int, Row>, plan: Plan)
    requires Keeps(s.rows, later) && IsPlan(s, plan)
    requires plan.Next? ==> !Answered(later, plan.batch)
    requires plan.Settled? ==> Recorded(later, plan.runs) && Reasked(s.(rows := later), plan.runs).None?
    ensures IsPlan(s.(rows := later), plan)
  {
    var t := s.(rows := later);
    ReplayKept(s, later, plan.runs);
    ReplayAnswered(s, plan.runs);
    AskKept(s, later, plan.runs);
    if plan.Settled? {
      FinalOutcomeKept(s, later, plan.runs);
    }
    hide Ask, VerdictAt, FinalOutcome, PointsOf, Reasked, Replay;
  }

  lemma FinalOutcomeKept(s: Search, later: map<int, Row>, runs: seq<Run>)
    requires Keeps(s.rows, later) && Replay(s, runs)
    ensures Recorded(later, runs)
    ensures FinalOutcome(s.(rows := later), runs) == FinalOutcome(s, runs)
  {
    var t := s.(rows := later);
    ReplayAnswered(s, runs);
    PointsKept(s.rows, later, runs);
    RefinedKept(s, later, runs);
    hide OutcomeOf, RefinedOutcome, Refined;
  }

  lemma RefinedKept(s: Search, later: map<int, Row>, runs: seq<Run>)
    requires Keeps(s.rows, later) && Replay(s, runs) && AllAnswered(s.rows, runs)
    ensures Recorded(later, runs)
    ensures Refined(s.(rows := later), runs) <==> Refined(s, runs)
  {
    hide Ask, Refines, Grows, Answered, AllAnswered, PointsOf;
    PointsKept(s.rows, later, runs);
    forall k | 0 <= k < |runs|
      ensures Recorded(later, runs[..k])
      ensures Refines(s.(rows := later), runs[..k]) <==> Refines(s, runs[..k])
    {
      RefinesKept(s, later, runs, k);
    }
  }

  lemma RefinesKept(s: Search, later: map<int, Row>, runs: seq<Run>, k: nat)
    requires Keeps(s.rows, later) && Replay(s, runs) && AllAnswered(s.rows, runs) && k < |runs|
    ensures Recorded(later, runs[..k])
    ensures Refines(s.(rows := later), runs[..k]) <==> Refines(s, runs[..k])
  {
    hide Ask, Refines, VerdictAt, PointsOf;
    assert Grows(s, runs[..k], runs[k]);
    AskKept(s, later, runs[..k]);
  }

  // The old runs are a prefix of the new ones. A plan that still waits for a
  // run, or ended, is the same plan; a settled one changes exactly when its
  // acceptance run turned out above the SLO or too big.
  lemma Resume(s: Search, later: map<int, Row>, plan: Plan, resumed: Plan)
    requires Keeps(s.rows, later)
    requires IsPlan(s, plan) && IsPlan(s.(rows := later), resumed)
    ensures plan.runs <= resumed.runs
    ensures plan.Next? && !Answered(later, plan.batch) ==> resumed == plan
    ensures plan.FailedPlan? || plan.Pruned? || plan.Crashed? ==> resumed == plan
    ensures Recorded(later, plan.runs)
    ensures plan.Settled? ==> (resumed == plan <==> Reasked(s.(rows := later), plan.runs).None?)
  {
    var t := s.(rows := later);
    ReplayKept(s, later, plan.runs);
    PlanCovers(t, resumed, plan.runs);
    ReplayAnswered(s, plan.runs);
    AskKept(s, later, plan.runs);
    hide Ask, VerdictAt, FinalOutcome, PointsOf, Reasked, Replay;
    if (plan.Next? ==> !Answered(later, plan.batch)) && (plan.Settled? ==> Reasked(t, plan.runs).None?) {
      StopsKept(s, later, plan);
      PlanUnique(t, plan, resumed);
    }
  }
}
