// Every batch a plan ran or asks for, by the equations of its runs and points.
module PlanSteps {
  import opened Prelude
  import opened NativeSearch
  import opened SearchFacts
  import opened SearchAim
  import opened SearchSteps
  import opened LimitFacts
  import opened NativePlan
  import opened PlanFacts

  lemma SoundDistinct(rows: map<int, Row>, runs: seq<Run>)
    requires Recorded(rows, runs) && DistinctRuns(runs)
    ensures DistinctPoints(PointsOf(rows, runs))
    ensures forall p :: p in PointsOf(rows, runs) ==> exists i :: 0 <= i < |runs| && runs[i].batch == p.batch
  {
    if runs != [] {
      var n := |runs| - 1;
      SoundDistinct(rows, runs[..n]);
      assert runs == runs[..n] + [runs[n]];
    }
  }

  // The batch is the one the equations give, by the limit on these points.
  ghost predicate StepsOn(s: Search, runs: seq<Run>, b: int)
    requires Recorded(s.rows, runs)
  {
    var points := PointsOf(s.rows, runs);
    StepsTo(s.entry, runs, points, s.slo, LimitOf(s.entry, runs, points, s.caps).at, b)
  }

  // The interpolated batch of the runs, with a saved row above the SLO or too big.
  predicate Refused(s: Search, runs: seq<Run>, b: int)
    requires Recorded(s.rows, runs) && Functional(PointsOf(s.rows, runs))
  {
    var o := OutcomeOf(s.entry, runs, PointsOf(s.rows, runs), s.slo, s.caps);
    && o.Interpolated? && o.batch == b && b in s.rows
    && var row := s.rows[b];
       Classify(row) == TooBig || (Classify(row) == Measured && row.bounds.value.upper > s.slo)
  }

  // What follows these runs: a step not tried, or, without one, their refused acceptance batch.
  ghost predicate NextOn(s: Search, runs: seq<Run>, b: int)
    requires Recorded(s.rows, runs) && Functional(PointsOf(s.rows, runs))
  {
    || (!Tried(runs, b) && StepsOn(s, runs, b))
    || (Refused(s, runs, b) && !MeasuredAt(PointsOf(s.rows, runs), b)
        && forall c :: StepsOn(s, runs, c) ==> Tried(runs, c))
  }

  lemma AskedIsNext(s: Search, runs: seq<Run>, b: int)
    requires Recorded(s.rows, runs) && DistinctRuns(runs) && runs != []
    ensures Functional(PointsOf(s.rows, runs))
    ensures Ask(s, runs) == Some(b) <==> NextOn(s, runs, b)
  {
    var points := PointsOf(s.rows, runs);
    SoundDistinct(s.rows, runs);
    DistinctFunctional(points);
    hide Ask, Following, StepsOn, Refused, Refinement, Tried, OutcomeOf, DistinctPoints, DistinctRuns, Functional,
      MeasuredAt,
         PointsOf;
    FollowingSteps(s, runs, points);
    AskUnfolds(s, runs);
    RefusedIs(s, runs, b);
    var f := Following(s.entry, runs, points, s.slo, s.caps);
    if f.Some? { assert !Tried(runs, f.value) && StepsOn(s, runs, f.value); }
  }

  lemma RefusedIs(s: Search, runs: seq<Run>, b: int)
    requires Recorded(s.rows, runs) && Functional(PointsOf(s.rows, runs))
    ensures var points := PointsOf(s.rows, runs);
            Refinement(s.rows, OutcomeOf(s.entry, runs, points, s.slo, s.caps), points, s.slo) == Some(b) <==>
              Refused(s, runs, b) && !MeasuredAt(points, b)
  {
    hide OutcomeOf, Functional, MeasuredAt, PointsOf, Classify;
  }

  lemma FollowingSteps(s: Search, runs: seq<Run>, points: seq<Point>)
    requires Recorded(s.rows, runs) && runs != [] && points == PointsOf(s.rows, runs) && DistinctPoints(points)
    ensures forall c :: Following(s.entry, runs, points, s.slo, s.caps) == Some(c) <==>
              !Tried(runs, c) && StepsOn(s, runs, c)
  {
    hide Following, StepsTo, Tried, LimitOf, DistinctPoints, PointsOf;
    forall c ensures Following(s.entry, runs, points, s.slo, s.caps) == Some(c) <==>
      !Tried(runs, c) && StepsOn(s, runs, c) {
      FollowingExactly(s.entry, runs, points, s.slo, s.caps, c);
    }
  }

  lemma PrefixDistinct(runs: seq<Run>, k: nat, q: Pos)
    requires RunsSound(runs, q) && k <= |runs|
    ensures DistinctRuns(runs[..k])
  {}

  // A plan's first run is its first batch, and each later one follows the runs
  // before it; so does what it asks for. After a settled plan's runs nothing follows.
  lemma RunsExactly(s: Search, plan: Plan, k: nat)
    requires OnGrid(s.first, s.Q()) && IsPlan(s, plan) && 0 < k <= |plan.runs|
    ensures Recorded(s.rows, plan.runs[..k]) && Functional(PointsOf(s.rows, plan.runs[..k]))
    ensures plan.runs[0].batch == s.first
    ensures k < |plan.runs| ==> NextOn(s, plan.runs[..k], plan.runs[k].batch)
    ensures k == |plan.runs| && plan.Next? ==> NextOn(s, plan.runs[..k], plan.batch)
    ensures k == |plan.runs| && plan.Settled? ==> forall b :: !NextOn(s, plan.runs[..k], b)
  {
    hide VerdictAt, Grows, NextOn, PointsOf, Functional, FinalOutcome, Following, OutcomeOf, Refinement, RunsSound,
      DistinctRuns;
    ReplaySound(s, plan.runs);
    ReplayPrefix(s, plan.runs, k);
    PrefixDistinct(plan.runs, k, s.Q());
    Asked(s, plan.runs, 0);
    assert plan.runs[..k] != [];
    if k < |plan.runs| { Asked(s, plan.runs, k); } else { assert plan.runs[..k] == plan.runs; }
    SoundDistinct(s.rows, plan.runs[..k]);
    DistinctFunctional(PointsOf(s.rows, plan.runs[..k]));
    forall b ensures Ask(s, plan.runs[..k]) == Some(b) <==> NextOn(s, plan.runs[..k], b) {
      AskedIsNext(s, plan.runs[..k], b);
    }
  }
}
