// What a resumed search still reports: its points, its best rate, and the floors they give.
module ResumedPlans {
  import opened Prelude
  import opened NativeSearch
  import opened NativeBounds
  import opened SearchFacts
  import opened NativePlan
  import opened PlanReplay
  import opened PlanOutcomes
  import opened NoPassReports
  import opened PruningSoundness
  import opened SlopeFloorFacts
  import opened FloorPruning
  import opened NativeCase

  // A plan that carries its measured points.
  predicate Reports(plan: Plan) { plan.Pruned? || plan.Settled? }

  lemma ReportedPoints(s: Search, plan: Plan)
    requires IsPlan(s, plan)
    ensures PlanPoints(plan) == if Reports(plan) then PointsOf(s.rows, plan.runs) else []
  {
    hide Ask, VerdictAt, Grows, FinalOutcome, PointsOf;
  }

  // In one search, its pruner and first batch fixed, a resumed plan that still
  // reports has every point of the plan before.
  lemma PointsGrow(s: Search, later: map<int, Row>, plan: Plan, resumed: Plan)
    requires Keeps(s.rows, later) && IsPlan(s, plan) && IsPlan(s.(rows := later), resumed) && Reports(resumed)
    ensures forall p :: p in PlanPoints(plan) ==> p in PlanPoints(resumed)
  {
    Resume(s, later, plan, resumed);
    ReportedPoints(s, plan);
    ReportedPoints(s.(rows := later), resumed);
    ReplayAnswered(s, plan.runs);
    PointsKept(s.rows, later, plan.runs);
    PrefixPoints(later, resumed.runs, |plan.runs|);
    hide IsPlan, PointsOf;
    assert resumed.runs[..|plan.runs|] == plan.runs;
  }

  lemma RatePositive(points: seq<Point>, slo: real, gpus: Pos)
    requires PositiveBatches(points)
    ensures SomePasses(points, slo) ==> PassingRate(points, slo, gpus) > 0.0
    ensures !SomePasses(points, slo) ==> PassingRate(points, slo, gpus) == 0.0
  {
    hide PointRate;
    var rates := PassingRates(points, slo, gpus);
    if SomePasses(points, slo) {
      var p :| p in points && Within(p, slo);
      PointRateIs(p, gpus);
      RateNonnegative(p.batch as real, p.tpot, gpus);
      assert PointRate(p, gpus) in rates;
    } else {
      assert forall x :: x !in rates;
    }
  }

  lemma MorePointsMoreRate(points: seq<Point>, more: seq<Point>, slo: real, gpus: Pos)
    requires PositiveBatches(more) && forall p :: p in points ==> p in more
    ensures PassingRate(points, slo, gpus) <= PassingRate(more, slo, gpus)
  {
    hide PointRate;
    RatePositive(more, slo, gpus);
    var rates := PassingRates(points, slo, gpus);
    if rates != [] {
      assert MaxOrZero(rates) in rates;
      var p :| p in points && Within(p, slo) && PointRate(p, gpus) == MaxOrZero(rates);
      assert PointRate(p, gpus) in PassingRates(more, slo, gpus);
    }
  }

  // In one search a layout's best passing rate never falls over a resume, except
  // exactly when the plan stops reporting points of which some passed.
  lemma ResumedRate(s: Search, later: map<int, Row>, plan: Plan, resumed: Plan, gpus: Pos)
    requires OnGrid(s.first, s.Q()) && Keeps(s.rows, later) && IsPlan(s, plan) && IsPlan(s.(rows := later), resumed)
    ensures PassingRate(PlanPoints(resumed), s.slo, gpus) >= PassingRate(PlanPoints(plan), s.slo, gpus) <==>
              Reports(resumed) || !SomePasses(PlanPoints(plan), s.slo)
  {
    PlanPointsOnGrid(s, plan);
    PlanPointsOnGrid(s.(rows := later), resumed);
    if Reports(resumed) {
      PointsGrow(s, later, plan, resumed);
      MorePointsMoreRate(PlanPoints(plan), PlanPoints(resumed), s.slo, gpus);
    }
    RatePositive(PlanPoints(plan), s.slo, gpus);
    hide IsPlan, PassingRate;
    if !Reports(resumed) {
      assert PlanPoints(resumed) == [];
      NoRate(s.slo, gpus);
    }
  }

  lemma NoRate(slo: real, gpus: Pos)
    ensures PassingRate([], slo, gpus) == 0.0
  {}

  // A plan that reported and no longer does was settled, and its acceptance run joined its runs.
  lemma StopsReporting(s: Search, later: map<int, Row>, plan: Plan, resumed: Plan)
    requires Keeps(s.rows, later) && IsPlan(s, plan) && IsPlan(s.(rows := later), resumed)
    requires Reports(plan) && !Reports(resumed)
    ensures plan.Settled? && plan.runs <= resumed.runs
    ensures Recorded(later, plan.runs) && Reasked(s.(rows := later), plan.runs).Some?
  {
    Resume(s, later, plan, resumed);
    hide IsPlan, Reasked;
  }

  // ----- Floors

  lemma MoreMeasured(plans: seq<Measurement>, more: seq<Measurement>, slo: real)
    requires forall m :: m in plans ==> exists n :: n in more && n.entry == m.entry && forall p :: p in m.points ==>
             p in n.points
    ensures forall x :: Ratio(plans, slo, x) ==> Ratio(more, slo, x)
  {
    hide Calibrates, SlopeRatio;
    forall x | Ratio(plans, slo, x) ensures Ratio(more, slo, x) {
      var m :| m in plans && m.entry.slope > 0.0 && IsRatio(m.points, m.entry.slope, slo, x);
      var n :| n in more && n.entry == m.entry && forall p :: p in m.points ==> p in n.points;
      assert IsRatio(n.points, n.entry.slope, slo, x);
    }
  }

  // More measured points of the same layouts never raise an existing floor.
  lemma MoreMeasuredLowerFloor(plans: seq<Measurement>, more: seq<Measurement>, slo: real)
    requires forall m :: m in plans || m in more ==> PositiveBatches(m.points)
    requires forall m :: m in plans ==> exists n :: n in more && n.entry == m.entry && forall p :: p in m.points ==>
             p in n.points
    ensures SlopeFloor(plans, slo).Some? ==>
              SlopeFloor(more, slo).Some? && SlopeFloor(more, slo).value <= SlopeFloor(plans, slo).value
  {
    hide SlopeFloor, Ratio;
    MoreMeasured(plans, more, slo);
    MoreRatiosLowerFloor(plans, more, slo);
  }
}
