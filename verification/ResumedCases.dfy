// A whole case over a store that grew: which layouts stay pruned, and when its incumbent falls.
module ResumedCases {
  import opened Prelude
  import opened NativeBounds
  import opened SearchFacts
  import opened NativePlan
  import opened PlanReplay
  import opened PlanOutcomes
  import opened FloorPruning
  import opened PrunedReplay
  import opened ResumedPlans
  import opened NativeCase
  import opened NativePlanCase
  import opened CaseFacts

  // The same case, with more saved rows.
  ghost predicate Resumed(c: Case, d: Case) {
    && |d.layouts| == |c.layouts| && d.slo == c.slo && d.caps == c.caps
    && forall i :: 0 <= i < |c.layouts| ==>
         && d.layouts[i].entry == c.layouts[i].entry && d.layouts[i].gpus == c.layouts[i].gpus
         && Keeps(c.layouts[i].rows, d.layouts[i].rows)
  }

  lemma SameOrder(c: Case, d: Case)
    requires Resumed(c, d)
    ensures BypassBounds(d) == BypassBounds(c)
  {}

  // ----- Later layouts and their last searches

  // The incumbent a later layout's final plan was made under.
  function LastIncumbent(c: Case, r: CasePlan, once: seq<LayoutPlan>, i: nat): real
    requires |once| == |c.layouts|
  {
    if HolderOf(c, once) == Some(i) then r.anchorRate else r.incumbent
  }

  lemma LaterSearched(c: Case, r: CasePlan, anchored: seq<LayoutPlan>, once: seq<LayoutPlan>, i: nat)
    requires CasePhases(c, r, anchored, once) && i < |c.layouts|
    requires i in Later(r.order, r.settled, anchored)
    ensures |r.layouts| == |c.layouts| && r.layouts[i].Planned?
    ensures var floor := CaseFloor(c, r, anchored, once, i);
            IsPlan(RateSearch(c, i, r.anchorRate, LastIncumbent(c, r, once, i), floor), r.layouts[i].plan)
  {
    hide IsPlan, FloorAt, AnchorPhase, RateSearch, AnchorSearch, Rates, MaxOrZero, HolderOf, SearchOrder, PositiveAt,
         BypassBounds;
    LaterIndices(c, r, anchored);
    assert once[i].Planned?;
  }

  lemma LaterIndices(c: Case, r: CasePlan, anchored: seq<LayoutPlan>)
    requires Indices(|c.layouts|, r.order) && AnchorPhase(c, r.order, r.settled, anchored, r.anchorRate)
    ensures Indices(|c.layouts|, Later(r.order, r.settled, anchored))
  {
    LaterHasRate(c, r.order, r.settled, anchored, r.anchorRate);
    hide AnchorPhase;
  }

  // A pruned layout was planned last under a rate pruner, not as an anchor.
  lemma PrunedSearched(c: Case, r: CasePlan, anchored: seq<LayoutPlan>, once: seq<LayoutPlan>, i: nat)
    requires CasePhases(c, r, anchored, once) && |r.layouts| == |c.layouts| && i < |c.layouts|
    requires r.layouts[i].Planned? && r.layouts[i].plan.Pruned?
    ensures var floor := CaseFloor(c, r, anchored, once, i);
            IsPlan(RateSearch(c, i, r.anchorRate, LastIncumbent(c, r, once, i), floor), r.layouts[i].plan)
  {
    LastPlanned(c, r, anchored, once, i);
    hide IsPlan, CasePhases, RateSearch, AnchorSearch, CaseFloor, HolderOf;
    if IsPlan(AnchorSearch(c, i), r.layouts[i].plan) { NoPrunerNeverPrunes(c, i, r.layouts[i].plan); }
  }

  // ----- Pruned layouts

  // A pruned layout of a resumed case stays pruned, on no more runs, when its
  // first batch is the same and neither its incumbent nor its floor fell.
  lemma PrunedLayoutStays(c: Case, r: CasePlan, anchored: seq<LayoutPlan>, once: seq<LayoutPlan>,
                          d: Case, e: CasePlan, anchored': seq<LayoutPlan>, once': seq<LayoutPlan>, i: nat)
    requires Resumed(c, d) && CasePhases(c, r, anchored, once) && CasePhases(d, e, anchored', once')
    requires |r.layouts| == |c.layouts| && i < |c.layouts| && r.layouts[i].Planned? && r.layouts[i].plan.Pruned?
    requires EstimatesUnder(c.layouts[i].rows) && i in Later(e.order, e.settled, anchored')
    requires FirstBatch(d, i, e.anchorRate) == FirstBatch(c, i, r.anchorRate)
    requires LastIncumbent(c, r, once, i) <= LastIncumbent(d, e, once', i)
    requires FloorKept(c.layouts[i].entry, CaseFloor(c, r, anchored, once, i), CaseFloor(d, e, anchored', once', i))
    ensures |e.layouts| == |c.layouts| && e.layouts[i].Planned? && e.layouts[i].plan.Pruned?
    ensures e.layouts[i].plan.runs <= r.layouts[i].plan.runs
  {
    hide IsPlan, CasePhases, CaseFloor, HolderOf, FirstBatch, FloorKept, Later, LastIncumbent, DropsMore, SearchOrder,
         BypassBounds, Rates, MaxOrZero, Floors, PositiveAt, Keeps, EstimatesUnder, AnchorWaits;
    PhasesShape(c, r, anchored, once);
    PhasesShape(d, e, anchored', once');
    PrunedSearched(c, r, anchored, once, i);
    LaterSearched(d, e, anchored', once', i);
    var floor, floor' := CaseFloor(c, r, anchored, once, i), CaseFloor(d, e, anchored', once', i);
    var s := RateSearch(c, i, r.anchorRate, LastIncumbent(c, r, once, i), floor);
    var t := RateSearch(d, i, e.anchorRate, LastIncumbent(d, e, once', i), floor');
    assert t == Again(s, d.layouts[i].rows, t.pruner);
    TightenedDropsMore(s, t.pruner);
    PrunedStays(s, d.layouts[i].rows, t.pruner, r.layouts[i].plan, e.layouts[i].plan);
  }

  // ----- The incumbent

  // A layout that reported passing points before and reports none now.
  predicate Forgets(c: Case, before: LayoutPlan, now: LayoutPlan) {
    && before.Planned? && Reports(before.plan) && SomePasses(PlanPoints(before.plan), c.slo)
    && !(now.Planned? && Reports(now.plan))
  }

  // The first passes search alike: up to the same anchor and, unless it waits
  // now, under the same rate and floor, from the same first batches.
  predicate AlikePasses(c: Case, r: CasePlan, anchored: seq<LayoutPlan>, once: seq<LayoutPlan>,
                        d: Case, e: CasePlan, anchored': seq<LayoutPlan>, once': seq<LayoutPlan>)
    requires CaseShape(c, r, anchored, once) && CaseShape(d, e, anchored', once') && |d.layouts| == |c.layouts|
  {
    && e.settled == r.settled
    && (!AnchorWaits(e.order, e.settled, anchored') ==>
          && e.anchorRate == r.anchorRate && Floors(d, e, anchored', once').0 == Floors(c, r, anchored, once).0
          && forall i :: 0 <= i < |c.layouts| ==> FirstBatch(d, i, e.anchorRate) == FirstBatch(c, i, r.anchorRate))
  }

  // One search of a layout, before and after the store grew.
  lemma SearchForgets(c: Case, d: Case, i: nat, s: Search, before: LayoutPlan, now: LayoutPlan)
    requires Resumed(c, d) && i < |c.layouts| && before.Planned? && now.Planned?
    requires s.rows == c.layouts[i].rows && s.slo == c.slo && OnGrid(s.first, s.Q())
    requires IsPlan(s, before.plan) && IsPlan(s.(rows := d.layouts[i].rows), now.plan)
    requires PassingRate(PlanPoints(now.plan), c.slo, c.layouts[i].gpus)
           < PassingRate(PlanPoints(before.plan), c.slo, c.layouts[i].gpus)
    ensures Forgets(c, before, now)
  {
    hide IsPlan, PassingRate;
    ResumedRate(s, d.layouts[i].rows, before.plan, now.plan, c.layouts[i].gpus);
  }

  lemma RateNonnegativeAt(c: Case, plans: seq<LayoutPlan>, i: nat)
    requires i < |plans| == |c.layouts| && PositiveAt(plans)
    ensures RateAt(c, plans, i) >= 0.0 && (plans[i].AwaitsAnchor? ==> RateAt(c, plans, i) == 0.0)
  {
    RatePositive(PointsAt(plans, i), c.slo, c.layouts[i].gpus);
    hide PassingRate;
    if plans[i].AwaitsAnchor? { NoRate(c.slo, c.layouts[i].gpus); }
  }

  // A layout whose rate on the first pass fell stopped reporting its points.
  lemma RateForgets(c: Case, r: CasePlan, anchored: seq<LayoutPlan>, once: seq<LayoutPlan>,
                    d: Case, e: CasePlan, anchored': seq<LayoutPlan>, once': seq<LayoutPlan>, k: nat)
    requires Resumed(c, d) && CasePhases(c, r, anchored, once) && CasePhases(d, e, anchored', once')
    requires AlikePasses(c, r, anchored, once, d, e, anchored', once')
    requires k < |r.order| && e.order == r.order && Distinct(r.order)
    requires RateAt(d, once', r.order[k]) < RateAt(c, once, r.order[k])
    ensures Forgets(c, once[r.order[k]], once'[r.order[k]])
  {
    hide PassingRate, IsPlan, SearchOrder, BypassBounds, PositiveBatches, FirstBatch, SecondPass;
    var i := r.order[k];
    RateNonnegativeAt(c, once, i);
    RateNonnegativeAt(d, once', i);
    LaterIndices(c, r, anchored);
    LaterIndices(d, e, anchored');
    LaterHasRate(c, r.order, r.settled, anchored, r.anchorRate);
    OutsideLater(c, r, anchored, k);
    OutsideLater(d, e, anchored', k);
    if k < r.settled {
      DefaultOnGrid(c.layouts[i].entry);
      assert once[i] == anchored[i] && once'[i] == anchored'[i];
      SearchForgets(c, d, i, AnchorSearch(c, i), once[i], once'[i]);
    } else if once'[i].Planned? && once[i].Planned? {
      FirstBatchOnGrid(c, i, r.anchorRate);
      var s := RateSearch(c, i, r.anchorRate, r.anchorRate, FloorAt(c, anchored, r.order[..r.settled]));
      SearchForgets(c, d, i, s, once[i], once'[i]);
    } else {
      RateReports(c, once, i);
    }
  }

  lemma RateReports(c: Case, plans: seq<LayoutPlan>, i: nat)
    requires i < |plans| == |c.layouts| && PositiveAt(plans) && RateAt(c, plans, i) > 0.0
    ensures plans[i].Planned? && Reports(plans[i].plan) && SomePasses(PlanPoints(plans[i].plan), c.slo)
  {
    RatePositive(PointsAt(plans, i), c.slo, c.layouts[i].gpus);
    RateNonnegativeAt(c, plans, i);
    hide PassingRate;
    var p :| p in PointsAt(plans, i) && Within(p, c.slo);
  }

  // A layout up to the anchor is no later one, nor is any while the anchor waits.
  lemma OutsideLater(c: Case, r: CasePlan, anchored: seq<LayoutPlan>, k: nat)
    requires Indices(|c.layouts|, r.order) && AnchorPhase(c, r.order, r.settled, anchored, r.anchorRate)
    requires k < |r.order| && Distinct(r.order)
    ensures r.order[k] in Later(r.order, r.settled, anchored) <==>
              k >= r.settled && !AnchorWaits(r.order, r.settled, anchored)
  {
    hide IsPlan, RateAt;
    var later := r.order[r.settled..];
    if k >= r.settled { assert later[k - r.settled] == r.order[k]; }
    if r.order[k] in later {
      var j :| 0 <= j < |later| && later[j] == r.order[k];
      assert r.order[r.settled + j] == r.order[k];
    }
  }

  // While the first passes search alike, the incumbent of a resumed case falls
  // only when some layout stops reporting points of which some passed.
  lemma IncumbentFalls(c: Case, r: CasePlan, anchored: seq<LayoutPlan>, once: seq<LayoutPlan>,
                       d: Case, e: CasePlan, anchored': seq<LayoutPlan>, once': seq<LayoutPlan>)
    requires Resumed(c, d) && CasePhases(c, r, anchored, once) && CasePhases(d, e, anchored', once')
    requires AlikePasses(c, r, anchored, once, d, e, anchored', once')
    ensures e.incumbent >= r.incumbent || exists i :: 0 <= i < |c.layouts| && Forgets(c, once[i], once'[i])
  {
    hide PassingRate, IsPlan, CasePhases, AlikePasses, Forgets, Rates, MaxOrZero;
    PhasesShape(c, r, anchored, once);
    PhasesShape(d, e, anchored', once');
    SameOrder(c, d);
    SearchOrderSorted(BypassBounds(c), |c.layouts|);
    hide SearchOrder, BypassBounds, Descending;
    if e.incumbent < r.incumbent {
      var i := BestFalls(c, once, d, once');
      assert i in r.order;
      var k :| 0 <= k < |r.order| && r.order[k] == i;
      RateForgets(c, r, anchored, once, d, e, anchored', once', k);
    }
  }

  // If the best rate fell, then so did the rate of the layout that had it.
  lemma BestFalls(c: Case, plans: seq<LayoutPlan>, d: Case, later: seq<LayoutPlan>) returns (i: nat)
    requires |plans| == |c.layouts| == |d.layouts| == |later| && PositiveAt(plans) && PositiveAt(later)
    requires MaxOrZero(Rates(d, later)) < MaxOrZero(Rates(c, plans))
    ensures i < |plans| && RateAt(d, later, i) < RateAt(c, plans, i)
  {
    hide PassingRate, RateAt, PositiveAt;
    var rates, now := Rates(c, plans), Rates(d, later);
    NoneBelowZero(d, later);
    i := IndexOf(rates, MaxOrZero(rates));
    assert now[i] in now;
  }

  lemma NoneBelowZero(c: Case, plans: seq<LayoutPlan>)
    requires |plans| == |c.layouts| && PositiveAt(plans)
    ensures MaxOrZero(Rates(c, plans)) >= 0.0
  {
    hide PassingRate;
    forall i | 0 <= i < |plans| ensures RateAt(c, plans, i) >= 0.0 { RateNonnegativeAt(c, plans, i); }
    hide RateAt;
    var rates := Rates(c, plans);
    if rates != [] { assert MaxOrZero(rates) in rates; }
  }
}
