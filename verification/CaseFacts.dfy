// What a whole case's plan guarantees.
module CaseFacts {
  import opened Prelude
  import opened NativeSearch
  import opened NativeBounds
  import opened SearchFacts
  import opened NativePlan
  import opened PlanFacts
  import opened PlanOutcomes
  import opened PruningSoundness
  import opened SlopeFloorFacts
  import opened NativeCase
  import opened NativeMaxBatch
  import opened MaxBatchFacts
  import opened NativePlanCase

  lemma PhasesShape(c: Case, r: CasePlan, anchored: seq<LayoutPlan>, once: seq<LayoutPlan>)
    requires CasePhases(c, r, anchored, once)
    ensures CaseShape(c, r, anchored, once) && r.order == SearchOrder(BypassBounds(c), |c.layouts|)
    ensures r.incumbent == MaxOrZero(Rates(c, once))
  {
    hide AnchorPhase, FirstPass, LaterPass, SearchOrder, BypassBounds, Rates, MaxOrZero, HolderOf, PositiveAt;
  }

  // ----- Pruned layouts cannot reach the incumbent

  // The documented assumptions about one layout's native behaviour, for the runs and points its plan ended with.
  ghost predicate RateBehaves(n: Native, l: Layout, slo: PosReal, share: real, floor: Option<real>,
                              runs: seq<Run>, points: seq<Point>)
  {
    && EstimateUnderUpper(n) && AboveLine(n, l.entry, share) && RejectionsBind(n, runs)
    && BYPASS_TPOT_FLOOR <= share && LineShareSuffices(l.entry, slo, RunLimit(runs), share)
    && PassesBelowFailures(n, points, slo) && RateMarginHolds(n, points, l.gpus, slo)
    && (floor.Some? ==> SlopeHolds(n, points, l.entry, slo, floor.value))
  }

  lemma NoPrunerNeverPrunes(c: Case, i: nat, plan: Plan)
    requires i < |c.layouts| && IsPlan(AnchorSearch(c, i), plan)
    ensures !plan.Pruned?
  {
    if plan.Pruned? { PrunedVerdict(AnchorSearch(c, i), plan); }
    hide IsPlan;
  }

  lemma RatePrunedPlan(c: Case, i: nat, anchorRate: real, incumbent: real, floor: Option<real>, plan: Plan,
                       n: Native, share: real, b: int)
    requires i < |c.layouts| && anchorRate > 0.0
    requires IsPlan(RateSearch(c, i, anchorRate, incumbent, floor), plan) && plan.Pruned?
    requires RateBehaves(n, c.layouts[i], c.slo, share, floor, plan.runs, plan.points) && n.Passes(b, c.slo)
    ensures Rate(b as real, n.tpot(b), c.layouts[i].gpus) < incumbent
  {
    var s := RateSearch(c, i, anchorRate, incumbent, floor);
    PrunedVerdict(s, plan);
    hide IsPlan, RateVerdict, FirstBatch, Rate, LineShareSuffices, RunLimit;
    FirstBatchOnGrid(c, i, anchorRate);
    PlanPointsOnGrid(s, plan);
    RatePruneSound(n, c.layouts[i].entry, c.slo, c.layouts[i].gpus, incumbent, floor, plan.runs, plan.points,
                   share, b);
  }

  lemma AnchorUnderIncumbent(c: Case, r: CasePlan, anchored: seq<LayoutPlan>, once: seq<LayoutPlan>)
    requires CasePhases(c, r, anchored, once) && |r.layouts| == |c.layouts|
    ensures r.settled > 0 ==> r.anchorRate <= r.incumbent
  {
    SearchOrderSorted(BypassBounds(c), |c.layouts|);
    if r.settled > 0 {
      AnchorKept(c, r, anchored, once);
      hide IsPlan, AnchorPhase, RateAt, LaterPass, FloorAt, SearchOrder;
      var rates := Rates(c, once);
      assert rates[r.order[r.settled - 1]] in rates;
    }
  }

  lemma AnchorKept(c: Case, r: CasePlan, anchored: seq<LayoutPlan>, once: seq<LayoutPlan>)
    requires CasePhases(c, r, anchored, once) && Distinct(r.order) && r.settled > 0
    ensures r.anchorRate == RateAt(c, once, r.order[r.settled - 1])
  {
    hide IsPlan, PassingRate, FloorAt, SearchOrder, MaxOrZero, Rates, HolderOf, PositiveAt;
    var anchor := r.order[r.settled - 1];
    assert anchor !in Later(r.order, r.settled, anchored);
    assert once[anchor] == anchored[anchor];
  }

  // The slope floor a later layout's final plan was made under: the first
  // pass's for the layout that holds the incumbent, else the second's.
  function CaseFloor(c: Case, r: CasePlan, anchored: seq<LayoutPlan>, once: seq<LayoutPlan>, i: nat): Option<real>
    requires CaseShape(c, r, anchored, once)
  {
    var floors := Floors(c, r, anchored, once);
    if HolderOf(c, once) == Some(i) then floors.0 else floors.1
  }

  // A slope ratio of two calibrating points of some layout's plan.
  ghost predicate PlanRatio(c: Case, plans: seq<LayoutPlan>, i: nat, x: real)
    requires |plans| == |c.layouts|
  {
    && i < |plans| && plans[i].Planned? && c.layouts[i].entry.slope > 0.0
    && IsRatio(PlanPoints(plans[i].plan), c.layouts[i].entry.slope, c.slo, x)
  }

  // 0.8 of the least of these ratios, at most 0.8; none without a ratio.
  ghost predicate FloorOfPlans(c: Case, plans: seq<LayoutPlan>, floor: Option<real>)
    requires |plans| == |c.layouts|
  {
    if floor.None? then forall i, x :: !PlanRatio(c, plans, i, x)
    else
      && floor.value <= 0.8 && (forall i, x :: PlanRatio(c, plans, i, x) ==> floor.value <= 0.8 * x)
      && (exists i, x :: PlanRatio(c, plans, i, x) && (floor.value == 0.8 * x || floor.value == 0.8))
  }

  lemma FloorAtExactly(c: Case, plans: seq<LayoutPlan>, chosen: seq<nat>)
    requires |plans| == |c.layouts| && PositiveAt(plans) && Indices(|c.layouts|, chosen)
    requires forall i :: 0 <= i < |plans| && plans[i].Planned? ==> i in chosen
    ensures FloorOfPlans(c, plans, FloorAt(c, plans, chosen))
  {
    hide Ratio, PlanRatio, SlopeFloor, MeasurementsAt, PositiveAt;
    var m := MeasurementsAt(c, plans, chosen);
    SlopeFloorExact(m, c.slo);
    forall x ensures Ratio(m, c.slo, x) <==> exists i :: PlanRatio(c, plans, i, x) {
      RatioOfPlan(c, plans, chosen, x);
    }
    assert forall j, z :: PlanRatio(c, plans, j, z) ==> Ratio(m, c.slo, z);
    var floor := FloorAt(c, plans, chosen);
    if floor.Some? {
      var least :| IsLeast(m, c.slo, least) && floor.value == SLOPE_FLOOR * least;
      var x :| Ratio(m, c.slo, x);
      var y := if least == 1.0 then x else least;
      assert Ratio(m, c.slo, y);
      var i :| PlanRatio(c, plans, i, y);
      assert PlanRatio(c, plans, i, y) && (floor.value == 0.8 * y || floor.value == 0.8);
    }
  }

  lemma RatioOfPlan(c: Case, plans: seq<LayoutPlan>, chosen: seq<nat>, x: real)
    requires |plans| == |c.layouts| && PositiveAt(plans) && Indices(|c.layouts|, chosen)
    requires forall i :: 0 <= i < |plans| && plans[i].Planned? ==> i in chosen
    ensures Ratio(MeasurementsAt(c, plans, chosen), c.slo, x) <==> exists i :: PlanRatio(c, plans, i, x)
  {
    hide IsRatio;
    var m := MeasurementsAt(c, plans, chosen);
    if i :| PlanRatio(c, plans, i, x) {
      var k :| 0 <= k < |chosen| && chosen[k] == i;
      assert m[k] in m;
    }
    if Ratio(m, c.slo, x) {
      var n :| n in m && n.entry.slope > 0.0 && IsRatio(n.points, n.entry.slope, c.slo, x);
      var k :| 0 <= k < |m| && m[k] == n;
      if plans[chosen[k]].AwaitsAnchor? { NoRatio(n.entry.slope, c.slo, x); }
      assert PlanRatio(c, plans, chosen[k], x);
    }
  }

  lemma NoRatio(slope: PosReal, slo: real, x: real)
    ensures !IsRatio([], slope, slo, x)
  {}

  // The first pass prunes by the floor of the layouts up to the anchor, the
  // second by that of every layout planned on the first.
  lemma FloorsExactly(c: Case, r: CasePlan, anchored: seq<LayoutPlan>, once: seq<LayoutPlan>)
    requires CasePhases(c, r, anchored, once)
    ensures var floors := Floors(c, r, anchored, once);
            FloorOfPlans(c, anchored, floors.0) && FloorOfPlans(c, once, floors.1)
  {
    hide FloorOfPlans, FloorAt, SearchOrder, BypassBounds, FirstPass, SecondPass, AnchorPhase;
    forall i | 0 <= i < |anchored| && anchored[i].Planned? ensures i in r.order[..r.settled] {
      PlannedBefore(c, r, anchored, once, i);
    }
    FloorAtExactly(c, anchored, r.order[..r.settled]);
    var all := AllIndices(|once|);
    forall i | 0 <= i < |once| ensures i in all { assert all[i] == i; }
    FloorAtExactly(c, once, all);
  }

  lemma PlannedBefore(c: Case, r: CasePlan, anchored: seq<LayoutPlan>, once: seq<LayoutPlan>, i: nat)
    requires CasePhases(c, r, anchored, once) && i < |anchored| && anchored[i].Planned?
    ensures i in r.order[..r.settled]
  {
    SearchOrderSorted(BypassBounds(c), |c.layouts|);
    hide SearchOrder, BypassBounds, FirstPass, SecondPass, IsPlan, RateAt, Descending;
    assert i in r.order;
    var k :| 0 <= k < |r.order| && r.order[k] == i;
    assert k < r.settled;
    assert r.order[..r.settled][k] == i;
  }

  // Under which search and floor a layout was planned last.
  lemma LastPlanned(c: Case, r: CasePlan, anchored: seq<LayoutPlan>, once: seq<LayoutPlan>, i: nat)
    requires CasePhases(c, r, anchored, once) && i < |c.layouts| && |r.layouts| == |c.layouts| && r.layouts[i].Planned?
    ensures var plan, floor := r.layouts[i].plan, CaseFloor(c, r, anchored, once, i);
            || IsPlan(AnchorSearch(c, i), plan)
            || (r.anchorRate > 0.0
                && IsPlan(RateSearch(c, i, r.anchorRate, if HolderOf(c, once) == Some(i) then r.anchorRate
                                     else r.incumbent, floor), plan))
  {
    OrderIndices(c);
    SearchOrderSorted(BypassBounds(c), |c.layouts|);
    LaterHasRate(c, r.order, r.settled, anchored, r.anchorRate);
    if anchored[i].Planned? { AnchoredIs(c, r.order, r.settled, anchored, r.anchorRate, i); }
    hide IsPlan, FloorAt, AnchorPhase, RateSearch, AnchorSearch, Rates, MaxOrZero, HolderOf, SearchOrder, PositiveAt;
    if i !in Later(r.order, r.settled, anchored) {
      assert once[i] == anchored[i] && r.layouts[i] == once[i];
    }
  }

  // No batch within the SLO of a pruned layout reaches the case's best measured
  // passing rate, under the assumptions at the floor its plan was made under.
  lemma PrunedCannotReach(c: Case, r: CasePlan, anchored: seq<LayoutPlan>, once: seq<LayoutPlan>, i: nat,
                          n: Native, share: real, b: int)
    requires CasePhases(c, r, anchored, once) && |r.layouts| == |c.layouts| && i < |c.layouts|
    requires r.layouts[i].Planned? && r.layouts[i].plan.Pruned? && n.Passes(b, c.slo)
    requires RateBehaves(n, c.layouts[i], c.slo, share, CaseFloor(c, r, anchored, once, i),
                         r.layouts[i].plan.runs, r.layouts[i].plan.points)
    ensures Rate(b as real, n.tpot(b), c.layouts[i].gpus) < r.incumbent
  {
    LastPlanned(c, r, anchored, once, i);
    AnchorUnderIncumbent(c, r, anchored, once);
    SettledFirst(c, r, anchored, once);
    hide IsPlan, CasePhases, RateBehaves, Rate, RateSearch, AnchorSearch, CaseFloor, HolderOf;
    var plan, floor := r.layouts[i].plan, CaseFloor(c, r, anchored, once, i);
    if IsPlan(AnchorSearch(c, i), plan) {
      NoPrunerNeverPrunes(c, i, plan);
    } else {
      var incumbent := if HolderOf(c, once) == Some(i) then r.anchorRate else r.incumbent;
      RatePrunedPlan(c, i, r.anchorRate, incumbent, floor, plan, n, share, b);
    }
  }

  lemma SettledFirst(c: Case, r: CasePlan, anchored: seq<LayoutPlan>, once: seq<LayoutPlan>)
    requires CasePhases(c, r, anchored, once)
    ensures |c.layouts| > 0 ==> r.settled > 0
  {
    hide IsPlan, RateAt, LaterPass, FloorAt, MaxOrZero, Rates, HolderOf, PositiveAt;
  }

  // ----- Every request is new

  predicate NewRequest(c: Case, x: (nat, int)) {
    && x.0 < |c.layouts| && OnGrid(x.1, Quantum(c.layouts[x.0].entry))
    && !Answered(c.layouts[x.0].rows, x.1)
  }

  lemma NextIsNew(c: Case, i: nat, s: Search, plan: Plan)
    requires i < |c.layouts| && s.entry == c.layouts[i].entry && s.rows == c.layouts[i].rows
    requires OnGrid(s.first, s.Q()) && IsPlan(s, plan) && plan.Next?
    ensures NewRequest(c, (i, plan.batch))
  {
    RequestsSound(s, plan);
    hide IsPlan;
  }

  lemma ProposalOnGrid(s: Search, plan: Plan)
    requires OnGrid(s.first, s.Q()) && IsPlan(s, plan) && Proposes(plan)
    ensures OnGrid(plan.outcome.batch, s.Q())
  {
    OutcomeJustified(s, plan);
    PlanPointsOnGrid(s, plan);
    hide IsPlan;
  }

  lemma MaxBatchRequestsNew(c: Case, firsts: seq<int>, measured: seq<Plan>, once: seq<Plan>, r: MaxBatchResult)
    requires FirstsOnGrid(c, firsts) && |measured| == |c.layouts| && PositivePlans(measured) && PositivePlans(once)
    requires TwoPasses(c, firsts, measured, once, r.layouts, r.incumbent) && |r.layouts| == |c.layouts|
    requires Selects(c, measured, r)
    ensures forall x :: x in r.next ==> NewRequest(c, x)
  {
    var searches := FinalSearches(c, firsts, measured, once, r.layouts, r.incumbent);
    hide TwoPasses;
    forall x | x in r.next
      ensures NewRequest(c, x)
    {
      SelectedNextNew(c, measured, r, searches, x);
    }
  }

  lemma SelectedNextNew(c: Case, measured: seq<Plan>, r: MaxBatchResult, searches: seq<Search>, x: (nat, int))
    requires |measured| == |r.layouts| == |c.layouts| && PlansOf(c, searches, r.layouts)
    requires Selects(c, measured, r) && x in r.next
    ensures NewRequest(c, x)
  {
    hide IsPlan, NewRequest, Answered, OnGrid;
    if Waiting(r.layouts) != [] || AnyFailed(r.layouts) {
      NextIsNew(c, x.0, searches[x.0], r.layouts[x.0]);
    } else {
      var options := Options(c, r.layouts, r.incumbent);
      var choice := BestChoice(options);
      assert OptionOf(c, r.layouts, r.incumbent, choice);
      ProposalOnGrid(searches[choice.layout], r.layouts[choice.layout]);
      MakeRequest(c, searches[choice.layout], choice.layout, choice.batch);
    }
  }

  lemma MakeRequest(c: Case, s: Search, i: nat, b: int)
    requires i < |c.layouts| && s.entry == c.layouts[i].entry && OnGrid(b, s.Q()) && !Answered(c.layouts[i].rows, b)
    ensures NewRequest(c, (i, b))
  {}

  // A case never asks for an answered point: each of its next runs is a new multiple of its layout's quantum.
  lemma CaseRequestsNew(c: Case, r: CasePlan, anchored: seq<LayoutPlan>, once: seq<LayoutPlan>, again: seq<Plan>)
    requires CasePhases(c, r, anchored, once) && |r.layouts| == |c.layouts|
    requires AllPlanned(r.layouts) ==> ProposalsRateable(PlansIn(r.layouts))
    requires Decides(c, r, Later(r.order, r.settled, anchored), again)
    ensures forall x :: x in r.next ==> NewRequest(c, x)
  {
    LaterHasRate(c, r.order, r.settled, anchored, r.anchorRate);
    MaxBatchFirstsOnGrid(c, Later(r.order, r.settled, anchored), r.anchorRate);
    forall x | x in r.next
      ensures NewRequest(c, x)
    {
      CaseRequestNew(c, r, anchored, once, again, x);
    }
  }

  lemma CaseRequestNew(c: Case, r: CasePlan, anchored: seq<LayoutPlan>, once: seq<LayoutPlan>, again: seq<Plan>,
                       x: (nat, int))
    requires CasePhases(c, r, anchored, once) && |r.layouts| == |c.layouts|
    requires AllPlanned(r.layouts) ==> ProposalsRateable(PlansIn(r.layouts))
    requires Decides(c, r, Later(r.order, r.settled, anchored), again)
    requires FirstsOnGrid(c, MaxBatchFirsts(c, Later(r.order, r.settled, anchored), r.anchorRate))
    requires x in r.next
    ensures NewRequest(c, x)
  {
    var floors := Floors(c, r, anchored, once);
    forall i: nat | i < |c.layouts| && r.layouts[i].Planned?
      ensures PlannedAt(c, r, floors, i)
    {
      FinalPlanned(c, r, anchored, once, i);
    }
    var later := Later(r.order, r.settled, anchored);
    hide IsPlan, PlannedAt, NewRequest, Answered, OnGrid, CasePhases, TwoPasses, Selects, FirstsOnGrid, Later,
      MaxBatchFirsts;
    if CaseOpen(r.layouts) {
      var s := PlannedOnGrid(c, r, floors, x.0);
      NextIsNew(c, x.0, s, r.layouts[x.0].plan);
    } else {
      DecidedRequestNew(c, r, floors, later, again, x);
    }
  }

  lemma DecidedRequestNew(c: Case, r: CasePlan, floors: (Option<real>, Option<real>), later: seq<nat>,
                          again: seq<Plan>, x: (nat, int))
    requires |r.layouts| == |c.layouts| && !CaseOpen(r.layouts) && ProposalsRateable(PlansIn(r.layouts))
    requires forall i: nat :: i < |c.layouts| && r.layouts[i].Planned? ==> PlannedAt(c, r, floors, i)
    requires Decides(c, r, later, again) && FirstsOnGrid(c, MaxBatchFirsts(c, later, r.anchorRate))
    requires x in r.next
    ensures NewRequest(c, x)
  {
    hide IsPlan, PlannedAt, NewRequest, Answered, OnGrid, TwoPasses, Selects, FirstsOnGrid, MaxBatchFirsts, OutcomeRate;
    var plans := PlansIn(r.layouts);
    var options := RateOptions(c, plans);
    var choice := BestChoice(options);
    assert RateOptionOf(c, plans, choice);
    if r.maxBatch.Some? {
      MaxBatchRequestsNew(c, MaxBatchFirsts(c, later, r.anchorRate), plans, again, r.maxBatch.value.result);
    } else {
      var s := PlannedOnGrid(c, r, floors, choice.layout);
      ProposalOnGrid(s, r.layouts[choice.layout].plan);
      MakeRequest(c, s, choice.layout, choice.batch);
    }
  }
}
