// Whole cases over the small stores: a falling floor, a moved first batch, a
// falling incumbent, and a pruner's crash.
module WorkedCases {
  import opened Prelude
  import opened RealFacts
  import opened NativeSearch
  import opened NativeBounds
  import opened NativePlan
  import opened PlanReplay
  import opened PruningSoundness
  import opened SlopeFloorFacts
  import opened NativeCase
  import opened NativeMaxBatch
  import opened NativePlanCase
  import opened WorkedStores

  // ----- The anchor's stores and plans

  // The acceptance run is open, passed, failed, too big, or too big with a passing batch under it.
  datatype Store = Open | AcceptedRun | FailedRun | TooBigRun | RaisedRun

  function RowsOf(store: Store): map<int, Row> {
    match store
    case Open => ROWS
    case AcceptedRun => ROWS_ACCEPTED
    case FailedRun => ROWS_FAILED
    case TooBigRun => ROWS_TOO_BIG
    case RaisedRun => ROWS_RAISED
  }

  const SETTLED := Settled([FIRST, SECOND], [P_FIRST, P_SECOND], PROPOSED)
  const SETTLED_AGAIN := Settled([FIRST, SECOND, THIRD], [P_FIRST, P_SECOND, P_THIRD], PASSING_END)
  const WAITING := Next(280, [FIRST, SECOND, BIG])
  const SETTLED_RAISED := Settled([FIRST, SECOND, BIG, RAISED], [P_FIRST, P_SECOND, P_RAISED], RAISED_PROPOSAL)

  function AnchorPlanOf(store: Store): Plan {
    match store
    case Open => SETTLED
    case AcceptedRun => SETTLED
    case FailedRun => SETTLED_AGAIN
    case TooBigRun => WAITING
    case RaisedRun => SETTLED_RAISED
  }

  function AnchorRateOf(store: Store): real {
    match store
    case TooBigRun => 0.0
    case RaisedRun => 280.0 * NS_PER_S / 65.2
    case _ => 4.0 * NS_PER_S
  }

  function FloorOf(store: Store): real { if store.FailedRun? then 0.25 else 0.76 }

  // Each later store keeps the settled rows of the ones it grew from.
  lemma StoresKeep()
    ensures Keeps(ROWS, ROWS_ACCEPTED) && Keeps(ROWS, ROWS_FAILED) && Keeps(ROWS, ROWS_TOO_BIG)
              && Keeps(ROWS_TOO_BIG, ROWS_RAISED)
    ensures Keeps(ROWS, ROWS_RAISED)
  {}

  // A pruner that keeps the anchor layout at its first two steps.
  predicate KeepsStart(s: Search) {
    && VerdictOf(s.pruner, s.entry, s.slo, [], []).Keep?
    && VerdictOf(s.pruner, s.entry, s.slo, [FIRST], [P_FIRST]).Keep?
  }

  lemma StartKept(s: Search)
    requires AnchorStore(s) && KeepsStart(s)
    ensures VerdictAt(s, []).Keep? && Recorded(s.rows, [FIRST]) && VerdictAt(s, [FIRST]).Keep?
    ensures Recorded(s.rows, [FIRST, SECOND]) && PointsOf(s.rows, [FIRST, SECOND]) == [P_FIRST, P_SECOND]
  {
    hide VerdictOf;
    Starts(s);
    OneRun(s);
    TwoRuns(s);
    hide Replay, Ask, Refined, Refines;
  }

  function AnchorLayout(store: Store): Layout { Layout(ANCHOR, RowsOf(store), 1) }

  predicate Anchored(c: Case, store: Store) {
    |c.layouts| > 0 && c.layouts[0] == AnchorLayout(store) && c.slo == SLO
  }

  lemma AnchorStarts(c: Case, store: Store)
    requires Anchored(c, store)
    ensures AnchorStore(AnchorSearch(c, 0)) && KeepsStart(AnchorSearch(c, 0))
  {
    assert (200.0 / 10.0).Floor == 20;
  }

  // The anchor's plan on each store.
  lemma AnchorPlan(c: Case, store: Store)
    requires Anchored(c, store)
    ensures IsPlan(AnchorSearch(c, 0), AnchorPlanOf(store))
  {
    hide IsPlan, VerdictAt, PointsOf;
    AnchorStarts(c, store);
    var s := AnchorSearch(c, 0);
    StartKept(s);
    UnprunedKeeps(s);
    match store {
      case Open => AnchorSettles(s);
      case AcceptedRun => AnchorSettles(s);
      case FailedRun => AnchorSettlesAgain(s);
      case TooBigRun =>
        BigRecorded(ROWS_TOO_BIG);
        AnchorRequests(s);
      case RaisedRun =>
        BigRecorded(ROWS_RAISED);
        AnchorRaised(s);
    }
  }

  lemma UnprunedKeeps(s: Search)
    requires s.pruner.NoPruner?
    ensures forall runs :: Recorded(s.rows, runs) ==> VerdictAt(s, runs).Keep?
  {}

  lemma BigRecorded(rows: map<int, Row>)
    requires rows == ROWS_TOO_BIG || rows == ROWS_RAISED
    ensures Recorded(rows, [FIRST, SECOND, BIG])
  {
    MeasuredParts(200, 55.0, 50.0);
    MeasuredParts(400, 110.0, 88.0);
  }

  // ----- Its slope floors and rates

  lemma PairRatio(store: Store, points: seq<Point>, x: real)
    requires points == PlanPoints(AnchorPlanOf(store)) && points != []
    ensures IsRatio(points, 0.2, SLO, x) <==> x == 0.95 || (store.FailedRun? && x == 0.3125)
  {
    assert SlopeRatio(P_FIRST, P_SECOND, 0.2) == 0.95 && SlopeRatio(P_FIRST, P_THIRD, 0.2) == 0.3125;
    assert SlopeRatio(P_FIRST, P_RAISED, 0.2) == 0.95 && SlopeRatio(P_RAISED, P_SECOND, 0.2) == 0.95;
    assert P_FIRST in points && P_SECOND in points && (store.FailedRun? ==> P_THIRD in points);
    assert store.RaisedRun? ==> P_RAISED in points;
    assert Calibrates(P_FIRST, P_SECOND, SLO) && Calibrates(P_FIRST, P_THIRD, SLO);
    hide SlopeRatio;
  }

  lemma NoPairRatio(points: seq<Point>, slope: PosReal, x: real)
    requires |points| <= 1
    ensures !IsRatio(points, slope, SLO, x)
  {
    hide SlopeRatio;
  }

  // The floor is 0.76, and falls to 0.25 once the failed acceptance run joins the points.
  lemma AnchorFloor(plans: seq<Measurement>, store: Store)
    requires !store.TooBigRun? && |plans| >= 1 && plans[0] == Measurement(ANCHOR, PlanPoints(AnchorPlanOf(store)))
    requires forall k :: 1 <= k < |plans| ==> |plans[k].points| <= 1 && PositiveBatches(plans[k].points)
    ensures forall m :: m in plans ==> PositiveBatches(m.points)
    ensures SlopeFloor(plans, SLO) == Some(FloorOf(store))
  {
    var least := if store.FailedRun? then 0.3125 else 0.95;
    forall m | m in plans ensures PositiveBatches(m.points) {}
    forall x ensures Ratio(plans, SLO, x) <==> x == 0.95 || (store.FailedRun? && x == 0.3125) {
      AnchorRatio(plans, store, x);
    }
    hide Ratio, SlopeFloor;
    SlopeFloorExact(plans, SLO);
    assert Ratio(plans, SLO, least);
    var a :| IsLeast(plans, SLO, a) && SlopeFloor(plans, SLO).value == SLOPE_FLOOR * a;
    assert a == least;
  }

  lemma AnchorRatio(plans: seq<Measurement>, store: Store, x: real)
    requires !store.TooBigRun? && |plans| >= 1 && plans[0] == Measurement(ANCHOR, PlanPoints(AnchorPlanOf(store)))
    requires forall k :: 1 <= k < |plans| ==> |plans[k].points| <= 1
    ensures Ratio(plans, SLO, x) <==> x == 0.95 || (store.FailedRun? && x == 0.3125)
  {
    hide IsRatio;
    PairRatio(store, plans[0].points, x);
    assert plans[0] in plans;
    forall m | m in plans && m.entry.slope > 0.0 && IsRatio(m.points, m.entry.slope, SLO, x) ensures m == plans[0] {
      if |m.points| <= 1 { NoPairRatio(m.points, m.entry.slope, x); }
    }
  }

  lemma AnchorRateIs(store: Store)
    ensures PassingRate(PlanPoints(AnchorPlanOf(store)), SLO, 1) == AnchorRateOf(store)
  {
    var points := PlanPoints(AnchorPlanOf(store));
    assert PointRate(P_FIRST, 1) == 4.0 * NS_PER_S && PointRate(P_RAISED, 1) == 280.0 * NS_PER_S / 65.2;
    assert !store.TooBigRun? ==> P_FIRST in points;
    assert store.RaisedRun? ==> P_RAISED in points;
    var rates := PassingRates(points, SLO, 1);
    hide PointRate, PassingRates;
    assert store.TooBigRun? ==> rates == [] by { if rates != [] { assert rates[0] in rates; } }
    assert !store.TooBigRun? ==> AnchorRateOf(store) in rates;
    assert forall x :: x in rates ==> x == 4.0 * NS_PER_S || (store.RaisedRun? && x == 280.0 * NS_PER_S / 65.2);
  }

  // ----- A second layout that one pass plans

  // Its bypass bound does not come before the anchor's.
  predicate After(c: Case, store: Store) {
    && |c.layouts| == 2 && Anchored(c, store)
    && Rising(c.layouts[1].entry)
    && BypassRateBound(c.layouts[1].entry, c.layouts[1].gpus, SLO, None).value <= 4.5 * NS_PER_S
  }

  lemma BothOrdered(c: Case, store: Store)
    requires After(c, store)
    ensures SearchOrder(BypassBounds(c), 2) == [0, 1]
  {
    CrossingRate(ANCHOR, 1, SLO);
    assert Rate(450.0, SLO, 1) == 4.5 * NS_PER_S;
    var bounds := BypassBounds(c);
    assert bounds[0] == Some(4.5 * NS_PER_S);
    hide BypassRateBound;
    assert SearchOrder(bounds, 0) == [];
    assert SearchOrder(bounds, 1) == [0];
    assert Rank(bounds, 1, [0]) == 1;
    assert [0][..1] + [1] + [0][1..] == [0, 1];
  }

  lemma AnchorFirst(c: Case, r: CasePlan, anchored: seq<LayoutPlan>)
    requires |c.layouts| == 2 && r.order == [0, 1] && Indices(2, r.order)
    requires AnchorPhase(c, r.order, r.settled, anchored, r.anchorRate)
    ensures r.settled >= 1 && |anchored| == 2 && anchored[0].Planned? && IsPlan(AnchorSearch(c, 0), anchored[0].plan)
  {
    hide IsPlan, RateAt;
    assert r.order[0] == 0;
  }

  // The anchor settles, and its rate and floor prune the other layout.
  lemma AnchoredPhase(c: Case, store: Store, r: CasePlan, anchored: seq<LayoutPlan>, once: seq<LayoutPlan>)
    requires After(c, store) && !store.TooBigRun? && CasePhases(c, r, anchored, once)
    ensures r.order == [0, 1] && r.settled == 1 && r.anchorRate == AnchorRateOf(store)
    ensures anchored == [Planned(AnchorPlanOf(store)), AwaitsAnchor] && Later(r.order, r.settled, anchored) == [1]
  {
    hide IsPlan, PassingRate, FirstPass, SecondPass, SearchOrder, BypassBounds, PositiveAt, After;
    BothOrdered(c, store);
    AfterParts(c, store);
    AnchorPlan(c, store);
    AnchorRateIs(store);
    AnchorFirst(c, r, anchored);
    PlanUnique(AnchorSearch(c, 0), anchored[0].plan, AnchorPlanOf(store));
    assert RateAt(c, anchored, 0) == AnchorRateOf(store);
    assert r.order[0] == 0 && r.order[1] == 1;
    assert anchored[r.order[0]].plan == AnchorPlanOf(store);
  }

  lemma AfterParts(c: Case, store: Store)
    requires After(c, store)
    ensures |c.layouts| == 2 && Anchored(c, store)
  {}

  // The plan of the other layout's only search, with at most one point, slower than the anchor.
  predicate OtherIs(c: Case, store: Store, plan: Plan)
    requires |c.layouts| == 2
  {
    var rate := AnchorRateOf(store);
    && IsPlan(RateSearch(c, 1, rate, rate, Some(FloorOf(store))), plan)
    && |PlanPoints(plan)| <= 1 && PassingRate(PlanPoints(plan), SLO, c.layouts[1].gpus) < rate
  }

  lemma OncePlanned(c: Case, store: Store, r: CasePlan, anchored: seq<LayoutPlan>, once: seq<LayoutPlan>, plan: Plan)
    requires After(c, store) && !store.TooBigRun? && CasePhases(c, r, anchored, once)
    requires r.order == [0, 1] && r.settled == 1 && r.anchorRate == AnchorRateOf(store)
    requires anchored == [Planned(AnchorPlanOf(store)), AwaitsAnchor] && Later(r.order, r.settled, anchored) == [1]
    requires IsPlan(RateSearch(c, 1, AnchorRateOf(store), AnchorRateOf(store), Some(FloorOf(store))), plan)
    ensures once == [anchored[0], Planned(plan)]
  {
    hide IsPlan, SlopeFloor, AnchorPhase, SecondPass, SearchOrder, BypassBounds, RateSearch, PassingRate, After;
    AfterParts(c, store);
    assert r.order[..1] == [0];
    var floor := FloorAt(c, anchored, [0]);
    AnchorFloor(MeasurementsAt(c, anchored, [0]), store);
    assert 1 in [1] && 0 !in [1];
    PlanUnique(RateSearch(c, 1, r.anchorRate, r.anchorRate, floor), once[1].plan, plan);
  }

  lemma IncumbentIs(c: Case, store: Store, once: seq<LayoutPlan>, plan: Plan)
    requires |c.layouts| == 2 && Anchored(c, store) && OtherIs(c, store, plan)
    requires once == [Planned(AnchorPlanOf(store)), Planned(plan)]
    ensures MaxOrZero(Rates(c, once)) == AnchorRateOf(store) && HolderOf(c, once) == Some(0)
  {
    hide PassingRate, IsPlan;
    AnchorRateIs(store);
    var rates := Rates(c, once);
    assert rates[0] == AnchorRateOf(store) && rates[1] < AnchorRateOf(store);
    assert rates[0] in rates;
    assert MaxOrZero(rates) == AnchorRateOf(store);
  }

  lemma BothFloors(c: Case, store: Store, r: CasePlan, anchored: seq<LayoutPlan>, once: seq<LayoutPlan>, plan: Plan)
    requires |c.layouts| == 2 && Anchored(c, store) && !store.TooBigRun? && CaseShape(c, r, anchored, once)
    requires r.order == [0, 1] && r.settled == 1 && |PlanPoints(plan)| <= 1
    requires anchored == [Planned(AnchorPlanOf(store)), AwaitsAnchor] && once == [anchored[0], Planned(plan)]
    ensures Floors(c, r, anchored, once) == (Some(FloorOf(store)), Some(FloorOf(store)))
  {
    hide SlopeFloor;
    assert r.order[..1] == [0];
    assert PositiveBatches(PointsAt(once, 1));
    AnchorFloor(MeasurementsAt(c, anchored, [0]), store);
    AnchorFloor(MeasurementsAt(c, once, AllIndices(2)), store);
  }

  // The whole case: both floors, the incumbent, and both final plans.
  lemma BothPlanned(c: Case, store: Store, r: CasePlan, anchored: seq<LayoutPlan>, once: seq<LayoutPlan>, plan: Plan)
    requires After(c, store) && !store.TooBigRun? && CasePhases(c, r, anchored, once) && OtherIs(c, store, plan)
    ensures r.anchorRate == r.incumbent == AnchorRateOf(store)
    ensures CaseShape(c, r, anchored, once)
    ensures Floors(c, r, anchored, once) == (Some(FloorOf(store)), Some(FloorOf(store)))
    ensures r.layouts == [Planned(AnchorPlanOf(store)), Planned(plan)]
  {
    hide IsPlan, AnchorPhase, FirstPass, SecondPass, Later, Floors, HolderOf, Rates, MaxOrZero, After, OtherIs,
      SearchOrder,
         BypassBounds;
    AfterParts(c, store);
    AnchoredPhase(c, store, r, anchored, once);
    OtherParts(c, store, plan);
    OncePlanned(c, store, r, anchored, once, plan);
    IncumbentIs(c, store, once, plan);
    BothFloors(c, store, r, anchored, once, plan);
    SecondPlanned(c, store, r, anchored, once, plan);
  }

  lemma OtherParts(c: Case, store: Store, plan: Plan)
    requires |c.layouts| == 2 && OtherIs(c, store, plan)
    ensures IsPlan(RateSearch(c, 1, AnchorRateOf(store), AnchorRateOf(store), Some(FloorOf(store))), plan)
    ensures |PlanPoints(plan)| <= 1
  {
    hide IsPlan, PassingRate;
  }

  lemma SecondPlanned(c: Case, store: Store, r: CasePlan, anchored: seq<LayoutPlan>, once: seq<LayoutPlan>, plan: Plan)
    requires |c.layouts| == 2 && CasePhases(c, r, anchored, once) && OtherIs(c, store, plan)
    requires r.anchorRate == AnchorRateOf(store) && Later(r.order, r.settled, anchored) == [1]
    requires MaxOrZero(Rates(c, once)) == AnchorRateOf(store) && HolderOf(c, once) == Some(0)
    requires Floors(c, r, anchored, once).1 == Some(FloorOf(store)) && once[0] == Planned(AnchorPlanOf(store))
    ensures r.incumbent == AnchorRateOf(store) && r.layouts == [Planned(AnchorPlanOf(store)), Planned(plan)]
  {
    hide IsPlan, SlopeFloor, AnchorPhase, FirstPass, SearchOrder, BypassBounds, RateSearch, HolderOf, Rates, MaxOrZero,
         Later, FloorAt, PassingRate;
    assert 1 in [1] && 0 !in [1];
    var floor := FloorAt(c, once, AllIndices(2));
    PlanUnique(RateSearch(c, 1, r.anchorRate, r.incumbent, floor), r.layouts[1].plan, plan);
  }

  // ----- A falling floor

  // Two GPUs; its first point lies at the cap of first batches and passes.
  const OTHER := Entry(10, 1, 1, 880, 2000, 12.0, 0.1)
  const OTHER_RUN := MeasuredRun(510, 85.0)
  const P_OTHER := MeasuredPoint(510, 85.0, 80.0)
  const OTHER_LAYOUT := Layout(OTHER, map[510 := MeasuredRow(85.0, 80.0)], 2)

  const OTHER_PRUNED := Pruned([OTHER_RUN], [P_OTHER], SlopeRateBelow)
  const OTHER_ASKED := Next(620, [OTHER_RUN])

  function OtherPlan(store: Store): Plan { if store.FailedRun? then OTHER_ASKED else OTHER_PRUNED }

  lemma OtherFollowed(caps: Caps)
    ensures Following(OTHER, [OTHER_RUN], [P_OTHER], SLO, caps) == Some(620)
  {
    AimedFromOne(OTHER, P_OTHER, 620.0);
    AimedFromOne(OTHER, P_OTHER, 630.0);
    OneFollowed(OTHER, P_OTHER, OTHER_RUN, caps, 620);
  }

  lemma NoRunLimit(run: Run)
    requires run.kind.Measured? && run.capacity.None?
    ensures RunLimit([run]) == RunLimit([]) == None
  {
    assert forall x :: !LimitReported([run], x) && !LimitReported([], x);
    assert forall x :: x !in RejectionLimits([run]) && x !in RejectionLimits([]);
  }

  // Its bypass bound alone keeps the other layout.
  lemma OtherBypass()
    ensures BypassRateBound(OTHER, 2, SLO, None) == Some(4.4 * NS_PER_S)
  {
    CrossingRate(OTHER, 2, SLO);
    assert Rate(880.0, SLO, 2) == 4.4 * NS_PER_S;
  }

  lemma OtherVerdict(store: Store)
    requires store.Open? || store.FailedRun?
    ensures RateVerdict(OTHER, SLO, 2, 4.0 * NS_PER_S, Some(FloorOf(store)), [], []) == Keep
    ensures RateVerdict(OTHER, SLO, 2, 4.0 * NS_PER_S, Some(FloorOf(store)), [OTHER_RUN], [P_OTHER])
         == if store.FailedRun? then Keep else Drop(SlopeRateBelow)
  {
    NoRunLimit(OTHER_RUN);
    OtherBypass();
    OtherBound(FloorOf(store));
    assert [P_OTHER][0] == P_OTHER;
    hide BypassRateBound, SlopeRateBound, PointRate, RunLimit;
  }

  lemma OtherBound(floor: real)
    requires floor == 0.76 || floor == 0.25
    ensures BoundBelow(SlopeRateBound(OTHER, P_OTHER, 2, SLO, floor), 4.0 * NS_PER_S) <==> floor == 0.76
  {
    var slope: PosReal := FloorSlope(OTHER, floor);
    QuotientTimes(20.0, slope);
    var x := 20.0 / slope;
    assert SlopeReach(P_OTHER, SLO, slope) == 510.0 + x;
    assert floor == 0.76 ==> x < 290.0;
    assert floor == 0.25 ==> x == 800.0;
    RateOfTwo(510.0 + x);
    assert RaisedRate(P_OTHER, 2) < 4.0 * NS_PER_S by { RaisedOther(); }
    hide SlopeReach, FloorSlope, Rate, RaisedRate;
  }

  lemma RateOfTwo(b: real)
    ensures Rate(b, SLO, 2) == b * NS_PER_S / 200.0
  {}

  lemma RaisedOther()
    ensures RaisedRate(P_OTHER, 2) < 4.0 * NS_PER_S
  {
    assert PointRate(P_OTHER, 2) == 510.0 * NS_PER_S / 160.0;
  }

  predicate OtherCase(c: Case, store: Store) {
    c.layouts == [AnchorLayout(store), OTHER_LAYOUT] && c.slo == SLO && (store.Open? || store.FailedRun?)
  }

  lemma OtherFirst(c: Case, store: Store)
    requires OtherCase(c, store)
    ensures FirstBatch(c, 1, 4.0 * NS_PER_S) == 510
  {
    assert (512.0 / 10.0).Floor == 51;
    assert MatchingQuanta(OTHER_LAYOUT, 4.0 * NS_PER_S, SLO) == 80.0;
    assert (-80.0).Floor == -80;
  }

  // A first run under a rate pruner, and what the search asks next.
  lemma FirstRun(s: Search, b: int, upper: PosReal, tpot: PosReal, next: int)
    requires s.first == b && s.slo == SLO && b in s.rows && s.rows[b] == MeasuredRow(upper, tpot)
    requires VerdictOf(s.pruner, s.entry, s.slo, [], []).Keep?
    requires Following(s.entry, [MeasuredRun(b, upper)], [MeasuredPoint(b, upper, tpot)], SLO, s.caps) == Some(next)
    ensures var runs, points := [MeasuredRun(b, upper)], [MeasuredPoint(b, upper, tpot)];
            && Recorded(s.rows, runs) && PointsOf(s.rows, runs) == points && Replay(s, runs)
              && Ask(s, runs) == Some(next)
            && VerdictAt(s, runs) == VerdictOf(s.pruner, s.entry, s.slo, runs, points)
            && !runs[0].kind.Failed? && !Refined(s, runs) && !Refines(s, runs)
  {
    hide Following, Replay, Refined, VerdictOf;
    MeasuredParts(b, upper, tpot);
    Starts(s);
    Extends(s, [], b);
    var runs := [MeasuredRun(b, upper)];
    assert [] + runs == runs && runs[..0] == [];
  }

  lemma OtherPlanned(s: Search, store: Store)
    requires s.entry == OTHER && s.rows == OTHER_LAYOUT.rows && s.first == 510 && s.slo == SLO
    requires s.pruner == RatePruner(2, 4.0 * NS_PER_S, Some(FloorOf(store))) && (store.Open? || store.FailedRun?)
    ensures IsPlan(s, OtherPlan(store))
  {
    hide RateVerdict, Following, Ask, Replay, PointsOf, VerdictAt;
    OtherVerdict(store);
    OtherFollowed(s.caps);
    FirstRun(s, 510, 85.0, 80.0, 620);
  }

  lemma OtherIsPlanned(c: Case, store: Store)
    requires OtherCase(c, store)
    ensures OtherIs(c, store, OtherPlan(store))
  {
    hide IsPlan, FirstBatch, PassingRate;
    OtherFirst(c, store);
    OtherRate();
    OtherPlanned(RateSearch(c, 1, 4.0 * NS_PER_S, 4.0 * NS_PER_S, Some(FloorOf(store))), store);
  }

  lemma OtherRate()
    ensures PassingRate([P_OTHER], SLO, 2) < 4.0 * NS_PER_S && PassingRate([], SLO, 2) == 0.0
  {
    assert PointRate(P_OTHER, 2) == 510.0 * NS_PER_S / 160.0;
    var rates := PassingRates([P_OTHER], SLO, 2);
    hide PointRate, PassingRates;
    assert forall x :: x in rates ==> x == 510.0 * NS_PER_S / 160.0;
    assert PassingRates([], SLO, 2) == [];
  }

  lemma OtherAfter(c: Case, store: Store)
    requires OtherCase(c, store)
    ensures After(c, store)
  {
    OtherBypass();
    hide BypassRateBound;
  }

  // With the acceptance run still open the other layout is dropped; once that
  // run is saved, above the SLO, the same layout is asked to run.
  lemma FailedAcceptanceRevives(c: Case, store: Store, r: CasePlan, anchored: seq<LayoutPlan>, once: seq<LayoutPlan>)
    requires OtherCase(c, store) && CasePhases(c, r, anchored, once)
    ensures r.anchorRate == r.incumbent == 4.0 * NS_PER_S
    ensures CaseShape(c, r, anchored, once)
    ensures Floors(c, r, anchored, once) == (Some(FloorOf(store)), Some(FloorOf(store)))
    ensures r.layouts == [Planned(AnchorPlanOf(store)), Planned(OtherPlan(store))]
  {
    hide CasePhases, OtherIs, After, CaseShape, Floors;
    OtherAfter(c, store);
    OtherIsPlanned(c, store);
    BothPlanned(c, store, r, anchored, once, OtherPlan(store));
  }

  // The first store's case asks for just the run that the later stores answer.
  lemma AcceptanceAsked(c: Case, r: CasePlan, anchored: seq<LayoutPlan>, once: seq<LayoutPlan>, again: seq<Plan>,
                        plan: Plan)
    requires After(c, Open) && CasePhases(c, r, anchored, once) && OtherIs(c, Open, plan) && plan.Pruned?
    requires |r.layouts| == 2 && (AllPlanned(r.layouts) ==> ProposalsRateable(PlansIn(r.layouts)))
    requires Decides(c, r, Later(r.order, r.settled, anchored), again)
    ensures r.next == [(0, 360)]
  {
    hide CasePhases, TwoPasses, OutcomeRate, Selects, Requests, RateOptions, BestChoice, MaxBatchRan, OtherIs;
    BothPlanned(c, Open, r, anchored, once, plan);
    TwoClosed(r.layouts);
    var plans := PlansIn(r.layouts);
    var options := RateOptions(c, plans);
    assert plans[0] == SETTLED && plans[1] == plan;
    assert Proposes(plans[0]) && !Proposes(plans[1]);
    assert RateOptionOf(c, plans, BestChoice(options));
  }

  lemma TwoClosed(layouts: seq<LayoutPlan>)
    requires |layouts| == 2 && layouts[0] == Planned(SETTLED) && layouts[1].Planned? && layouts[1].plan.Pruned?
    ensures !CaseOpen(layouts)
  {
    assert Requests(layouts[..1][..0]) == [] && layouts[..1] == [Planned(SETTLED)];
    assert Requests(layouts[..1]) == [];
  }

  // ----- A moved first batch

  // Its one point, where the open store's rate puts its first batch, fails.
  const SLOWER := Entry(10, 1, 1, 440, 1000, 12.0, 0.2)
  const SLOWER_RUN := MeasuredRun(400, 130.0)
  const P_SLOWER := MeasuredPoint(400, 130.0, 120.0)
  const SLOWER_LAYOUT := Layout(SLOWER, map[400 := MeasuredRow(130.0, 120.0)], 1)

  const SLOWER_PRUNED := Pruned([SLOWER_RUN], [P_SLOWER], PointRateBelow)
  const SLOWER_ASKED := Next(430, [])

  function SlowerPlan(store: Store): Plan { if store.RaisedRun? then SLOWER_ASKED else SLOWER_PRUNED }

  predicate SlowerCase(c: Case, store: Store) {
    c.layouts == [AnchorLayout(store), SLOWER_LAYOUT] && c.slo == SLO
      && (store.Open? || store.AcceptedRun? || store.RaisedRun?)
  }

  lemma SlowerFollowed(caps: Caps)
    ensures Following(SLOWER, [SLOWER_RUN], [P_SLOWER], SLO, caps) == Some(290)
  {
    AimedFromOne(SLOWER, P_SLOWER, 290.0);
    AimedFromOne(SLOWER, P_SLOWER, 300.0);
    OneFollowed(SLOWER, P_SLOWER, SLOWER_RUN, caps, 290);
  }

  lemma SlowerBypass()
    ensures BypassRateBound(SLOWER, 1, SLO, None) == Some(4.4 * NS_PER_S)
  {
    CrossingRate(SLOWER, 1, SLO);
    assert Rate(440.0, SLO, 1) == 4.4 * NS_PER_S;
  }

  lemma SlowerVerdict(store: Store)
    requires store.Open? || store.AcceptedRun? || store.RaisedRun?
    ensures RateVerdict(SLOWER, SLO, 1, AnchorRateOf(store), Some(0.76), [], []) == Keep
    ensures RateVerdict(SLOWER, SLO, 1, 4.0 * NS_PER_S, Some(0.76), [SLOWER_RUN], [P_SLOWER]) == Drop(PointRateBelow)
  {
    NoRunLimit(SLOWER_RUN);
    SlowerBypass();
    assert PointRate(P_SLOWER, 1) == 400.0 * NS_PER_S / 120.0;
    assert [P_SLOWER][0] == P_SLOWER;
    hide BypassRateBound, SlopeRateBound, PointRate, RunLimit;
  }

  lemma SlowerFirst(c: Case, store: Store)
    requires SlowerCase(c, store)
    ensures FirstBatch(c, 1, AnchorRateOf(store)) == if store.RaisedRun? then 430 else 400
  {
    assert (512.0 / 10.0).Floor == 51 && (220.0 / 10.0).Floor == 22;
    var quanta := MatchingQuanta(SLOWER_LAYOUT, AnchorRateOf(store), SLO);
    assert quanta == if store.RaisedRun? then 2800.0 / 65.2 else 40.0;
    assert 42.0 < 2800.0 / 65.2 < 43.0;
    assert Ceil(quanta) == if store.RaisedRun? then 43 else 40;
    hide MatchingQuanta, Ceil;
  }

  lemma SlowerPlanned(s: Search, store: Store)
    requires s.entry == SLOWER && s.rows == SLOWER_LAYOUT.rows && s.slo == SLO
    requires store.Open? || store.AcceptedRun? || store.RaisedRun?
    requires s.first == (if store.RaisedRun? then 430 else 400)
    requires s.pruner == RatePruner(1, AnchorRateOf(store), Some(0.76))
    ensures IsPlan(s, SlowerPlan(store))
  {
    hide RateVerdict, Following, Ask, Replay, PointsOf, VerdictAt;
    SlowerVerdict(store);
    if store.RaisedRun? {
      NothingRun(s);
    } else {
      SlowerFollowed(s.caps);
      FirstRun(s, 400, 130.0, 120.0, 290);
    }
  }

  lemma SlowerIsPlanned(c: Case, store: Store)
    requires SlowerCase(c, store)
    ensures OtherIs(c, store, SlowerPlan(store))
  {
    hide IsPlan, FirstBatch, PassingRate;
    SlowerFirst(c, store);
    SlowerRate();
    SlowerPlanned(RateSearch(c, 1, AnchorRateOf(store), AnchorRateOf(store), Some(0.76)), store);
  }

  lemma NothingRun(s: Search)
    requires s.first == 430 && 430 !in s.rows && VerdictOf(s.pruner, s.entry, s.slo, [], []).Keep?
    ensures IsPlan(s, SLOWER_ASKED)
  {
    hide VerdictOf;
    Starts(s);
  }

  lemma SlowerRate()
    ensures PassingRate([P_SLOWER], SLO, 1) == 0.0 && PassingRate([], SLO, 1) == 0.0
  {
    assert PassingRates([P_SLOWER], SLO, 1) == [] && PassingRates([], SLO, 1) == [] by {
      assert forall x :: x !in PassingRates([P_SLOWER], SLO, 1);
    }
  }

  lemma SlowerAfter(c: Case, store: Store)
    requires SlowerCase(c, store)
    ensures After(c, store)
  {
    SlowerBypass();
    hide BypassRateBound;
  }

  // The anchor's rate and the incumbent rise and both floors stay, but the
  // dropped layout's first batch moves, and it is asked to run there.
  lemma FasterAnchorRevives(c: Case, store: Store, r: CasePlan, anchored: seq<LayoutPlan>, once: seq<LayoutPlan>)
    requires SlowerCase(c, store) && CasePhases(c, r, anchored, once)
    ensures r.anchorRate == r.incumbent == AnchorRateOf(store) && AnchorRateOf(Open) < AnchorRateOf(RaisedRun)
    ensures CaseShape(c, r, anchored, once) && Floors(c, r, anchored, once) == (Some(0.76), Some(0.76))
    ensures r.layouts == [Planned(AnchorPlanOf(store)), Planned(SlowerPlan(store))]
  {
    hide CasePhases, OtherIs, After, CaseShape, Floors;
    SlowerAfter(c, store);
    SlowerIsPlanned(c, store);
    BothPlanned(c, store, r, anchored, once, SlowerPlan(store));
  }

  // ----- A falling incumbent

  // Once the acceptance run proves too big the anchor waits for a batch under it and reports no point: the
  // later layout waits too, the incumbent is zero, and the case asks for the batch that the raised store holds.
  lemma TooBigAcceptanceForgets(c: Case, r: CasePlan, anchored: seq<LayoutPlan>, once: seq<LayoutPlan>,
                                again: seq<Plan>)
    requires After(c, TooBigRun) && CasePhases(c, r, anchored, once)
    requires |r.layouts| == 2 && (AllPlanned(r.layouts) ==> ProposalsRateable(PlansIn(r.layouts)))
    requires Decides(c, r, Later(r.order, r.settled, anchored), again)
    ensures r.incumbent == 0.0 && r.layouts == [Planned(WAITING), AwaitsAnchor] && r.next == [(0, 280)]
  {
    hide IsPlan, SlopeFloor, SearchOrder, BypassBounds, PassingRate, RateSearch, FloorAt, After, Requests, MaxBatchRan,
         RateOptions, BestChoice, MaxBatchFirsts;
    AfterParts(c, TooBigRun);
    BothOrdered(c, TooBigRun);
    AnchorPlan(c, TooBigRun);
    AnchorFirst(c, r, anchored);
    PlanUnique(AnchorSearch(c, 0), anchored[0].plan, WAITING);
    WaitingPhase(c, r, anchored);
    AnchorRateIs(TooBigRun);
    NoRateOf(c.layouts[1].gpus);
    var rates := Rates(c, once);
    assert once == anchored && rates == [0.0, 0.0];
    assert MaxOrZero(rates) in rates;
    OneWaits(r.layouts);
  }

  lemma NoRateOf(gpus: Pos)
    ensures PassingRate([], SLO, gpus) == 0.0
  {}

  lemma OneWaits(layouts: seq<LayoutPlan>)
    requires layouts == [Planned(WAITING), AwaitsAnchor]
    ensures Requests(layouts) == [(0, 280)]
  {
    assert Requests(layouts[..1][..0]) == [] && layouts[..1] == [Planned(WAITING)];
    assert Requests(layouts[..1]) == [(0, 280)];
  }

  lemma WaitingPhase(c: Case, r: CasePlan, anchored: seq<LayoutPlan>)
    requires |c.layouts| == 2 && r.order == [0, 1] && Indices(2, r.order)
    requires AnchorPhase(c, r.order, r.settled, anchored, r.anchorRate) && anchored[0] == Planned(WAITING)
    ensures r.settled == 1 && anchored == [Planned(WAITING), AwaitsAnchor] && Later(r.order, r.settled, anchored) == []
  {
    hide IsPlan, RateAt;
    assert r.order[0] == 0 && r.order[1] == 1;
    assert anchored[r.order[0]].plan.Next?;
  }

  // ----- The batch pruner's crash

  lemma BatchKeepsStart(s: Search)
    requires s.entry == ANCHOR && s.slo == SLO && s.pruner.BatchPruner? && s.pruner.gpus == 1
             && s.pruner.incumbent == 200.0
    ensures KeepsStart(s)
  {
    assert forall x :: !LimitReported([FIRST], x) && !LimitReported([], x);
    assert forall x :: x !in RejectionLimits([FIRST]) && x !in RejectionLimits([]);
    assert BatchLimits(ANCHOR, [], []) == [400] && BatchLimits(ANCHOR, [FIRST], [P_FIRST]) == [400];
    if s.pruner.floor.Some? && FloorSlope(ANCHOR, s.pruner.floor.value) > 0.0 {
      var slope: PosReal := FloorSlope(ANCHOR, s.pruner.floor.value);
      QuotientAtLeast(50.0, slope, 0.0, 0.0);
      assert SlopeReach(P_FIRST, SLO, slope) > 200.0;
    }
    hide FloorSlope, SlopeReach;
  }

  lemma AnchorBatchSearch(c: Case, floor: Option<real>)
    requires c.layouts == [AnchorLayout(FailedRun)] && c.slo == SLO
    ensures IsPlan(BatchSearch(c, 0, 200, 200.0, floor), Crashed([FIRST, SECOND], [P_FIRST, P_SECOND]))
  {
    var s := BatchSearch(c, 0, 200, 200.0, floor);
    hide IsPlan, VerdictAt, PointsOf, VerdictOf;
    BatchKeepsStart(s);
    StartKept(s);
    AnchorCrashes(s);
  }

  lemma AnchorBatchIs()
    ensures PassingBatch([P_FIRST, P_SECOND, P_THIRD], SLO, 1) == 200.0
  {
    var points := [P_FIRST, P_SECOND, P_THIRD];
    assert P_FIRST in points && PerGpuBatch(P_FIRST, 1) == 200.0;
    var batches := PassingPerGpu(points, SLO, 1);
    assert 200.0 in batches;
    assert forall x :: x in batches ==> x == 200.0;
  }

  // Any first pass of the batch search over this layout's settled plan ends in the crash.
  lemma FirstPassCrashes(c: Case, once: seq<Plan>, layouts: seq<Plan>, incumbent: real)
    requires c.layouts == [AnchorLayout(FailedRun)] && c.slo == SLO
    requires PositivePlans([SETTLED_AGAIN]) && PositivePlans(once)
    requires TwoPasses(c, [200], [SETTLED_AGAIN], once, layouts, incumbent)
    ensures |once| == 1 && once[0].Crashed?
  {
    hide IsPlan, SlopeFloor, PassingBatch;
    AnchorBatchIs();
    var batches := PassingBatches(c, [SETTLED_AGAIN]);
    assert batches == [200.0];
    var floor := SlopeFloor(Measurements(c, [SETTLED_AGAIN]), c.slo);
    AnchorBatchSearch(c, floor);
    PlanUnique(BatchSearch(c, 0, 200, 200.0, floor), once[0], Crashed([FIRST, SECOND], [P_FIRST, P_SECOND]));
  }

  lemma OneOrdered(c: Case)
    requires |c.layouts| == 1
    ensures SearchOrder(BypassBounds(c), 1) == [0]
  {
    assert SearchOrder(BypassBounds(c), 0) == [];
  }

  lemma OneLayoutPhases(c: Case, r: CasePlan, anchored: seq<LayoutPlan>, once: seq<LayoutPlan>)
    requires c.layouts == [AnchorLayout(FailedRun)] && c.slo == SLO && CasePhases(c, r, anchored, once)
    ensures r.layouts == [Planned(SETTLED_AGAIN)] && Later(r.order, r.settled, anchored) == []
  {
    hide IsPlan, SlopeFloor, SearchOrder, BypassBounds, PassingRate, RateSearch, FloorAt, MaxOrZero, Rates, HolderOf;
    OneOrdered(c);
    AnchorPlan(c, FailedRun);
    assert r.order == [0] && r.order[0] == 0;
    PlanUnique(AnchorSearch(c, 0), anchored[0].plan, SETTLED_AGAIN);
  }

  // The whole case of one layout raises: its settled search is followed by a
  // batch search whose pruner takes the minimum of no limits.
  lemma CaseRaises(c: Case, r: CasePlan, anchored: seq<LayoutPlan>, once: seq<LayoutPlan>, again: seq<Plan>)
    requires c.layouts == [AnchorLayout(FailedRun)] && c.slo == SLO && CasePhases(c, r, anchored, once)
    requires |r.layouts| == 1 && (AllPlanned(r.layouts) ==> ProposalsRateable(PlansIn(r.layouts)))
    requires Decides(c, r, Later(r.order, r.settled, anchored), again)
    ensures r.maxBatch.Some? && r.maxBatch.value.Raised?
  {
    hide CasePhases, TwoPasses, OutcomeRate, Selects;
    OneLayoutPhases(c, r, anchored, once);
    assert PlansIn(r.layouts) == [SETTLED_AGAIN];
    OneProposal(c, r);
    FirstsAre(c, r.anchorRate);
    if r.maxBatch.value.Returned? {
      var result := r.maxBatch.value.result;
      FirstPassCrashes(c, again, result.layouts, result.incumbent);
    }
  }

  lemma FirstsAre(c: Case, anchorRate: real)
    requires c.layouts == [AnchorLayout(FailedRun)]
    ensures MaxBatchFirsts(c, [], anchorRate) == [200]
  {
    assert (200.0 / 10.0).Floor == 20;
  }

  lemma OneProposal(c: Case, r: CasePlan)
    requires c.layouts == [AnchorLayout(FailedRun)] && r.layouts == [Planned(SETTLED_AGAIN)]
    requires ProposalsRateable(PlansIn(r.layouts))
    ensures !CaseOpen(r.layouts)
    ensures var options := RateOptions(c, PlansIn(r.layouts));
            options != [] && BestChoice(options).layout == 0 && BestChoice(options).batch == 200
    ensures Answered(ROWS_FAILED, 200)
  {
    hide OutcomeRate, Requests, RateOptions, BestChoice;
    OneClosed(r.layouts);
    var plans := PlansIn(r.layouts);
    assert plans == [SETTLED_AGAIN];
    var options := RateOptions(c, plans);
    assert Proposes(plans[0]);
    assert RateOptionOf(c, plans, BestChoice(options));
  }

  lemma OneClosed(layouts: seq<LayoutPlan>)
    requires layouts == [Planned(SETTLED_AGAIN)]
    ensures !CaseOpen(layouts)
  {
    assert Requests(layouts[..0]) == [];
  }
}
