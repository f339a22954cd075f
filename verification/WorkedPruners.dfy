// A case whose incumbent falls because its anchor got faster, though every layout still reports its points.
module WorkedPruners {
  import opened Prelude
  import opened RealFacts
  import opened NativeSearch
  import opened NativeBounds
  import opened NativePlan
  import opened PruningSoundness
  import opened NativeCase
  import opened NativePlanCase
  import opened ResumedPlans
  import opened WorkedStores
  import opened WorkedCases

  // 512 fails, and the batch under it passes, faster than the anchor.
  const WIDE := Entry(128, 1, 1, 384, 1024, 6.4, 0.208)
  const UPPER_RUN := MeasuredRun(512, 140.0)
  const UNDER_RUN := MeasuredRun(256, 64.0)
  const P_UPPER := MeasuredPoint(512, 140.0, 136.0)
  const P_UNDER := MeasuredPoint(256, 64.0, 57.0)
  const WIDE_ROWS: map<int, Row> := map[512 := MeasuredRow(140.0, 136.0), 256 := MeasuredRow(64.0, 57.0)]
  const WIDE_LAYOUT := Layout(WIDE, WIDE_ROWS, 1)
  const WIDE_RATE := 256.0 * NS_PER_S / 57.0

  const WIDE_PROPOSAL := Interpolated(256, 256, 512, 57.0, false)
  const WIDE_SETTLED := Settled([UPPER_RUN, UNDER_RUN], [P_UPPER, P_UNDER], WIDE_PROPOSAL)
  const WIDE_PRUNED := Pruned([UPPER_RUN], [P_UPPER], PointRateBelow)

  function WidePlan(store: Store): Plan { if store.RaisedRun? then WIDE_PRUNED else WIDE_SETTLED }

  predicate WideCase(c: Case, store: Store) {
    c.layouts == [AnchorLayout(store), WIDE_LAYOUT] && c.slo == SLO && (store.Open? || store.RaisedRun?)
  }

  // ----- The layout's two runs

  lemma UpperFollowed(caps: Caps)
    ensures Following(WIDE, [UPPER_RUN], [P_UPPER], SLO, caps) == Some(256)
  {
    AimedFromOne(WIDE, P_UPPER, 256.0);
    AimedFromOne(WIDE, P_UPPER, 384.0);
    OneFollowed(WIDE, P_UPPER, UPPER_RUN, caps, 256);
  }

  lemma WideBracket()
    ensures Functional([P_UPPER, P_UNDER]) && Bracket([P_UPPER, P_UNDER], SLO) == Some((P_UNDER, P_UPPER))
    ensures InterpolatedBatch(P_UNDER, P_UPPER, SLO, 128) == 256
  {
    var points := [P_UPPER, P_UNDER];
    assert P_UPPER in points && P_UNDER in points;
    FirstBracket(P_UNDER, P_UPPER, points);
    var share := 36.0 / 76.0;
    QuotientTimes(36.0, 76.0);
    var x := SloCrossing(P_UNDER, P_UPPER, SLO);
    assert x == 256.0 + share * 256.0;
    RoundedIs(x, 256, 128);
    hide SloCrossing;
  }

  lemma WideOutcome(caps: Caps)
    ensures Functional([P_UPPER, P_UNDER])
    ensures OutcomeOf(WIDE, [UPPER_RUN, UNDER_RUN], [P_UPPER, P_UNDER], SLO, caps) == WIDE_PROPOSAL
    ensures Following(WIDE, [UPPER_RUN, UNDER_RUN], [P_UPPER, P_UNDER], SLO, caps).None?
    ensures MeasuredAt([P_UPPER, P_UNDER], 256)
  {
    WideBracket();
    assert Quantum(WIDE) == 128;
    assert P_UNDER in [P_UPPER, P_UNDER];
    NoTooBigRun([UPPER_RUN, UNDER_RUN]);
    hide Bracket, InterpolatedBatch, LimitOf, Quantum, SmallestTooBig;
  }

  lemma WideVerdict(store: Store)
    requires store.Open? || store.RaisedRun?
    ensures RateVerdict(WIDE, SLO, 1, AnchorRateOf(store), Some(0.76), [], []) == Keep
    ensures RateVerdict(WIDE, SLO, 1, AnchorRateOf(store), Some(0.76), [UPPER_RUN], [P_UPPER])
         == if store.RaisedRun? then Drop(PointRateBelow) else Keep
  {
    NoRunLimit(UPPER_RUN);
    WideBypass();
    assert PointRate(P_UPPER, 1) == 512.0 * NS_PER_S / 136.0;
    assert [P_UPPER][0] == P_UPPER;
    hide BypassRateBound, SlopeRateBound, PointRate, RunLimit;
  }

  lemma WideBypass()
    ensures BypassRateBound(WIDE, 1, SLO, None) == Some(4.5 * NS_PER_S)
  {
    CrossingRate(WIDE, 1, SLO);
    assert Rate(450.0, SLO, 1) == 4.5 * NS_PER_S;
  }

  // The second run, once the pruner keeps the layout after its first.
  lemma UnderReplay(s: Search)
    requires s.entry == WIDE && s.rows == WIDE_ROWS && s.slo == SLO && Recorded(s.rows, [UPPER_RUN])
    requires PointsOf(s.rows, [UPPER_RUN]) == [P_UPPER] && Replay(s, [UPPER_RUN]) && Ask(s, [UPPER_RUN]) == Some(256)
    requires VerdictAt(s, [UPPER_RUN]).Keep? && !Refined(s, [UPPER_RUN]) && !Refines(s, [UPPER_RUN])
    ensures var runs := [UPPER_RUN, UNDER_RUN];
            && Recorded(s.rows, runs) && Replay(s, runs) && !Refined(s, runs)
            && PointsOf(s.rows, runs) == [P_UPPER, P_UNDER]
  {
    hide Replay, VerdictAt, Refined, Refines, Ask;
    MeasuredParts(256, 64.0, 57.0);
    Extends(s, [UPPER_RUN], 256);
    assert [UPPER_RUN] + [UNDER_RUN] == [UPPER_RUN, UNDER_RUN];
    assert [UPPER_RUN, UNDER_RUN][..1] == [UPPER_RUN];
    assert [P_UPPER] + [P_UNDER] == [P_UPPER, P_UNDER];
  }

  lemma WideSettles(s: Search)
    requires s.entry == WIDE && s.rows == WIDE_ROWS && s.slo == SLO && Recorded(s.rows, [UPPER_RUN, UNDER_RUN])
    requires Replay(s, [UPPER_RUN, UNDER_RUN]) && !Refined(s, [UPPER_RUN, UNDER_RUN])
    requires PointsOf(s.rows, [UPPER_RUN, UNDER_RUN]) == [P_UPPER, P_UNDER]
    ensures IsPlan(s, WIDE_SETTLED)
  {
    hide Ask, Refines, Refined, FinalOutcome, Replay, PointsOf, RefinedOutcome, VerdictAt, Following, OutcomeOf;
    WideOutcome(s.caps);
    AskUnfolds(s, [UPPER_RUN, UNDER_RUN]);
    assert [UPPER_RUN, UNDER_RUN][1] == UNDER_RUN;
  }

  // Under the slower anchor it settles on its passing batch; under the faster one the failing run drops it.
  lemma WidePlanned(s: Search, store: Store)
    requires s.entry == WIDE && s.rows == WIDE_ROWS && s.first == 512 && s.slo == SLO
    requires s.pruner == RatePruner(1, AnchorRateOf(store), Some(0.76)) && (store.Open? || store.RaisedRun?)
    ensures IsPlan(s, WidePlan(store))
  {
    hide RateVerdict, Following, Ask, Replay, PointsOf, VerdictAt, Refined, Refines;
    WideVerdict(store);
    UpperFollowed(s.caps);
    FirstRun(s, 512, 140.0, 136.0, 256);
    if store.Open? {
      UnderReplay(s);
      WideSettles(s);
    }
  }

  lemma WideFirst(c: Case, store: Store)
    requires WideCase(c, store)
    ensures FirstBatch(c, 1, AnchorRateOf(store)) == 512
  {
    assert (512.0 / 128.0).Floor == 4;
    var quanta := MatchingQuanta(WIDE_LAYOUT, AnchorRateOf(store), SLO);
    assert quanta == if store.RaisedRun? then 28000.0 / 65.2 / 128.0 else 3.125;
    assert 3.0 < 28000.0 / 65.2 / 128.0 < 4.0;
    assert Ceil(quanta) == 4;
    hide MatchingQuanta, Ceil;
  }

  lemma WideRates()
    ensures PassingRate([P_UPPER, P_UNDER], SLO, 1) == WIDE_RATE && PassingRate([P_UPPER], SLO, 1) == 0.0
  {
    var rates := PassingRates([P_UPPER, P_UNDER], SLO, 1);
    assert PointRate(P_UNDER, 1) == WIDE_RATE && P_UNDER in [P_UPPER, P_UNDER];
    hide PointRate, PassingRates;
    assert WIDE_RATE in rates && forall x :: x in rates ==> x == WIDE_RATE;
    assert PassingRates([P_UPPER], SLO, 1) == [] by {
      assert forall x :: x !in PassingRates([P_UPPER], SLO, 1);
    }
  }

  lemma WideIsPlanned(c: Case, store: Store)
    requires WideCase(c, store)
    ensures var rate := AnchorRateOf(store); IsPlan(RateSearch(c, 1, rate, rate, Some(0.76)), WidePlan(store))
    ensures store.RaisedRun? ==> OtherIs(c, store, WIDE_PRUNED)
  {
    hide IsPlan, FirstBatch, PassingRate;
    WideFirst(c, store);
    WideRates();
    WidePlanned(RateSearch(c, 1, AnchorRateOf(store), AnchorRateOf(store), Some(0.76)), store);
  }

  // ----- The whole case

  lemma WideAfter(c: Case, store: Store)
    requires WideCase(c, store)
    ensures After(c, store)
  {
    WideBypass();
    hide BypassRateBound;
  }

  lemma WideOnce(c: Case, store: Store, r: CasePlan, anchored: seq<LayoutPlan>, once: seq<LayoutPlan>)
    requires WideCase(c, store) && CasePhases(c, r, anchored, once)
    ensures r.order == [0, 1] && r.settled == 1 && r.anchorRate == AnchorRateOf(store)
    ensures Later(r.order, r.settled, anchored) == [1]
    ensures anchored == [Planned(AnchorPlanOf(store)), AwaitsAnchor] && once == [anchored[0], Planned(WidePlan(store))]
  {
    hide IsPlan, CasePhases, After, Later, RateSearch;
    WideAfter(c, store);
    AnchoredPhase(c, store, r, anchored, once);
    WideIsPlanned(c, store);
    OncePlanned(c, store, r, anchored, once, WidePlan(store));
  }

  lemma WideHolds(c: Case, r: CasePlan, anchored: seq<LayoutPlan>, once: seq<LayoutPlan>)
    requires WideCase(c, Open) && CasePhases(c, r, anchored, once)
    requires once == [Planned(SETTLED), Planned(WIDE_SETTLED)] && Later(r.order, r.settled, anchored) == [1]
    ensures r.incumbent == WIDE_RATE && r.layouts == once
  {
    hide IsPlan, PassingRate, AnchorPhase, FirstPass, SearchOrder, BypassBounds, RateSearch, Later, FloorAt;
    AnchorRateIs(Open);
    WideRates();
    var rates := Rates(c, once);
    assert rates[0] == 4.0 * NS_PER_S && rates[1] == WIDE_RATE;
    assert rates[1] in rates && MaxOrZero(rates) == WIDE_RATE;
    assert HolderOf(c, once) == Some(1);
  }

  // The anchor's rate rises while the floor and the first batch stay: the layout
  // that held the incumbent is dropped on its failing run, and the incumbent
  // falls, though both layouts still report points.
  lemma FasterAnchorLowersIncumbent(c: Case, store: Store, r: CasePlan, anchored: seq<LayoutPlan>,
                                    once: seq<LayoutPlan>)
    requires WideCase(c, store) && CasePhases(c, r, anchored, once)
    ensures CaseShape(c, r, anchored, once) && Floors(c, r, anchored, once).0 == Some(0.76)
    ensures r.settled == 1 && r.anchorRate == AnchorRateOf(store) && FirstBatch(c, 1, r.anchorRate) == 512
    ensures once == r.layouts == [Planned(AnchorPlanOf(store)), Planned(WidePlan(store))]
    ensures Reports(AnchorPlanOf(store)) && Reports(WidePlan(store))
    ensures r.incumbent == (if store.RaisedRun? then AnchorRateOf(RaisedRun) else WIDE_RATE)
    ensures AnchorRateOf(Open) < AnchorRateOf(RaisedRun) < WIDE_RATE
  {
    hide CasePhases, OtherIs, After, CaseShape, Floors, IsPlan, PassingRate, FirstBatch;
    WideOnce(c, store, r, anchored, once);
    WideFirst(c, store);
    if store.RaisedRun? {
      WideAfter(c, store);
      WideIsPlanned(c, store);
      BothPlanned(c, store, r, anchored, once, WIDE_PRUNED);
    } else {
      WideHolds(c, r, anchored, once);
      WideFloor(c, r, anchored, once);
    }
  }

  lemma WideFloor(c: Case, r: CasePlan, anchored: seq<LayoutPlan>, once: seq<LayoutPlan>)
    requires WideCase(c, Open) && CasePhases(c, r, anchored, once) && r.order == [0, 1] && r.settled == 1
    requires anchored == [Planned(SETTLED), AwaitsAnchor]
    ensures CaseShape(c, r, anchored, once) && Floors(c, r, anchored, once).0 == Some(0.76)
  {
    hide IsPlan, SlopeFloor, AnchorPhase, FirstPass, SecondPass, SearchOrder, BypassBounds;
    assert r.order[..1] == [0];
    AnchorFloor(MeasurementsAt(c, anchored, [0]), Open);
  }
}
