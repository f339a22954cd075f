// Two decided cases: the faster proposal wins with a smaller batch, and the batch search starts at saved runs.
module WorkedDecisions {
  import opened Prelude
  import opened NativeSearch
  import opened NativeBounds
  import opened NativePlan
  import opened PlanReplay
  import opened NativeCase
  import opened NativeMaxBatch
  import opened NativePlanCase
  import opened CaseFacts
  import opened CaseDecisions
  import opened WorkedStores
  import opened WorkedCases
  import opened WorkedPruners

  // ----- The smaller batch is accepted

  lemma Proposals()
    ensures ProposesAt(SETTLED, 360, 80.4) && ProposesAt(WIDE_SETTLED, 256, 57.0)
    ensures !NotFaster(256, 57.0, 1, 360, 80.4, 1)
  {}

  // The anchor proposes 360 at 80.4, the other layout 256 at 57: fewer requests, but more tokens.
  lemma SmallerBatchAccepted(c: Case, r: CasePlan, anchored: seq<LayoutPlan>, once: seq<LayoutPlan>, again: seq<Plan>)
    requires WideCase(c, Open) && PlannedCase(c, r, anchored, once, again)
    ensures r.layouts == [Planned(SETTLED), Planned(WIDE_SETTLED)]
    ensures r.acceptance.Some? && r.acceptance.value.choice.layout == 1 && r.acceptance.value.choice.batch == 256
    ensures r.acceptance.value.status == Some(Completed)
  {
    hide CasePhases, Decides, Later, AllEnded, ProposesAt, NotFaster, Floors, CaseShape, FirstBatch;
    PlannedPhases(c, r, anchored, once, again);
    FasterAnchorLowersIncumbent(c, Open, r, anchored, once);
    assert r.layouts == [Planned(SETTLED), Planned(WIDE_SETTLED)];
    BothEnded(r.layouts);
    Proposals();
    assert ProposesAt(r.layouts[0].plan, 360, 80.4) && ProposesAt(r.layouts[1].plan, 256, 57.0);
    DecidesWhen(c, r, anchored, once, again);
    hide PlannedCase;
    AcceptedIsFastest(c, r, anchored, once, again, 1, 256, 57.0, 80.4);
    AcceptanceRun(c, r, anchored, once, again);
    OneProposes(r, 0);
    OneProposes(r, 1);
  }

  lemma PlannedPhases(c: Case, r: CasePlan, anchored: seq<LayoutPlan>, once: seq<LayoutPlan>, again: seq<Plan>)
    requires PlannedCase(c, r, anchored, once, again)
    ensures CasePhases(c, r, anchored, once) && |r.layouts| == |c.layouts|
  {
    hide CasePhases, Decides, Later, ProposalsRateable;
  }

  lemma BothEnded(layouts: seq<LayoutPlan>)
    requires layouts == [Planned(SETTLED), Planned(WIDE_SETTLED)]
    ensures AllEnded(layouts)
  {}

  lemma OneProposes(r: CasePlan, i: nat)
    requires r.layouts == [Planned(SETTLED), Planned(WIDE_SETTLED)] && i < 2
    ensures forall b, v :: ProposesAt(r.layouts[i].plan, b, v) ==> b == if i == 0 then 360 else 256
  {}

  // ----- The batch search replays the throughput search's runs

  const MEASURED := [SETTLED, SLOWER_PRUNED]
  const SLOWER_ASKED_NEXT := Next(290, [SLOWER_RUN])

  lemma MeasuredBatches(c: Case, plans: seq<Plan>)
    requires SlowerCase(c, AcceptedRun) && (plans == MEASURED || plans == [SETTLED, SLOWER_ASKED_NEXT])
    ensures PassingBatches(c, plans) == [200.0, 0.0]
  {
    AnchorPerGpu();
    assert PassingPerGpu([P_SLOWER], SLO, 1) == [] by {
      assert forall x :: x !in PassingPerGpu([P_SLOWER], SLO, 1);
    }
    hide PassingPerGpu;
  }

  lemma AnchorPerGpu()
    ensures PassingBatch([P_FIRST, P_SECOND], SLO, 1) == 200.0 && PassingBatch([], SLO, 1) == 0.0
  {
    var points := [P_FIRST, P_SECOND];
    assert P_FIRST in points && PerGpuBatch(P_FIRST, 1) == 200.0;
    var batches := PassingPerGpu(points, SLO, 1);
    assert 200.0 in batches;
    assert forall x :: x in batches ==> x == 200.0;
  }

  lemma AnchorBatchSettles(c: Case, floor: Option<real>)
    requires SlowerCase(c, AcceptedRun)
    ensures IsPlan(BatchSearch(c, 0, 200, 200.0, floor), SETTLED)
  {
    var s := BatchSearch(c, 0, 200, 200.0, floor);
    hide IsPlan, VerdictAt, PointsOf, VerdictOf;
    BatchKeepsStart(s);
    StartKept(s);
    AnchorSettles(s);
  }

  lemma SlowerKept(floor: Option<real>)
    ensures BatchVerdict(SLOWER, SLO, 1, 200.0, floor, [], []).Keep?
    ensures BatchVerdict(SLOWER, SLO, 1, 200.0, floor, [SLOWER_RUN], [P_SLOWER]).Keep?
  {
    assert forall x :: !LimitReported([SLOWER_RUN], x) && !LimitReported([], x);
    assert forall x :: x !in RejectionLimits([SLOWER_RUN]) && x !in RejectionLimits([]);
    assert BatchLimits(SLOWER, [], []) == [1000] && BatchLimits(SLOWER, [SLOWER_RUN], [P_SLOWER]) == [1000];
    hide RejectionLimits, SlopeBatchBound;
  }

  // It replays its saved run at 400 and asks for the batch under it.
  lemma SlowerBatchAsks(c: Case, floor: Option<real>)
    requires SlowerCase(c, AcceptedRun)
    ensures IsPlan(BatchSearch(c, 1, 400, 200.0, floor), SLOWER_ASKED_NEXT)
  {
    hide IsPlan;
    SlowerAsks(BatchSearch(c, 1, 400, 200.0, floor));
  }

  lemma SlowerAsks(s: Search)
    requires s.entry == SLOWER && s.rows == SLOWER_LAYOUT.rows && s.slo == SLO && s.first == 400
    requires s.pruner.BatchPruner? && s.pruner.gpus == 1 && s.pruner.incumbent == 200.0
    ensures IsPlan(s, SLOWER_ASKED_NEXT)
  {
    hide BatchVerdict, Following, Ask, Replay, PointsOf, VerdictAt, Refined, Refines;
    SlowerKept(s.pruner.floor);
    SlowerFollowed(s.caps);
    FirstRun(s, 400, 130.0, 120.0, 290);
  }

  lemma FirstsAt(c: Case)
    requires SlowerCase(c, AcceptedRun)
    ensures MaxBatchFirsts(c, [1], 4.0 * NS_PER_S) == [200, 400]
  {
    SlowerFirst(c, AcceptedRun);
    assert (200.0 / 10.0).Floor == 20;
    hide FirstBatch;
  }

  lemma BothAgain(c: Case, again: seq<Plan>, layouts: seq<Plan>, incumbent: real)
    requires SlowerCase(c, AcceptedRun) && PositivePlans(MEASURED) && PositivePlans(again)
    requires TwoPasses(c, [200, 400], MEASURED, again, layouts, incumbent)
    ensures again == layouts == [SETTLED, SLOWER_ASKED_NEXT]
  {
    hide IsPlan, SlopeFloor, PassingBatches, MaxOrZero;
    MeasuredBatches(c, MEASURED);
    TwoHundred();
    var floor := SlopeFloor(Measurements(c, MEASURED), c.slo);
    AnchorBatchSettles(c, floor);
    SlowerBatchAsks(c, floor);
    PlanUnique(BatchSearch(c, 0, 200, 200.0, floor), again[0], SETTLED);
    PlanUnique(BatchSearch(c, 1, 400, 200.0, floor), again[1], SLOWER_ASKED_NEXT);
    assert again == [SETTLED, SLOWER_ASKED_NEXT];
    MeasuredBatches(c, again);
  }

  lemma TwoHundred()
    ensures MaxOrZero([200.0, 0.0]) == 200.0
  {}

  // Once the acceptance run passed, the later layout's batch search starts at its
  // saved run at 400: the case asks for 290, and for nothing again.
  lemma BatchSearchReplays(c: Case, r: CasePlan, anchored: seq<LayoutPlan>, once: seq<LayoutPlan>, again: seq<Plan>)
    requires SlowerCase(c, AcceptedRun) && PlannedCase(c, r, anchored, once, again)
    ensures r.next == [(1, 290)]
  {
    hide CasePhases, Decides, Later, Floors, CaseShape, SlowerCase, ProposalsRateable;
    PlannedPhases(c, r, anchored, once, again);
    FasterAnchorRevives(c, AcceptedRun, r, anchored, once);
    SlowerLater(c, r, anchored, once);
    BatchDecided(c, r, again);
  }

  lemma SlowerLater(c: Case, r: CasePlan, anchored: seq<LayoutPlan>, once: seq<LayoutPlan>)
    requires SlowerCase(c, AcceptedRun) && CasePhases(c, r, anchored, once)
    ensures CaseShape(c, r, anchored, once) && Later(r.order, r.settled, anchored) == [1]
  {
    hide CasePhases, After, Later;
    SlowerAfter(c, AcceptedRun);
    PhasesShape(c, r, anchored, once);
    AnchoredPhase(c, AcceptedRun, r, anchored, once);
  }

  lemma BatchDecided(c: Case, r: CasePlan, again: seq<Plan>)
    requires SlowerCase(c, AcceptedRun) && |r.layouts| == |c.layouts| && r.anchorRate == 4.0 * NS_PER_S
    requires r.layouts == [Planned(SETTLED), Planned(SLOWER_PRUNED)]
    requires AllPlanned(r.layouts) ==> ProposalsRateable(PlansIn(r.layouts))
    requires Decides(c, r, [1], again)
    ensures r.next == [(1, 290)]
  {
    hide TwoPasses, OutcomeRate, Requests, RateOptions, BestChoice, Options, MaxBatchFirsts, CaseOpen;
    OnlyAnchorProposes(c, r);
    FirstsAt(c);
    var attempt := r.maxBatch.value;
    if attempt.Returned? {
      BothAgain(c, again, attempt.result.layouts, attempt.result.incumbent);
      OneWaiting(attempt.result.layouts);
    } else {
      BothAgain(c, again, attempt.layouts, attempt.incumbent);
      assert false;
    }
  }

  lemma OneWaiting(plans: seq<Plan>)
    requires plans == [SETTLED, SLOWER_ASKED_NEXT]
    ensures Waiting(plans) == [(1, 290)]
  {
    assert plans[..1] == [SETTLED] && plans[..1][..0] == [];
    assert Waiting(plans[..1]) == [];
  }

  lemma OnlyAnchorProposes(c: Case, r: CasePlan)
    requires SlowerCase(c, AcceptedRun) && r.layouts == [Planned(SETTLED), Planned(SLOWER_PRUNED)]
    requires AllPlanned(r.layouts) ==> ProposalsRateable(PlansIn(r.layouts))
    ensures !CaseOpen(r.layouts) && AllPlanned(r.layouts) && PlansIn(r.layouts) == MEASURED
    ensures var options := RateOptions(c, MEASURED);
            options != [] && BestChoice(options).layout == 0 && BestChoice(options).batch == 360
    ensures Answered(c.layouts[0].rows, 360)
  {
    hide OutcomeRate, Requests, RateOptions, BestChoice;
    TwoClosed(r.layouts);
    var plans := PlansIn(r.layouts);
    assert plans == MEASURED;
    var options := RateOptions(c, plans);
    assert Proposes(plans[0]) && !Proposes(plans[1]);
    assert RateOptionOf(c, plans, BestChoice(options));
  }
}
