// When a case decides, what it accepts, and where its batch search starts, on the plans alone.
module CaseDecisions {
  import opened Prelude
  import opened RealFacts
  import opened NativeSearch
  import opened NativeBounds
  import opened SearchSteps
  import opened NativePlan
  import opened PlanReplay
  import opened NativeCase
  import opened NativeMaxBatch
  import opened NativePlanCase
  import opened CaseFacts

  // What PlanCase returns.
  predicate PlannedCase(c: Case, r: CasePlan, anchored: seq<LayoutPlan>, once: seq<LayoutPlan>, again: seq<Plan>) {
    && CasePhases(c, r, anchored, once) && |r.layouts| == |c.layouts|
    && (AllPlanned(r.layouts) ==> ProposalsRateable(PlansIn(r.layouts)))
    && Decides(c, r, Later(r.order, r.settled, anchored), again)
  }

  // ----- When a case decides

  // Every layout was searched to an end, and none of its runs failed.
  predicate AllEnded(layouts: seq<LayoutPlan>) {
    forall i :: 0 <= i < |layouts| ==>
      layouts[i].Planned? && !layouts[i].plan.Next? && !layouts[i].plan.FailedPlan?
  }

  lemma {:induction false} RequestsListed(plans: seq<LayoutPlan>)
    ensures forall i, b :: (i, b) in Requests(plans) <==>
              0 <= i < |plans| && plans[i].Planned? && plans[i].plan.Next? && plans[i].plan.batch == b
  {
    if plans != [] {
      var k := |plans| - 1;
      RequestsListed(plans[..k]);
      var rest := Requests(plans[..k]);
      forall i, b
        ensures (i, b) in Requests(plans) <==>
                  0 <= i < |plans| && plans[i].Planned? && plans[i].plan.Next? && plans[i].plan.batch == b
      {
        if 0 <= i < k { assert plans[..k][i] == plans[i]; }
        if plans[k].Planned? && plans[k].plan.Next? { assert (rest + [(k, plans[k].plan.batch)])[|rest|].0 == k; }
      }
    }
  }

  lemma OpenExactly(layouts: seq<LayoutPlan>)
    ensures CaseOpen(layouts) <==> !AllEnded(layouts)
  {
    RequestsListed(layouts);
    hide Requests;
    if Requests(layouts) != [] {
      var x := Requests(layouts)[0];
      assert (x.0, x.1) in Requests(layouts);
      assert layouts[x.0].plan.Next?;
    } else if AllPlanned(layouts) {
      assert forall i, b :: (i, b) !in Requests(layouts);
      var plans := PlansIn(layouts);
      if AnyFailed(plans) {
        var i :| 0 <= i < |plans| && plans[i].FailedPlan?;
        assert layouts[i].plan.FailedPlan?;
      } else {
        assert forall i :: 0 <= i < |layouts| ==> plans[i] == layouts[i].plan;
      }
    }
  }

  // What a settled layout proposes, and at which TPOT: the predicted one of an
  // interpolated batch, the measured one of a limited batch.
  predicate ProposesAt(plan: Plan, b: int, t: real) {
    && plan.Settled?
    && match plan.outcome
       case Interpolated(batch, _, _, predicted, _) => batch == b && predicted == t
       case Limited(_, batch) => batch == b && exists p :: p in plan.points && p.batch == b && p.tpot == t
       case _ => false
  }

  // An acceptance run is chosen exactly when every layout ended and one proposes a
  // batch; while a layout waits, exactly its requests are made and nothing else.
  lemma DecidesWhen(c: Case, r: CasePlan, anchored: seq<LayoutPlan>, once: seq<LayoutPlan>, again: seq<Plan>)
    requires PlannedCase(c, r, anchored, once, again)
    ensures r.acceptance.Some? <==>
              AllEnded(r.layouts) && exists i, b, t :: 0 <= i < |r.layouts| && ProposesAt(r.layouts[i].plan, b, t)
    ensures !AllEnded(r.layouts) ==> r.maxBatch.None? && forall i, b :: (i, b) in r.next <==>
              0 <= i < |r.layouts| && r.layouts[i].Planned? && r.layouts[i].plan.Next? && r.layouts[i].plan.batch == b
  {
    OpenExactly(r.layouts);
    RequestsListed(r.layouts);
    PhasesShape(c, r, anchored, once);
    hide CaseOpen, Requests, RateOptions, BestChoice, MaxBatchRan, MaxBatchFirsts, Answered, OutcomeRate, CasePhases,
      Later;
    if AllEnded(r.layouts) {
      var plans := PlansIn(r.layouts);
      var options := RateOptions(c, plans);
      if i, b, t :| 0 <= i < |r.layouts| && ProposesAt(r.layouts[i].plan, b, t) {
        assert Proposes(plans[i]);
      }
      if options != [] {
        var x := options[0];
        assert RateOptionOf(c, plans, x);
        var b, t := ProposalOf(plans[x.layout]);
        assert ProposesAt(r.layouts[x.layout].plan, b, t);
      }
    }
  }

  lemma ProposalOf(plan: Plan) returns (b: int, t: PosReal)
    requires Rateable(plan)
    ensures b == plan.outcome.batch && ProposesAt(plan, b, t)
  {
    b := plan.outcome.batch;
    if plan.outcome.Interpolated? {
      t := plan.outcome.predicted;
    } else {
      var p :| p in plan.points && p.batch == b;
      t := p.tpot;
    }
  }

  // ----- Which proposal is accepted

  lemma RateIs(plan: Plan, gpus: Pos, b: int, t: real)
    requires Rateable(plan) && Functional(plan.points) && ProposesAt(plan, b, t)
    ensures t > 0.0 && OutcomeRate(plan, gpus) == Rate(b as real, t, gpus)
  {
    hide Rate;
    if plan.outcome.Limited? {
      var p :| p in plan.points && p.batch == b && p.tpot == t;
      assert FirstAt(plan.points, b) == p;
    }
  }

  // Two rates compare as batches times the other's TPOT and GPUs.
  lemma RatesCross(b: real, t: PosReal, g: Pos, most: real, u: PosReal, h: Pos, bu: real, mt: real)
    requires bu == b * (u * h as real) && mt == most * (t * g as real)
    ensures Rate(b, t, g) <= Rate(most, u, h) <==> bu <= mt
    ensures Rate(b, t, g) == Rate(most, u, h) <==> bu == mt
  {
    var d: PosReal, e: PosReal := t * g as real, u * h as real;
    var x, y := Rate(b, t, g), Rate(most, u, h);
    QuotientTimes(b * NS_PER_S, d);
    QuotientTimes(most * NS_PER_S, e);
    CrossTerms(x, b, d, e);
    CrossTerms(y, most, e, d);
    var de: PosReal := d * e;
    ProductsOrdered(x, y, de, x * de, y * de);
    assert x * de == bu * NS_PER_S;
    assert y * de == mt * NS_PER_S by { assert y * (e * d) == y * de; }
  }

  lemma CrossTerms(x: real, b: real, d: real, e: real)
    requires x * d == b * NS_PER_S
    ensures x * (d * e) == b * e * NS_PER_S
  {
    assert x * (d * e) == x * d * e;
  }

  lemma PlannedPoints(c: Case, r: CasePlan, anchored: seq<LayoutPlan>, once: seq<LayoutPlan>, i: nat)
    requires CasePhases(c, r, anchored, once) && |r.layouts| == |c.layouts| && i < |c.layouts|
    requires r.layouts[i].Planned? && r.layouts[i].plan.Settled?
    ensures Functional(r.layouts[i].plan.points)
  {
    FinalPlanned(c, r, anchored, once, i);
    var s := PlannedOnGrid(c, r, Floors(c, r, anchored, once), i);
    hide Ask, Grows, FinalOutcome, CasePhases, PlannedAt, VerdictAt;
    SettledPoints(s, r.layouts[i].plan);
  }

  lemma SettledPoints(s: Search, plan: Plan)
    requires IsPlan(s, plan) && plan.Settled?
    ensures Functional(plan.points)
  {
    hide Ask, Grows, FinalOutcome, VerdictAt;
  }

  lemma AllWerePlanned(c: Case, r: CasePlan, later: seq<nat>, again: seq<Plan>)
    requires |r.layouts| == |c.layouts| && (AllPlanned(r.layouts) ==> ProposalsRateable(PlansIn(r.layouts)))
    requires Decides(c, r, later, again) && (r.acceptance.Some? || r.maxBatch.Some?)
    ensures AllPlanned(r.layouts)
  {
    hide RateOptions, BestChoice, MaxBatchRan, MaxBatchFirsts, Answered, ProposalsRateable, Requests;
  }

  // A settled proposal's rate against the accepted one's score.
  lemma AcceptedScores(c: Case, r: CasePlan, later: seq<nat>, again: seq<Plan>, i: nat)
    requires |r.layouts| == |c.layouts| && (AllPlanned(r.layouts) ==> ProposalsRateable(PlansIn(r.layouts)))
    requires Decides(c, r, later, again) && r.acceptance.Some? && AllPlanned(r.layouts)
    requires i < |c.layouts| && r.layouts[i].Planned? && Proposes(r.layouts[i].plan)
    ensures var x := r.acceptance.value.choice;
            && x.layout < |c.layouts| && r.layouts[x.layout].Planned? && Rateable(r.layouts[x.layout].plan)
            && x.batch == r.layouts[x.layout].plan.outcome.batch
            && x.score == OutcomeRate(r.layouts[x.layout].plan, c.layouts[x.layout].gpus)
            && Rateable(r.layouts[i].plan)
            && var rate := OutcomeRate(r.layouts[i].plan, c.layouts[i].gpus);
               rate <= x.score && (rate == x.score ==> i <= x.layout)
  {
    hide OutcomeRate, Answered, MaxBatchRan, MaxBatchFirsts, CaseOpen;
    var plans := PlansIn(r.layouts);
    var options := RateOptions(c, plans);
    assert plans[i] == r.layouts[i].plan;
    var y :| y in options && y.layout == i;
    assert RateOptionOf(c, plans, y);
    assert RateOptionOf(c, plans, BestChoice(options));
  }

  // The tokens of a batch over its TPOT and GPUs against another's, cross-multiplied.
  predicate NotFaster(b: int, t: real, g: int, most: int, u: real, h: int) {
    b as real * (u * h as real) <= most as real * (t * g as real)
  }

  // The accepted proposal is the fastest per GPU: no settled one promises more
  // tokens, and of equals the last layout's is taken. Its score is that rate.
  lemma AcceptedIsFastest(c: Case, r: CasePlan, anchored: seq<LayoutPlan>, once: seq<LayoutPlan>, again: seq<Plan>,
                          i: nat, b: int, t: real, u: real)
    requires i < |c.layouts| == |r.layouts| && r.layouts[i].Planned? && ProposesAt(r.layouts[i].plan, b, t)
    requires r.acceptance.Some? && PlannedCase(c, r, anchored, once, again)
    ensures var x := r.acceptance.value.choice;
            && x.layout < |c.layouts| && r.layouts[x.layout].Planned?
            && (exists v :: ProposesAt(r.layouts[x.layout].plan, x.batch, v))
            && (ProposesAt(r.layouts[x.layout].plan, x.batch, u) ==>
                var g, h := c.layouts[i].gpus, c.layouts[x.layout].gpus;
                && NotFaster(b, t, g, x.batch, u, h)
                && (NotFaster(x.batch, u, h, b, t, g) ==> i <= x.layout)
                && x.score * (u * h as real) == x.batch as real * NS_PER_S)
  {
    hide CasePhases, Decides, OutcomeRate, Later, Functional, ProposalsRateable, Rateable, NotFaster, ProposesAt,
         SearchOrder, BypassBounds, MaxOrZero, Rates;
    PhasesShape(c, r, anchored, once);
    AllWerePlanned(c, r, Later(r.order, r.settled, anchored), again);
    ProposalIs(r.layouts[i].plan, b, t);
    AcceptedScores(c, r, Later(r.order, r.settled, anchored), again, i);
    var x := r.acceptance.value.choice;
    var best, mine := r.layouts[x.layout].plan, r.layouts[i].plan;
    var batch, v := ProposalOf(best);
    if ProposesAt(best, x.batch, u) {
      ProposalIs(best, x.batch, u);
      PlannedPoints(c, r, anchored, once, i);
      PlannedPoints(c, r, anchored, once, x.layout);
      ScoresCompare(mine, c.layouts[i].gpus, b, t, best, c.layouts[x.layout].gpus, x.batch, u);
    }
  }

  lemma ScoresCompare(mine: Plan, g: Pos, b: int, t: real, best: Plan, h: Pos, most: int, u: real)
    requires Rateable(mine) && Functional(mine.points) && ProposesAt(mine, b, t)
    requires Rateable(best) && Functional(best.points) && ProposesAt(best, most, u)
    ensures var x, y := OutcomeRate(mine, g), OutcomeRate(best, h);
            && (x <= y <==> NotFaster(b, t, g, most, u, h)) && (y <= x <==> NotFaster(most, u, h, b, t, g))
            && y * (u * h as real) == most as real * NS_PER_S
  {
    RateIs(mine, g, b, t);
    RateIs(best, h, most, u);
    RatesCompare(b, t, g, most, u, h);
    hide Rateable, Functional, ProposesAt, OutcomeRate, Rate, NotFaster;
  }

  lemma ProposalIs(plan: Plan, b: int, t: real)
    requires ProposesAt(plan, b, t)
    ensures plan.Settled? && Proposes(plan)
  {}

  lemma RatesCompare(b: int, t: PosReal, g: Pos, most: int, u: PosReal, h: Pos)
    ensures var x, y := Rate(b as real, t, g), Rate(most as real, u, h);
            && (x <= y <==> NotFaster(b, t, g, most, u, h))
            && (y <= x <==> NotFaster(most, u, h, b, t, g))
            && y * (u * h as real) == most as real * NS_PER_S
  {
    RatesCross(b as real, t, g, most as real, u, h, b as real * (u * h as real), most as real * (t * g as real));
    QuotientTimes(most as real * NS_PER_S, u * h as real);
  }

  // An interpolated batch is run before anything else, unless a row of it settled;
  // then, or for a limited batch, the largest batch is searched.
  lemma AcceptanceRun(c: Case, r: CasePlan, anchored: seq<LayoutPlan>, once: seq<LayoutPlan>, again: seq<Plan>)
    requires PlannedCase(c, r, anchored, once, again) && r.acceptance.Some?
    ensures var x := r.acceptance.value.choice;
            && x.layout < |c.layouts| && r.layouts[x.layout].Planned? && r.layouts[x.layout].plan.Settled?
            && var rows := c.layouts[x.layout].rows;
               if r.layouts[x.layout].plan.outcome.Limited? then r.acceptance.value.status.None? && r.maxBatch.Some?
               else if x.batch in rows && rows[x.batch].status != OtherStatus
               then r.acceptance.value.status == Some(rows[x.batch].status) && r.maxBatch.Some?
               else r.acceptance.value.status.None? && r.next == [(x.layout, x.batch)] && r.maxBatch.None?
  {
    hide CasePhases, CaseOpen, MaxBatchRan, MaxBatchFirsts, Later, OutcomeRate;
    PhasesShape(c, r, anchored, once);
    AllWerePlanned(c, r, Later(r.order, r.settled, anchored), again);
    var plans := PlansIn(r.layouts);
    var x := BestChoice(RateOptions(c, plans));
    assert RateOptionOf(c, plans, x);
    PendingRow(c.layouts[x.layout].rows, x.batch);
    hide Answered, RateOptions, BestChoice;
  }

  lemma PendingRow(rows: map<int, Row>, b: int)
    ensures Answered(rows, b) <==> b in rows && rows[b].status != OtherStatus
  {}

  // ----- Where the batch search starts

  lemma FirstRunIs(s: Search, plan: Plan)
    requires IsPlan(s, plan)
    ensures plan.runs != [] ==>
              Answered(s.rows, s.first) && plan.runs[0].batch == s.first
                && plan.runs[0] == RunAt(s.first, s.rows[s.first])
    ensures plan.Next? && plan.runs == [] ==> plan.batch == s.first && !Answered(s.rows, s.first)
    ensures plan.Next? && plan.runs != [] ==> plan.batch != s.first
  {
    hide VerdictAt;
    if plan.runs != [] {
      assert Grows(s, plan.runs[..0], plan.runs[0]);
      if plan.Next? {
        ReplayAnswered(s, plan.runs);
        hide Ask, Replay;
      }
    }
  }

  // The search of a final plan starts where its batch search does.
  lemma SameFirst(c: Case, r: CasePlan, anchored: seq<LayoutPlan>, once: seq<LayoutPlan>, i: nat) returns (s: Search)
    requires CasePhases(c, r, anchored, once) && |r.layouts| == |c.layouts| && i < |c.layouts| && r.layouts[i].Planned?
    ensures IsPlan(s, r.layouts[i].plan) && s.entry == c.layouts[i].entry && s.rows == c.layouts[i].rows
    ensures s.slo == c.slo && s.caps == c.caps
    ensures s.first == MaxBatchFirsts(c, Later(r.order, r.settled, anchored), r.anchorRate)[i]
  {
    OrderIndices(c);
    SearchOrderSorted(BypassBounds(c), |c.layouts|);
    LaterHasRate(c, r.order, r.settled, anchored, r.anchorRate);
    if anchored[i].Planned? { AnchoredIs(c, r.order, r.settled, anchored, r.anchorRate, i); }
    hide IsPlan, FloorAt, AnchorPhase, Rates, MaxOrZero, HolderOf, SearchOrder, PositiveAt, FirstBatch,
      DefaultFirstBatch;
    if i in Later(r.order, r.settled, anchored) {
      s := RateSearch(c, i, r.anchorRate, if HolderOf(c, once) == Some(i) then r.anchorRate else r.incumbent,
                      CaseFloor(c, r, anchored, once, i));
    } else {
      assert once[i] == anchored[i] && r.layouts[i] == once[i];
      s := AnchorSearch(c, i);
    }
  }

  lemma BatchPlanStarts(c: Case, firsts: seq<int>, measured: seq<Plan>, once: seq<Plan>, layouts: seq<Plan>,
                        incumbent: real, i: nat, plan: Plan) returns (s: Search)
    requires |firsts| == |c.layouts| == |measured| && PositivePlans(measured) && PositivePlans(once)
    requires TwoPasses(c, firsts, measured, once, layouts, incumbent) && i < |c.layouts|
    requires |once| == |layouts| == |c.layouts| && (plan == once[i] || plan == layouts[i])
    ensures IsPlan(s, plan) && s.first == firsts[i] && s.entry == c.layouts[i].entry && s.rows == c.layouts[i].rows
    ensures s.slo == c.slo && s.caps == c.caps
  {
    hide IsPlan, SlopeFloor, MaxOrZero, PassingBatches, IndexOf;
    var seed, floor := MaxOrZero(PassingBatches(c, measured)), SlopeFloor(Measurements(c, measured), c.slo);
    s := BatchSearch(c, i, firsts[i], seed, floor);
    if !IsPlan(s, plan) {
      s := BatchSearch(c, i, firsts[i], incumbent,
                       SlopeFloor(Measurements(c, measured) + Measurements(c, once), c.slo));
    }
  }

  lemma PassCounts(c: Case, firsts: seq<int>, measured: seq<Plan>, once: seq<Plan>, layouts: seq<Plan>, incumbent: real)
    requires |firsts| == |c.layouts| == |measured| && PositivePlans(measured) && PositivePlans(once)
    requires TwoPasses(c, firsts, measured, once, layouts, incumbent)
    ensures |once| == |layouts| == |c.layouts|
  {
    hide IsPlan, SlopeFloor, MaxOrZero, PassingBatches, IndexOf;
  }

  function BatchPlans(r: CasePlan): seq<Plan>
    requires r.maxBatch.Some?
  {
    if r.maxBatch.value.Returned? then r.maxBatch.value.result.layouts else r.maxBatch.value.layouts
  }

  // The batch search of a layout starts at the first run of its throughput plan,
  // in both passes: its plan holds that run first, and never asks for it again.
  lemma BatchSearchStarts(c: Case, r: CasePlan, anchored: seq<LayoutPlan>, once: seq<LayoutPlan>, again: seq<Plan>,
                          i: nat, plan: Plan)
    requires i < |c.layouts| == |r.layouts| && r.layouts[i].Planned? && r.layouts[i].plan.runs != []
    requires r.maxBatch.Some?
    requires (i < |again| && plan == again[i]) || (i < |BatchPlans(r)| && plan == BatchPlans(r)[i])
    requires PlannedCase(c, r, anchored, once, again)
    ensures plan.runs != [] ==> plan.runs[0] == r.layouts[i].plan.runs[0]
    ensures plan.Next? ==> plan.runs != [] && plan.batch != r.layouts[i].plan.runs[0].batch
  {
    hide IsPlan, CasePhases, TwoPasses, BestChoice, RateOptions, OutcomeRate, Selects, MaxBatchFirsts, Later, CaseOpen,
         Answered, ProposalsRateable;
    PhasesShape(c, r, anchored, once);
    AllWerePlanned(c, r, Later(r.order, r.settled, anchored), again);
    var s := SameFirst(c, r, anchored, once, i);
    FirstRunIs(s, r.layouts[i].plan);
    var firsts := MaxBatchFirsts(c, Later(r.order, r.settled, anchored), r.anchorRate);
    var plans := PlansIn(r.layouts);
    var incumbent := if r.maxBatch.value.Returned? then r.maxBatch.value.result.incumbent
      else r.maxBatch.value.incumbent;
    PassCounts(c, firsts, plans, again, BatchPlans(r), incumbent);
    var t := BatchPlanStarts(c, firsts, plans, again, BatchPlans(r), incumbent, i, plan);
    FirstRunIs(t, plan);
  }

  // ----- Where a later layout's search starts

  // The billionths of tokens that a layout at a per-GPU rate gives in one SLO.
  function TokensIn(l: Layout, rate: real, slo: real): real { rate * l.gpus as real * slo }

  // The least multiple at which passing the SLO matches a per-GPU rate.
  predicate Matches(m: int, q: Pos, tokens: real) {
    m % q == 0 && (m - q) as real * 1000000000.0 < tokens <= m as real * 1000000000.0
  }

  // The batch at which passing the SLO matches the anchor's rate, or the grid's
  // last within 512; the default first batch, if only that one has a row.
  lemma FirstBatchExactly(c: Case, i: nat, rate: PosReal, m: int, cap: int)
    requires i < |c.layouts|
    requires Matches(m, Quantum(c.layouts[i].entry), TokensIn(c.layouts[i], rate, c.slo))
    requires GridAt(cap, 512.0, Quantum(c.layouts[i].entry))
    ensures var l, threshold := c.layouts[i], if cap < m then cap else m;
            FirstBatch(c, i, rate) == if threshold !in l.rows && DefaultFirstBatch(l.entry) in l.rows
                                      then DefaultFirstBatch(l.entry) else threshold
  {
    hide Rounded, Ceil, Quantum, DefaultFirstBatch, Matches, GridAt, MatchingQuanta, TokensIn;
    var q := Quantum(c.layouts[i].entry);
    RoundedIsGrid(512.0, q);
    GridUnique(cap, Rounded(512.0, q), 512.0, q);
    MatchingBatch(c.layouts[i], rate, c.slo, m);
  }

  lemma MatchingBatch(l: Layout, rate: real, slo: real, m: int)
    requires Matches(m, Quantum(l.entry), TokensIn(l, rate, slo))
    ensures Quantum(l.entry) * Ceil(MatchingQuanta(l, rate, slo)) == m
  {
    hide Ceil, Matches, Quantum;
    MatchingIs(TokensIn(l, rate, slo), m, Quantum(l.entry));
  }

  lemma MatchingIs(tokens: real, m: int, q: Pos)
    requires Matches(m, q, tokens)
    ensures q * Ceil(tokens / NS_PER_S / q as real) == m
  {
    var x := tokens / NS_PER_S / q as real;
    QuotientTimes(tokens / NS_PER_S, q as real);
    QuotientTimes(tokens, NS_PER_S);
    var k := m / q;
    assert m == k * q;
    assert (m - q) as real < x * q as real <= m as real;
    CeilIs(x, k, q as real, x * q as real, k as real * q as real, (k - 1) as real * q as real);
  }

  lemma CeilIs(x: real, k: int, q: PosReal, xq: real, kq: real, jq: real)
    requires xq == x * q && kq == k as real * q && jq == (k - 1) as real * q && jq < xq <= kq
    ensures Ceil(x) == k
  {
    ProductsOrdered((k - 1) as real, x, q, jq, xq);
    ProductsOrdered(x, k as real, q, xq, kq);
  }
}
