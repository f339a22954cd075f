// plan_case: the anchor, the two pruned passes over the later layouts, and the acceptance run.
module NativePlanCase {
  import opened Prelude
  import opened NativeSearch
  import opened NativeBounds
  import opened QuantumFacts
  import opened SearchFacts
  import opened NativePlan
  import opened PlanOutcomes
  import opened NativeCase
  import opened NativeMaxBatch

  // A later layout waits until the anchor has its rate.
  datatype LayoutPlan = AwaitsAnchor | Planned(plan: Plan)

  datatype CasePlan = CasePlan(order: seq<nat>, settled: nat, layouts: seq<LayoutPlan>, anchorRate: real,
                               incumbent: real, next: seq<(nat, int)>, acceptance: Option<Acceptance>,
                               maxBatch: Option<Attempt>)

  function PointsAt(plans: seq<LayoutPlan>, i: nat): seq<Point>
    requires i < |plans|
  {
    if plans[i].Planned? then PlanPoints(plans[i].plan) else []
  }

  predicate PositiveAt(plans: seq<LayoutPlan>) {
    forall i :: 0 <= i < |plans| ==> PositiveBatches(PointsAt(plans, i))
  }

  // ----- The search order: descending bypass rate bounds, the first layout first on a tie

  function BypassBounds(c: Case): seq<Option<real>> {
    seq(|c.layouts|, i requires 0 <= i < |c.layouts| =>
      BypassRateBound(c.layouts[i].entry, c.layouts[i].gpus, c.slo, None))
  }

  predicate BoundLess(a: Option<real>, b: Option<real>) { a.Some? && (b.None? || a.value < b.value) }

  predicate Indices(n: nat, order: seq<nat>) {
    forall k :: 0 <= k < |order| ==> order[k] < n
  }

  predicate Descending(bounds: seq<Option<real>>, order: seq<nat>)
    requires Indices(|bounds|, order)
  {
    forall j, k :: 0 <= j < k < |order| ==> !BoundLess(bounds[order[j]], bounds[order[k]])
  }

  // How many leading indices stay in front of a later one: those whose bound is not smaller.
  function Rank(bounds: seq<Option<real>>, i: nat, order: seq<nat>): (k: nat)
    requires i < |bounds| && Indices(|bounds|, order)
    ensures k <= |order|
    ensures forall j :: 0 <= j < k ==> !BoundLess(bounds[order[j]], bounds[i])
    ensures k < |order| ==> BoundLess(bounds[order[k]], bounds[i])
  {
    if order == [] || BoundLess(bounds[order[0]], bounds[i]) then 0 else 1 + Rank(bounds, i, order[1..])
  }

  // Python's stable sort of the layouts by descending bound.
  function SearchOrder(bounds: seq<Option<real>>, n: nat): (r: seq<nat>)
    requires n <= |bounds|
    ensures Indices(n, r) && |r| == n
  {
    if n == 0 then []
    else
      var rest := SearchOrder(bounds, n - 1);
      var k := Rank(bounds, n - 1, rest);
      rest[..k] + [n - 1] + rest[k..]
  }

  lemma InsertedAtRank(bounds: seq<Option<real>>, i: nat, rest: seq<nat>, k: nat, r: seq<nat>)
    requires i < |bounds| && Indices(|bounds|, rest) && Descending(bounds, rest) && Distinct(rest) && i !in rest
    requires k <= |rest| && |r| == |rest| + 1 && r[k] == i
    requires forall j :: 0 <= j < k ==> r[j] == rest[j]
    requires forall j :: k < j < |r| ==> r[j] == rest[j - 1]
    requires forall j :: 0 <= j < k ==> !BoundLess(bounds[rest[j]], bounds[i])
    requires k < |rest| ==> BoundLess(bounds[rest[k]], bounds[i])
    ensures Indices(|bounds|, r) && Descending(bounds, r) && Distinct(r)
  {
    forall a, b | 0 <= a < b < |r|
      ensures r[a] < |bounds| && r[b] < |bounds| && !BoundLess(bounds[r[a]], bounds[r[b]]) && r[a] != r[b]
    {
      var x, y := if a < k then a else a - 1, if b < k then b else b - 1;
      if a == k {
        assert rest[y] in rest;
        assert k < y ==> !BoundLess(bounds[rest[k]], bounds[rest[y]]);
      } else if b == k {
        assert rest[x] in rest;
      } else {
        assert r[a] == rest[x] && r[b] == rest[y];
      }
    }
    forall j | 0 <= j < |r| ensures r[j] < |bounds| {
      if j > 0 { assert r[j - 1] < |bounds|; }
      if j < k { assert r[j] == rest[j]; }
      if j > k { assert r[j] == rest[j - 1]; }
    }
  }

  lemma Spliced(rest: seq<nat>, k: nat, x: nat)
    requires k <= |rest|
    ensures var r := rest[..k] + [x] + rest[k..];
            && |r| == |rest| + 1 && r[k] == x
            && (forall j :: 0 <= j < k ==> r[j] == rest[j])
            && (forall j :: k < j < |r| ==> r[j] == rest[j - 1])
            && (forall y :: y in r <==> y == x || y in rest)
  {
    assert rest == rest[..k] + rest[k..];
  }

  // Every layout once, by descending bound.
  lemma {:induction false} SearchOrderSorted(bounds: seq<Option<real>>, n: nat)
    requires n <= |bounds|
    ensures Descending(bounds, SearchOrder(bounds, n)) && Distinct(SearchOrder(bounds, n))
    ensures forall i: nat :: i in SearchOrder(bounds, n) <==> i < n
  {
    if n > 0 {
      hide Descending, Distinct, Rank;
      SearchOrderSorted(bounds, n - 1);
      var rest, r := SearchOrder(bounds, n - 1), SearchOrder(bounds, n);
      var k := Rank(bounds, n - 1, rest);
      Spliced(rest, k, n - 1);
      InsertedAtRank(bounds, n - 1, rest, k, r);
    } else {
      hide Rank;
    }
  }

  // ----- First batches

  function Ceil(x: real): int { -((-x).Floor) }

  // The quanta of requests at which passing the SLO matches a per-GPU rate.
  function MatchingQuanta(l: Layout, rate: real, slo: real): real {
    rate * l.gpus as real * slo / NS_PER_S / Quantum(l.entry) as real
  }

  // Where passing the SLO matches the anchor's rate, within the first point's
  // cap; a layout that only ran its default first point replays it.
  function FirstBatch(c: Case, i: nat, anchorRate: real): int
    requires i < |c.layouts|
  {
    var l := c.layouts[i];
    var q := Quantum(l.entry);
    var matching := q * Ceil(MatchingQuanta(l, anchorRate, c.slo));
    var cap := Rounded(FIRST_POINT_MAX_BATCH as real, q);
    var threshold := if cap < matching then cap else matching;
    var default := DefaultFirstBatch(l.entry);
    if threshold !in l.rows && default in l.rows then default else threshold
  }

  lemma ThresholdOnGrid(x: PosReal, cap: int, q: Pos)
    requires OnGrid(cap, q)
    ensures var matching := q * Ceil(x); OnGrid(if cap < matching then cap else matching, q)
  {
    var k := Ceil(x);
    assert k >= 1;
    MultiplyOrdered(1, k, q);
    ProductIsMultiple(k, q);
    assert q * k == k * q;
  }

  lemma CapOnGrid(q: Pos)
    ensures OnGrid(Rounded(FIRST_POINT_MAX_BATCH as real, q), q)
  {
    RoundedFacts(FIRST_POINT_MAX_BATCH as real, q);
  }

  lemma FirstBatchOnGrid(c: Case, i: nat, anchorRate: real)
    requires i < |c.layouts| && anchorRate > 0.0
    ensures OnGrid(FirstBatch(c, i, anchorRate), Quantum(c.layouts[i].entry))
  {
    var l := c.layouts[i];
    var q := Quantum(l.entry);
    CapOnGrid(q);
    DefaultOnGrid(l.entry);
    PositiveQuotient(anchorRate, l.gpus as real, c.slo, q as real);
    assert MatchingQuanta(l, anchorRate, c.slo) > 0.0;
    hide Rounded, Ceil, DefaultFirstBatch, Quantum, OnGrid, MatchingQuanta;
    ThresholdOnGrid(MatchingQuanta(l, anchorRate, c.slo), Rounded(FIRST_POINT_MAX_BATCH as real, q), q);
  }

  lemma PositiveQuotient(a: PosReal, g: PosReal, slo: PosReal, q: PosReal)
    ensures a * g * slo / NS_PER_S / q > 0.0
  {
    assert a * g > 0.0;
    assert a * g * slo > 0.0;
  }

  lemma DefaultOnGrid(entry: Entry)
    ensures OnGrid(DefaultFirstBatch(entry), Quantum(entry))
  {
    RoundedFacts(MinReal(entry.candidateBatch as real / 2.0, FIRST_POINT_MAX_BATCH as real), Quantum(entry));
  }

  // ----- Phases

  function AnchorSearch(c: Case, i: nat): Search
    requires i < |c.layouts|
  {
    SearchOf(c, i, DefaultFirstBatch(c.layouts[i].entry), NoPruner)
  }

  function RateSearch(c: Case, i: nat, anchorRate: real, incumbent: real, floor: Option<real>): Search
    requires i < |c.layouts|
  {
    SearchOf(c, i, FirstBatch(c, i, anchorRate), RatePruner(c.layouts[i].gpus, incumbent, floor))
  }

  function RateAt(c: Case, plans: seq<LayoutPlan>, i: nat): real
    requires i < |plans| == |c.layouts|
  {
    PassingRate(PointsAt(plans, i), c.slo, c.layouts[i].gpus)
  }

  // Layouts are searched unpruned, in order, up to the anchor: the first that waits for a run or passes.
  predicate AnchorPhase(c: Case, order: seq<nat>, settled: nat, plans: seq<LayoutPlan>, anchorRate: real)
    requires Indices(|c.layouts|, order)
  {
    && |plans| == |c.layouts| && settled <= |order|
    && (forall k :: 0 <= k < settled ==>
        plans[order[k]].Planned? && IsPlan(AnchorSearch(c, order[k]), plans[order[k]].plan))
    && (forall k :: settled <= k < |order| ==> plans[order[k]].AwaitsAnchor?)
    && (forall k :: 0 <= k < settled - 1 ==> !plans[order[k]].plan.Next? && RateAt(c, plans, order[k]) <= 0.0)
    && (settled == 0 ==> anchorRate == 0.0 && order == [])
    && (settled > 0 ==> anchorRate == RateAt(c, plans, order[settled - 1]))
    && (settled < |order| ==> plans[order[settled - 1]].plan.Next? || anchorRate > 0.0)
  }

  predicate AnchorWaits(order: seq<nat>, settled: nat, plans: seq<LayoutPlan>)
    requires settled <= |order| && forall k :: 0 <= k < |order| ==> order[k] < |plans|
  {
    settled > 0 && plans[order[settled - 1]].Planned? && plans[order[settled - 1]].plan.Next?
  }

  function Later(order: seq<nat>, settled: nat, plans: seq<LayoutPlan>): seq<nat>
    requires settled <= |order| && forall k :: 0 <= k < |order| ==> order[k] < |plans|
  {
    if AnchorWaits(order, settled, plans) then [] else order[settled..]
  }

  function MeasurementsAt(c: Case, plans: seq<LayoutPlan>, chosen: seq<nat>): (m: seq<Measurement>)
    requires |plans| == |c.layouts| && PositiveAt(plans) && Indices(|c.layouts|, chosen)
    ensures forall x :: x in m ==> PositiveBatches(x.points)
  {
    seq(|chosen|, k requires 0 <= k < |chosen| => Measurement(c.layouts[chosen[k]].entry, PointsAt(plans, chosen[k])))
  }

  function AllIndices(n: nat): (r: seq<nat>)
    ensures |r| == n && forall k :: 0 <= k < n ==> r[k] == k
  {
    seq(n, k requires 0 <= k < n => k)
  }

  function Rates(c: Case, plans: seq<LayoutPlan>): (r: seq<real>)
    requires |plans| == |c.layouts|
    ensures |r| == |plans| && forall i :: 0 <= i < |r| ==> r[i] == RateAt(c, plans, i)
  {
    seq(|plans|, i requires 0 <= i < |plans| => RateAt(c, plans, i))
  }

  // One pass over the later layouts, except a holder, under one incumbent.
  predicate LaterPass(c: Case, later: seq<nat>, anchorRate: real, incumbent: real, floor: Option<real>,
                      holder: Option<nat>, before: seq<LayoutPlan>, after: seq<LayoutPlan>)
    requires Indices(|c.layouts|, later)
  {
    && |before| == |after| == |c.layouts|
    && forall i :: 0 <= i < |after| ==>
         if i in later && holder != Some(i)
         then after[i].Planned? && IsPlan(RateSearch(c, i, anchorRate, incumbent, floor), after[i].plan)
         else after[i] == before[i]
  }

  function FloorAt(c: Case, plans: seq<LayoutPlan>, chosen: seq<nat>): Option<real>
    requires |plans| == |c.layouts| && PositiveAt(plans) && Indices(|c.layouts|, chosen)
  {
    SlopeFloor(MeasurementsAt(c, plans, chosen), c.slo)
  }

  // The anchor's rate prunes on a first pass over the later layouts.
  predicate FirstPass(c: Case, r: CasePlan, anchored: seq<LayoutPlan>, once: seq<LayoutPlan>)
    requires Indices(|c.layouts|, r.order) && r.settled <= |r.order|
    requires |anchored| == |c.layouts| && PositiveAt(anchored)
  {
    LaterPass(c, Later(r.order, r.settled, anchored), r.anchorRate, r.anchorRate,
              FloorAt(c, anchored, r.order[..r.settled]), None, anchored, once)
  }

  // The best passing rate any layout reached then prunes every later layout but the one that holds it.
  predicate SecondPass(c: Case, r: CasePlan, anchored: seq<LayoutPlan>, once: seq<LayoutPlan>)
    requires Indices(|c.layouts|, r.order) && r.settled <= |r.order|
    requires |anchored| == |once| == |c.layouts| && PositiveAt(once)
  {
    && r.incumbent == MaxOrZero(Rates(c, once))
    && LaterPass(c, Later(r.order, r.settled, anchored), r.anchorRate, r.incumbent,
                 FloorAt(c, once, AllIndices(|once|)), HolderOf(c, once), once, r.layouts)
  }

  predicate CaseShape(c: Case, r: CasePlan, anchored: seq<LayoutPlan>, once: seq<LayoutPlan>) {
    && Indices(|c.layouts|, r.order) && r.settled <= |r.order|
    && |anchored| == |once| == |c.layouts| && PositiveAt(anchored) && PositiveAt(once)
  }

  predicate CasePhases(c: Case, r: CasePlan, anchored: seq<LayoutPlan>, once: seq<LayoutPlan>) {
    && CaseShape(c, r, anchored, once)
    && r.order == SearchOrder(BypassBounds(c), |c.layouts|)
    && AnchorPhase(c, r.order, r.settled, anchored, r.anchorRate)
    && FirstPass(c, r, anchored, once)
    && SecondPass(c, r, anchored, once)
  }

  function HolderOf(c: Case, plans: seq<LayoutPlan>): (h: Option<nat>)
    requires |plans| == |c.layouts|
    ensures |plans| > 0 ==> h.Some? && h.value < |plans| && RateAt(c, plans, h.value) == MaxOrZero(Rates(c, plans))
  {
    if plans == [] then None else Some(IndexOf(Rates(c, plans), MaxOrZero(Rates(c, plans))))
  }

  lemma UpdatePositive(plans: seq<LayoutPlan>, i: nat, plan: Plan)
    requires i < |plans| && PositiveAt(plans) && PositiveBatches(PlanPoints(plan))
    ensures PositiveAt(plans[i := Planned(plan)])
  {
    hide PositiveBatches;
    var updated := plans[i := Planned(plan)];
    forall k | 0 <= k < |plans|
      ensures PositiveBatches(PointsAt(updated, k))
    {
      assert PositiveBatches(PointsAt(plans, k));
    }
  }

  lemma NoneMeasured(n: nat)
    ensures PositiveAt(seq(n, _ => AwaitsAnchor))
  {}

  lemma AnchorPlanPositive(c: Case, i: nat, plan: Plan)
    requires i < |c.layouts| && IsPlan(AnchorSearch(c, i), plan)
    ensures PositiveBatches(PlanPoints(plan))
  {
    hide IsPlan;
    DefaultOnGrid(c.layouts[i].entry);
    PlanPointsOnGrid(AnchorSearch(c, i), plan);
  }

  lemma LaterPlanPositive(c: Case, i: nat, anchorRate: real, incumbent: real, floor: Option<real>, plan: Plan)
    requires i < |c.layouts| && anchorRate > 0.0 && IsPlan(RateSearch(c, i, anchorRate, incumbent, floor), plan)
    ensures PositiveBatches(PlanPoints(plan))
  {
    hide IsPlan;
    FirstBatchOnGrid(c, i, anchorRate);
    PlanPointsOnGrid(RateSearch(c, i, anchorRate, incumbent, floor), plan);
  }

  // Layouts searched before any passed: none waits, none has a passing point.
  predicate AnchorPrefix(c: Case, order: seq<nat>, settled: nat, plans: seq<LayoutPlan>)
    requires Indices(|c.layouts|, order)
  {
    && |plans| == |c.layouts| && settled <= |order|
    && (forall k :: 0 <= k < settled ==>
        plans[order[k]].Planned? && IsPlan(AnchorSearch(c, order[k]), plans[order[k]].plan))
    && (forall k :: settled <= k < |order| ==> plans[order[k]].AwaitsAnchor?)
  }

  predicate NonePassed(c: Case, order: seq<nat>, settled: nat, plans: seq<LayoutPlan>)
    requires Indices(|c.layouts|, order) && |plans| == |c.layouts| && settled <= |order|
  {
    forall k :: 0 <= k < settled ==>
      plans[order[k]].Planned? && !plans[order[k]].plan.Next? && RateAt(c, plans, order[k]) <= 0.0
  }

  lemma AnchorSnoc(c: Case, order: seq<nat>, settled: nat, plans: seq<LayoutPlan>, plan: Plan)
    requires Indices(|c.layouts|, order) && Distinct(order) && settled < |order|
    requires AnchorPrefix(c, order, settled, plans) && NonePassed(c, order, settled, plans)
    requires IsPlan(AnchorSearch(c, order[settled]), plan)
    ensures var updated := plans[order[settled] := Planned(plan)];
            && AnchorPrefix(c, order, settled + 1, updated) && NonePassed(c, order, settled, updated)
            && RateAt(c, updated, order[settled]) == PassingRate(PlanPoints(plan), c.slo,
                                                                 c.layouts[order[settled]].gpus)
  {
    hide IsPlan, PassingRate, PlanPoints, AnchorSearch;
    var updated := plans[order[settled] := Planned(plan)];
    forall k | 0 <= k < |order| && k != settled
      ensures updated[order[k]] == plans[order[k]] && RateAt(c, updated, order[k]) == RateAt(c, plans, order[k])
    {
      if k < settled { assert order[k] != order[settled]; } else { assert order[settled] != order[k]; }
    }
  }

  lemma AnchorDone(c: Case, order: seq<nat>, settled: nat, plans: seq<LayoutPlan>, anchorRate: real)
    requires Indices(|c.layouts|, order) && AnchorPrefix(c, order, settled, plans)
    requires settled > 0 ==> NonePassed(c, order, settled - 1, plans)
    requires if settled == 0 then anchorRate == 0.0
             && order == [] else anchorRate == RateAt(c, plans, order[settled - 1])
    requires 0 < settled < |order| ==> plans[order[settled - 1]].plan.Next? || anchorRate > 0.0
    ensures AnchorPhase(c, order, settled, plans, anchorRate)
  {
    hide IsPlan, RateAt, AnchorSearch;
  }

  method AnchorLayouts(c: Case, order: seq<nat>) returns (plans: seq<LayoutPlan>, settled: nat, anchorRate: real)
    requires order == SearchOrder(BypassBounds(c), |c.layouts|)
    ensures AnchorPhase(c, order, settled, plans, anchorRate) && PositiveAt(plans)
  {
    hide IsPlan, PassingRate, SearchOrder, AnchorSearch, PositiveAt, PlanPoints, BypassBounds, RateAt,
         AnchorPhase, Distinct;
    OrderIndices(c);
    NoneMeasured(|c.layouts|);
    plans := seq(|c.layouts|, _ => AwaitsAnchor);
    settled, anchorRate := 0, 0.0;
    if order == [] { AnchorDone(c, order, settled, plans, anchorRate); }
    while settled < |order|
      invariant settled <= |order| && PositiveAt(plans)
      invariant AnchorPrefix(c, order, settled, plans) && NonePassed(c, order, settled, plans)
      invariant settled == |order| ==> AnchorPhase(c, order, settled, plans, anchorRate)
    {
      var index := order[settled];
      var plan := PlanLayout(AnchorSearch(c, index));
      AnchorPlanPositive(c, index, plan);
      UpdatePositive(plans, index, plan);
      AnchorSnoc(c, order, settled, plans, plan);
      plans := plans[index := Planned(plan)];
      settled := settled + 1;
      anchorRate := PassingRate(PlanPoints(plan), c.slo, c.layouts[index].gpus);
      if plan.Next? || anchorRate > 0.0 || settled == |order| {
        AnchorDone(c, order, settled, plans, anchorRate);
      }
      if plan.Next? || anchorRate > 0.0 {
        break;
      }
    }
  }

  method PassLater(c: Case, later: seq<nat>, anchorRate: real, incumbent: real, floor: Option<real>,
                   holder: Option<nat>, before: seq<LayoutPlan>)
    returns (plans: seq<LayoutPlan>)
    requires Indices(|c.layouts|, later) && Distinct(later) && |before| == |c.layouts| && PositiveAt(before)
    requires later != [] ==> anchorRate > 0.0
    ensures LaterPass(c, later, anchorRate, incumbent, floor, holder, before, plans) && PositiveAt(plans)
  {
    hide IsPlan, FirstBatch, RateSearch, PositiveAt, PlanPoints;
    plans := before;
    for k := 0 to |later|
      invariant |plans| == |before| && PositiveAt(plans)
      invariant forall i :: 0 <= i < |plans| ==>
                  if i in later[..k] && holder != Some(i)
                  then plans[i].Planned? && IsPlan(RateSearch(c, i, anchorRate, incumbent, floor), plans[i].plan)
                  else plans[i] == before[i]
    {
      var index := later[k];
      if holder != Some(index) {
        var plan := PlanLayout(RateSearch(c, index, anchorRate, incumbent, floor));
        LaterPlanPositive(c, index, anchorRate, incumbent, floor, plan);
        UpdatePositive(plans, index, plan);
        plans := plans[index := Planned(plan)];
      }
      assert later[..k + 1] == later[..k] + [index];
    }
    assert later[..|later|] == later;
  }

  // ----- The acceptance run

  predicate AllPlanned(plans: seq<LayoutPlan>) {
    forall i :: 0 <= i < |plans| ==> plans[i].Planned?
  }

  function PlansIn(plans: seq<LayoutPlan>): (r: seq<Plan>)
    requires AllPlanned(plans)
    ensures |r| == |plans| && forall i :: 0 <= i < |r| ==> r[i] == plans[i].plan
  {
    seq(|plans|, i requires 0 <= i < |plans| => plans[i].plan)
  }

  // The runs the planned layouts wait for, in layout order.
  function Requests(plans: seq<LayoutPlan>): (r: seq<(nat, int)>)
    ensures forall x :: x in r ==>
              x.0 < |plans| && plans[x.0].Planned? && plans[x.0].plan == Next(x.1, plans[x.0].plan.runs)
    ensures r == [] ==> forall i :: 0 <= i < |plans| && plans[i].Planned? ==> !plans[i].plan.Next?
    ensures forall i, j :: 0 <= i < j < |r| ==> r[i].0 < r[j].0
  {
    if plans == [] then []
    else
      var k := |plans| - 1;
      var rest := Requests(plans[..k]);
      assert forall i :: 0 <= i < k ==> plans[..k][i] == plans[i];
      if plans[k].Planned? && plans[k].plan.Next? then rest + [(k, plans[k].plan.batch)] else rest
  }

  // A proposed outcome whose rate can be taken.
  predicate Rateable(plan: Plan) {
    && Proposes(plan)
    && (plan.outcome.Interpolated? ==> plan.outcome.predicted > 0.0)
    && (plan.outcome.Limited? ==> MeasuredAt(plan.points, plan.outcome.batch))
  }

  function OutcomeRate(plan: Plan, gpus: Pos): real
    requires Rateable(plan)
  {
    if plan.outcome.Interpolated? then Rate(plan.outcome.batch as real, plan.outcome.predicted, gpus)
    else PointRate(FirstAt(plan.points, plan.outcome.batch), gpus)
  }

  predicate ProposalsRateable(plans: seq<Plan>) {
    forall i :: 0 <= i < |plans| && Proposes(plans[i]) ==> Rateable(plans[i])
  }

  function RateOptions(c: Case, plans: seq<Plan>): (r: seq<Choice>)
    requires |plans| <= |c.layouts| && ProposalsRateable(plans)
    ensures forall x :: x in r ==> RateOptionOf(c, plans, x)
    ensures forall i :: 0 <= i < |plans| && Proposes(plans[i]) ==> exists x :: x in r && x.layout == i
  {
    if plans == [] then []
    else
      var k := |plans| - 1;
      var rest := RateOptions(c, plans[..k]);
      assert forall x :: x in rest ==> RateOptionOf(c, plans[..k], x);
      assert forall i :: 0 <= i < k ==> plans[..k][i] == plans[i];
      if Proposes(plans[k]) then
        var choice := Choice(OutcomeRate(plans[k], c.layouts[k].gpus), k, plans[k].outcome.batch);
        assert (rest + [choice])[|rest|] == choice;
        rest + [choice]
      else rest
  }

  predicate RateOptionOf(c: Case, plans: seq<Plan>, x: Choice)
    requires |plans| <= |c.layouts| && ProposalsRateable(plans)
  {
    && x.layout < |plans| && Proposes(plans[x.layout]) && x.batch == plans[x.layout].outcome.batch
    && x.score == OutcomeRate(plans[x.layout], c.layouts[x.layout].gpus)
  }

  // First batches of the max-batch search: the later layouts keep theirs.
  function MaxBatchFirsts(c: Case, later: seq<nat>, anchorRate: real): (r: seq<int>)
    ensures |r| == |c.layouts|
  {
    seq(|c.layouts|, i requires 0 <= i < |c.layouts| =>
      if i in later then FirstBatch(c, i, anchorRate) else DefaultFirstBatch(c.layouts[i].entry))
  }

  predicate CaseOpen(plans: seq<LayoutPlan>) {
    Requests(plans) != [] || !AllPlanned(plans) || AnyFailed(PlansIn(plans))
  }

  // The best predicted rate gets an acceptance run; once that is answered, the largest batch is searched.
  predicate Decides(c: Case, r: CasePlan, later: seq<nat>, again: seq<Plan>)
    requires |r.layouts| == |c.layouts| && (AllPlanned(r.layouts) ==> ProposalsRateable(PlansIn(r.layouts)))
  {
    if CaseOpen(r.layouts) then r.next == Requests(r.layouts) && r.acceptance.None? && r.maxBatch.None?
    else
      var plans := PlansIn(r.layouts);
      var options := RateOptions(c, plans);
      if options == [] then r.next == [] && r.acceptance.None? && r.maxBatch.None?
      else
        var choice := BestChoice(options);
        var rows, interpolated := c.layouts[choice.layout].rows, plans[choice.layout].outcome.Interpolated?;
        var answered := Answered(rows, choice.batch);
        && r.acceptance == Some(Acceptance(choice, if interpolated
                                           && answered then Some(rows[choice.batch].status) else None))
        && if interpolated && !answered then r.next == [(choice.layout, choice.batch)] && r.maxBatch.None?
           else
             && r.maxBatch.Some? && PositivePlans(plans) && PositivePlans(again)
             && r.next == (if r.maxBatch.value.Returned? then r.maxBatch.value.result.next else [])
             && MaxBatchRan(c, MaxBatchFirsts(c, later, r.anchorRate), plans, again, r.maxBatch.value)
  }

  predicate MaxBatchRan(c: Case, firsts: seq<int>, measured: seq<Plan>, once: seq<Plan>, attempt: Attempt)
    requires |firsts| == |c.layouts| == |measured| && PositivePlans(measured) && PositivePlans(once)
  {
    match attempt
    case Returned(r) =>
      && TwoPasses(c, firsts, measured, once, r.layouts, r.incumbent)
      && !AnyCrashed(once) && !AnyCrashed(r.layouts)
      && |r.layouts| == |c.layouts| && Selects(c, measured, r)
    case Raised(layouts, incumbent) =>
      && TwoPasses(c, firsts, measured, once, layouts, incumbent)
      && (AnyCrashed(once) || AnyCrashed(layouts))
  }

  method Decide(c: Case, order: seq<nat>, settled: nat, layouts: seq<LayoutPlan>, anchorRate: real, incumbent: real,
                later: seq<nat>)
    returns (r: CasePlan, again: seq<Plan>)
    requires |layouts| == |c.layouts| && PositiveAt(layouts)
    requires AllPlanned(layouts) ==> ProposalsRateable(PlansIn(layouts))
    requires Indices(|c.layouts|, later) && (later != [] ==> anchorRate > 0.0)
    ensures r.order == order && r.settled == settled && r.layouts == layouts
    ensures r.anchorRate == anchorRate && r.incumbent == incumbent
    ensures Decides(c, r, later, again)
  {
    hide OutcomeRate, BestChoice, FirstBatch, DefaultFirstBatch, PlanPoints, PositiveBatches, Selects, TwoPasses,
      Answered;
    again := [];
    r := CasePlan(order, settled, layouts, anchorRate, incumbent, Requests(layouts), None, None);
    if CaseOpen(layouts) { return; }
    var plans := PlansIn(layouts);
    var options := RateOptions(c, plans);
    if options == [] { return; }
    var choice := BestChoice(options);
    var rows := c.layouts[choice.layout].rows;
    r := r.(acceptance := Some(Acceptance(choice, None)));
    if plans[choice.layout].outcome.Interpolated? {
      if !Answered(rows, choice.batch) {
        r := r.(next := [(choice.layout, choice.batch)]);
        return;
      }
      AnsweredSaved(rows, choice.batch);
      r := r.(acceptance := Some(Acceptance(choice, Some(rows[choice.batch].status))));
    }
    var firsts := MaxBatchFirsts(c, later, anchorRate);
    MaxBatchFirstsOnGrid(c, later, anchorRate);
    PlansPositive(layouts);
    var attempt;
    attempt, again := MaxBatch(c, firsts, plans);
    LayoutCount(c, firsts, plans, again, attempt);
    r := r.(maxBatch := Some(attempt), next := if attempt.Returned? then attempt.result.next else []);
  }

  lemma AnsweredSaved(rows: map<int, Row>, b: int)
    requires Answered(rows, b)
    ensures b in rows
  {}

  lemma PlansPositive(layouts: seq<LayoutPlan>)
    requires AllPlanned(layouts) && PositiveAt(layouts)
    ensures PositivePlans(PlansIn(layouts))
  {
    forall i | 0 <= i < |layouts|
      ensures PositiveBatches(PlanPoints(PlansIn(layouts)[i]))
    {
      assert PositiveBatches(PointsAt(layouts, i));
    }
  }

  lemma LayoutCount(c: Case, firsts: seq<int>, measured: seq<Plan>, once: seq<Plan>, attempt: Attempt)
    requires |firsts| == |c.layouts| == |measured| && PositivePlans(measured) && PositivePlans(once)
    requires attempt.Returned? ==>
             TwoPasses(c, firsts, measured, once, attempt.result.layouts, attempt.result.incumbent)
    ensures attempt.Returned? ==> |attempt.result.layouts| == |c.layouts|
  {
    hide IsPlan, SlopeFloor, MaxOrZero, IndexOf, PassingBatches;
  }

  lemma MaxBatchFirstsOnGrid(c: Case, later: seq<nat>, anchorRate: real)
    requires Indices(|c.layouts|, later) && (later != [] ==> anchorRate > 0.0)
    ensures FirstsOnGrid(c, MaxBatchFirsts(c, later, anchorRate))
  {
    hide FirstBatch, DefaultFirstBatch, OnGrid, Quantum;
    var firsts := MaxBatchFirsts(c, later, anchorRate);
    forall i | 0 <= i < |firsts|
      ensures OnGrid(firsts[i], Quantum(c.layouts[i].entry))
    {
      if i in later { FirstBatchOnGrid(c, i, anchorRate); } else { DefaultOnGrid(c.layouts[i].entry); }
    }
  }

  lemma SettledRateable(s: Search, plan: Plan)
    requires OnGrid(s.first, s.Q()) && IsPlan(s, plan)
    ensures Proposes(plan) ==> Rateable(plan)
  {
    if Proposes(plan) {
      OutcomeJustified(s, plan);
    }
  }

  // Which search each final plan replays: unpruned up to the anchor, else under a rate pruner.
  predicate PlannedAt(c: Case, r: CasePlan, floors: (Option<real>, Option<real>), i: nat)
    requires i < |c.layouts| == |r.layouts| && r.layouts[i].Planned?
  {
    var plan := r.layouts[i].plan;
    || IsPlan(AnchorSearch(c, i), plan)
    || (r.anchorRate > 0.0 && IsPlan(RateSearch(c, i, r.anchorRate, r.anchorRate, floors.0), plan))
    || (r.anchorRate > 0.0 && IsPlan(RateSearch(c, i, r.anchorRate, r.incumbent, floors.1), plan))
  }

  function Floors(c: Case, r: CasePlan, anchored: seq<LayoutPlan>, once: seq<LayoutPlan>): (Option<real>, Option<real>)
    requires CaseShape(c, r, anchored, once)
  {
    (FloorAt(c, anchored, r.order[..r.settled]), FloorAt(c, once, AllIndices(|once|)))
  }

  // The anchor's rate is positive whenever later layouts are searched.
  lemma LaterHasRate(c: Case, order: seq<nat>, settled: nat, plans: seq<LayoutPlan>, anchorRate: real)
    requires Indices(|c.layouts|, order) && AnchorPhase(c, order, settled, plans, anchorRate)
    ensures Later(order, settled, plans) != [] ==> anchorRate > 0.0
    ensures Indices(|c.layouts|, Later(order, settled, plans))
    ensures Distinct(order) ==> Distinct(Later(order, settled, plans))
  {
    hide IsPlan, RateAt;
  }

  lemma AnchoredIs(c: Case, order: seq<nat>, settled: nat, plans: seq<LayoutPlan>, anchorRate: real, i: nat)
    requires Indices(|c.layouts|, order) && AnchorPhase(c, order, settled, plans, anchorRate)
    requires i < |c.layouts| && i in order && plans[i].Planned?
    ensures IsPlan(AnchorSearch(c, i), plans[i].plan)
  {
    hide IsPlan, RateAt, AnchorSearch;
    var k :| 0 <= k < |order| && order[k] == i;
  }

  lemma FinalPlanned(c: Case, r: CasePlan, anchored: seq<LayoutPlan>, once: seq<LayoutPlan>, i: nat)
    requires CasePhases(c, r, anchored, once) && i < |c.layouts| && |r.layouts| == |c.layouts| && r.layouts[i].Planned?
    ensures PlannedAt(c, r, Floors(c, r, anchored, once), i)
  {
    SearchOrderSorted(BypassBounds(c), |c.layouts|);
    LaterHasRate(c, r.order, r.settled, anchored, r.anchorRate);
    if anchored[i].Planned? { AnchoredIs(c, r.order, r.settled, anchored, r.anchorRate, i); }
    hide IsPlan, FloorAt, AnchorPhase, RateSearch, AnchorSearch, Rates, MaxOrZero, HolderOf, SearchOrder, PositiveAt;
    if i in Later(r.order, r.settled, anchored) {
    } else {
      assert once[i] == anchored[i] && r.layouts[i] == once[i];
    }
  }

  lemma PlannedOnGrid(c: Case, r: CasePlan, floors: (Option<real>, Option<real>), i: nat) returns (s: Search)
    requires i < |c.layouts| == |r.layouts| && r.layouts[i].Planned? && PlannedAt(c, r, floors, i)
    ensures s.entry == c.layouts[i].entry && s.rows == c.layouts[i].rows && s.slo == c.slo && s.caps == c.caps
    ensures OnGrid(s.first, s.Q()) && IsPlan(s, r.layouts[i].plan)
  {
    hide IsPlan, FirstBatch, DefaultFirstBatch, OnGrid;
    DefaultOnGrid(c.layouts[i].entry);
    s := AnchorSearch(c, i);
    if !IsPlan(s, r.layouts[i].plan) {
      FirstBatchOnGrid(c, i, r.anchorRate);
      s := if IsPlan(RateSearch(c, i, r.anchorRate, r.anchorRate, floors.0), r.layouts[i].plan)
           then RateSearch(c, i, r.anchorRate, r.anchorRate, floors.0)
           else RateSearch(c, i, r.anchorRate, r.incumbent, floors.1);
    }
  }

  lemma FinalRateable(c: Case, r: CasePlan, anchored: seq<LayoutPlan>, once: seq<LayoutPlan>)
    requires CasePhases(c, r, anchored, once) && |r.layouts| == |c.layouts| && AllPlanned(r.layouts)
    ensures ProposalsRateable(PlansIn(r.layouts))
  {
    forall i | 0 <= i < |r.layouts|
      ensures Proposes(PlansIn(r.layouts)[i]) ==> Rateable(PlansIn(r.layouts)[i])
    {
      FinalPlanned(c, r, anchored, once, i);
      var s := PlannedOnGrid(c, r, Floors(c, r, anchored, once), i);
      SettledRateable(s, r.layouts[i].plan);
    }
  }

  method PlanCase(c: Case) returns (r: CasePlan, anchored: seq<LayoutPlan>, once: seq<LayoutPlan>, again: seq<Plan>)
    ensures CasePhases(c, r, anchored, once)
    ensures |r.layouts| == |c.layouts| && (AllPlanned(r.layouts) ==> ProposalsRateable(PlansIn(r.layouts)))
    ensures Decides(c, r, Later(r.order, r.settled, anchored), again)
  {
    hide IsPlan, SearchOrder, PositiveAt, Decides, ProposalsRateable, Later, CasePhases;
    OrderIndices(c);
    var order := SearchOrder(BypassBounds(c), |c.layouts|);
    var settled, anchorRate;
    anchored, settled, anchorRate := AnchorLayouts(c, order);
    AnchorShape(c, order, settled, anchored, anchorRate);
    LaterHasRate(c, order, settled, anchored, anchorRate);
    var layouts, incumbent;
    once, layouts, incumbent := PassTwice(c, order, settled, anchored, anchorRate);
    ghost var phases := CasePlan(order, settled, layouts, anchorRate, incumbent, [], None, None);
    if AllPlanned(layouts) { FinalRateable(c, phases, anchored, once); }
    r, again := Decide(c, order, settled, layouts, anchorRate, incumbent, Later(order, settled, anchored));
    SamePhases(c, phases, r, anchored, once);
  }

  lemma OrderIndices(c: Case)
    ensures Indices(|c.layouts|, SearchOrder(BypassBounds(c), |c.layouts|))
    ensures Distinct(SearchOrder(BypassBounds(c), |c.layouts|))
  {
    SearchOrderSorted(BypassBounds(c), |c.layouts|);
    hide SearchOrder, BypassBounds, Descending;
  }

  lemma SamePhases(c: Case, a: CasePlan, b: CasePlan, anchored: seq<LayoutPlan>, once: seq<LayoutPlan>)
    requires CasePhases(c, a, anchored, once) && b.order == a.order && b.settled == a.settled && b.layouts == a.layouts
    requires b.anchorRate == a.anchorRate && b.incumbent == a.incumbent
    ensures CasePhases(c, b, anchored, once)
  {
    hide IsPlan, AnchorPhase, LaterPass, FloorAt, Rates, MaxOrZero, HolderOf, PositiveAt, SearchOrder, BypassBounds;
  }

  // The two rate-pruned passes over the layouts after the anchor.
  method PassTwice(c: Case, order: seq<nat>, settled: nat, anchored: seq<LayoutPlan>, anchorRate: real)
    returns (once: seq<LayoutPlan>, layouts: seq<LayoutPlan>, incumbent: real)
    requires order == SearchOrder(BypassBounds(c), |c.layouts|) && Indices(|c.layouts|, order) && Distinct(order)
    requires AnchorPhase(c, order, settled, anchored, anchorRate) && PositiveAt(anchored)
    ensures CasePhases(c, CasePlan(order, settled, layouts, anchorRate, incumbent, [], None, None), anchored, once)
    ensures |layouts| == |c.layouts| && PositiveAt(layouts)
  {
    hide IsPlan, AnchorPhase, SearchOrder, BypassBounds, LaterPass, PositiveAt, FloorAt, Rates, MaxOrZero, HolderOf,
      Later,
         Distinct;
    AnchorShape(c, order, settled, anchored, anchorRate);
    LaterHasRate(c, order, settled, anchored, anchorRate);
    var later := Later(order, settled, anchored);
    var floor := FloorAt(c, anchored, order[..settled]);
    once := PassLater(c, later, anchorRate, anchorRate, floor, None, anchored);
    PassShape(c, later, anchorRate, anchorRate, floor, None, anchored, once);
    incumbent := MaxOrZero(Rates(c, once));
    var holder := HolderOf(c, once);
    floor := FloorAt(c, once, AllIndices(|once|));
    layouts := PassLater(c, later, anchorRate, incumbent, floor, holder, once);
    PassShape(c, later, anchorRate, incumbent, floor, holder, once, layouts);
  }

  lemma AnchorShape(c: Case, order: seq<nat>, settled: nat, plans: seq<LayoutPlan>, anchorRate: real)
    requires Indices(|c.layouts|, order) && AnchorPhase(c, order, settled, plans, anchorRate)
    ensures |plans| == |c.layouts| && settled <= |order|
  {
    hide IsPlan;
  }

  lemma PassShape(c: Case, later: seq<nat>, anchorRate: real, incumbent: real, floor: Option<real>,
                  holder: Option<nat>, before: seq<LayoutPlan>, after: seq<LayoutPlan>)
    requires Indices(|c.layouts|, later) && LaterPass(c, later, anchorRate, incumbent, floor, holder, before, after)
    ensures |before| == |after| == |c.layouts|
  {
    hide IsPlan;
  }
}
