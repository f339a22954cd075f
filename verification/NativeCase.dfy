// plan_case and _max_batch: the branch and bound over every layout of a case.
module NativeCase {
  import opened Prelude
  import opened NativeSearch
  import opened NativeBounds
  import opened SearchFacts
  import opened NativePlan
  import opened PlanFacts

  // A legal layout: its screen entry, its saved rows, and its GPUs per replica.
  datatype Layout = Layout(entry: Entry, rows: map<int, Row>, gpus: Pos)

  datatype Case = Case(layouts: seq<Layout>, slo: PosReal, caps: Caps)

  function SearchOf(c: Case, i: nat, first: int, pruner: Pruner): Search
    requires i < |c.layouts|
  {
    Search(c.layouts[i].entry, c.layouts[i].rows, c.slo, c.caps, first, pruner)
  }

  // The points a plan reports: none while it waits for a run or after a failure.
  function PlanPoints(plan: Plan): seq<Point> {
    match plan
    case Pruned(_, points, _) => points
    case Settled(_, points, _) => points
    case _ => []
  }

  predicate FirstsOnGrid(c: Case, firsts: seq<int>) {
    |firsts| == |c.layouts| && forall i :: 0 <= i < |firsts| ==> OnGrid(firsts[i], Quantum(c.layouts[i].entry))
  }

  lemma PlanPointsOnGrid(s: Search, plan: Plan)
    requires OnGrid(s.first, s.Q()) && IsPlan(s, plan)
    ensures PointsOnGrid(PlanPoints(plan), s.Q()) && PositiveBatches(PlanPoints(plan))
  {
    hide Ask, VerdictAt, Grows, FinalOutcome, RunsSound;
    ReplaySound(s, plan.runs);
    GridOfRuns(s, plan.runs);
  }

  lemma GridOfRuns(s: Search, runs: seq<Run>)
    requires Recorded(s.rows, runs) && RunsSound(runs, s.Q())
    ensures PointsOnGrid(PointsOf(s.rows, runs), s.Q())
  {
    PointsFollowRuns(s.rows, runs, s.Q());
  }

  // ----- Passing points

  function PassingRates(points: seq<Point>, slo: real, gpus: Pos): (r: seq<real>)
    ensures forall x :: x in r <==> exists p :: p in points && Within(p, slo) && PointRate(p, gpus) == x
  {
    if points == [] then []
    else
      var init, last := points[..|points| - 1], points[|points| - 1];
      assert forall p :: p in points <==> p in init || p == last;
      var rest := PassingRates(init, slo, gpus);
      if Within(last, slo) then rest + [PointRate(last, gpus)] else rest
  }

  function PerGpuBatch(p: Point, gpus: Pos): real { p.batch as real / gpus as real }

  function PassingPerGpu(points: seq<Point>, slo: real, gpus: Pos): (r: seq<real>)
    ensures forall x :: x in r <==> exists p :: p in points && Within(p, slo) && PerGpuBatch(p, gpus) == x
  {
    if points == [] then []
    else
      var init, last := points[..|points| - 1], points[|points| - 1];
      assert forall p :: p in points <==> p in init || p == last;
      var rest := PassingPerGpu(init, slo, gpus);
      if Within(last, slo) then rest + [PerGpuBatch(last, gpus)] else rest
  }

  // Python's max with default 0.
  function MaxOrZero(s: seq<real>): (m: real)
    ensures s == [] ==> m == 0.0
    ensures s != [] ==> m in s && forall x :: x in s ==> x <= m
  {
    if s == [] then 0.0
    else if |s| == 1 then s[0]
    else
      var init, last := s[..|s| - 1], s[|s| - 1];
      assert s == init + [last];
      var rest := MaxOrZero(init);
      if rest < last then last else rest
  }

  function IndexOf(s: seq<real>, x: real): (i: nat)
    requires x in s
    ensures i < |s| && s[i] == x && forall k :: 0 <= k < i ==> s[k] != x
  {
    if s[0] == x then 0
    else
      assert x in s[1..];
      1 + IndexOf(s[1..], x)
  }

  function PassingRate(points: seq<Point>, slo: real, gpus: Pos): real { MaxOrZero(PassingRates(points, slo, gpus)) }

  function PassingBatch(points: seq<Point>, slo: real, gpus: Pos): real { MaxOrZero(PassingPerGpu(points, slo, gpus)) }

  // ----- The slope floor of a case's plans

  predicate PositivePlans(plans: seq<Plan>) {
    forall i :: 0 <= i < |plans| ==> PositiveBatches(PlanPoints(plans[i]))
  }

  function Measurements(c: Case, plans: seq<Plan>): (m: seq<Measurement>)
    requires |plans| <= |c.layouts| && PositivePlans(plans)
    ensures forall x :: x in m ==> PositiveBatches(x.points)
  {
    seq(|plans|, i requires 0 <= i < |plans| => Measurement(c.layouts[i].entry, PlanPoints(plans[i])))
  }

  // ----- Acceptance

  datatype Choice = Choice(score: real, layout: nat, batch: int)

  // Python's order of (score, layout, batch) tuples.
  predicate Lesser(a: Choice, b: Choice) {
    || a.score < b.score
    || (a.score == b.score && (a.layout < b.layout || (a.layout == b.layout && a.batch < b.batch)))
  }

  function BestChoice(s: seq<Choice>): (m: Choice)
    requires s != []
    ensures m in s && forall x :: x in s ==> x.score <= m.score
    ensures forall x :: x in s && x.score == m.score ==>
              x.layout < m.layout || (x.layout == m.layout && x.batch <= m.batch)
  {
    if |s| == 1 then s[0]
    else
      var init, last := s[..|s| - 1], s[|s| - 1];
      assert s == init + [last];
      var rest := BestChoice(init);
      if Lesser(rest, last) then last else rest
  }

  predicate Proposes(plan: Plan) {
    plan.Settled? && (plan.outcome.Interpolated? || plan.outcome.Limited?)
  }

  datatype Acceptance = Acceptance(choice: Choice, status: Option<Status>)

  // The runs a case still waits for, in layout order.
  function Waiting(plans: seq<Plan>): (r: seq<(nat, int)>)
    ensures r == [] <==> forall i :: 0 <= i < |plans| ==> !plans[i].Next?
    ensures forall x :: x in r ==> x.0 < |plans| && plans[x.0] == Next(x.1, plans[x.0].runs)
    ensures forall i, j :: 0 <= i < j < |r| ==> r[i].0 < r[j].0
  {
    if plans == [] then []
    else
      var k := |plans| - 1;
      var rest := Waiting(plans[..k]);
      assert forall i :: 0 <= i < k ==> plans[..k][i] == plans[i];
      if plans[k].Next? then rest + [(k, plans[k].batch)] else rest
  }

  predicate AnyFailed(plans: seq<Plan>) {
    exists i :: 0 <= i < |plans| && plans[i].FailedPlan?
  }
}
