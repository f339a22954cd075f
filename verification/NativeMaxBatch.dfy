// _max_batch: the largest per-GPU batch any layout runs within the SLO.
module NativeMaxBatch {
  import opened Prelude
  import opened NativeSearch
  import opened NativeBounds
  import opened SearchFacts
  import opened NativePlan
  import opened NativeCase

  datatype Verdicted = SloAccepted | BracketPassingEnd | LimitedBy(why: Label) | BestMeasuredPoint

  datatype Selected = Selected(choice: Choice, result: Verdicted)

  datatype MaxBatchResult = MaxBatchResult(layouts: seq<Plan>, next: seq<(nat, int)>, incumbent: real,
                                           acceptance: Option<Acceptance>, selected: Option<Selected>)

  // Raised: a pruner had no limit to take a minimum of.
  datatype Attempt = Raised(layouts: seq<Plan>, incumbent: real) | Returned(result: MaxBatchResult)

  function BatchSearch(c: Case, i: nat, first: int, incumbent: real, floor: Option<real>): Search
    requires i < |c.layouts|
  {
    SearchOf(c, i, first, BatchPruner(c.layouts[i].gpus, incumbent, floor))
  }

  function PassingBatches(c: Case, plans: seq<Plan>): (r: seq<real>)
    requires |plans| <= |c.layouts|
    ensures |r| == |plans|
  {
    seq(|plans|, i requires 0 <= i < |plans| => PassingBatch(PlanPoints(plans[i]), c.slo, c.layouts[i].gpus))
  }

  // Every layout's plan under one incumbent, except a kept holder.
  predicate PassOver(c: Case, firsts: seq<int>, incumbent: real, floor: Option<real>,
                     kept: seq<Plan>, holder: Option<nat>, plans: seq<Plan>)
    requires |firsts| == |c.layouts|
  {
    && |plans| == |c.layouts|
    && (holder.Some? ==> holder.value < |kept| == |plans|)
    && forall i :: 0 <= i < |plans| ==>
         if holder == Some(i) then plans[i] == kept[i]
         else IsPlan(BatchSearch(c, i, firsts[i], incumbent, floor), plans[i])
  }

  // The measured plans' best passing batch prunes first; a better one that any
  // layout then reaches prunes every other layout again.
  predicate TwoPasses(c: Case, firsts: seq<int>, measured: seq<Plan>, once: seq<Plan>, layouts: seq<Plan>,
                      incumbent: real)
    requires |firsts| == |c.layouts| == |measured| && PositivePlans(measured) && PositivePlans(once)
  {
    var seed := MaxOrZero(PassingBatches(c, measured));
    && PassOver(c, firsts, seed, SlopeFloor(Measurements(c, measured), c.slo), [], None, once)
    && var batches := PassingBatches(c, once);
       var best := MaxOrZero(batches);
       if best > seed then
         && incumbent == best
         && PassOver(c, firsts, best, SlopeFloor(Measurements(c, measured) + Measurements(c, once), c.slo),
                     once, Some(IndexOf(batches, best)), layouts)
       else incumbent == seed && layouts == once
  }

  // Settled outcomes at or above the incumbent.
  function Options(c: Case, plans: seq<Plan>, incumbent: real): (r: seq<Choice>)
    requires |plans| <= |c.layouts|
    ensures forall x :: x in r ==> OptionOf(c, plans, incumbent, x)
    ensures forall i :: 0 <= i < |plans| && Proposes(plans[i])
                        && plans[i].outcome.batch as real / c.layouts[i].gpus as real >= incumbent ==>
                          exists x :: x in r && x.layout == i
  {
    if plans == [] then []
    else
      var k := |plans| - 1;
      var rest := Options(c, plans[..k], incumbent);
      assert forall x :: x in rest ==> OptionOf(c, plans[..k], incumbent, x);
      assert forall i :: 0 <= i < k ==> plans[..k][i] == plans[i];
      if Proposes(plans[k]) && plans[k].outcome.batch as real / c.layouts[k].gpus as real >= incumbent then
        var choice := Choice(plans[k].outcome.batch as real / c.layouts[k].gpus as real, k, plans[k].outcome.batch);
        assert (rest + [choice])[|rest|] == choice;
        rest + [choice]
      else rest
  }

  predicate OptionOf(c: Case, plans: seq<Plan>, incumbent: real, x: Choice)
    requires |plans| <= |c.layouts|
  {
    && x.layout < |plans| && Proposes(plans[x.layout]) && x.batch == plans[x.layout].outcome.batch
    && x.score == x.batch as real / c.layouts[x.layout].gpus as real && x.score >= incumbent
  }

  // A measured passing point of some plan.
  predicate PassingChoice(c: Case, plans: seq<Plan>, x: Choice)
    requires |plans| <= |c.layouts|
  {
    && x.layout < |plans| && x.score == x.batch as real / c.layouts[x.layout].gpus as real
    && exists p :: p in PlanPoints(plans[x.layout]) && Within(p, c.slo) && p.batch == x.batch
  }

  function PointChoices(points: seq<Point>, slo: real, layout: nat, gpus: Pos): (r: seq<Choice>)
    ensures forall x :: x in r <==> && x.layout == layout && x.score == x.batch as real / gpus as real
                                    && exists p :: p in points && Within(p, slo) && p.batch == x.batch
  {
    if points == [] then []
    else
      var init, last := points[..|points| - 1], points[|points| - 1];
      assert forall p :: p in points <==> p in init || p == last;
      var rest := PointChoices(init, slo, layout, gpus);
      if Within(last, slo) then rest + [Choice(PerGpuBatch(last, gpus), layout, last.batch)] else rest
  }

  function PlanChoices(c: Case, plans: seq<Plan>): (r: seq<Choice>)
    requires |plans| <= |c.layouts|
    ensures forall x :: x in r <==> PassingChoice(c, plans, x)
  {
    if plans == [] then []
    else
      var k := |plans| - 1;
      var rest := PlanChoices(c, plans[..k]);
      assert forall x :: PassingChoice(c, plans, x) <==>
                           PassingChoice(c, plans[..k], x)
                           || x in PointChoices(PlanPoints(plans[k]), c.slo, k, c.layouts[k].gpus);
      rest + PointChoices(PlanPoints(plans[k]), c.slo, k, c.layouts[k].gpus)
  }

  // What a settled case selects: the best option once accepted, else the best measured passing point.
  predicate Selects(c: Case, measured: seq<Plan>, r: MaxBatchResult)
    requires |measured| == |r.layouts| == |c.layouts|
  {
    var waiting, options := Waiting(r.layouts), Options(c, r.layouts, r.incumbent);
    if waiting != [] || AnyFailed(r.layouts) then
      r.next == waiting && r.acceptance.None? && r.selected.None?
    else if options == [] then
      r.next == [] && r.acceptance.None? && r.selected == Fallback(c, measured, r.layouts)
    else
      var choice := BestChoice(options);
      var outcome, rows := r.layouts[choice.layout].outcome, c.layouts[choice.layout].rows;
      if outcome.Limited? then
        r.next == [] && r.acceptance == Some(Acceptance(choice, None))
          && r.selected == Some(Selected(choice, LimitedBy(outcome.why)))
      else if !Answered(rows, choice.batch) then
        r.next == [(choice.layout, choice.batch)] && r.acceptance == Some(Acceptance(choice, None)) && r.selected.None?
      else
        var status := rows[choice.batch].status;
        && r.next == [] && r.acceptance == Some(Acceptance(choice, Some(status)))
        && r.selected == if status.Completed?
                         then Some(Selected(choice, if outcome.settled then BracketPassingEnd else SloAccepted))
                         else Fallback(c, measured, r.layouts)
  }

  function Fallback(c: Case, measured: seq<Plan>, layouts: seq<Plan>): Option<Selected>
    requires |measured| <= |c.layouts| && |layouts| <= |c.layouts|
  {
    var choices := PlanChoices(c, measured) + PlanChoices(c, layouts);
    if choices == [] then None else Some(Selected(BestChoice(choices), BestMeasuredPoint))
  }

  method Planned(c: Case, firsts: seq<int>, incumbent: real, floor: Option<real>, kept: seq<Plan>, holder: Option<nat>)
    returns (plans: seq<Plan>)
    requires FirstsOnGrid(c, firsts) && (holder.Some? ==> holder.value < |kept| == |c.layouts|) && PositivePlans(kept)
    ensures PassOver(c, firsts, incumbent, floor, kept, holder, plans) && PositivePlans(plans)
  {
    hide IsPlan;
    plans := [];
    for index := 0 to |c.layouts|
      invariant |plans| == index
      invariant PositivePlans(plans)
      invariant forall i :: 0 <= i < index ==>
                  if holder == Some(i) then plans[i] == kept[i]
                  else IsPlan(BatchSearch(c, i, firsts[i], incumbent, floor), plans[i])
    {
      var plan;
      if holder == Some(index) {
        plan := kept[index];
      } else {
        var s := BatchSearch(c, index, firsts[index], incumbent, floor);
        plan := PlanLayout(s);
        PlanPointsOnGrid(s, plan);
      }
      plans := plans + [plan];
    }
  }

  predicate AnyCrashed(plans: seq<Plan>) {
    exists i :: 0 <= i < |plans| && plans[i].Crashed?
  }

  // The acceptance run and the selection from the final plans.
  method Settle(c: Case, measured: seq<Plan>, layouts: seq<Plan>, incumbent: real) returns (result: MaxBatchResult)
    requires |measured| == |layouts| == |c.layouts|
    ensures result.layouts == layouts && result.incumbent == incumbent
    ensures Selects(c, measured, result)
  {
    result := MaxBatchResult(layouts, Waiting(layouts), incumbent, None, None);
    if result.next != [] || AnyFailed(layouts) {
      return;
    }
    var options := Options(c, layouts, incumbent);
    if options != [] {
      var choice := BestChoice(options);
      var outcome, rows := layouts[choice.layout].outcome, c.layouts[choice.layout].rows;
      result := result.(acceptance := Some(Acceptance(choice, None)));
      if outcome.Interpolated? {
        if !Answered(rows, choice.batch) {
          return result.(next := [(choice.layout, choice.batch)]);
        }
        result := result.(acceptance := Some(Acceptance(choice, Some(rows[choice.batch].status))));
      }
      if outcome.Limited? || rows[choice.batch].status.Completed? {
        var why := if outcome.Limited? then LimitedBy(outcome.why) else if outcome.settled then BracketPassingEnd
          else SloAccepted;
        return result.(selected := Some(Selected(choice, why)));
      }
    }
    return result.(selected := Fallback(c, measured, layouts));
  }

  method MaxBatch(c: Case, firsts: seq<int>, measured: seq<Plan>) returns (attempt: Attempt, once: seq<Plan>)
    requires FirstsOnGrid(c, firsts) && |measured| == |c.layouts| && PositivePlans(measured)
    ensures PositivePlans(once)
    ensures match attempt
            case Returned(r) =>
              && TwoPasses(c, firsts, measured, once, r.layouts, r.incumbent)
              && !AnyCrashed(once) && !AnyCrashed(r.layouts)
              && Selects(c, measured, r)
            case Raised(layouts, incumbent) =>
              && TwoPasses(c, firsts, measured, once, layouts, incumbent)
              && (AnyCrashed(once) || AnyCrashed(layouts))
  {
    hide IsPlan, Options, BestChoice, Selects, SlopeFloor, PassingBatches, MaxOrZero, IndexOf;
    var incumbent := MaxOrZero(PassingBatches(c, measured));
    once := Planned(c, firsts, incumbent, SlopeFloor(Measurements(c, measured), c.slo), [], None);
    var layouts := once;
    var batches := PassingBatches(c, once);
    if MaxOrZero(batches) > incumbent {
      incumbent := MaxOrZero(batches);
      var holder := IndexOf(batches, incumbent);
      layouts := Planned(c, firsts, incumbent, SlopeFloor(Measurements(c, measured) + Measurements(c, once), c.slo),
                         once, Some(holder));
    }
    if AnyCrashed(once) || AnyCrashed(layouts) {
      return Raised(layouts, incumbent), once;
    }
    var result := Settle(c, measured, layouts, incumbent);
    return Returned(result), once;
  }
}
