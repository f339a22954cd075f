// The selected batch is optimal among what was measured and what the bounds excluded.
module MaxBatchFacts {
  import opened Prelude
  import opened RealFacts
  import opened NativeSearch
  import opened NativeBounds
  import opened SearchFacts
  import opened NativePlan
  import opened PlanOutcomes
  import opened PruningSoundness
  import opened NativeCase
  import opened NativeMaxBatch

  lemma PassingPointCounts(c: Case, plans: seq<Plan>, x: Choice)
    requires |plans| <= |c.layouts| && PassingChoice(c, plans, x)
    ensures x.score <= MaxOrZero(PassingBatches(c, plans))
  {
    var p :| p in PlanPoints(plans[x.layout]) && Within(p, c.slo) && p.batch == x.batch;
    var perGpu := PassingPerGpu(PlanPoints(plans[x.layout]), c.slo, c.layouts[x.layout].gpus);
    assert PerGpuBatch(p, c.layouts[x.layout].gpus) in perGpu;
    var batches := PassingBatches(c, plans);
    assert batches[x.layout] in batches;
  }

  // A positive best passing batch belongs to a measured passing point.
  lemma BestIsMeasured(c: Case, plans: seq<Plan>)
    requires |plans| <= |c.layouts| && MaxOrZero(PassingBatches(c, plans)) != 0.0
    ensures var batches := PassingBatches(c, plans);
            var best := MaxOrZero(batches);
            best in batches && exists x ::
              PassingChoice(c, plans, x) && x.score == best && x.layout == IndexOf(batches, best)
  {
    var batches := PassingBatches(c, plans);
    var best := MaxOrZero(batches);
    assert batches != [];
    var i := IndexOf(batches, best);
    var perGpu := PassingPerGpu(PlanPoints(plans[i]), c.slo, c.layouts[i].gpus);
    assert best == MaxOrZero(perGpu);
    var p :| p in PlanPoints(plans[i]) && Within(p, c.slo) && PerGpuBatch(p, c.layouts[i].gpus) == best;
    assert PassingChoice(c, plans, Choice(best, i, p.batch));
  }

  lemma PassingChoicePositive(c: Case, plans: seq<Plan>, x: Choice)
    requires |plans| <= |c.layouts| && PositivePlans(plans) && PassingChoice(c, plans, x)
    ensures x.score > 0.0
  {}

  lemma MeasuredNonnegative(c: Case, plans: seq<Plan>)
    requires |plans| <= |c.layouts| && PositivePlans(plans)
    ensures MaxOrZero(PassingBatches(c, plans)) >= 0.0
  {
    hide PassingChoice, PassingBatches, MaxOrZero, IndexOf;
    if MaxOrZero(PassingBatches(c, plans)) != 0.0 {
      BestIsMeasured(c, plans);
      var x :| PassingChoice(c, plans, x) && x.score == MaxOrZero(PassingBatches(c, plans));
      PassingChoicePositive(c, plans, x);
    }
  }

  // The incumbent of the two passes bounds every point measured before and on
  // the first pass, and a positive one is a passing point still on record.
  lemma IncumbentFacts(c: Case, firsts: seq<int>, measured: seq<Plan>, once: seq<Plan>, layouts: seq<Plan>,
                       incumbent: real)
    requires |firsts| == |c.layouts| == |measured| && PositivePlans(measured) && PositivePlans(once)
    requires TwoPasses(c, firsts, measured, once, layouts, incumbent)
    ensures |once| == |layouts| == |c.layouts| && incumbent >= 0.0
    ensures forall x :: PassingChoice(c, measured, x) || PassingChoice(c, once, x) ==> x.score <= incumbent
    ensures incumbent > 0.0 ==> exists x :: (PassingChoice(c, measured, x)
                                             || PassingChoice(c, layouts, x)) && x.score == incumbent
  {
    hide IsPlan, SlopeFloor, MaxOrZero, PassingBatches, IndexOf, PassingChoice;
    var seed, best := MaxOrZero(PassingBatches(c, measured)), MaxOrZero(PassingBatches(c, once));
    MeasuredNonnegative(c, measured);
    forall x | PassingChoice(c, measured, x) ensures x.score <= seed { PassingPointCounts(c, measured, x); }
    forall x | PassingChoice(c, once, x) ensures x.score <= best { PassingPointCounts(c, once, x); }
    if best > seed {
      BestIsMeasured(c, once);
      var holder := IndexOf(PassingBatches(c, once), best);
      var x :| PassingChoice(c, once, x) && x.score == best && x.layout == holder;
      assert layouts[holder] == once[holder];
      SamePlanSameChoice(c, once, layouts, x);
    } else if seed > 0.0 {
      BestIsMeasured(c, measured);
    }
  }

  lemma SamePlanSameChoice(c: Case, a: seq<Plan>, b: seq<Plan>, x: Choice)
    requires |a| == |b| <= |c.layouts| && PassingChoice(c, a, x) && a[x.layout] == b[x.layout]
    ensures PassingChoice(c, b, x)
  {}

  // The selected batch per GPU is at least the incumbent, so at least every
  // passing point that seeded it or was measured on the first pass.
  lemma SelectedDominates(c: Case, firsts: seq<int>, measured: seq<Plan>, once: seq<Plan>, r: MaxBatchResult)
    requires |firsts| == |c.layouts| == |measured| && PositivePlans(measured) && PositivePlans(once)
    requires TwoPasses(c, firsts, measured, once, r.layouts, r.incumbent) && |r.layouts| == |c.layouts|
    requires PositivePlans(r.layouts)
    requires Selects(c, measured, r) && r.selected.Some?
    ensures r.selected.value.choice.score >= r.incumbent
    ensures forall x :: PassingChoice(c, measured, x) || PassingChoice(c, once, x) ==>
              x.score <= r.selected.value.choice.score
  {
    hide IsPlan, TwoPasses, PassingChoice, PositivePlans, Selects, Fallback;
    IncumbentFacts(c, firsts, measured, once, r.layouts, r.incumbent);
    if r.selected == Fallback(c, measured, r.layouts) {
      FallbackDominates(c, measured, r);
    } else {
      OptionDominates(c, measured, r);
    }
  }

  lemma FallbackDominates(c: Case, measured: seq<Plan>, r: MaxBatchResult)
    requires |measured| == |r.layouts| == |c.layouts| && PositivePlans(measured) && PositivePlans(r.layouts)
    requires r.selected.Some? && r.selected == Fallback(c, measured, r.layouts)
    requires r.incumbent > 0.0 ==>
               exists x :: (PassingChoice(c, measured, x) || PassingChoice(c, r.layouts, x)) && x.score == r.incumbent
    ensures r.selected.value.choice.score >= r.incumbent
  {
    hide PassingChoice, PositivePlans;
    var choice := r.selected.value.choice;
    var choices := PlanChoices(c, measured) + PlanChoices(c, r.layouts);
    assert choice == BestChoice(choices);
    assert PassingChoice(c, measured, choice) || PassingChoice(c, r.layouts, choice);
    if r.incumbent > 0.0 {
      var x :| (PassingChoice(c, measured, x) || PassingChoice(c, r.layouts, x)) && x.score == r.incumbent;
      assert x in choices;
    } else if PassingChoice(c, measured, choice) {
      PassingChoicePositive(c, measured, choice);
    } else {
      PassingChoicePositive(c, r.layouts, choice);
    }
  }

  lemma OptionDominates(c: Case, measured: seq<Plan>, r: MaxBatchResult)
    requires |measured| == |r.layouts| == |c.layouts| && Selects(c, measured, r)
    requires r.selected.Some? && r.selected != Fallback(c, measured, r.layouts)
    ensures r.selected.value.choice.score >= r.incumbent
  {
    hide Fallback, Answered;
    var options := Options(c, r.layouts, r.incumbent);
    var choice := r.selected.value.choice;
    assert choice == BestChoice(options);
    assert OptionOf(c, r.layouts, r.incumbent, choice);
  }

  // Without requests or failures nothing is selected only if no measured point passes.
  lemma NothingSelected(c: Case, measured: seq<Plan>, r: MaxBatchResult)
    requires |measured| == |r.layouts| == |c.layouts| && Selects(c, measured, r)
    requires r.next == [] && !AnyFailed(r.layouts) && r.selected.None?
    ensures forall x :: !PassingChoice(c, measured, x) && !PassingChoice(c, r.layouts, x)
  {
    hide PassingChoice, Answered;
    var choices := PlanChoices(c, measured) + PlanChoices(c, r.layouts);
    assert choices == [];
    forall x
      ensures !PassingChoice(c, measured, x) && !PassingChoice(c, r.layouts, x)
    {
      assert x !in choices;
    }
  }

  // ----- Pruned layouts

  // The documented assumptions about one layout's native behaviour, for the runs and points its plan ended with.
  ghost predicate Behaves(n: Native, entry: Entry, slo: real, floor: Option<real>, runs: seq<Run>, points: seq<Point>) {
    && EstimateUnderUpper(n) && AboveLine(n, entry, BYPASS_TPOT_FLOOR) && RejectionsBind(n, runs)
    && MeasuredFrom(n, points) && CapacityBinds(n, entry, points) && BatchMarginHolds(n, points, slo)
    && (floor.Some? ==> SlopeHolds(n, points, entry, slo, floor.value))
  }

  lemma PrunedPlanExcludes(c: Case, i: nat, first: int, incumbent: real, floor: Option<real>, plan: Plan, n: Native,
                           b: int)
    requires i < |c.layouts| && IsPlan(BatchSearch(c, i, first, incumbent, floor), plan) && plan.Pruned?
    requires Behaves(n, c.layouts[i].entry, c.slo, floor, plan.runs, plan.points) && n.Passes(b, c.slo)
    ensures b as real / c.layouts[i].gpus as real <= incumbent
  {
    PrunedVerdict(BatchSearch(c, i, first, incumbent, floor), plan);
    hide IsPlan, BatchVerdict;
    BatchPruneSound(n, c.layouts[i].entry, c.slo, c.layouts[i].gpus, incumbent, floor, plan.runs, plan.points, b);
  }

  lemma PrunedVerdict(s: Search, plan: Plan)
    requires IsPlan(s, plan) && plan.Pruned?
    ensures VerdictOf(s.pruner, s.entry, s.slo, plan.runs, plan.points) == Drop(plan.why)
  {
    hide Ask, VerdictOf, Grows;
  }

  // The slope floor a final plan was made under: the first pass's for the
  // layout that holds the best batch, and for all when no second pass was made.
  function FinalFloor(c: Case, measured: seq<Plan>, once: seq<Plan>, i: nat): Option<real>
    requires |measured| == |once| == |c.layouts| && PositivePlans(measured) && PositivePlans(once)
  {
    var batches := PassingBatches(c, once);
    var best := MaxOrZero(batches);
    if best > MaxOrZero(PassingBatches(c, measured)) && (batches == [] || i != IndexOf(batches, best))
    then SlopeFloor(Measurements(c, measured) + Measurements(c, once), c.slo)
    else SlopeFloor(Measurements(c, measured), c.slo)
  }

  // No batch within the SLO of a pruned layout exceeds the incumbent per GPU,
  // under the assumptions at the floor its plan was made under.
  lemma PrunedLayoutsExcluded(c: Case, firsts: seq<int>, measured: seq<Plan>, once: seq<Plan>, r: MaxBatchResult,
                              i: nat, n: Native, b: int)
    requires |firsts| == |c.layouts| == |measured| && PositivePlans(measured) && PositivePlans(once)
    requires TwoPasses(c, firsts, measured, once, r.layouts, r.incumbent) && |r.layouts| == |c.layouts|
    requires i < |c.layouts| && r.layouts[i].Pruned? && n.Passes(b, c.slo)
    requires Behaves(n, c.layouts[i].entry, c.slo, FinalFloor(c, measured, once, i), r.layouts[i].runs,
                     r.layouts[i].points)
    ensures b as real / c.layouts[i].gpus as real <= r.incumbent
  {
    hide IsPlan, SlopeFloor, MaxOrZero, PassingBatches, IndexOf, Behaves;
    var seed, best := MaxOrZero(PassingBatches(c, measured)), MaxOrZero(PassingBatches(c, once));
    if best > seed && i != IndexOf(PassingBatches(c, once), best) {
      var late := SlopeFloor(Measurements(c, measured) + Measurements(c, once), c.slo);
      PrunedPlanExcludes(c, i, firsts[i], best, late, r.layouts[i], n, b);
    } else {
      var early := SlopeFloor(Measurements(c, measured), c.slo);
      PrunedPlanExcludes(c, i, firsts[i], seed, early, r.layouts[i], n, b);
    }
  }

  // ----- The selected batch passes

  // Saved, on the grid, and measured within the SLO, or else completed as an acceptance run.
  predicate KnownToPass(l: Layout, slo: real, b: int) {
    && OnGrid(b, Quantum(l.entry)) && b in l.rows
    && if Classify(l.rows[b]).Measured? then l.rows[b].bounds.value.upper <= slo else l.rows[b].status.Completed?
  }

  lemma PointKnownToPass(s: Search, plan: Plan, p: Point, gpus: Pos)
    requires OnGrid(s.first, s.Q()) && IsPlan(s, plan) && p in PlanPoints(plan) && Within(p, s.slo)
    ensures KnownToPass(Layout(s.entry, s.rows, gpus), s.slo, p.batch)
  {
    PlanPointsOnGrid(s, plan);
    PointsAreRows(s, plan);
    PointsWereMeasured(s, plan, p);
  }

  lemma PointsWereMeasured(s: Search, plan: Plan, p: Point)
    requires IsPlan(s, plan) && p in PlanPoints(plan)
    ensures p.batch in s.rows && Classify(s.rows[p.batch]).Measured?
  {
    hide Ask, VerdictAt, Grows, FinalOutcome;
    PointIsRun(s.rows, plan.runs, p);
  }

  lemma PointsAreRows(s: Search, plan: Plan)
    requires IsPlan(s, plan)
    ensures forall p :: p in PlanPoints(plan) ==>
              p.batch in s.rows && s.rows[p.batch].bounds.Some? && p == PointAt(p.batch, s.rows[p.batch])
  {
    hide Ask, VerdictAt, Grows, FinalOutcome;
  }

  lemma ProposalKnownToPass(s: Search, plan: Plan, gpus: Pos)
    requires OnGrid(s.first, s.Q()) && IsPlan(s, plan) && Proposes(plan)
    requires plan.outcome.batch in s.rows && (plan.outcome.Interpolated? ==>
                                              s.rows[plan.outcome.batch].status.Completed?)
    ensures KnownToPass(Layout(s.entry, s.rows, gpus), s.slo, plan.outcome.batch)
  {
    OutcomeJustified(s, plan);
    if plan.outcome.Interpolated? {
      AcceptedWithinSlo(s, plan);
      hide IsPlan;
    } else {
      hide IsPlan;
      var p :| p in plan.points && p.batch == plan.outcome.batch && Within(p, s.slo);
      PointKnownToPass(s, plan, p, gpus);
    }
  }

  // Each plan replays its own layout's rows from a batch on the grid.
  predicate PlansOf(c: Case, searches: seq<Search>, plans: seq<Plan>) {
    && |searches| == |plans| == |c.layouts|
    && forall i :: 0 <= i < |plans| ==>
         && searches[i].entry == c.layouts[i].entry && searches[i].rows == c.layouts[i].rows && searches[i].slo == c.slo
         && OnGrid(searches[i].first, searches[i].Q()) && IsPlan(searches[i], plans[i])
  }

  lemma PassingChoiceKnown(c: Case, searches: seq<Search>, plans: seq<Plan>, x: Choice)
    requires PlansOf(c, searches, plans) && PassingChoice(c, plans, x)
    ensures x.layout < |c.layouts| && KnownToPass(c.layouts[x.layout], c.slo, x.batch)
  {
    var p :| p in PlanPoints(plans[x.layout]) && Within(p, c.slo) && p.batch == x.batch;
    hide IsPlan;
    PointKnownToPass(searches[x.layout], plans[x.layout], p, c.layouts[x.layout].gpus);
  }

  // The searches behind the final plans of the two passes.
  lemma FinalSearches(c: Case, firsts: seq<int>, measured: seq<Plan>, once: seq<Plan>, layouts: seq<Plan>,
                      incumbent: real)
    returns (searches: seq<Search>)
    requires FirstsOnGrid(c, firsts) && |measured| == |c.layouts| && PositivePlans(measured) && PositivePlans(once)
    requires TwoPasses(c, firsts, measured, once, layouts, incumbent)
    ensures PlansOf(c, searches, layouts)
  {
    hide IsPlan, SlopeFloor, MaxOrZero, PassingBatches, IndexOf;
    var seed, best := MaxOrZero(PassingBatches(c, measured)), MaxOrZero(PassingBatches(c, once));
    var early := SlopeFloor(Measurements(c, measured), c.slo);
    var late := SlopeFloor(Measurements(c, measured) + Measurements(c, once), c.slo);
    searches := seq(|c.layouts|, i requires 0 <= i < |c.layouts| =>
      if IsPlan(BatchSearch(c, i, firsts[i], seed, early), layouts[i])
      then BatchSearch(c, i, firsts[i], seed, early) else BatchSearch(c, i, firsts[i], best, late));
  }

  // Whatever is selected is a saved batch on the grid, measured within the SLO
  // or completed as the acceptance run.
  lemma SelectedPasses(c: Case, firsts: seq<int>, measured: seq<Plan>, sources: seq<Search>, once: seq<Plan>,
                       r: MaxBatchResult)
    requires FirstsOnGrid(c, firsts) && PlansOf(c, sources, measured) && PositivePlans(measured) && PositivePlans(once)
    requires TwoPasses(c, firsts, measured, once, r.layouts, r.incumbent) && |r.layouts| == |c.layouts|
    requires Selects(c, measured, r) && r.selected.Some?
    ensures var choice := r.selected.value.choice;
            choice.layout < |c.layouts| && KnownToPass(c.layouts[choice.layout], c.slo, choice.batch)
  {
    var searches := FinalSearches(c, firsts, measured, once, r.layouts, r.incumbent);
    SelectedKnown(c, measured, sources, r, searches);
  }

  lemma SelectedKnown(c: Case, measured: seq<Plan>, sources: seq<Search>, r: MaxBatchResult, searches: seq<Search>)
    requires PlansOf(c, sources, measured) && PlansOf(c, searches, r.layouts)
    requires Selects(c, measured, r) && r.selected.Some?
    ensures var choice := r.selected.value.choice;
            choice.layout < |c.layouts| && KnownToPass(c.layouts[choice.layout], c.slo, choice.batch)
  {
    hide IsPlan, PassingChoice, KnownToPass;
    var choice := r.selected.value.choice;
    var options := Options(c, r.layouts, r.incumbent);
    if r.selected == Fallback(c, measured, r.layouts) {
      var choices := PlanChoices(c, measured) + PlanChoices(c, r.layouts);
      assert choice in choices;
      if PassingChoice(c, measured, choice) {
        PassingChoiceKnown(c, sources, measured, choice);
      } else {
        PassingChoiceKnown(c, searches, r.layouts, choice);
      }
    } else {
      assert OptionOf(c, r.layouts, r.incumbent, choice);
      var plan := r.layouts[choice.layout];
      ChosenSaved(c, searches, r, choice);
      var s, l := searches[choice.layout], c.layouts[choice.layout];
      assert Layout(s.entry, s.rows, l.gpus) == l;
      ProposalKnownToPass(s, plan, l.gpus);
    }
  }

  lemma ChosenSaved(c: Case, searches: seq<Search>, r: MaxBatchResult, choice: Choice)
    requires PlansOf(c, searches, r.layouts) && OptionOf(c, r.layouts, r.incumbent, choice)
    requires r.layouts[choice.layout].outcome.Limited? || choice.batch in c.layouts[choice.layout].rows
    ensures choice.batch in c.layouts[choice.layout].rows
  {
    var s, plan := searches[choice.layout], r.layouts[choice.layout];
    if plan.outcome.Limited? {
      OutcomeJustified(s, plan);
      PointsAreRows(s, plan);
      hide IsPlan, PlansOf;
      var p :| p in plan.points && p.batch == plan.outcome.batch && Within(p, s.slo);
      assert p in PlanPoints(plan);
    }
  }

  // ----- When nothing is selected

  // Whatever a settled plan proposes, some measured point of it passes.
  lemma ProposedPoint(s: Search, plan: Plan) returns (p: Point)
    requires OnGrid(s.first, s.Q()) && IsPlan(s, plan) && Proposes(plan)
    ensures p in PlanPoints(plan) && Within(p, s.slo)
  {
    OutcomeJustified(s, plan);
    hide IsPlan;
    p :| p in plan.points && Within(p, s.slo);
  }

  lemma ProposalHasPassing(c: Case, searches: seq<Search>, plans: seq<Plan>, i: nat) returns (x: Choice)
    requires PlansOf(c, searches, plans) && i < |plans| && Proposes(plans[i])
    ensures PassingChoice(c, plans, x)
  {
    hide IsPlan, OnGrid, PlanPoints, Proposes;
    var p := ProposedPoint(searches[i], plans[i]);
    x := Choice(PerGpuBatch(p, c.layouts[i].gpus), i, p.batch);
  }

  lemma NoOptions(c: Case, plans: seq<Plan>, incumbent: real)
    requires |plans| <= |c.layouts| && forall i :: 0 <= i < |plans| ==> !Proposes(plans[i])
    ensures Options(c, plans, incumbent) == []
  {
    var options := Options(c, plans, incumbent);
    assert forall x :: x in options ==> OptionOf(c, plans, incumbent, x);
    assert forall x :: x !in options;
  }

  // A settled search without requests or failures selects nothing exactly when
  // no layout proposes a batch and no measured point passes.
  lemma SettledSelects(c: Case, measured: seq<Plan>, searches: seq<Search>, r: MaxBatchResult)
    requires |measured| == |c.layouts| && PlansOf(c, searches, r.layouts) && Selects(c, measured, r)
    requires r.next == [] && !AnyFailed(r.layouts)
    ensures r.selected.None? <==>
              && (forall i :: 0 <= i < |r.layouts| ==> !Proposes(r.layouts[i]))
              && (forall x :: !PassingChoice(c, measured, x) && !PassingChoice(c, r.layouts, x))
  {
    if r.selected.None? {
      NothingSelected(c, measured, r);
      forall i | 0 <= i < |r.layouts| ensures !Proposes(r.layouts[i]) {
        if Proposes(r.layouts[i]) { var x := ProposalHasPassing(c, searches, r.layouts, i); }
      }
    }
    hide PassingChoice, Answered, PlansOf;
    var options, choices := Options(c, r.layouts, r.incumbent), PlanChoices(c, measured) + PlanChoices(c, r.layouts);
    if forall i :: 0 <= i < |r.layouts| ==> !Proposes(r.layouts[i]) {
      NoOptions(c, r.layouts, r.incumbent);
    }
    if choices != [] {
      assert choices[0] in choices;
      assert PassingChoice(c, measured, choices[0]) || PassingChoice(c, r.layouts, choices[0]);
    }
  }

  // ----- The selection is the best of everything measured

  // Whatever was measured could run.
  ghost predicate Ran(n: Native, points: seq<Point>) {
    forall p :: p in points ==> n.feasible(p.batch)
  }

  // Final plans with nondecreasing TPOT bounds where they settled, and native
  // behaviours that meet the assumptions where they were pruned.
  ghost predicate FinalAssumptions(c: Case, measured: seq<Plan>, once: seq<Plan>, layouts: seq<Plan>,
                                   natives: seq<Native>)
    requires |measured| == |once| == |c.layouts| && PositivePlans(measured) && PositivePlans(once)
  {
    && |layouts| == |natives| == |c.layouts|
    && (forall i :: 0 <= i < |layouts| && layouts[i].Settled? ==> Nondecreasing(layouts[i].points))
    && (forall i :: 0 <= i < |layouts| && layouts[i].Pruned? ==>
          && Behaves(natives[i], c.layouts[i].entry, c.slo, FinalFloor(c, measured, once, i), layouts[i].runs,
                     layouts[i].points)
          && Ran(natives[i], layouts[i].points))
  }

  // The selected batch per GPU is at least every passing measured point: of
  // the plans before, of the first pass, and of the final layouts.
  lemma SelectedIsBest(c: Case, firsts: seq<int>, measured: seq<Plan>, once: seq<Plan>, r: MaxBatchResult,
                       natives: seq<Native>)
    requires FirstsOnGrid(c, firsts) && |measured| == |c.layouts| && PositivePlans(measured) && PositivePlans(once)
    requires TwoPasses(c, firsts, measured, once, r.layouts, r.incumbent) && PositivePlans(r.layouts)
    requires |once| == |r.layouts| == |c.layouts| && Selects(c, measured, r) && r.selected.Some?
    requires FinalAssumptions(c, measured, once, r.layouts, natives)
    ensures forall x :: PassingChoice(c, measured, x) || PassingChoice(c, once, x) || PassingChoice(c, r.layouts, x) ==>
              x.score <= r.selected.value.choice.score
  {
    SelectedDominates(c, firsts, measured, once, r);
    var searches := FinalSearches(c, firsts, measured, once, r.layouts, r.incumbent);
    forall x | PassingChoice(c, r.layouts, x) ensures x.score <= r.selected.value.choice.score {
      if r.layouts[x.layout].Pruned? {
        PrunedChoice(c, firsts, measured, once, r, natives, x);
      } else {
        SettledChoice(c, measured, searches, r, x);
      }
    }
  }

  lemma PrunedChoice(c: Case, firsts: seq<int>, measured: seq<Plan>, once: seq<Plan>, r: MaxBatchResult,
                     natives: seq<Native>,
                     x: Choice)
    requires |firsts| == |measured| == |c.layouts| && PositivePlans(measured) && PositivePlans(once)
    requires TwoPasses(c, firsts, measured, once, r.layouts, r.incumbent) && PositivePlans(r.layouts)
    requires |once| == |r.layouts| == |c.layouts| && FinalAssumptions(c, measured, once, r.layouts, natives)
    requires PassingChoice(c, r.layouts, x) && r.layouts[x.layout].Pruned?
    ensures x.score <= r.incumbent
  {
    hide TwoPasses, FinalFloor;
    var n, plan := natives[x.layout], r.layouts[x.layout];
    var p :| p in PlanPoints(plan) && Within(p, c.slo) && p.batch == x.batch;
    assert MeasuredFrom(n, plan.points) && n.upper(p.batch) == p.upper;
    PrunedLayoutsExcluded(c, firsts, measured, once, r, x.layout, n, x.batch);
  }

  lemma SettledChoice(c: Case, measured: seq<Plan>, searches: seq<Search>, r: MaxBatchResult, x: Choice)
    requires |measured| == |r.layouts| == |c.layouts| && PlansOf(c, searches, r.layouts) && Selects(c, measured, r)
             && r.selected.Some?
    requires x.layout < |r.layouts| && PassingChoice(c, r.layouts, x) && !r.layouts[x.layout].Pruned?
    requires r.layouts[x.layout].Settled? ==> Nondecreasing(r.layouts[x.layout].points)
    requires r.selected.value.choice.score >= r.incumbent
    ensures x.score <= r.selected.value.choice.score
  {
    hide PassingChoice, Nondecreasing, PlansOf, OnGrid, PlanPoints, Selects, Fallback, Proposes;
    PassingDominated(c, searches, r, x);
    if r.selected == Fallback(c, measured, r.layouts) {
      FallbackIsBest(c, measured, r, x);
    } else {
      BestOption(c, measured, r, x.layout);
    }
  }

  lemma FallbackIsBest(c: Case, measured: seq<Plan>, r: MaxBatchResult, x: Choice)
    requires |measured| == |r.layouts| == |c.layouts| && PassingChoice(c, r.layouts, x)
    requires r.selected.Some? && r.selected == Fallback(c, measured, r.layouts)
    ensures x.score <= r.selected.value.choice.score
  {
    hide PassingChoice;
    assert x in PlanChoices(c, measured) + PlanChoices(c, r.layouts);
  }

  lemma BestOption(c: Case, measured: seq<Plan>, r: MaxBatchResult, i: nat)
    requires |measured| == |r.layouts| == |c.layouts| && Selects(c, measured, r)
    requires r.selected.Some? && r.selected != Fallback(c, measured, r.layouts)
    requires i < |r.layouts| && Proposes(r.layouts[i]) && r.selected.value.choice.score >= r.incumbent
    ensures r.layouts[i].outcome.batch as real / c.layouts[i].gpus as real <= r.selected.value.choice.score
  {
    hide Fallback, Answered;
    var options := Options(c, r.layouts, r.incumbent);
    assert r.selected.value.choice == BestChoice(options);
    if r.layouts[i].outcome.batch as real / c.layouts[i].gpus as real >= r.incumbent {
      var y :| y in options && y.layout == i;
      assert OptionOf(c, r.layouts, r.incumbent, y);
    }
  }

  // A passing measured point lies at or under what its settled plan proposes.
  lemma PassingDominated(c: Case, searches: seq<Search>, r: MaxBatchResult, x: Choice)
    requires PlansOf(c, searches, r.layouts) && PassingChoice(c, r.layouts, x) && !r.layouts[x.layout].Pruned?
    requires r.layouts[x.layout].Settled? ==> Nondecreasing(r.layouts[x.layout].points)
    ensures Proposes(r.layouts[x.layout])
    ensures x.score <= r.layouts[x.layout].outcome.batch as real / c.layouts[x.layout].gpus as real
  {
    hide IsPlan, OnGrid, Nondecreasing;
    var plan, gpus: PosReal := r.layouts[x.layout], c.layouts[x.layout].gpus as real;
    var p :| p in PlanPoints(plan) && Within(p, c.slo) && p.batch == x.batch;
    SettledDominates(searches[x.layout], plan, p);
    QuotientTimes(x.batch as real, gpus);
    QuotientAtLeast(plan.outcome.batch as real, gpus, x.score, x.score * gpus);
  }
}
