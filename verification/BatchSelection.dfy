// What the largest-batch search accepts and selects, on its final plans alone.
module BatchSelection {
  import opened Prelude
  import opened RealFacts
  import opened NativeSearch
  import opened NativePlan
  import opened NativeCase
  import opened NativeMaxBatch

  // A settled plan proposes a batch, reaching the incumbent per GPU.
  predicate ReachesIncumbent(plan: Plan, gpus: Pos, incumbent: real, b: int) {
    && plan.Settled?
    && (plan.outcome.Interpolated? || plan.outcome.Limited?) && plan.outcome.batch == b
    && incumbent * gpus as real <= b as real
  }

  predicate Finished(plans: seq<Plan>) {
    forall i :: 0 <= i < |plans| ==> !plans[i].Next? && !plans[i].FailedPlan?
  }

  // No more requests per GPU.
  predicate NotMore(b: int, g: Pos, most: int, h: Pos) { b * h <= most * g }

  lemma PerGpuScore(b: int, g: Pos, x: real)
    ensures x == b as real / g as real <==> x * g as real == b as real
    ensures x <= b as real / g as real <==> x * g as real <= b as real
  {
    var y := b as real / g as real;
    QuotientTimes(b as real, g as real);
    ProductsOrdered(x, y, g as real, x * g as real, y * g as real);
  }

  lemma ScoresOrdered(b: int, g: Pos, most: int, h: Pos)
    ensures var x, y := b as real / g as real, most as real / h as real;
            (x <= y <==> NotMore(b, g, most, h)) && (y <= x <==> NotMore(most, h, b, g))
  {
    var x, y, d, e := b as real / g as real, most as real / h as real, g as real, h as real;
    QuotientTimes(b as real, g as real);
    QuotientTimes(most as real, h as real);
    CrossScores(x, y, d, e, b as real, most as real);
    assert b as real * e == (b * h) as real && most as real * d == (most * g) as real;
  }

  lemma CrossScores(x: real, y: real, d: PosReal, e: PosReal, b: real, most: real)
    requires x * d == b && y * e == most
    ensures (x <= y <==> b * e <= most * d) && (y <= x <==> most * d <= b * e)
  {
    var de: PosReal := d * e;
    assert x * de == x * d * e && y * de == y * e * d;
    ProductsOrdered(x, y, de, x * de, y * de);
  }

  lemma IsOption(c: Case, plans: seq<Plan>, incumbent: real, i: nat, b: int)
    requires i < |plans| <= |c.layouts|
    ensures ReachesIncumbent(plans[i], c.layouts[i].gpus, incumbent, b) <==>
              Proposes(plans[i]) && b == plans[i].outcome.batch && b as real / c.layouts[i].gpus as real >= incumbent
  {
    PerGpuScore(b, c.layouts[i].gpus, incumbent);
  }

  lemma EndedIs(plans: seq<Plan>)
    ensures Finished(plans) <==> Waiting(plans) == [] && !AnyFailed(plans)
  {
    hide Waiting;
  }

  // A batch is accepted exactly when every plan ended without a failed run and
  // one proposes a batch that reaches the incumbent.
  lemma BatchAcceptedWhen(c: Case, measured: seq<Plan>, r: MaxBatchResult)
    requires |measured| == |r.layouts| == |c.layouts| && Selects(c, measured, r)
    ensures r.acceptance.Some? <==>
              && Finished(r.layouts)
              && exists i, b ::
                0 <= i < |r.layouts| && ReachesIncumbent(r.layouts[i], c.layouts[i].gpus, r.incumbent, b)
    ensures !Finished(r.layouts) ==> r.selected.None? && r.next == Waiting(r.layouts)
  {
    EndedIs(r.layouts);
    hide Waiting, AnyFailed, Options, BestChoice, Fallback, Answered, ReachesIncumbent;
    var options := Options(c, r.layouts, r.incumbent);
    if i, b :| 0 <= i < |r.layouts| && ReachesIncumbent(r.layouts[i], c.layouts[i].gpus, r.incumbent, b) {
      IsOption(c, r.layouts, r.incumbent, i, b);
      assert exists x :: x in options && x.layout == i;
    }
    if options != [] {
      var x := options[0];
      assert OptionOf(c, r.layouts, r.incumbent, x);
      IsOption(c, r.layouts, r.incumbent, x.layout, x.batch);
      assert ReachesIncumbent(r.layouts[x.layout], c.layouts[x.layout].gpus, r.incumbent, x.batch);
    }
  }

  lemma AcceptedOption(c: Case, measured: seq<Plan>, r: MaxBatchResult)
    requires |measured| == |r.layouts| == |c.layouts| && Selects(c, measured, r) && r.acceptance.Some?
    ensures Options(c, r.layouts, r.incumbent) != []
    ensures r.acceptance.value.choice == BestChoice(Options(c, r.layouts, r.incumbent))
  {
    hide Waiting, AnyFailed, Options, BestChoice, Fallback, Answered;
  }

  // The accepted batch is the largest per GPU of those, and of equals the last layout's.
  lemma BatchAcceptedIsLargest(c: Case, measured: seq<Plan>, r: MaxBatchResult, i: nat, b: int)
    requires |measured| == |r.layouts| == |c.layouts| && Selects(c, measured, r) && r.acceptance.Some?
    requires i < |r.layouts| && ReachesIncumbent(r.layouts[i], c.layouts[i].gpus, r.incumbent, b)
    ensures var x := r.acceptance.value.choice;
            && x.layout < |r.layouts|
            && var g, h := c.layouts[i].gpus, c.layouts[x.layout].gpus;
               && ReachesIncumbent(r.layouts[x.layout], h, r.incumbent, x.batch)
                 && x.score * h as real == x.batch as real
               && NotMore(b, g, x.batch, h) && (NotMore(x.batch, h, b, g) ==> i <= x.layout)
  {
    hide Selects, Options, BestChoice, ReachesIncumbent, NotMore, Proposes;
    AcceptedOption(c, measured, r);
    IsOption(c, r.layouts, r.incumbent, i, b);
    BestIsOption(c, r.layouts, r.incumbent, i, b);
    var x := r.acceptance.value.choice;
    IsOption(c, r.layouts, r.incumbent, x.layout, x.batch);
    PerGpuScore(x.batch, c.layouts[x.layout].gpus, x.score);
    ScoresOrdered(b, c.layouts[i].gpus, x.batch, c.layouts[x.layout].gpus);
  }

  lemma BestIsOption(c: Case, plans: seq<Plan>, incumbent: real, i: nat, b: int)
    requires i < |plans| <= |c.layouts| && Options(c, plans, incumbent) != []
    requires Proposes(plans[i]) && b == plans[i].outcome.batch && b as real / c.layouts[i].gpus as real >= incumbent
    ensures var x := BestChoice(Options(c, plans, incumbent));
            && OptionOf(c, plans, incumbent, x)
            && b as real / c.layouts[i].gpus as real <= x.score
            && (b as real / c.layouts[i].gpus as real == x.score ==> i <= x.layout)
  {
    hide Options, BestChoice, Proposes;
    var options := Options(c, plans, incumbent);
    var y :| y in options && y.layout == i;
    assert OptionOf(c, plans, incumbent, y);
    assert OptionOf(c, plans, incumbent, BestChoice(options));
  }

  // The accepted batch is selected, with its label, when it is limited or its run
  // completed; while its run is open it is asked for; otherwise, and without one,
  // the best measured point is selected.
  lemma SelectedAs(c: Case, measured: seq<Plan>, r: MaxBatchResult)
    requires |measured| == |r.layouts| == |c.layouts| && Selects(c, measured, r) && Finished(r.layouts)
    ensures r.acceptance.None? ==> r.next == [] && r.selected == Fallback(c, measured, r.layouts)
    ensures r.acceptance.Some? ==>
              var x := r.acceptance.value.choice;
              && x.layout < |r.layouts| && r.layouts[x.layout].Settled?
              && var o, rows := r.layouts[x.layout].outcome, c.layouts[x.layout].rows;
                 if o.Limited? then
                   r.next == [] && r.acceptance.value.status.None? && r.selected == Some(Selected(x, LimitedBy(o.why)))
                 else if x.batch !in rows || rows[x.batch].status == OtherStatus then
                   r.next == [(x.layout, x.batch)] && r.selected.None?
                 else
                   && r.next == [] && r.acceptance.value.status == Some(rows[x.batch].status)
                   && r.selected == if rows[x.batch].status != Completed then Fallback(c, measured, r.layouts)
                                    else if o.Interpolated? && o.settled then Some(Selected(x, BracketPassingEnd))
                                    else Some(Selected(x, SloAccepted))
  {
    EndedIs(r.layouts);
    var options := Options(c, r.layouts, r.incumbent);
    if options != [] {
      var x := BestChoice(options);
      assert OptionOf(c, r.layouts, r.incumbent, x);
      OpenRow(c.layouts[x.layout].rows, x.batch);
    }
    hide Waiting, AnyFailed, Options, BestChoice, Fallback, Answered;
  }

  lemma OpenRow(rows: map<int, Row>, b: int)
    ensures Answered(rows, b) <==> b in rows && rows[b].status != OtherStatus
  {}

  // The best measured point is the largest passing batch per GPU of the
  // throughput plans and the final ones: of equals the last layout's.
  lemma FallbackExactly(c: Case, measured: seq<Plan>, layouts: seq<Plan>)
    requires |measured| <= |c.layouts| && |layouts| <= |c.layouts|
    ensures var s := Fallback(c, measured, layouts);
            && (s.None? <==> forall x :: !PassingChoice(c, measured, x) && !PassingChoice(c, layouts, x))
            && (s.Some? ==>
                && s.value.result == BestMeasuredPoint
                && (PassingChoice(c, measured, s.value.choice) || PassingChoice(c, layouts, s.value.choice))
                && forall x :: PassingChoice(c, measured, x) || PassingChoice(c, layouts, x) ==>
                     x.score < s.value.choice.score
                       || (x.score == s.value.choice.score && x.layout <= s.value.choice.layout))
  {
    hide PassingChoice;
    var choices := PlanChoices(c, measured) + PlanChoices(c, layouts);
    assert forall x :: x in choices <==> PassingChoice(c, measured, x) || PassingChoice(c, layouts, x);
    if choices != [] { assert choices[0] in choices; }
  }
}
