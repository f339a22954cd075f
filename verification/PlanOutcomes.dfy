// Every settled outcome is justified by measured points, and acceptance runs converge.
module PlanOutcomes {
  import opened Prelude
  import opened RealFacts
  import opened NativeSearch
  import opened QuantumFacts
  import opened SearchFacts
  import opened NativePlan
  import opened PlanFacts

  predicate Between(x: real, a: real, b: real) {
    (a <= x <= b) || (b <= x <= a)
  }

  lemma ChordBetween(a: real, b: real, part: real, whole: PosReal)
    requires 0.0 <= part <= whole
    ensures Between(a + (b - a) * part / whole, a, b)
  {
    var d := b - a;
    var t := d * part / whole;
    QuotientAtMost(d * part, whole, d, d * whole);
    QuotientAtMost(d * part, whole, 0.0, 0.0);
    QuotientAtLeast(d * part, whole, d, d * whole);
    if d >= 0.0 {
      assert d * part >= 0.0 && d * (whole - part) >= 0.0;
      assert d * (whole - part) == d * whole - d * part;
    } else {
      assert (-d) * part >= 0.0 && (-d) * (whole - part) >= 0.0;
      assert (-d) * (whole - part) == d * part - d * whole;
    }
  }

  // A passing and a failing measured point straddle the batch, and the
  // predicted TPOT lies between their estimates.
  predicate InterpolationJustified(points: seq<Point>, runs: seq<Run>, slo: real, q: Pos, o: Outcome)
    requires o.Interpolated?
  {
    exists low, high :: low in points && high in points && IsBracket(points, slo, low, high)
      && o.low == low.batch && o.high == high.batch
      && OnGrid(o.batch, q) && low.batch <= o.batch < high.batch
      && BelowTooBig(runs, o.batch)
      && Between(o.predicted, low.tpot, high.tpot)
      && (o.settled ==> o.batch == low.batch && o.predicted == low.tpot)
  }

  predicate PassesAt(points: seq<Point>, slo: real, b: int) {
    exists p :: p in points && p.batch == b && Within(p, slo)
  }

  // Every measured point passes, at or under this batch.
  predicate AllUpTo(points: seq<Point>, slo: real, b: int) {
    forall p :: p in points ==> Within(p, slo) && p.batch <= b
  }

  // The passing end of the bracket.
  predicate PassingEnd(points: seq<Point>, slo: real, b: int) {
    exists low, high :: low in points && high in points && IsBracket(points, slo, low, high) && low.batch == b
  }

  predicate SomeFails(points: seq<Point>, slo: real) {
    exists p :: p in points && !Within(p, slo)
  }

  predicate Justified(points: seq<Point>, runs: seq<Run>, slo: real, q: Pos, o: Outcome) {
    match o
    case Interpolated(_, _, _, _, _) => InterpolationJustified(points, runs, slo, q, o)
    case Limited(_, b) => PassesAt(points, slo, b) && (AllUpTo(points, slo, b) || PassingEnd(points, slo, b))
    case NoNativeMeasurement(_) => points == []
    case SloUnreachable(b) => b == q && Unbracketed(points, slo) && MeasuredAt(points, q) && !PassesAt(points, slo, q)
    case NoPassingPoint => Unbracketed(points, slo) && SomeFails(points, slo) && !MeasuredAt(points, q)
  }

  // The predicted TPOT is on the bracket's chord.
  lemma PredictedBetween(entry: Entry, runs: seq<Run>, points: seq<Point>, slo: real, caps: Caps, low: Point,
                         high: Point)
    requires Functional(points) && Bracket(points, slo) == Some((low, high))
    ensures var o := OutcomeOf(entry, runs, points, slo, caps);
            o.Interpolated? && low.batch <= o.batch < high.batch ==> Between(o.predicted, low.tpot, high.tpot)
  {
    hide LimitOf, InterpolatedBatch, Bracket, Between, Functional;
    var o := OutcomeOf(entry, runs, points, slo, caps);
    if o.Interpolated? && low.batch <= o.batch < high.batch {
      ChordBetween(low.tpot, high.tpot, (o.batch - low.batch) as real, (high.batch - low.batch) as real);
    }
  }

  lemma BracketOutcomeLimited(entry: Entry, runs: seq<Run>, points: seq<Point>, slo: real, caps: Caps)
    requires Functional(points) && Bracket(points, slo).Some?
    ensures var o := OutcomeOf(entry, runs, points, slo, caps);
            !o.Interpolated? ==> o.Limited? && o.batch == Bracket(points, slo).value.0.batch
  {
    hide LimitOf, InterpolatedBatch, Bracket, Functional;
  }

  lemma BracketOutcomeJustified(entry: Entry, runs: seq<Run>, points: seq<Point>, slo: real, caps: Caps)
    requires Functional(points) && PointsOnGrid(points, Quantum(entry)) && Bracket(points, slo).Some?
    ensures Justified(points, runs, slo, Quantum(entry), OutcomeOf(entry, runs, points, slo, caps))
  {
    hide OutcomeOf, Bracket, IsBracket, Between, OnGrid, BelowTooBig, Functional;
    BracketFacts(points, slo);
    InterpolatedUnderTooBig(entry, runs, points, slo, caps);
    OutcomeOnGrid(entry, runs, points, slo, caps);
    BracketOutcomeLimited(entry, runs, points, slo, caps);
    var (low, high) := Bracket(points, slo).value;
    PredictedBetween(entry, runs, points, slo, caps, low, high);
    PassingLow(points, slo, low, high);
  }

  lemma PassingLow(points: seq<Point>, slo: real, low: Point, high: Point)
    requires IsBracket(points, slo, low, high)
    ensures low in points && high in points && PassesAt(points, slo, low.batch) && PassingEnd(points, slo, low.batch)
  {
    assert Within(low, slo);
  }

  lemma UnbracketedOutcomeJustified(entry: Entry, runs: seq<Run>, points: seq<Point>, slo: real, caps: Caps)
    requires Functional(points) && PointsOnGrid(points, Quantum(entry)) && Bracket(points, slo).None?
    ensures Justified(points, runs, slo, Quantum(entry), OutcomeOf(entry, runs, points, slo, caps))
  {
    hide LimitOf, Bracket;
    BracketFacts(points, slo);
    if points != [] {
      var q, least, most := Quantum(entry), Smallest(points), Largest(points);
      if AllWithin(points, slo) {
        assert Within(most, slo);
      } else {
        var f :| f in points && !(f.upper <= slo);
        assert !Within(f, slo);
        assert MeasuredAt(points, least.batch);
        assert OnGrid(f.batch, q);
        assert forall p :: p in points && Within(p, slo) ==> f.batch < p.batch;
      }
    }
  }

  // ----- Settling after failed acceptances

  lemma RefinedStillJustified(points: seq<Point>, runs: seq<Run>, slo: real, q: Pos, o: Outcome)
    requires Functional(points) && PointsOnGrid(points, q) && Justified(points, runs, slo, q, o)
    requires o.Interpolated? ==> MeasuredAt(points, o.low)
    ensures Justified(points, runs, slo, q, RefinedOutcome(o, points, q))
  {
    if o.Interpolated? && !Spaced(points, o.batch, q) {
      var low, high :| low in points && high in points && IsBracket(points, slo, low, high)
        && o.low == low.batch && o.high == high.batch
        && OnGrid(o.batch, q) && low.batch <= o.batch < high.batch
        && BelowTooBig(runs, o.batch)
        && Between(o.predicted, low.tpot, high.tpot)
        && (o.settled ==> o.batch == low.batch && o.predicted == low.tpot);
      assert FirstAt(points, o.low) == low;
      var r := RefinedOutcome(o, points, q);
      assert BelowTooBig(runs, r.batch);
      assert Between(r.predicted, low.tpot, high.tpot);
      assert IsBracket(points, slo, low, high) && r.batch == low.batch;
    }
  }

  // A settled plan's outcome is justified by its own measured points.
  lemma OutcomeJustified(s: Search, plan: Plan)
    requires OnGrid(s.first, s.Q()) && IsPlan(s, plan) && plan.Settled?
    ensures plan.points == PointsOf(s.rows, plan.runs)
    ensures Justified(plan.points, plan.runs, s.slo, s.Q(), plan.outcome)
  {
    hide Ask, VerdictAt, OutcomeOf, RefinedOutcome, Refined, Justified, Bracket, PointsOf, RunsSound;
    ReplaySound(s, plan.runs);
    var points := plan.points;
    SoundPoints(s, plan.runs);
    if Bracket(points, s.slo).Some? {
      BracketOutcomeJustified(s.entry, plan.runs, points, s.slo, s.caps);
    } else {
      UnbracketedOutcomeJustified(s.entry, plan.runs, points, s.slo, s.caps);
    }
    RefinedStillJustified(points, plan.runs, s.slo, s.Q(), OutcomeOf(s.entry, plan.runs, points, s.slo, s.caps));
  }

  lemma SoundPoints(s: Search, runs: seq<Run>)
    requires Recorded(s.rows, runs) && RunsSound(runs, s.Q())
    ensures PointsOnGrid(PointsOf(s.rows, runs), s.Q())
  {
    PointsFollowRuns(s.rows, runs, s.Q());
  }

  // The batch a settled plan proposes, once run and measured, is within the SLO.
  lemma AcceptedWithinSlo(s: Search, plan: Plan)
    requires OnGrid(s.first, s.Q()) && IsPlan(s, plan) && plan.Settled? && plan.outcome.Interpolated?
    ensures plan.outcome.batch in s.rows ==>
              var row := s.rows[plan.outcome.batch];
              !Classify(row).TooBig? && (Classify(row).Measured? ==> row.bounds.value.upper <= s.slo)
  {
    OutcomeJustified(s, plan);
    AskedNoMore(s, plan);
  }

  lemma AskedNoMore(s: Search, plan: Plan)
    requires IsPlan(s, plan) && plan.Settled? && plan.outcome.Interpolated?
    requires InterpolationJustified(plan.points, plan.runs, s.slo, s.Q(), plan.outcome)
    ensures plan.outcome.batch in s.rows ==>
              var row := s.rows[plan.outcome.batch];
              !Classify(row).TooBig? && (Classify(row).Measured? ==> row.bounds.value.upper <= s.slo)
  {
    var runs, points, o := plan.runs, plan.points, plan.outcome;
    var raw := OutcomeOf(s.entry, runs, points, s.slo, s.caps);
    InterpolatedUnderTooBig(s.entry, runs, points, s.slo, s.caps);
    if runs != [] { AskUnfolds(s, runs); }
    hide Ask, VerdictAt, OutcomeOf, Refined, PointsOf;
    if MeasuredAt(points, o.batch) {
      MeasuredBelowHigh(s, runs, o);
    }
  }

  // Inside the bracket only the passing end itself is measured.
  lemma MeasuredBelowHigh(s: Search, runs: seq<Run>, o: Outcome)
    requires Recorded(s.rows, runs) && o.Interpolated?
    requires InterpolationJustified(PointsOf(s.rows, runs), runs, s.slo, s.Q(), o)
    requires MeasuredAt(PointsOf(s.rows, runs), o.batch)
    ensures o.batch in s.rows && Classify(s.rows[o.batch]).Measured? && s.rows[o.batch].bounds.value.upper <= s.slo
  {
    var points := PointsOf(s.rows, runs);
    var p :| p in points && p.batch == o.batch;
    var low, high :| low in points && high in points && IsBracket(points, s.slo, low, high)
      && o.low == low.batch && o.high == high.batch && low.batch <= o.batch < high.batch;
    assert p.batch <= low.batch;
    assert p == low;
    PointIsRun(s.rows, runs, p);
  }

  // ----- Reports that nothing passes

  predicate SomePasses(points: seq<Point>, slo: real) {
    exists p :: p in points && Within(p, slo)
  }

  // The TPOT upper bound falls back within the SLO at a larger batch.
  predicate FallsBack(points: seq<Point>, slo: real) {
    exists p, f :: p in points && f in points && Within(p, slo) && !Within(f, slo) && f.batch < p.batch
  }

  predicate ReportsNoPass(o: Outcome) { o.SloUnreachable? || o.NoPassingPoint? || o.NoNativeMeasurement? }

  // An outcome with a passing batch is backed by a passing point; one without is
  // wrong just when a passing point lies above a failing one. Which searches end
  // that way is the subject of NoPassReports.
  lemma NoPassReport(s: Search, plan: Plan)
    requires OnGrid(s.first, s.Q()) && IsPlan(s, plan) && plan.Settled?
    ensures !ReportsNoPass(plan.outcome) ==> SomePasses(plan.points, s.slo)
    ensures ReportsNoPass(plan.outcome) ==> (SomePasses(plan.points, s.slo) <==> FallsBack(plan.points, s.slo))
  {
    OutcomeJustified(s, plan);
    JustifiedReport(plan.points, plan.runs, s.slo, s.Q(), plan.outcome);
  }

  lemma JustifiedReport(points: seq<Point>, runs: seq<Run>, slo: real, q: Pos, o: Outcome)
    requires Justified(points, runs, slo, q, o)
    ensures !ReportsNoPass(o) ==> SomePasses(points, slo)
    ensures ReportsNoPass(o) ==> (SomePasses(points, slo) <==> FallsBack(points, slo))
  {
    if o.SloUnreachable? {
      var f :| f in points && f.batch == q;
      assert !Within(f, slo);
    }
  }

  predicate Nondecreasing(points: seq<Point>) {
    forall p, r :: p in points && r in points && p.batch <= r.batch ==> p.upper <= r.upper
  }

  lemma NondecreasingNeverFallsBack(points: seq<Point>, slo: real)
    requires Nondecreasing(points)
    ensures !FallsBack(points, slo)
  {}

  // With nondecreasing TPOT bounds a settled plan that measured a passing point
  // proposes a batch at or above all of them.
  lemma SettledDominates(s: Search, plan: Plan, p: Point)
    requires OnGrid(s.first, s.Q()) && IsPlan(s, plan) && plan.Settled? && Nondecreasing(plan.points)
    requires p in plan.points && Within(p, s.slo)
    ensures plan.outcome.Interpolated? || plan.outcome.Limited?
    ensures p.batch <= plan.outcome.batch
  {
    OutcomeJustified(s, plan);
    MonotoneReport(s, plan);
    hide IsPlan;
    assert SomePasses(plan.points, s.slo);
    JustifiedDominates(plan.points, plan.runs, s.slo, s.Q(), plan.outcome, p);
  }

  lemma JustifiedDominates(points: seq<Point>, runs: seq<Run>, slo: real, q: Pos, o: Outcome, p: Point)
    requires Justified(points, runs, slo, q, o) && (o.Interpolated? || o.Limited?)
    requires Nondecreasing(points) && p in points && Within(p, slo)
    ensures p.batch <= o.batch
  {
    if o.Limited? && AllUpTo(points, slo, o.batch) {
    } else {
      var low, high :| low in points && high in points && IsBracket(points, slo, low, high) && low.batch <= o.batch;
      assert p.batch <= low.batch || high.batch <= p.batch;
      assert !Within(high, slo);
    }
  }

  // With nondecreasing TPOT bounds the report is exact.
  lemma MonotoneReport(s: Search, plan: Plan)
    requires OnGrid(s.first, s.Q()) && IsPlan(s, plan) && plan.Settled? && Nondecreasing(plan.points)
    ensures ReportsNoPass(plan.outcome) <==> !SomePasses(plan.points, s.slo)
  {
    NoPassReport(s, plan);
    NondecreasingNeverFallsBack(plan.points, s.slo);
  }

  // Points whose every failing batch lies under every passing one are reported as not passing.
  lemma UnbracketedMisreported(entry: Entry, runs: seq<Run>, points: seq<Point>, slo: real, caps: Caps)
    requires Functional(points) && Unbracketed(points, slo) && SomeFails(points, slo)
    ensures ReportsNoPass(OutcomeOf(entry, runs, points, slo, caps))
  {
    hide LimitOf, Bracket, Smallest, Quantum;
    BracketFacts(points, slo);
  }

  // ----- Failed acceptances converge

  predicate NoTooBig(runs: seq<Run>) {
    forall i :: 0 <= i < |runs| ==> !runs[i].kind.TooBig?
  }

  // A failing point inside the bracket keeps the low end and becomes the high end.
  lemma FailureNarrows(points: seq<Point>, slo: real, low: Point, high: Point, m: Point)
    requires IsBracket(points, slo, low, high) && !Within(m, slo) && low.batch < m.batch < high.batch
    ensures IsBracket(points + [m], slo, low, m)
  {}

  // With a bracket and no too-big run, the only batch asked for is a saved
  // acceptance run; unless too big, it failed strictly inside the bracket.
  lemma BracketedAsk(s: Search, runs: seq<Run>, low: Point, high: Point)
    requires Recorded(s.rows, runs) && runs != [] && NoTooBig(runs)
    requires PointsOnGrid(PointsOf(s.rows, runs), s.Q())
    requires IsBracket(PointsOf(s.rows, runs), s.slo, low, high)
    requires Ask(s, runs).Some?
    ensures var b := Ask(s, runs).value;
            && Answered(s.rows, b)
            && (!Classify(s.rows[b]).TooBig? ==>
                  && Classify(s.rows[b]).Measured? && !Within(PointAt(b, s.rows[b]), s.slo)
                  && low.batch + s.Q() <= b <= high.batch - s.Q())
  {
    var points := PointsOf(s.rows, runs);
    BracketUnique(points, s.slo, low, high);
    InterpolatedUnderTooBig(s.entry, runs, points, s.slo, s.caps);
    OutcomeOnGrid(s.entry, runs, points, s.slo, s.caps);
    NoFollowing(s, runs, points);
    AskUnfolds(s, runs);
    hide Ask, Following, OutcomeOf, PointsOf, Bracket;
    var o := OutcomeOf(s.entry, runs, points, s.slo, s.caps);
    assert o.batch != low.batch by {
      assert MeasuredAt(points, low.batch);
    }
    GridGap(low.batch, o.batch, s.Q());
    GridGap(o.batch, high.batch, s.Q());
  }

  lemma NoFollowing(s: Search, runs: seq<Run>, points: seq<Point>)
    requires runs != [] && NoTooBig(runs) && Bracket(points, s.slo).Some?
    ensures Following(s.entry, runs, points, s.slo, s.caps).None?
  {
    hide Bracket;
    assert SmallestTooBig(runs).None?;
  }

  lemma GridGap(a: int, b: int, q: Pos)
    requires a % q == 0 && b % q == 0 && a < b
    ensures a + q <= b
  {
    assert a == a / q * q && b == b / q * q;
    MultiplyOrdered(a / q, b / q, q);
    MultiplyOrdered(b / q, a / q, q);
  }

  // From the k-th run on, every run is a failed acceptance: the low end stays
  // and each run takes at least a quantum off the high end.
  lemma {:induction false} AcceptancesConverge(s: Search, runs: seq<Run>, k: nat, low: Point,
                                               high: Point) returns (end: Point)
    requires OnGrid(s.first, s.Q()) && Replay(s, runs) && 0 < k <= |runs| && NoTooBig(runs)
    requires Recorded(s.rows, runs[..k]) && IsBracket(PointsOf(s.rows, runs[..k]), s.slo, low, high)
    ensures IsBracket(PointsOf(s.rows, runs), s.slo, low, end)
    ensures end.batch <= high.batch - (|runs| - k) * s.Q()
  {
    hide Grows, IsBracket, RunsSound, PointsOf;
    if |runs| == k {
      assert runs[..k] == runs;
      end := high;
    } else {
      var init, last := runs[..|runs| - 1], runs[|runs| - 1];
      ReplayPrefix(s, runs, |runs| - 1);
      assert init[..k] == runs[..k];
      var middle := AcceptancesConverge(s, init, k, low, high);
      ReplaySound(s, init);
      end := AcceptanceStep(s, init, last, low, middle);
      assert init + [last] == runs;
      assert (|runs| - k) * s.Q() == (|init| - k) * s.Q() + s.Q();
    }
  }

  lemma AcceptanceStep(s: Search, init: seq<Run>, last: Run, low: Point, high: Point) returns (end: Point)
    requires Recorded(s.rows, init) && RunsSound(init, s.Q()) && init != [] && NoTooBig(init) && !last.kind.TooBig?
    requires Recorded(s.rows, init + [last])
    requires Grows(s, init, last) && IsBracket(PointsOf(s.rows, init), s.slo, low, high)
    ensures IsBracket(PointsOf(s.rows, init + [last]), s.slo, low, end)
    ensures end.batch <= high.batch - s.Q()
  {
    hide Ask, VerdictAt, IsBracket;
    SoundPoints(s, init);
    BracketedAsk(s, init, low, high);
    end := PointAt(last.batch, s.rows[last.batch]);
    FailureNarrows(PointsOf(s.rows, init), s.slo, low, high, end);
    assert (init + [last])[..|init|] == init;
  }

  // So at most (high - low) / q - 1 acceptances fail, and then the plan settles without another request.
  lemma AcceptanceBudget(s: Search, plan: Plan, k: nat, low: Point, high: Point)
    requires OnGrid(s.first, s.Q()) && IsPlan(s, plan) && 0 < k <= |plan.runs| && NoTooBig(plan.runs)
    requires Recorded(s.rows, plan.runs[..k]) && IsBracket(PointsOf(s.rows, plan.runs[..k]), s.slo, low, high)
    ensures (|plan.runs| - k) * s.Q() < high.batch - low.batch
    ensures !plan.Next?
    ensures plan.Settled? ==> plan.outcome.Interpolated? && plan.outcome.low == low.batch
  {
    hide Ask, VerdictAt, Grows, PointsOf, FinalOutcome, RunsSound;
    var end := AcceptancesConverge(s, plan.runs, k, low, high);
    ReplaySound(s, plan.runs);
    SoundPoints(s, plan.runs);
    if plan.Next? {
      BracketedAsk(s, plan.runs, low, end);
    }
    if plan.Settled? {
      BracketedOutcome(s, plan.runs, low, end);
    }
  }

  lemma BracketedOutcome(s: Search, runs: seq<Run>, low: Point, high: Point)
    requires Recorded(s.rows, runs) && NoTooBig(runs)
    requires IsBracket(PointsOf(s.rows, runs), s.slo, low, high)
    ensures FinalOutcome(s, runs).Interpolated? && FinalOutcome(s, runs).low == low.batch
  {
    var points := PointsOf(s.rows, runs);
    BracketUnique(points, s.slo, low, high);
    NoBigInterpolates(s, runs, points);
    InterpolatedUnderTooBig(s.entry, runs, points, s.slo, s.caps);
    hide OutcomeOf, Refined, Bracket, PointsOf;
  }

  lemma NoBigInterpolates(s: Search, runs: seq<Run>, points: seq<Point>)
    requires Functional(points) && NoTooBig(runs) && Bracket(points, s.slo).Some?
    ensures OutcomeOf(s.entry, runs, points, s.slo, s.caps).Interpolated?
  {
    hide Bracket, InterpolatedBatch;
    assert SmallestTooBig(runs).None?;
  }
}
