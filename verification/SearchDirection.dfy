// The next batch heads toward the SLO: past every point within it, under every point above it, inside a bracket.
module SearchDirection {
  import opened Prelude
  import opened RealFacts
  import opened NativeSearch
  import opened QuantumFacts
  import opened SearchFacts
  import opened LeastSquares

  // ----- Where the aimed line reaches the SLO

  // A rising line reaches the SLO past its points within it and before its points above it.
  lemma CrossingSide(intercept: real, slope: PosReal, x: real, u: real, slo: real)
    requires intercept + slope * x == u
    ensures u <= slo <==> x <= (slo - intercept) / slope
  {
    QuotientAtLeast(slo - intercept, slope, x, slope * x);
  }

  lemma ScaledLineThrough(i: real, s: real, x: real, u: real, bypass: PosReal)
    requires bypass == i + s * x
    ensures i * u / bypass + s * u / bypass * x == u
  {
    var a, b := i * u / bypass, s * u / bypass;
    QuotientTimes(i * u, bypass);
    QuotientTimes(s * u, bypass);
    ThroughPoint(i, s, x, u, bypass, a, b);
  }

  lemma ThroughPoint(i: real, s: real, x: real, u: real, bypass: PosReal, a: real, b: real)
    requires bypass == i + s * x && a * bypass == i * u && b * bypass == s * u
    ensures a + b * x == u
  {
    var y := a + b * x;
    Associate(x, b, bypass);
    assert b * bypass * x == s * u * x;
    assert y * bypass == a * bypass + b * bypass * x;
    assert y * bypass == u * bypass;
    ProductsOrdered(y, u, bypass, y * bypass, u * bypass);
  }

  lemma SquaresZero(x: real, y: real)
    requires Square(x) + Square(y) <= 0.0
    ensures x == 0.0 && y == 0.0
  {
    SquareZero(x, 1.0);
    SquareZero(y, 1.0);
  }

  lemma ErrorOfTwo(p: Sample, r: Sample, a: real, b: real)
    ensures SquaredError([p, r], a, b) == Square(Residual(p, a, b)) + Square(Residual(r, a, b))
  {
    assert [p, r][..1] == [p] && [p][..0] == [];
    assert SquaredError([p], a, b) == SquaredError([], a, b) + Square(Residual(p, a, b));
  }

  // The fitted line of two points passes through both.
  lemma FitOfTwo(p: Sample, r: Sample)
    requires p.0 < r.0
    ensures var (a, b) := FitLine([p, r]); a + b * p.0 == p.1 && a + b * r.0 == r.1
  {
    hide FitLine, SquaredError;
    var width: PosReal := r.0 - p.0;
    var m := (r.1 - p.1) / width;
    QuotientTimes(r.1 - p.1, width);
    var c := p.1 - m * p.0;
    assert m * width == m * r.0 - m * p.0;
    ErrorOfTwo(p, r, c, m);
    assert Residual(p, c, m) == 0.0 && Residual(r, c, m) == 0.0;
    var (a, b) := FitLine([p, r]);
    ErrorOfTwo(p, r, a, b);
    FitLineIsLeastSquares([p, r], c, m);
    SquaresZero(Residual(p, a, b), Residual(r, a, b));
  }

  // Two points at one batch give a flat line.
  lemma FitOfOneTwice(p: Sample)
    ensures FitLine([p, p]).1 == 0.0
  {
    assert [p, p][..1] == [p] && [p][..0] == [];
    assert SumX([p]) == p.0;
    assert SumX([p, p]) / 2.0 == p.0;
    assert Spread([p], p.0) == 0.0;
    assert Spread([p, p], p.0) == 0.0;
  }

  // The smallest measured point is above the SLO.
  predicate SmallestFails(points: seq<Point>, slo: real) { points != [] && !Within(Smallest(points), slo) }

  // The batch aimed at from one point, or from two in batch order, when a line rises.
  lemma OnePointAim(entry: Entry, points: seq<Point>, slo: real)
    requires |points| == 1 && points[0].batch > 0
    ensures Within(points[0], slo) ==> points[0].batch as real <= Target(entry, points, slo)
    ensures !Within(points[0], slo) ==> Target(entry, points, slo) < points[0].batch as real
  {
    var p := points[0];
    var x := p.batch as real;
    var bypass := entry.intercept + entry.slope * x;
    if bypass > 0.0 {
      var i, s := Scaled(entry.intercept, p.upper, bypass), Scaled(entry.slope, p.upper, bypass);
      ScaledLineThrough(entry.intercept, entry.slope, x, p.upper, bypass);
      if s > 0.0 { CrossingSide(i, s, x, p.upper, slo); }
    }
    assert Largest(points) == p && Smallest(points) == p;
  }

  lemma TwoPointLine(low: Point, high: Point, slo: real)
    requires low.batch < high.batch || low == high
    ensures var line := FitLine([(low.batch as real, low.upper), (high.batch as real, high.upper)]);
            var aim := Toward(line.0, line.1, slo);
            aim.Some? ==> (Within(high, slo) <==> high.batch as real <= aim.value) && (Within(low, slo) <==>
              low.batch as real <= aim.value)
  {
    hide FitLine;
    var p, r := (low.batch as real, low.upper as real), (high.batch as real, high.upper as real);
    var line := FitLine([p, r]);
    if low == high {
      FitOfOneTwice(p);
    } else {
      FitOfTwo(p, r);
      if line.1 > 0.0 {
        CrossingSide(line.0, line.1, p.0, p.1, slo);
        CrossingSide(line.0, line.1, r.0, r.1, slo);
      }
    }
  }

  // Past the largest point when all are within the SLO, under the smallest when that one is not.
  lemma TargetSide(entry: Entry, points: seq<Point>, slo: real)
    requires points != [] && Functional(points) && forall p :: p in points ==> p.batch > 0
    ensures AllWithin(points, slo) ==> Largest(points).batch as real <= Target(entry, points, slo)
    ensures SmallestFails(points, slo) ==> Target(entry, points, slo) < Smallest(points).batch as real
  {
    hide FitLine;
    if |points| == 1 {
      OnePointAim(entry, points, slo);
    } else {
      var ordered := ByBatch(points);
      var n := |ordered|;
      OrderedEnds(points);
      TwoPointLine(ordered[n - 2], ordered[n - 1], slo);
      TwoPointLine(ordered[0], ordered[1], slo);
    }
  }

  lemma OrderedEnds(points: seq<Point>)
    requires |points| >= 2 && Functional(points)
    ensures var ordered := ByBatch(points);
            var n := |ordered|;
            && n == |points|
            && ordered[0] in points && ordered[1] in points && ordered[n - 2] in points && ordered[n - 1] in points
            && (ordered[0].batch < ordered[1].batch || ordered[0] == ordered[1])
            && (ordered[n - 2].batch < ordered[n - 1].batch || ordered[n - 2] == ordered[n - 1])
            && ordered[0].batch == Smallest(points).batch && ordered[n - 1].batch == Largest(points).batch
  {
    hide ByBatch;
    var ordered := ByBatch(points);
    assert Smallest(points) in ordered && Largest(points) in ordered;
  }

  // ----- The aimed batch

  lemma AimedSide(entry: Entry, runs: seq<Run>, points: seq<Point>, slo: real, limit: Option<int>)
    requires points != [] && Functional(points) && PointsOnGrid(points, Quantum(entry))
    ensures AllWithin(points, slo) && !Tighter(limit, Some(Largest(points).batch))
            && (SmallestTooBig(runs).Some? ==> Largest(points).batch < SmallestTooBig(runs).value.batch) ==>
              Largest(points).batch <= AimedBatch(entry, runs, points, slo, limit)
    ensures SmallestFails(points, slo) ==> AimedBatch(entry, runs, points, slo, limit) <= Smallest(points).batch
  {
    hide Target, Rounded, Largest, Smallest, PassingBelow;
    var q, big, known := Quantum(entry), SmallestTooBig(runs), Capacities(runs);
    TargetSide(entry, points, slo);
    var aim := Target(entry, points, slo);
    var bisects := big.Some? && aim >= big.value.batch as real && !(known != [] && MinSeq(known) < big.value.batch);
    var passing := if bisects then PassingBelow(points, slo, big.value.batch) else [];
    var target := if bisects then ((if passing == [] then 0 else MaxSeq(passing)) + big.value.batch) as real / 2.0
      else aim;
    var x := if limit.Some? then MinReal(target, limit.value as real) else target;
    assert AimedBatch(entry, runs, points, slo, limit) == Rounded(x, q);
    RoundedFacts(x, q);
    var largest, smallest := Largest(points), Smallest(points);
    if AllWithin(points, slo) && bisects && largest.batch < big.value.batch {
      assert largest.batch in passing;
    }
    if SmallestFails(points, slo) && bisects {
      assert passing == [] by { NothingBelow(points, slo, big.value.batch); }
    }
  }

  lemma {:induction false} NothingBelow(points: seq<Point>, slo: real, big: int)
    requires forall p :: p in points ==> big <= p.batch
    ensures PassingBelow(points, slo, big) == []
  {
    if points != [] {
      var init, last := points[..|points| - 1], points[|points| - 1];
      assert points == init + [last];
      NothingBelow(init, slo, big);
    }
  }

  // ----- The next batch

  predicate Beyond(points: seq<Point>, b: int, q: Pos) {
    forall p :: p in points ==> (b - p.batch) as real >= Step(p.batch, q)
  }

  predicate Under(points: seq<Point>, b: int, q: Pos) {
    forall p :: p in points ==> (p.batch - b) as real >= Step(p.batch, q)
  }

  lemma SpacedSides(points: seq<Point>, b: int, q: Pos)
    requires Spaced(points, b, q)
    ensures (forall p :: p in points ==> p.batch <= b) ==> Beyond(points, b, q)
    ensures (forall p :: p in points ==> b <= p.batch) ==> Under(points, b, q)
  {}

  // Around a batch at or past the largest point the nearest point is the largest, and likewise the smallest.
  lemma NearestEnd(points: seq<Point>, aimed: int)
    requires points != []
    ensures Largest(points).batch <= aimed ==> Nearest(points, aimed) == Largest(points).batch
    ensures aimed <= Smallest(points).batch ==> Nearest(points, aimed) == Smallest(points).batch
  {
    hide Largest, Smallest, Nearest;
    var r := Nearest(points, aimed);
    var p :| p in points && p.batch == r;
  }

  lemma MeasuredSide(entry: Entry, runs: seq<Run>, points: seq<Point>, slo: real, caps: Caps)
    requires points != [] && Functional(points) && PointsOnGrid(points, Quantum(entry))
    requires FollowMeasured(entry, runs, points, slo, caps).Some?
    ensures var b := FollowMeasured(entry, runs, points, slo, caps).value;
            && (AllWithin(points, slo)
                && !Tighter(LimitOf(entry, runs, points, caps).at, Some(Largest(points).batch)) ==>
                  Largest(points).batch <= b)
            && (SmallestFails(points, slo) ==> b <= Smallest(points).batch)
  {
    hide AimedBatch, LimitOf, Nearest, Largest, Smallest, Rounded, FloorTo, Spaced, Step;
    var q, limit := Quantum(entry), LimitOf(entry, runs, points, caps);
    LimitUnderTooBig(entry, runs, points, caps);
    AimedSide(entry, runs, points, slo, limit.at);
    var aimed := AimedBatch(entry, runs, points, slo, limit.at);
    NearestEnd(points, aimed);
    var nearest := Nearest(points, aimed);
    StepPositive(nearest, q);
    RoundedFacts(nearest as real + Step(nearest, q), q);
    FloorToIsGreatest(nearest as real - Step(nearest, q), q);
    assert Largest(points) in points && Smallest(points) in points;
  }

  lemma StepPositive(batch: int, q: Pos)
    ensures Step(batch, q) > 0.0
  {}

  // Without a bracket the next batch is a step or more from every point and within the limit. With every
  // point within the SLO it lies past them all, unless a tighter limit forbids that; with the smallest one
  // above the SLO it lies under them all. In a bracket with a too-big batch it lies between the two ends.
  lemma FollowingDirection(entry: Entry, runs: seq<Run>, points: seq<Point>, slo: real, caps: Caps)
    requires runs != [] && Functional(points) && PointsOnGrid(points, Quantum(entry))
    requires Following(entry, runs, points, slo, caps).Some?
    ensures var b, q, limit := Following(entry, runs, points, slo, caps).value, Quantum(entry),
              LimitOf(entry, runs, points, caps).at;
            && (Bracket(points, slo).None? && points != [] ==> Spaced(points, b, q) && !Tighter(limit, Some(b)))
            && (points != [] && AllWithin(points, slo) && !Tighter(limit, Some(Largest(points).batch)) ==>
                Beyond(points, b, q))
            && (Bracket(points, slo).None? && SmallestFails(points, slo) ==> Under(points, b, q))
            && (Bracket(points, slo).Some? ==>
                  var (low, high) := Bracket(points, slo).value;
                  low.batch as real + Step(low.batch, q) <= b as real && b < high.batch)
  {
    hide FollowBracket, FollowUnmeasured, FollowMeasured, Bracket, LimitOf, Largest, Smallest, Spaced, Step, Beyond,
      Under;
    BracketFacts(points, slo);
    if Bracket(points, slo).Some? {
      var (low, high) := Bracket(points, slo).value;
      BracketSide(runs, low, high, slo, Quantum(entry));
    } else if points != [] {
      FollowMeasuredFacts(entry, runs, points, slo, caps);
      MeasuredSide(entry, runs, points, slo, caps);
      SpacedSides(points, Following(entry, runs, points, slo, caps).value, Quantum(entry));
    }
  }

  lemma BracketSide(runs: seq<Run>, low: Point, high: Point, slo: real, q: Pos)
    requires Within(low, slo) && !Within(high, slo) && low.batch < high.batch && OnGrid(low.batch, q)
    requires FollowBracket(runs, low, high, slo, q).Some?
    ensures var b := FollowBracket(runs, low, high, slo, q).value;
            low.batch as real + Step(low.batch, q) <= b as real && b < high.batch
  {
    hide InterpolatedBatch, Rounded, Step;
    InterpolatedInside(low, high, slo, q);
    FollowBracketFacts(runs, low, high, slo, q);
  }
}
