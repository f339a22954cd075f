// A pruned layout cannot beat the incumbent: the bounds of the branch and
// bound against any native behaviour that meets the documented assumptions.
module PruningSoundness {
  import opened Prelude
  import opened RealFacts
  import opened NativeSearch
  import opened NativeBounds
  import opened SearchFacts

  // A layout's native behaviour: TPOT estimate and upper bound per batch, and what can run.
  datatype Native = Native(tpot: int -> PosReal, upper: int -> PosReal, feasible: int -> bool) {
    predicate Passes(b: int, slo: real) { b > 0 && feasible(b) && upper(b) <= slo }
  }

  ghost predicate EstimateUnderUpper(n: Native) {
    forall b :: n.tpot(b) <= n.upper(b)
  }

  ghost predicate MeasuredFrom(n: Native, points: seq<Point>) {
    forall p :: p in points ==> p.tpot == n.tpot(p.batch) && p.upper == n.upper(p.batch)
  }

  // Native TPOT is at least this share of the bypass line.
  ghost predicate AboveLine(n: Native, entry: Entry, share: real) {
    forall b :: b > 0 && n.feasible(b) ==> n.tpot(b) >= share * (entry.intercept + entry.slope * b as real)
  }

  // Nothing runs at a too-big batch or above, nor above a reported native capacity.
  ghost predicate RejectionsBind(n: Native, runs: seq<Run>) {
    forall b, x :: n.feasible(b) && LimitReported(runs, x) ==> b <= x
  }

  // Up to a measured point the per-GPU rate stays within RATE_MARGIN of the point's.
  ghost predicate RateMarginHolds(n: Native, points: seq<Point>, gpus: Pos, slo: real) {
    forall p, b :: p in points && n.Passes(b, slo) && b <= p.batch ==>
      Rate(b as real, n.tpot(b), gpus) <= PointRate(p, gpus) * (1.0 + RATE_MARGIN)
  }

  ghost predicate PassesBelowFailures(n: Native, points: seq<Point>, slo: real) {
    forall p, b :: p in points && !Within(p, slo) && n.Passes(b, slo) ==> b <= p.batch
  }

  // Passing batches exceed a failing point's batch by at most RATE_MARGIN.
  ghost predicate BatchMarginHolds(n: Native, points: seq<Point>, slo: real) {
    forall p, b :: p in points && !Within(p, slo) && n.Passes(b, slo) ==>
      b as real <= p.batch as real * (1.0 + RATE_MARGIN)
  }

  // Beyond a passing point TPOT grows at least floor times the bypass slope.
  ghost predicate SlopeHolds(n: Native, points: seq<Point>, entry: Entry, slo: real, floor: real) {
    forall p, b :: p in points && Within(p, slo) && n.Passes(b, slo) && p.batch <= b ==>
      n.tpot(b) >= p.tpot + floor * entry.slope * (b - p.batch) as real
  }

  // ----- Rates

  lemma RateScaled(a: real, t: PosReal, u: PosReal, g: Pos)
    ensures Rate(a, t, g) * (t * u * g as real) == a * u * NS_PER_S
  {
    var d: PosReal := t * g as real;
    QuotientTimes(a * NS_PER_S, d);
    var r := Rate(a, t, g);
    assert r * d == a * NS_PER_S;
    assert r * (t * u * g as real) == r * d * u;
  }

  lemma RatesOrdered(a: real, t: PosReal, c: real, u: PosReal, g: Pos, au: real, ct: real)
    requires au == a * u && ct == c * t
    ensures Rate(a, t, g) <= Rate(c, u, g) <==> au <= ct
    ensures Rate(a, t, g) < Rate(c, u, g) <==> au < ct
  {
    var k: PosReal := t * u * g as real;
    RateScaled(a, t, u, g);
    RateScaled(c, u, t, g);
    assert u * t * g as real == k;
    ProductsOrdered(Rate(a, t, g), Rate(c, u, g), k, au * NS_PER_S, ct * NS_PER_S);
  }

  lemma RateNonnegative(a: real, t: PosReal, g: Pos)
    ensures a >= 0.0 <==> Rate(a, t, g) >= 0.0
    ensures a > 0.0 <==> Rate(a, t, g) > 0.0
  {
    RatesOrdered(0.0, t, a, t, g, 0.0, a * t);
    ProductsOrdered(0.0, a, t, 0.0, a * t);
    assert Rate(0.0, t, g) == 0.0;
  }

  // At one batch, a larger TPOT means a smaller rate.
  lemma SlowerRate(a: real, t: PosReal, u: PosReal, g: Pos)
    requires a >= 0.0 && u <= t
    ensures Rate(a, t, g) <= Rate(a, u, g)
  {
    assert a * (t - u) >= 0.0;
    assert a * (t - u) == a * t - a * u;
    RatesOrdered(a, t, a, u, g, a * u, a * t);
  }

  // The cross products of two batches on a line differ by the intercept alone.
  lemma CrossProducts(i: PosReal, m: real, a: real, c: real, t: real, u: real)
    requires t == i + m * a && u == i + m * c
    ensures a * u < c * t <==> a < c
  {
    ProductsOrdered(a, c, i, a * i, c * i);
    assert c * t - a * u == c * i - a * i;
  }

  lemma LineRateIs(entry: Entry, b: real, g: Pos, line: PosReal)
    requires Rising(entry) && b > 0.0 && line == entry.intercept + entry.slope * b
    ensures LineRate(entry, b, g) == Rate(b, line, g)
  {}

  // Along a line rising from a positive intercept the rate grows with the batch.
  lemma RateGrowsAlongLine(entry: Entry, a: real, c: real, g: Pos)
    requires Rising(entry) && 0.0 < a && 0.0 < c
    ensures LineRate(entry, a, g) < LineRate(entry, c, g) <==> a < c
  {
    hide Rate, LineRate;
    assert entry.slope * a > 0.0 && entry.slope * c > 0.0;
    var t: PosReal, u: PosReal := entry.intercept + entry.slope * a, entry.intercept + entry.slope * c;
    LineRateIs(entry, a, g, t);
    LineRateIs(entry, c, g, u);
    CrossProducts(entry.intercept, entry.slope, a, c, t, u);
    RatesOrdered(a, t, c, u, g, a * u, c * t);
  }

  // ----- The bypass line

  lemma UnderCrossing(intercept: real, slope: PosReal, b: real, slo: real)
    requires intercept + slope * b <= slo
    ensures b <= (slo - intercept) / slope
  {
    var room, rise := slo - intercept, b * slope;
    assert rise <= room;
    QuotientAtLeast(room, slope, b, rise);
  }

  lemma UnderReach(entry: Entry, slo: real, limit: Option<int>, b: real)
    requires Rising(entry) && entry.intercept + entry.slope * b <= slo
    requires limit.Some? ==> b <= limit.value as real
    ensures b <= BypassReach(entry, slo, limit)
  {
    UnderCrossing(entry.intercept, entry.slope, b, slo);
  }

  lemma FasterOnLine(entry: Entry, b: real, t: PosReal, gpus: Pos)
    requires Rising(entry) && b > 0.0 && entry.intercept + entry.slope * b <= t
    ensures 0.0 < Rate(b, t, gpus) <= LineRate(entry, b, gpus)
  {
    assert entry.slope * b > 0.0;
    SlowerRate(b, t, entry.intercept + entry.slope * b, gpus);
    RateNonnegative(b, t, gpus);
  }

  // No batch on or above the line within the SLO and the limit runs faster than the bypass rate bound.
  lemma BypassRateBounds(entry: Entry, gpus: Pos, slo: real, limit: Option<int>, b: real, t: PosReal)
    requires b > 0.0 && t <= slo && t >= entry.intercept + entry.slope * b
    requires limit.Some? ==> b <= limit.value as real
    requires BypassRateBound(entry, gpus, slo, limit).Some?
    ensures Rate(b, t, gpus) <= BypassRateBound(entry, gpus, slo, limit).value
    ensures 0.0 < BypassRateBound(entry, gpus, slo, limit).value
  {
    hide Rate, BypassReach, LineRate;
    UnderReach(entry, slo, limit, b);
    RateGrowsAlongLine(entry, BypassReach(entry, slo, limit), b, gpus);
    FasterOnLine(entry, b, t, gpus);
  }

  lemma PassesOnLine(n: Native, entry: Entry, slo: real, b: int, share: real)
    requires EstimateUnderUpper(n) && AboveLine(n, entry, share) && n.Passes(b, slo)
    ensures share * (entry.intercept + entry.slope * b as real) <= n.tpot(b) <= slo
  {}

  lemma ReportedLimit(n: Native, runs: seq<Run>, b: int)
    requires RejectionsBind(n, runs) && n.feasible(b)
    ensures RunLimit(runs).Some? ==> b <= RunLimit(runs).value
  {
    if RunLimit(runs).Some? {
      assert LimitReported(runs, RunLimit(runs).value);
    }
  }

  lemma BypassRatePrune(n: Native, entry: Entry, gpus: Pos, slo: PosReal, incumbent: real, runs: seq<Run>, b: int,
                        share: real)
    requires EstimateUnderUpper(n) && AboveLine(n, entry, share) && RejectionsBind(n, runs) && n.Passes(b, slo)
    requires BYPASS_TPOT_FLOOR <= share && LineShareSuffices(entry, slo, RunLimit(runs), share)
    requires var bound := BypassRateBound(entry, gpus, slo, RunLimit(runs));
             bound.Some? && bound.value / BYPASS_TPOT_FLOOR < incumbent
    ensures Rate(b as real, n.tpot(b), gpus) < incumbent
  {
    hide BypassRateBound, Rate, LineShareSuffices, RunLimit;
    ReportedLimit(n, runs, b);
    PassesOnLine(n, entry, slo, b, share);
    ShareBounds(entry, gpus, slo, RunLimit(runs), share, b as real, n.tpot(b));
  }

  lemma ShareBounds(entry: Entry, gpus: Pos, slo: PosReal, limit: Option<int>, share: PosReal, b: real, t: PosReal)
    requires b > 0.0 && t <= slo && t >= share * (entry.intercept + entry.slope * b)
    requires limit.Some? ==> b <= limit.value as real
    requires BypassRateBound(entry, gpus, slo, limit).Some?
    requires BYPASS_TPOT_FLOOR <= share && LineShareSuffices(entry, slo, limit, share)
    ensures Rate(b, t, gpus) <= BypassRateBound(entry, gpus, slo, limit).value / BYPASS_TPOT_FLOOR
  {
    RisingBound(entry, gpus, slo, limit);
    LineShareExact(entry, gpus, slo, limit, share);
    hide Rate, LineShareSuffices, BypassRateBound;
    SharedRateBounds(entry, gpus, slo, limit, share, b, t);
  }

  lemma RisingBound(entry: Entry, gpus: Pos, slo: real, limit: Option<int>)
    ensures BypassRateBound(entry, gpus, slo, limit).Some? <==> Rising(entry)
  {}

  // ----- The slope floor

  // From a passing point, a TPOT line of positive slope peaks at the point or at the SLO.
  lemma FloorLineRate(p: Point, gpus: Pos, slo: PosReal, slope: PosReal, b: real, t: PosReal)
    requires p.batch > 0 && p.batch as real <= b
    requires p.tpot + slope * (b - p.batch as real) <= t <= slo
    ensures Rate(b, t, gpus) <= MaxReal(Rate(SlopeReach(p, slo, slope), slo, gpus), PointRate(p, gpus))
  {
    hide Rate, PointRate;
    var a, u, end := p.batch as real, p.tpot, SlopeReach(p, slo, slope);
    var i := u - slope * a;
    var line: PosReal := LineValue(a, u, slope, b);
    LineEnd(a, u, slope, b, slo);
    SlowerRate(b, t, line, gpus);
    PointRateIs(p, gpus);
    if i >= 0.0 {
      CrossDifference(i, slope, b, end, line, slo);
      MulNonnegative(i, end - b);
      RatesOrdered(b, line, end, slo, gpus, b * slo, end * line);
    } else {
      CrossDifference(i, slope, b, a, line, u);
      MulNonnegative(-i, b - a);
      assert i * (a - b) == -i * (b - a);
      RatesOrdered(b, line, a, u, gpus, b * u, a * line);
    }
  }

  function LineValue(a: real, u: PosReal, slope: PosReal, b: real): (line: PosReal)
    requires a <= b
    ensures line == u - slope * a + slope * b && line == u + slope * (b - a)
  {
    MulNonnegative(slope, b - a);
    u + slope * (b - a)
  }

  // The line reaches the SLO at its end, which no batch within the SLO passes.
  lemma LineEnd(a: real, u: PosReal, slope: PosReal, b: real, slo: real)
    requires a <= b && u + slope * (b - a) <= slo
    ensures var end := a + (slo - u) / slope;
            b <= end && slo == u - slope * a + slope * end
  {
    var end := a + (slo - u) / slope;
    QuotientTimes(slo - u, slope);
    QuotientAtLeast(slo - u, slope, b - a, slope * (b - a));
    assert slope * (end - a) == slope * end - slope * a;
  }

  lemma PointRateIs(p: Point, gpus: Pos)
    ensures PointRate(p, gpus) == Rate(p.batch as real, p.tpot, gpus)
  {}

  lemma CrossDifference(i: real, m: real, a: real, c: real, t: real, u: real)
    requires t == i + m * a && u == i + m * c
    ensures c * t - a * u == i * (c - a)
  {}

  lemma SlopeRatePrune(n: Native, entry: Entry, gpus: Pos, slo: PosReal, incumbent: real, floor: real,
                       points: seq<Point>, p: Point, b: int)
    requires EstimateUnderUpper(n) && n.Passes(b, slo) && p in points && p.batch > 0 && Within(p, slo)
    requires RateMarginHolds(n, points, gpus, slo) && SlopeHolds(n, points, entry, slo, floor)
    requires BoundBelow(SlopeRateBound(entry, p, gpus, slo, floor), incumbent)
    ensures Rate(b as real, n.tpot(b), gpus) < incumbent
  {
    hide Rate, PointRate, RateMarginHolds, SlopeHolds, SlopeReach, FloorSlope, RaisedRate;
    var slope: PosReal := FloorSlope(entry, floor);
    if p.batch < b {
      FloorRise(n, points, entry, slo, floor, p, b);
      FloorLineRate(p, gpus, slo, slope, b as real, n.tpot(b));
      RaisedAbovePoint(p, gpus);
    } else {
      MarginRate(n, points, gpus, slo, p, b);
    }
  }

  lemma RaisedAbovePoint(p: Point, gpus: Pos)
    requires p.batch > 0
    ensures PointRate(p, gpus) <= RaisedRate(p, gpus)
  {
    hide Rate;
    RateNonnegative(p.batch as real, p.tpot, gpus);
  }

  lemma FloorRise(n: Native, points: seq<Point>, entry: Entry, slo: real, floor: real, p: Point, b: int)
    requires SlopeHolds(n, points, entry, slo, floor) && p in points && Within(p, slo) && n.Passes(b, slo)
             && p.batch <= b
    ensures p.tpot + FloorSlope(entry, floor) * (b as real - p.batch as real) <= n.tpot(b)
  {}

  lemma MarginRate(n: Native, points: seq<Point>, gpus: Pos, slo: real, p: Point, b: int)
    requires RateMarginHolds(n, points, gpus, slo) && p in points && n.Passes(b, slo) && b <= p.batch
    ensures Rate(b as real, n.tpot(b), gpus) <= RaisedRate(p, gpus)
  {
    hide Rate, PointRate;
  }

  // ----- The throughput pruner is sound

  // A dropped layout has no batch within the SLO whose per-GPU rate reaches the
  // incumbent, with native TPOT at any share of the bypass line that suffices.
  lemma RatePruneSound(n: Native, entry: Entry, slo: PosReal, gpus: Pos, incumbent: real, floor: Option<real>,
                       runs: seq<Run>, points: seq<Point>, share: real, b: int)
    requires EstimateUnderUpper(n) && AboveLine(n, entry, share) && RejectionsBind(n, runs)
    requires BYPASS_TPOT_FLOOR <= share && LineShareSuffices(entry, slo, RunLimit(runs), share)
    requires PositiveBatches(points) && PassesBelowFailures(n, points, slo)
    requires RateMarginHolds(n, points, gpus, slo)
    requires floor.Some? ==> SlopeHolds(n, points, entry, slo, floor.value)
    requires RateVerdict(entry, slo, gpus, incumbent, floor, runs, points).Drop?
    requires n.Passes(b, slo)
    ensures Rate(b as real, n.tpot(b), gpus) < incumbent
  {
    hide Rate, BypassRateBound, SlopeRateBound, LineShareSuffices, RunLimit;
    match RateVerdict(entry, slo, gpus, incumbent, floor, runs, points).why {
      case BypassRateBelow =>
        BypassRatePrune(n, entry, gpus, slo, incumbent, runs, b, share);
      case PointRateBelow =>
        var p :| p in points && p.upper > slo && PointRate(p, gpus) * (1.0 + RATE_MARGIN) < incumbent;
        assert !Within(p, slo);
      case SlopeRateBelow =>
        var p :| p in points && p.upper <= slo
          && BoundBelow(SlopeRateBound(entry, p, gpus, slo, floor.value), incumbent);
        assert Within(p, slo);
        SlopeRatePrune(n, entry, gpus, slo, incumbent, floor.value, points, p, b);
    }
  }

  // ----- The batch pruner is sound under the weaker line

  lemma FlooredLineRoom(line: real, slo: real)
    requires BYPASS_TPOT_FLOOR * line <= slo
    ensures line <= slo / BYPASS_TPOT_FLOOR
  {}

  // No batch within the SLO and the limit exceeds the bypass batch bound.
  lemma BypassBatchBounds(entry: Entry, slo: real, limit: int, b: int, t: real)
    requires b <= limit && t <= slo && BYPASS_TPOT_FLOOR * (entry.intercept + entry.slope * b as real) <= t
    ensures b as real <= BypassBatchBound(entry, slo, limit)
  {
    if entry.intercept > 0.0 && entry.slope > 0.0 {
      FlooredLineRoom(entry.intercept + entry.slope * b as real, slo);
      UnderCrossing(entry.intercept, entry.slope, b as real, slo / BYPASS_TPOT_FLOOR);
    }
  }

  lemma SlopeBatchBounds(p: Point, slo: real, slope: PosReal, b: real, t: real)
    requires Within(p, slo) && p.tpot <= p.upper && t <= slo
    requires p.batch as real <= b ==> p.tpot + slope * (b - p.batch as real) <= t
    ensures b <= SlopeReach(p, slo, slope)
  {
    var room, beyond := slo - p.tpot, b - p.batch as real;
    QuotientAtLeast(room, slope, 0.0, 0.0);
    if beyond >= 0.0 {
      UnderCrossing(p.tpot, slope, beyond, slo);
    }
  }

  // The search measures no batch above the bypass KV capacity until a native point reaches it.
  ghost predicate CapacityBinds(n: Native, entry: Entry, points: seq<Point>) {
    ReachedCapacity(entry, points) || forall b :: n.feasible(b) ==> b <= entry.capacityMaxBatch
  }

  lemma BatchLimitsBind(n: Native, entry: Entry, runs: seq<Run>, points: seq<Point>, b: int)
    requires RejectionsBind(n, runs) && CapacityBinds(n, entry, points) && n.feasible(b)
    requires BatchLimits(entry, runs, points) != []
    ensures b <= MinSeq(BatchLimits(entry, runs, points))
  {
    var limits := BatchLimits(entry, runs, points);
    var x := MinSeq(limits);
    if x in RejectionLimits(runs) {
      assert LimitReported(runs, x);
    }
  }

  lemma PerGpu(b: real, bound: real, gpus: Pos, incumbent: real)
    requires b <= bound && bound / gpus as real <= incumbent
    ensures b / gpus as real <= incumbent
  {
    var g: PosReal := gpus as real;
    QuotientAtMost(bound, g, incumbent, incumbent * g);
    QuotientAtMost(b, g, incumbent, incumbent * g);
  }

  // A dropped layout has no passing batch per GPU above the incumbent.
  lemma BatchPruneSound(n: Native, entry: Entry, slo: PosReal, gpus: Pos, incumbent: real, floor: Option<real>,
                        runs: seq<Run>, points: seq<Point>, b: int)
    requires EstimateUnderUpper(n) && AboveLine(n, entry, BYPASS_TPOT_FLOOR) && RejectionsBind(n, runs)
    requires MeasuredFrom(n, points) && CapacityBinds(n, entry, points) && BatchMarginHolds(n, points, slo)
    requires floor.Some? ==> SlopeHolds(n, points, entry, slo, floor.value)
    requires BatchVerdict(entry, slo, gpus, incumbent, floor, runs, points).Drop?
    requires n.Passes(b, slo)
    ensures b as real / gpus as real <= incumbent
  {
    hide BypassBatchBound, BatchLimits, SlopeBatchBound, BatchMarginHolds, SlopeHolds;
    match BatchVerdict(entry, slo, gpus, incumbent, floor, runs, points).why {
      case BypassBatchNotAbove =>
        var limit := MinSeq(BatchLimits(entry, runs, points));
        BatchLimitsBind(n, entry, runs, points, b);
        PassesOnLine(n, entry, slo, b, BYPASS_TPOT_FLOOR);
        BypassBatchBounds(entry, slo, limit, b, n.tpot(b));
        PerGpu(b as real, BypassBatchBound(entry, slo, limit), gpus, incumbent);
      case PointBatchNotAbove =>
        PointBatchPrune(n, slo, gpus, incumbent, points, b);
      case SlopeBatchNotAbove =>
        SlopeBatchPrune(n, entry, slo, gpus, incumbent, floor.value, points, b);
    }
  }

  lemma PointBatchPrune(n: Native, slo: PosReal, gpus: Pos, incumbent: real, points: seq<Point>, b: int)
    requires BatchMarginHolds(n, points, slo) && n.Passes(b, slo)
    requires exists p ::
             p in points && p.upper > slo && p.batch as real * (1.0 + RATE_MARGIN) / gpus as real <= incumbent
    ensures b as real / gpus as real <= incumbent
  {
    var p :| p in points && p.upper > slo && p.batch as real * (1.0 + RATE_MARGIN) / gpus as real <= incumbent;
    assert !Within(p, slo);
    PerGpu(b as real, p.batch as real * (1.0 + RATE_MARGIN), gpus, incumbent);
  }

  lemma SlopeBatchPrune(n: Native, entry: Entry, slo: PosReal, gpus: Pos, incumbent: real, floor: real,
                        points: seq<Point>, b: int)
    requires EstimateUnderUpper(n) && MeasuredFrom(n, points) && SlopeHolds(n, points, entry, slo, floor)
    requires n.Passes(b, slo)
    requires exists p :: p in points && p.upper <= slo && var bound := SlopeBatchBound(entry, p, slo, floor);
                         bound.Some? && bound.value / gpus as real <= incumbent
    ensures b as real / gpus as real <= incumbent
  {
    hide SlopeHolds, SlopeReach, FloorSlope;
    var p :| p in points && p.upper <= slo && var bound := SlopeBatchBound(entry, p, slo, floor);
             bound.Some? && bound.value / gpus as real <= incumbent;
    if p.batch <= b { FloorRise(n, points, entry, slo, floor, p, b); }
    SlopeBatchBounds(p, slo, FloorSlope(entry, floor), b as real, n.tpot(b));
    PerGpu(b as real, SlopeBatchBound(entry, p, slo, floor).value, gpus, incumbent);
  }

  // The pruner has no limit to take, and fails, exactly when a point reached
  // the bypass capacity and nothing was rejected or reported.
  lemma BatchPrunerCrashes(entry: Entry, slo: PosReal, gpus: Pos, incumbent: real, floor: Option<real>,
                           runs: seq<Run>, points: seq<Point>)
    ensures BatchVerdict(entry, slo, gpus, incumbent, floor, runs, points).Crash? <==>
              ReachedCapacity(entry, points) && forall x :: !LimitReported(runs, x)
  {
    var limits := RejectionLimits(runs);
    if limits != [] {
      assert LimitReported(runs, limits[0]);
    }
  }

  // ----- The throughput pruner under the weaker line

  // What the bypass line allows when native TPOT is at least this share of it.
  function SharedRateBound(entry: Entry, gpus: Pos, slo: real, limit: Option<int>, share: PosReal): Option<real> {
    var bound := BypassRateBound(entry, gpus, slo / share, limit);
    if bound.Some? then Some(bound.value / share) else None
  }

  function WeakRateBound(entry: Entry, gpus: Pos, slo: real, limit: Option<int>): Option<real> {
    SharedRateBound(entry, gpus, slo, limit, BYPASS_TPOT_FLOOR)
  }

  lemma ScaledTpotRate(b: real, t: PosReal, u: PosReal, g: Pos, share: PosReal)
    requires t == share * u
    ensures Rate(b, t, g) == Rate(b, u, g) / share
  {
    RateScaled(b, u, t, g);
    RateScaled(b, t, u, g);
    var k: PosReal := t * u * g as real;
    assert u * t * g as real == k;
    hide Rate;
    EqualQuotient(Rate(b, t, g), Rate(b, u, g), share, k, b * u * NS_PER_S, b * t * NS_PER_S);
  }

  lemma EqualQuotient(x: real, y: real, share: PosReal, k: PosReal, xk: real, yk: real)
    requires xk == x * k && yk == y * k && yk == share * xk
    ensures x == y / share
  {
    assert share * x * k == share * xk;
    ProductsOrdered(share * x, y, k, share * xk, yk);
    ProductsOrdered(y, share * x, k, yk, share * xk);
    assert share * x == y;
    QuotientTimes(y, share);
    ProductsOrdered(x, y / share, share, x * share, y);
    ProductsOrdered(y / share, x, share, y, x * share);
  }

  // The rate of every batch within the SLO is at most what the line's share allows.
  lemma SharedRateBounds(entry: Entry, gpus: Pos, slo: real, limit: Option<int>, share: PosReal, b: real, t: PosReal)
    requires b > 0.0 && t <= slo && t >= share * (entry.intercept + entry.slope * b)
    requires limit.Some? ==> b <= limit.value as real
    requires SharedRateBound(entry, gpus, slo, limit, share).Some?
    ensures Rate(b, t, gpus) <= SharedRateBound(entry, gpus, slo, limit, share).value
  {
    hide Rate, BypassRateBound;
    var u: PosReal := t / share;
    var line := entry.intercept + entry.slope * b;
    QuotientTimes(t, share);
    QuotientAtLeast(t, share, line, line * share);
    ProductsOrdered(t / share, slo / share, share, t, slo) by { QuotientTimes(slo, share); }
    ScaledTpotRate(b, t, u, gpus, share);
    BypassRateBounds(entry, gpus, slo / share, limit, b, u);
    var bound := BypassRateBound(entry, gpus, slo / share, limit).value;
    QuotientTimes(Rate(b, u, gpus), share);
    QuotientTimes(bound, share);
    ProductsOrdered(Rate(b, u, gpus) / share, bound / share, share, Rate(b, u, gpus), bound);
  }

  // Under the weaker line the rate of every batch within the SLO is at most the weak bound.
  lemma WeakRateBounds(entry: Entry, gpus: Pos, slo: real, limit: Option<int>, b: real, t: PosReal)
    requires b > 0.0 && t <= slo && t >= BYPASS_TPOT_FLOOR * (entry.intercept + entry.slope * b)
    requires limit.Some? ==> b <= limit.value as real
    requires WeakRateBound(entry, gpus, slo, limit).Some?
    ensures Rate(b, t, gpus) <= WeakRateBound(entry, gpus, slo, limit).value
  {
    hide Rate, SharedRateBound;
    SharedRateBounds(entry, gpus, slo, limit, BYPASS_TPOT_FLOOR, b, t);
  }

  lemma LineAtCrossing(entry: Entry, slo: real, batch: real)
    requires Rising(entry) && batch == (slo - entry.intercept) / entry.slope
    ensures entry.intercept + entry.slope * batch == slo
  {
    QuotientTimes(slo - entry.intercept, entry.slope);
  }

  // The shared bound is reached: a TPOT at the share of the line runs the reach within the SLO.
  lemma SharedRateAttained(entry: Entry, gpus: Pos, slo: PosReal, limit: Option<int>, share: PosReal)
    returns (b: real, t: PosReal)
    requires Rising(entry) && BypassReach(entry, slo / share, limit) > 0.0
    ensures b > 0.0 && (limit.Some? ==> b <= limit.value as real)
    ensures t == share * (entry.intercept + entry.slope * b) && t <= slo
    ensures SharedRateBound(entry, gpus, slo, limit, share) == Some(Rate(b, t, gpus))
  {
    hide Rate;
    var scaled := slo / share;
    b := BypassReach(entry, scaled, limit);
    var crossing := (scaled - entry.intercept) / entry.slope;
    LineAtCrossing(entry, scaled, crossing);
    MulAtMost(b, crossing, entry.slope, b * entry.slope, crossing * entry.slope);
    ProductPositive(entry.slope, b);
    var line: PosReal := entry.intercept + entry.slope * b;
    QuotientTimes(slo, share);
    MulAtMost(line, scaled, share, line * share, slo);
    ProductPositive(share, line);
    t := share * line;
    ScaledTpotRate(b, t, line, gpus, share);
    LineRateIs(entry, b, gpus, line);
    hide LineRate;
  }

  lemma ProductPositive(a: PosReal, b: PosReal)
    ensures a * b > 0.0
  {}

  lemma WeakRateAttained(entry: Entry, gpus: Pos, slo: PosReal, limit: Option<int>) returns (b: real, t: PosReal)
    requires Rising(entry) && BypassReach(entry, slo / BYPASS_TPOT_FLOOR, limit) > 0.0
    ensures b > 0.0 && (limit.Some? ==> b <= limit.value as real)
    ensures t == BYPASS_TPOT_FLOOR * (entry.intercept + entry.slope * b) && t <= slo
    ensures WeakRateBound(entry, gpus, slo, limit) == Some(Rate(b, t, gpus))
  {
    hide Rate, SharedRateBound, BypassReach;
    b, t := SharedRateAttained(entry, gpus, slo, limit, BYPASS_TPOT_FLOOR);
  }

  // What the throughput pruner compares with the incumbent instead.
  function ComparedRate(entry: Entry, gpus: Pos, slo: real, limit: Option<int>): real
    requires Rising(entry)
  {
    BypassRateBound(entry, gpus, slo, limit).value / BYPASS_TPOT_FLOOR
  }

  // Under the weaker line the pruner's test is exact precisely when a reported
  // limit lies at or below the unscaled crossing; otherwise it is too low.
  lemma ComparedRateExact(entry: Entry, gpus: Pos, slo: PosReal, limit: Option<int>)
    requires Rising(entry) && entry.intercept < slo && (limit.Some? ==> limit.value > 0)
    ensures WeakRateBound(entry, gpus, slo, limit).Some?
    ensures var weak := WeakRateBound(entry, gpus, slo, limit).value;
            && ComparedRate(entry, gpus, slo, limit) <= weak
            && (ComparedRate(entry, gpus, slo, limit) == weak <==>
                  limit.Some? && limit.value as real <= (slo - entry.intercept) / entry.slope)
  {
    var scaled := slo / BYPASS_TPOT_FLOOR;
    ReachGrows(entry, slo, scaled, limit);
    hide LineRate, BypassReach;
    var a, c := BypassReach(entry, slo, limit), BypassReach(entry, scaled, limit);
    RateGrowsAlongLine(entry, a, c, gpus);
    RateGrowsAlongLine(entry, c, a, gpus);
  }

  lemma ReachGrows(entry: Entry, slo: PosReal, scaled: real, limit: Option<int>)
    requires Rising(entry) && entry.intercept < slo < scaled && (limit.Some? ==> limit.value > 0)
    ensures 0.0 < BypassReach(entry, slo, limit) <= BypassReach(entry, scaled, limit)
    ensures BypassReach(entry, slo, limit) == BypassReach(entry, scaled, limit) <==>
              limit.Some? && limit.value as real <= (slo - entry.intercept) / entry.slope
  {
    var m: PosReal := entry.slope;
    var a, c := (slo - entry.intercept) / m, (scaled - entry.intercept) / m;
    QuotientAtLeast(slo - entry.intercept, m, 0.0, 0.0);
    QuotientTimes(slo - entry.intercept, m);
    QuotientTimes(scaled - entry.intercept, m);
    ProductsOrdered(a, c, m, slo - entry.intercept, scaled - entry.intercept);
  }

  lemma RateAdds(a: real, c: real, t: PosReal, g: Pos)
    ensures Rate(a + c, t, g) == Rate(a, t, g) + Rate(c, t, g)
  {
    var d: PosReal := t * g as real;
    assert (a + c) * NS_PER_S == a * NS_PER_S + c * NS_PER_S;
  }

  lemma RateOverFloor(a: real, t: PosReal, g: Pos)
    ensures Rate(a / BYPASS_TPOT_FLOOR, t, g) == Rate(a, t, g) / BYPASS_TPOT_FLOOR
  {
    var d: PosReal := t * g as real;
    assert a / BYPASS_TPOT_FLOOR * NS_PER_S == a * NS_PER_S / BYPASS_TPOT_FLOOR;
  }

  // At a crossing the line rate is the batch over the SLO.
  lemma CrossingRate(entry: Entry, gpus: Pos, slo: PosReal)
    requires Rising(entry) && entry.intercept < slo
    ensures BypassRateBound(entry, gpus, slo, None) == Some(Rate((slo - entry.intercept) / entry.slope, slo, gpus))
  {
    var batch := (slo - entry.intercept) / entry.slope;
    LineAtCrossing(entry, slo, batch);
    QuotientAtLeast(slo - entry.intercept, entry.slope, 0.0, 0.0);
    LineRateIs(entry, batch, gpus, slo);
    hide LineRate, Rate;
  }

  lemma CrossingGap(intercept: real, slope: PosReal, slo: real, a: real, c: real)
    requires a == (slo - intercept) / slope && c == (slo / BYPASS_TPOT_FLOOR - intercept) / slope
    ensures c == a / BYPASS_TPOT_FLOOR + intercept * (1.0 / BYPASS_TPOT_FLOOR - 1.0) / slope
  {}

  // Without a limit the test falls short by intercept * (1 / BYPASS_TPOT_FLOOR - 1) / slope batches at the SLO.
  lemma ComparedRateGap(entry: Entry, gpus: Pos, slo: PosReal)
    requires Rising(entry) && entry.intercept < slo
    ensures WeakRateBound(entry, gpus, slo, None)
         == Some(ComparedRate(entry, gpus, slo, None)
                 + Rate(entry.intercept * (1.0 / BYPASS_TPOT_FLOOR - 1.0) / entry.slope, slo, gpus))
  {
    var scaled: PosReal := slo / BYPASS_TPOT_FLOOR;
    var a, c := (slo - entry.intercept) / entry.slope, (scaled - entry.intercept) / entry.slope;
    var gap := entry.intercept * (1.0 / BYPASS_TPOT_FLOOR - 1.0) / entry.slope;
    CrossingRate(entry, gpus, slo);
    CrossingRate(entry, gpus, scaled);
    CrossingGap(entry.intercept, entry.slope, slo, a, c);
    hide Rate, BypassRateBound;
    ScaledTpotRate(c, slo, scaled, gpus, BYPASS_TPOT_FLOOR);
    RateOverFloor(a, slo, gpus);
    RateAdds(a / BYPASS_TPOT_FLOOR, gap, slo, gpus);
  }

  // The shares of the bypass line that native TPOT may fall to: any down to
  // BYPASS_TPOT_FLOOR once a limit lies at or under the crossing, else as the
  // line at the limit or at the SLO allows.
  predicate LineShareSuffices(entry: Entry, slo: PosReal, limit: Option<int>, share: real) {
    || !Rising(entry)
    || (limit.Some? && (limit.value <= 0 || (entry.intercept < slo && LineAt(entry, limit.value) <= slo)))
    || (if slo <= entry.intercept then slo <= share * entry.intercept
        else if limit.Some? && share * LineAt(entry, limit.value) <= slo
        then BYPASS_TPOT_FLOOR * slo * (entry.slope * limit.value as real)
             <= share * LineAt(entry, limit.value) * (slo - entry.intercept)
        else BYPASS_TPOT_FLOOR * slo <= share * (slo - (1.0 - BYPASS_TPOT_FLOOR) * entry.intercept))
  }

  // Exactly those shares keep what the line allows within what the pruner compares.
  lemma LineShareExact(entry: Entry, gpus: Pos, slo: PosReal, limit: Option<int>, share: PosReal)
    requires Rising(entry) && BYPASS_TPOT_FLOOR <= share
    ensures SharedRateBound(entry, gpus, slo, limit, share).Some?
    ensures SharedRateBound(entry, gpus, slo, limit, share).value <= ComparedRate(entry, gpus, slo, limit) <==>
              LineShareSuffices(entry, slo, limit, share)
  {
    hide LineShareSuffices, LineRate, BypassReach, LineAt;
    var bounded := limit.Some? && (limit.value <= 0 || (entry.intercept < slo && LineAt(entry, limit.value) <= slo));
    if bounded {
      ShareUnderLimit(entry, gpus, slo, limit, share);
    } else if slo <= entry.intercept {
      ShareAboveSlo(entry, gpus, slo, limit, share);
    } else if limit.Some? && share * LineAt(entry, limit.value) <= slo {
      ShareAtLimit(entry, gpus, slo, limit, share);
    } else {
      ShareAtCrossing(entry, gpus, slo, limit, share);
    }
  }

  lemma ShareUnderLimit(entry: Entry, gpus: Pos, slo: PosReal, limit: Option<int>, share: PosReal)
    requires Rising(entry) && BYPASS_TPOT_FLOOR <= share
    requires limit.Some? && (limit.value <= 0 || (entry.intercept < slo && LineAt(entry, limit.value) <= slo))
    ensures SharedRateBound(entry, gpus, slo, limit, share).Some?
    ensures SharedRateBound(entry, gpus, slo, limit, share).value <= ComparedRate(entry, gpus, slo, limit)
    ensures LineShareSuffices(entry, slo, limit, share)
  {
    hide LineRate, Rate;
    var b, c := BypassReach(entry, slo, limit), BypassReach(entry, slo / share, limit);
    if limit.value > 0 {
      UnderCrossing(entry.intercept, entry.slope, limit.value as real, slo);
      if c > 0.0 {
        RateGrowsAlongLine(entry, b, c, gpus);
        PositiveLineRate(entry, c, gpus);
        LargerShare(LineRate(entry, c, gpus), LineRate(entry, b, gpus), share);
      } else {
        PositiveLineRate(entry, b, gpus);
      }
    }
  }

  lemma PositiveLineRate(entry: Entry, b: real, gpus: Pos)
    requires Rising(entry) && b > 0.0
    ensures LineRate(entry, b, gpus) > 0.0
  {
    ProductPositive(entry.slope, b);
    var line: PosReal := entry.intercept + entry.slope * b;
    LineRateIs(entry, b, gpus, line);
    RateNonnegative(b, line, gpus);
    hide Rate, LineRate;
  }

  lemma LargerShare(x: PosReal, y: real, share: PosReal)
    requires x <= y && BYPASS_TPOT_FLOOR <= share
    ensures x / share <= y / BYPASS_TPOT_FLOOR
  {
    var z := y / BYPASS_TPOT_FLOOR;
    MulAtMost(BYPASS_TPOT_FLOOR, share, z, y, share * z);
    QuotientAtMost(x, share, z, share * z);
  }

  // With the SLO at or under the intercept the pruner compares zero.
  lemma ShareAboveSlo(entry: Entry, gpus: Pos, slo: PosReal, limit: Option<int>, share: PosReal)
    requires Rising(entry) && slo <= entry.intercept && (limit.Some? ==> limit.value > 0)
    ensures SharedRateBound(entry, gpus, slo, limit, share).Some?
    ensures SharedRateBound(entry, gpus, slo, limit, share).value <= ComparedRate(entry, gpus, slo, limit) <==>
              LineShareSuffices(entry, slo, limit, share)
  {
    hide LineRate, Rate;
    var c := BypassReach(entry, slo / share, limit);
    QuotientAtMost(slo - entry.intercept, entry.slope, 0.0, 0.0);
    QuotientAtMost(slo / share - entry.intercept, entry.slope, 0.0, 0.0);
    QuotientAtMost(slo, share, entry.intercept, share * entry.intercept);
    if c > 0.0 {
      PositiveLineRate(entry, c, gpus);
      QuotientAtMost(LineRate(entry, c, gpus), share, 0.0, 0.0);
    }
  }

  // Past the crossing the pruner compares the rate of the crossing over BYPASS_TPOT_FLOOR.
  lemma ComparedAtCrossing(entry: Entry, gpus: Pos, slo: PosReal, limit: Option<int>, a: real)
    requires Rising(entry) && entry.intercept < slo && a == (slo - entry.intercept) / entry.slope
    requires limit.Some? ==> limit.value > 0 && LineAt(entry, limit.value) > slo
    ensures a > 0.0 && ComparedRate(entry, gpus, slo, limit) == Rate(a / BYPASS_TPOT_FLOOR, slo, gpus)
  {
    if limit.Some? { OverCrossing(entry.intercept, entry.slope, limit.value as real, slo); }
    QuotientAtLeast(slo - entry.intercept, entry.slope, 0.0, 0.0);
    LineAtCrossing(entry, slo, a);
    LineRateIs(entry, a, gpus, slo);
    RateOverFloor(a, slo, gpus);
    hide LineRate, Rate;
  }

  lemma OverCrossing(intercept: real, slope: PosReal, b: real, slo: real)
    requires intercept + slope * b > slo
    ensures b > (slo - intercept) / slope
  {
    QuotientAtMost(slo - intercept, slope, b, slope * b);
  }

  lemma ShareAtLimit(entry: Entry, gpus: Pos, slo: PosReal, limit: Option<int>, share: PosReal)
    requires Rising(entry) && entry.intercept < slo && limit.Some? && limit.value > 0
    requires LineAt(entry, limit.value) > slo && share * LineAt(entry, limit.value) <= slo
    ensures SharedRateBound(entry, gpus, slo, limit, share).Some?
    ensures SharedRateBound(entry, gpus, slo, limit, share).value <= ComparedRate(entry, gpus, slo, limit) <==>
              LineShareSuffices(entry, slo, limit, share)
  {
    hide Rate, LineRate, BypassReach, SharedRateBound, ComparedRate;
    var b, line: PosReal := limit.value as real, LineAt(entry, limit.value);
    var a := (slo - entry.intercept) / entry.slope;
    ComparedAtCrossing(entry, gpus, slo, limit, a);
    var t := SharedAtLimit(entry, gpus, slo, limit, share);
    var x := a / BYPASS_TPOT_FLOOR;
    RatesOrdered(b, t, x, slo, gpus, b * slo, x * t);
    AtLimitAlgebra(entry.slope, slo - entry.intercept, a, b, slo, t);
  }

  lemma SharedAtLimit(entry: Entry, gpus: Pos, slo: PosReal, limit: Option<int>, share: PosReal) returns (t: PosReal)
    requires Rising(entry) && limit.Some? && limit.value > 0 && share * LineAt(entry, limit.value) <= slo
    ensures t == share * LineAt(entry, limit.value)
    ensures SharedRateBound(entry, gpus, slo, limit, share) == Some(Rate(limit.value as real, t, gpus))
  {
    var b := limit.value as real;
    ProductPositive(entry.slope, b);
    var line: PosReal := LineAt(entry, limit.value);
    ProductPositive(share, line);
    t := share * line;
    ReachAtLimit(entry, slo, limit, share);
    LineRateIs(entry, b, gpus, line);
    ScaledTpotRate(b, t, line, gpus, share);
    hide Rate, LineRate, BypassReach;
  }

  lemma ReachAtLimit(entry: Entry, slo: PosReal, limit: Option<int>, share: PosReal)
    requires Rising(entry) && limit.Some? && share * LineAt(entry, limit.value) <= slo
    ensures BypassReach(entry, slo / share, limit) == limit.value as real
  {
    var line := LineAt(entry, limit.value);
    QuotientAtLeast(slo, share, line, share * line);
    UnderCrossing(entry.intercept, entry.slope, limit.value as real, slo / share);
  }

  lemma AtLimitAlgebra(slope: PosReal, room: real, a: real, b: real, slo: real, t: real)
    requires a == room / slope
    ensures b * slo <= a / BYPASS_TPOT_FLOOR * t <==> BYPASS_TPOT_FLOOR * slo * (slope * b) <= t * room
  {
    QuotientTimes(room, slope);
    var k: PosReal := BYPASS_TPOT_FLOOR * slope;
    var x, y := b * slo, a / BYPASS_TPOT_FLOOR * t;
    assert x * k == BYPASS_TPOT_FLOOR * slo * (slope * b);
    assert y * k == a * slope * t;
    assert a * slope * t == room * t;
    ProductsOrdered(x, y, k, x * k, y * k);
  }

  lemma ShareAtCrossing(entry: Entry, gpus: Pos, slo: PosReal, limit: Option<int>, share: PosReal)
    requires Rising(entry) && entry.intercept < slo && BYPASS_TPOT_FLOOR <= share
    requires limit.Some? ==>
             limit.value > 0 && LineAt(entry, limit.value) > slo && share * LineAt(entry, limit.value) > slo
    ensures SharedRateBound(entry, gpus, slo, limit, share).Some?
    ensures SharedRateBound(entry, gpus, slo, limit, share).value <= ComparedRate(entry, gpus, slo, limit) <==>
              LineShareSuffices(entry, slo, limit, share)
  {
    hide Rate, LineRate, BypassReach, SharedRateBound, ComparedRate;
    var a := (slo - entry.intercept) / entry.slope;
    var c := (slo / share - entry.intercept) / entry.slope;
    var x := a / BYPASS_TPOT_FLOOR;
    ComparedAtCrossing(entry, gpus, slo, limit, a);
    SharedAtCrossing(entry, gpus, slo, limit, share, c);
    AtCrossingAlgebra(entry.intercept, entry.slope, slo, share, a, c);
    SharedOrdered(c, x, slo, gpus);
    CrossingCondition(entry, slo, limit, share);
  }

  lemma CrossingCondition(entry: Entry, slo: PosReal, limit: Option<int>, share: PosReal)
    requires Rising(entry) && entry.intercept < slo
    requires limit.Some? ==>
             limit.value > 0 && LineAt(entry, limit.value) > slo && share * LineAt(entry, limit.value) > slo
    ensures LineShareSuffices(entry, slo, limit, share) <==>
              BYPASS_TPOT_FLOOR * slo <= share * (slo - (1.0 - BYPASS_TPOT_FLOOR) * entry.intercept)
  {
    hide LineAt;
  }

  lemma SharedOrdered(c: real, x: PosReal, slo: PosReal, gpus: Pos)
    ensures (if c > 0.0 then Rate(c, slo, gpus) else 0.0) <= Rate(x, slo, gpus) <==> c <= x
  {
    RatesOrdered(c, slo, x, slo, gpus, c * slo, x * slo);
    ProductsOrdered(c, x, slo, c * slo, x * slo);
    RateNonnegative(x, slo, gpus);
    hide Rate;
  }

  lemma SharedAtCrossing(entry: Entry, gpus: Pos, slo: PosReal, limit: Option<int>, share: PosReal, c: real)
    requires Rising(entry) && c == (slo / share - entry.intercept) / entry.slope
    requires limit.Some? ==> share * LineAt(entry, limit.value) > slo
    ensures SharedRateBound(entry, gpus, slo, limit, share) == Some(if c > 0.0 then Rate(c, slo, gpus) else 0.0)
  {
    var scaled := slo / share;
    ReachAtScaled(entry, slo, limit, share);
    if c > 0.0 {
      LineAtCrossing(entry, scaled, c);
      QuotientTimes(slo, share);
      PositiveQuotient(slo, share);
      LineRateIs(entry, c, gpus, scaled);
      ScaledTpotRate(c, slo, scaled, gpus, share);
    }
    hide Rate, LineRate, BypassReach;
  }

  lemma PositiveQuotient(x: PosReal, d: PosReal)
    ensures x / d > 0.0
  {
    QuotientAtLeast(x, d, 0.0, 0.0);
  }

  lemma ReachAtScaled(entry: Entry, slo: PosReal, limit: Option<int>, share: PosReal)
    requires Rising(entry) && (limit.Some? ==> share * LineAt(entry, limit.value) > slo)
    ensures BypassReach(entry, slo / share, limit) == (slo / share - entry.intercept) / entry.slope
  {
    if limit.Some? {
      var line := LineAt(entry, limit.value);
      QuotientAtMost(slo, share, line, share * line);
      OverCrossing(entry.intercept, entry.slope, limit.value as real, slo / share);
    }
  }

  // The crossings compare as the shares of the SLO above the intercept do.
  lemma AtCrossingAlgebra(intercept: PosReal, slope: PosReal, slo: PosReal, share: PosReal, a: real, c: real)
    requires a == (slo - intercept) / slope && c == (slo / share - intercept) / slope
    ensures c <= a / BYPASS_TPOT_FLOOR <==>
              BYPASS_TPOT_FLOOR * slo <= share * (slo - (1.0 - BYPASS_TPOT_FLOOR) * intercept)
  {
    QuotientTimes(slo - intercept, slope);
    QuotientTimes(slo / share - intercept, slope);
    QuotientTimes(slo, share);
    var k: PosReal := BYPASS_TPOT_FLOOR * slope;
    var x, y := c * BYPASS_TPOT_FLOOR * slope, a * slope;
    assert x == BYPASS_TPOT_FLOOR * (slo / share - intercept);
    ProductsOrdered(c, a / BYPASS_TPOT_FLOOR, k, x, y);
    var u, v := BYPASS_TPOT_FLOOR * (slo / share - intercept), slo - intercept;
    assert share * (slo / share - intercept) == slo - share * intercept;
    ProductsOrdered(u, v, share, BYPASS_TPOT_FLOOR * (slo - share * intercept), share * v);
  }

  // Over real batches, a share that does not suffice admits one within the SLO, faster than the pruner compares.
  lemma LineShareNeeded(entry: Entry, gpus: Pos, slo: PosReal, limit: Option<int>, share: PosReal) returns (b: real,
    t: PosReal)
    requires Rising(entry) && BYPASS_TPOT_FLOOR <= share && !LineShareSuffices(entry, slo, limit, share)
    ensures b > 0.0 && (limit.Some? ==> b <= limit.value as real)
    ensures t == share * (entry.intercept + entry.slope * b) && t <= slo
    ensures Rate(b, t, gpus) > ComparedRate(entry, gpus, slo, limit)
  {
    LineShareExact(entry, gpus, slo, limit, share);
    ComparedNonnegative(entry, gpus, slo, limit);
    hide Rate, LineShareSuffices, LineRate;
    b, t := SharedRateAttained(entry, gpus, slo, limit, share);
  }

  lemma ComparedNonnegative(entry: Entry, gpus: Pos, slo: PosReal, limit: Option<int>)
    requires Rising(entry)
    ensures ComparedRate(entry, gpus, slo, limit) >= 0.0
  {
    var b := BypassReach(entry, slo, limit);
    if b > 0.0 { PositiveLineRate(entry, b, gpus); }
    hide LineRate, Rate;
  }

  // A share that suffices without a limit suffices with any.
  lemma CrossingShareSuffices(entry: Entry, slo: PosReal, limit: Option<int>, share: PosReal)
    requires BYPASS_TPOT_FLOOR <= share && entry.intercept < slo
    requires BYPASS_TPOT_FLOOR * slo <= share * (slo - (1.0 - BYPASS_TPOT_FLOOR) * entry.intercept)
    ensures LineShareSuffices(entry, slo, limit, share)
  {
    if limit.Some? && Rising(entry) {
      var line, room := LineAt(entry, limit.value), slo - entry.intercept;
      if share * line <= slo && line > slo {
        LimitBetween(entry.intercept, slo, share, line, share * line);
        assert entry.slope * limit.value as real == line - entry.intercept;
      }
    }
  }

  lemma LimitBetween(intercept: PosReal, slo: PosReal, share: PosReal, line: PosReal, scaled: real)
    requires scaled == share * line && scaled <= slo && intercept < slo
    requires BYPASS_TPOT_FLOOR * slo <= share * (slo - (1.0 - BYPASS_TPOT_FLOOR) * intercept)
    ensures BYPASS_TPOT_FLOOR * slo * (line - intercept) <= share * line * (slo - intercept)
  {
    var whole, part: PosReal := share * slo, share * intercept;
    var k := whole - part - BYPASS_TPOT_FLOOR * slo;
    assert share * (slo - (1.0 - BYPASS_TPOT_FLOOR) * intercept) == whole - (1.0 - BYPASS_TPOT_FLOOR) * part;
    ScaledRoom(scaled, slo, part, k);
    ScaledSides(intercept, slo, share, line, scaled, whole, part);
    ProductsOrdered(BYPASS_TPOT_FLOOR * slo * (line - intercept), scaled * (slo - intercept), share,
                    BYPASS_TPOT_FLOOR * slo * (scaled - part), scaled * (whole - part));
  }

  lemma ScaledRoom(scaled: real, slo: PosReal, part: PosReal, k: real)
    requires 0.0 <= scaled <= slo && k + BYPASS_TPOT_FLOOR * part >= 0.0
    ensures BYPASS_TPOT_FLOOR * slo * (scaled - part) <= scaled * (k + BYPASS_TPOT_FLOOR * slo)
  {
    MulNonnegative(scaled, k + BYPASS_TPOT_FLOOR * part);
    MulNonnegative(slo - scaled, part);
    assert scaled * (k + BYPASS_TPOT_FLOOR * part) == scaled * k + BYPASS_TPOT_FLOOR * (scaled * part);
    assert (slo - scaled) * part == slo * part - scaled * part;
    assert scaled * (k + BYPASS_TPOT_FLOOR * slo) == scaled * k + BYPASS_TPOT_FLOOR * (scaled * slo);
    assert BYPASS_TPOT_FLOOR * slo * (scaled - part)
      == BYPASS_TPOT_FLOOR * (scaled * slo) - BYPASS_TPOT_FLOOR * (slo * part);
  }

  lemma ScaledSides(intercept: real, slo: real, share: real, line: real, scaled: real, whole: real, part: real)
    requires scaled == share * line && whole == share * slo && part == share * intercept
    ensures BYPASS_TPOT_FLOOR * slo * (line - intercept) * share == BYPASS_TPOT_FLOOR * slo * (scaled - part)
    ensures scaled * (slo - intercept) * share == scaled * (whole - part)
  {
    assert (line - intercept) * share == scaled - part;
    assert (slo - intercept) * share == whole - part;
    Regroup(BYPASS_TPOT_FLOOR * slo, line - intercept, share);
    Regroup(scaled, slo - intercept, share);
  }

  lemma Regroup(x: real, y: real, z: real)
    ensures x * y * z == x * (y * z)
  {}

  // A native TPOT of 0.996 of the line suffices while its intercept is at most 0.92 of the SLO.
  lemma ReportedShareSuffices(entry: Entry, slo: PosReal, limit: Option<int>)
    requires entry.intercept <= 0.92 * slo
    ensures LineShareSuffices(entry, slo, limit, 0.996)
  {
    CrossingShareSuffices(entry, slo, limit, 0.996);
  }

  // Native TPOT on the line itself always suffices.
  lemma WholeLineSuffices(entry: Entry, slo: PosReal, limit: Option<int>)
    ensures LineShareSuffices(entry, slo, limit, 1.0)
  {}

  // A layout dropped by that test although batch 110 reaches the incumbent within the SLO.
  lemma WeakLinePrunedTooEarly(entry: Entry) returns (n: Native)
    requires entry.intercept == 50.0 && entry.slope == 0.5
    ensures EstimateUnderUpper(n) && AboveLine(n, entry, BYPASS_TPOT_FLOOR)
    ensures RateVerdict(entry, 100.0, 1, 1.1 * NS_PER_S, None, [], []) == Drop(BypassRateBelow)
    ensures n.Passes(110, 100.0) && Rate(110.0, n.tpot(110), 1) > 1.1 * NS_PER_S
  {
    var line: int -> PosReal := b => if b > 0 then BYPASS_TPOT_FLOOR * (50.0 + 0.5 * b as real) else 1.0;
    n := Native(line, line, b => true);
    CrossingRate(entry, 1, 100.0);
    assert RejectionLimits([]) == [];
    assert n.tpot(110) == 99.75;
  }

  // ----- One behaviour that meets every assumption

  const EXAMPLE_RUNS := [Run(200, TooBig, CapacityRejected, None, None)]
  const EXAMPLE_POINTS := [Point(50, 75.0, 75.0, Completed, 0.0, None),
                           Point(120, 110.0, 110.0, SloRejected, 0.0, None)]

  function OnTheLine(): Native {
    var line: int -> PosReal := b => if b > 0 then 50.0 + 0.5 * b as real else 1.0;
    Native(line, line, b => b < 200)
  }

  lemma ExampleRate(entry: Entry, p: Point, b: int)
    requires entry.intercept == 50.0 && entry.slope == 0.5 && p in EXAMPLE_POINTS && 0 < b <= p.batch
    ensures Rate(b as real, OnTheLine().tpot(b), 1) <= PointRate(p, 1) * (1.0 + RATE_MARGIN)
  {
    var n := OnTheLine();
    var a, c := b as real, p.batch as real;
    assert n.tpot(p.batch) == p.tpot;
    RateGrowsAlongLine(entry, c, a, 1);
    LineRateIs(entry, a, 1, n.tpot(b));
    LineRateIs(entry, c, 1, p.tpot);
    PointRateIs(p, 1);
    RateNonnegative(c, p.tpot, 1);
  }

  // TPOT on the bypass line, a passing and a failing point, and a too-big run:
  // both pruners drop the layout, and every assumption of their soundness holds.
  lemma AssumptionsMeet(entry: Entry)
    requires entry.intercept == 50.0 && entry.slope == 0.5 && entry.capacityMaxBatch == 200
    ensures var n, runs, points := OnTheLine(), EXAMPLE_RUNS, EXAMPLE_POINTS;
            && EstimateUnderUpper(n) && AboveLine(n, entry, 1.0) && AboveLine(n, entry, BYPASS_TPOT_FLOOR)
            && LineShareSuffices(entry, 100.0, RunLimit(runs), 1.0)
            && RejectionsBind(n, runs) && PositiveBatches(points) && MeasuredFrom(n, points)
            && PassesBelowFailures(n, points, 100.0) && RateMarginHolds(n, points, 1, 100.0)
            && CapacityBinds(n, entry, points) && BatchMarginHolds(n, points, 100.0)
            && SlopeHolds(n, points, entry, 100.0, SLOPE_FLOOR) && n.Passes(100, 100.0)
            && RateVerdict(entry, 100.0, 1, 2.0 * NS_PER_S, Some(SLOPE_FLOOR), runs, points) == Drop(BypassRateBelow)
            && BatchVerdict(entry, 100.0, 1, 120.0, Some(SLOPE_FLOOR), runs, points) == Drop(BypassBatchNotAbove)
  {
    hide Rate;
    var n, runs, points := OnTheLine(), EXAMPLE_RUNS, EXAMPLE_POINTS;
    forall x ensures LimitReported(runs, x) <==> x == 199 {
      assert x == 199 ==> runs[0].kind.TooBig? && runs[0].batch - 1 == x;
    }
    forall p, b | p in points && n.Passes(b, 100.0) && b <= p.batch
      ensures Rate(b as real, n.tpot(b), 1) <= PointRate(p, 1) * (1.0 + RATE_MARGIN)
    {
      ExampleRate(entry, p, b);
    }
    WholeLineSuffices(entry, 100.0, RunLimit(runs));
    ExampleVerdicts(entry);
  }

  lemma ExampleVerdicts(entry: Entry)
    requires entry.intercept == 50.0 && entry.slope == 0.5 && entry.capacityMaxBatch == 200
    ensures RateVerdict(entry, 100.0, 1, 2.0 * NS_PER_S, Some(SLOPE_FLOOR), EXAMPLE_RUNS,
                        EXAMPLE_POINTS) == Drop(BypassRateBelow)
    ensures BatchVerdict(entry, 100.0, 1, 120.0, Some(SLOPE_FLOOR), EXAMPLE_RUNS,
                         EXAMPLE_POINTS) == Drop(BypassBatchNotAbove)
  {
    var runs := EXAMPLE_RUNS;
    assert runs[0].kind.TooBig? && LimitReported(runs, 199);
    assert forall x :: LimitReported(runs, x) ==> x == 199;
    var limits := RejectionLimits(runs);
    assert limits != [] && MinSeq(limits) == 199;
    assert BypassReach(entry, 100.0, Some(199)) == 100.0;
    var line: PosReal := 100.0;
    LineRateIs(entry, 100.0, 1, line);
    assert Rate(100.0, line, 1) == NS_PER_S;
    var all := BatchLimits(entry, runs, EXAMPLE_POINTS);
    assert all == limits + [200];
    assert MinSeq(all) == 199;
  }
}
