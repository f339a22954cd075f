// Both pruners' verdicts as inequalities on the runs and points.
module PrunerVerdicts {
  import opened Prelude
  import opened RealFacts
  import opened NativeSearch
  import opened NativeBounds

  // ----- Limits

  // The least capacity that a run reported or a too-big batch left.
  ghost predicate LeastReported(runs: seq<Run>, x: int) {
    LimitReported(runs, x) && forall y :: LimitReported(runs, y) ==> x <= y
  }

  lemma RunLimitIs(runs: seq<Run>, x: int)
    ensures RunLimit(runs) == Some(x) <==> LeastReported(runs, x)
    ensures RunLimit(runs).None? <==> forall y :: !LimitReported(runs, y)
  {
    hide RejectionLimits, LimitReported;
    var limits := RejectionLimits(runs);
    if limits != [] { assert MinSeq(limits) in limits; } else { assert forall y :: y !in limits; }
  }

  // ----- Rates

  // A batch at a TPOT runs slower per GPU than a rate.
  predicate Slower(b: real, t: real, gpus: Pos, rate: real) { b * 1000000000.0 < rate * (t * gpus as real) }

  lemma SlowerIs(b: real, t: PosReal, gpus: Pos, rate: real)
    ensures Slower(b, t, gpus, rate) <==> Rate(b, t, gpus) < rate
  {
    var d: PosReal := t * gpus as real;
    QuotientAtMost(b * NS_PER_S, d, rate, rate * d);
  }

  lemma ScaledRate(b: real, t: PosReal, gpus: Pos)
    ensures Rate(b * 1.1, t, gpus) == Rate(b, t, gpus) * 1.1
  {
    var d: PosReal := t * gpus as real;
    QuotientTimes(b * NS_PER_S, d);
    QuotientTimes(b * 1.1 * NS_PER_S, d);
    TenthMore(Rate(b, t, gpus), Rate(b * 1.1, t, gpus), b * NS_PER_S, d);
  }

  lemma TenthMore(x: real, y: real, n: real, d: PosReal)
    requires x * d == n && y * d == n * 1.1
    ensures y == x * 1.1
  {
    assert x * 1.1 * d == x * d * 1.1;
    ProductsOrdered(y, x * 1.1, d, y * d, x * 1.1 * d);
  }

  // ----- The bypass line

  // The line reaches this TPOT at c.
  predicate Reaches(entry: Entry, t: real, c: real) { entry.intercept + entry.slope * c == t }

  lemma ReachesAt(entry: Entry, t: real)
    requires entry.slope > 0.0
    ensures Reaches(entry, t, (t - entry.intercept) / entry.slope)
  {
    QuotientTimes(t - entry.intercept, entry.slope);
  }

  lemma ReachesOnce(entry: Entry, t: real, a: real, b: real)
    requires entry.slope > 0.0 && Reaches(entry, t, a) && Reaches(entry, t, b)
    ensures a == b
  {
    ProductsOrdered(a, b, entry.slope, a * entry.slope, b * entry.slope);
  }

  // A batch up to the least reported limit.
  ghost predicate CappedAt(runs: seq<Run>, c: real, x: real) {
    if exists y :: LeastReported(runs, y) && y as real < c
    then exists y :: LeastReported(runs, y) && x == y as real
    else x == c
  }

  lemma CappedIs(runs: seq<Run>, c: real, x: real)
    ensures CappedAt(runs, c, x) <==>
              x == if RunLimit(runs).Some? then MinReal(c, RunLimit(runs).value as real) else c
  {
    hide RunLimit, LeastReported;
    if RunLimit(runs).Some? { RunLimitIs(runs, RunLimit(runs).value); }
    forall y | LeastReported(runs, y) ensures RunLimit(runs) == Some(y) { RunLimitIs(runs, y); }
  }

  // Up to the SLO's crossing and the least reported limit.
  ghost predicate RateReach(entry: Entry, slo: real, runs: seq<Run>, x: real) {
    exists c :: Reaches(entry, slo, c) && CappedAt(runs, c, x)
  }

  lemma RateReachIs(entry: Entry, slo: real, runs: seq<Run>, x: real)
    requires Rising(entry)
    ensures RateReach(entry, slo, runs, x) <==> x == BypassReach(entry, slo, RunLimit(runs))
  {
    hide RunLimit, CappedAt, Reaches;
    var c := (slo - entry.intercept) / entry.slope;
    ReachesAt(entry, slo);
    CappedIs(runs, c, x);
    forall d | Reaches(entry, slo, d) ensures d == c { ReachesOnce(entry, slo, c, d); }
  }

  // A rising line bounds the rate; even over 0.95 it is under the incumbent.
  ghost predicate BypassBelow(entry: Entry, gpus: Pos, slo: real, runs: seq<Run>, incumbent: real) {
    && entry.intercept > 0.0 && entry.slope > 0.0
    && exists x :: RateReach(entry, slo, runs, x)
         && if x > 0.0 then SlowerOnLine(entry, x, gpus, 0.95 * incumbent) else 0.0 < incumbent
  }

  predicate SlowerOnLine(entry: Entry, x: real, gpus: Pos, rate: real) {
    Slower(x, entry.intercept + entry.slope * x, gpus, rate)
  }

  lemma BypassBelowIs(entry: Entry, gpus: Pos, slo: real, runs: seq<Run>, incumbent: real)
    ensures BypassBelow(entry, gpus, slo, runs, incumbent) <==>
              var bound := BypassRateBound(entry, gpus, slo, RunLimit(runs));
              bound.Some? && bound.value / BYPASS_TPOT_FLOOR < incumbent
  {
    hide RateReach, SlowerOnLine, Rate, BypassReach, RunLimit, LineRate;
    if Rising(entry) {
      var x := BypassReach(entry, slo, RunLimit(runs));
      forall y | RateReach(entry, slo, runs, y) ensures y == x { RateReachIs(entry, slo, runs, y); }
      RateReachIs(entry, slo, runs, x);
      if x > 0.0 { OnLine(entry, x, gpus, 0.95 * incumbent); }
      var bound := BypassRateBound(entry, gpus, slo, RunLimit(runs)).value;
      QuotientAtMost(bound, 0.95, incumbent, incumbent * 0.95);
    }
  }

  lemma OnLine(entry: Entry, x: real, gpus: Pos, rate: real)
    requires Rising(entry) && x > 0.0
    ensures SlowerOnLine(entry, x, gpus, rate) <==> LineRate(entry, x, gpus) < rate
  {
    assert entry.slope * x > 0.0;
    SlowerIs(x, entry.intercept + entry.slope * x, gpus, rate);
    hide Rate, Slower;
  }

  // ----- Points above the SLO, and within it

  predicate FailsBelow(points: seq<Point>, gpus: Pos, slo: real, incumbent: real) {
    exists p :: p in points && p.upper > slo && Slower(p.batch as real * 1.1, p.tpot, gpus, incumbent)
  }

  lemma FailsBelowIs(points: seq<Point>, gpus: Pos, slo: real, incumbent: real)
    ensures FailsBelow(points, gpus, slo, incumbent) <==>
              exists p :: p in points && p.upper > slo && PointRate(p, gpus) * (1.0 + RATE_MARGIN) < incumbent
  {
    forall p: Point
      ensures Slower(p.batch as real * 1.1, p.tpot, gpus, incumbent) <==>
                PointRate(p, gpus) * (1.0 + RATE_MARGIN) < incumbent
    {
      MarginRate(p, gpus, incumbent);
    }
    hide Slower, PointRate;
  }

  lemma MarginRate(p: Point, gpus: Pos, incumbent: real)
    ensures Slower(p.batch as real * 1.1, p.tpot, gpus, incumbent) <==>
              PointRate(p, gpus) * (1.0 + RATE_MARGIN) < incumbent
  {
    SlowerIs(p.batch as real * 1.1, p.tpot, gpus, incumbent);
    ScaledRate(p.batch as real, p.tpot, gpus);
    hide Slower, Rate;
  }

  // A line of this slope through a point reaches the SLO at r.
  predicate SlopeReaches(p: Point, slo: real, slope: real, r: real) { (r - p.batch as real) * slope == slo - p.tpot }

  lemma SlopeReachIs(p: Point, slo: real, slope: PosReal, r: real)
    ensures SlopeReaches(p, slo, slope, r) <==> r == SlopeReach(p, slo, slope)
  {
    var x := (slo - p.tpot) / slope;
    QuotientTimes(slo - p.tpot, slope);
    ProductsOrdered(r - p.batch as real, x, slope, (r - p.batch as real) * slope, x * slope);
  }

  // Neither where the floor line from the point reaches the SLO nor a tenth over the point gets to the incumbent.
  ghost predicate PointFloorBelow(p: Point, gpus: Pos, slo: real, slope: real, incumbent: real) {
    exists r :: SlopeReaches(p, slo, slope, r) && Slower(r, slo, gpus, incumbent)
                && Slower(p.batch as real * 1.1, p.tpot, gpus, incumbent)
  }

  ghost predicate FloorBelow(entry: Entry, points: seq<Point>, gpus: Pos, slo: real, floor: real, incumbent: real) {
    var slope := FloorSlope(entry, floor);
    slope > 0.0 && exists p :: p in points && p.upper <= slo && PointFloorBelow(p, gpus, slo, slope, incumbent)
  }

  lemma FloorBelowIs(entry: Entry, points: seq<Point>, gpus: Pos, slo: PosReal, floor: real, incumbent: real)
    ensures FloorBelow(entry, points, gpus, slo, floor, incumbent) <==>
              exists p :: p in points && p.upper <= slo
                          && BoundBelow(SlopeRateBound(entry, p, gpus, slo, floor), incumbent)
  {
    hide SlopeReach, PointRate, PointFloorBelow, FloorSlope, Rate, RaisedRate;
    if FloorSlope(entry, floor) > 0.0 {
      forall p: Point
        ensures BoundBelow(SlopeRateBound(entry, p, gpus, slo, floor), incumbent) <==>
                  PointFloorBelow(p, gpus, slo, FloorSlope(entry, floor), incumbent)
      {
        FloorPoint(entry, p, gpus, slo, floor, incumbent);
      }
    }
  }

  lemma FloorPoint(entry: Entry, p: Point, gpus: Pos, slo: PosReal, floor: real, incumbent: real)
    requires FloorSlope(entry, floor) > 0.0
    ensures BoundBelow(SlopeRateBound(entry, p, gpus, slo, floor), incumbent) <==>
              PointFloorBelow(p, gpus, slo, FloorSlope(entry, floor), incumbent)
  {
    hide Slower, SlopeReaches, Rate, SlopeReach, PointRate, FloorSlope;
    var slope: PosReal := FloorSlope(entry, floor);
    var r := SlopeReach(p, slo, slope);
    SlopeReachIs(p, slo, slope, r);
    forall x | SlopeReaches(p, slo, slope, x) ensures x == r { SlopeReachIs(p, slo, slope, x); }
    SlowerIs(r, slo, gpus, incumbent);
    MarginRate(p, gpus, incumbent);
  }

  // The throughput pruner drops a layout exactly on these inequalities, and names the first that holds.
  lemma RateVerdictExactly(entry: Entry, slo: PosReal, gpus: Pos, incumbent: real, floor: Option<real>, runs: seq<Run>,
                           points: seq<Point>)
    ensures RateVerdict(entry, slo, gpus, incumbent, floor, runs, points) ==
              if BypassBelow(entry, gpus, slo, runs, incumbent) then Drop(BypassRateBelow)
              else if FailsBelow(points, gpus, slo, incumbent) then Drop(PointRateBelow)
              else if floor.Some? && FloorBelow(entry, points, gpus, slo, floor.value, incumbent)
                then Drop(SlopeRateBelow)
              else Keep
  {
    BypassBelowIs(entry, gpus, slo, runs, incumbent);
    FailsBelowIs(points, gpus, slo, incumbent);
    if floor.Some? { FloorBelowIs(entry, points, gpus, slo, floor.value, incumbent); }
    hide BypassBelow, FailsBelow, FloorBelow, BypassRateBound, PointRate, SlopeRateBound, RunLimit;
  }

  // ----- The batch pruner

  // What limits the batch: a reported limit, or the bypass capacity until a point reached it.
  predicate BatchLimited(entry: Entry, runs: seq<Run>, points: seq<Point>, x: int) {
    LimitReported(runs, x) || (x == entry.capacityMaxBatch && forall p :: p in points ==> p.batch < x)
  }

  ghost predicate LeastBatchLimit(entry: Entry, runs: seq<Run>, points: seq<Point>, x: int) {
    BatchLimited(entry, runs, points, x) && forall y :: BatchLimited(entry, runs, points, y) ==> x <= y
  }

  lemma BatchLimitsAre(entry: Entry, runs: seq<Run>, points: seq<Point>)
    ensures var limits := BatchLimits(entry, runs, points);
            && (limits == [] <==> forall x :: !BatchLimited(entry, runs, points, x))
            && (limits != [] ==> LeastBatchLimit(entry, runs, points, MinSeq(limits)))
  {
    hide RejectionLimits, LimitReported, MinSeq;
    var limits := BatchLimits(entry, runs, points);
    forall x ensures x in limits <==> BatchLimited(entry, runs, points, x) {
      if x == entry.capacityMaxBatch && !ReachedCapacity(entry, points) { assert limits[|limits| - 1] == x; }
    }
    if limits != [] { assert MinSeq(limits) in limits; } else { assert forall x :: x !in limits; }
  }

  // Where a rising line, at 0.95 of it, reaches the SLO, up to a limit.
  ghost predicate BatchReach(entry: Entry, slo: real, limit: int, x: real) {
    if entry.intercept > 0.0 && entry.slope > 0.0
    then exists c, t :: 0.95 * t == slo && Reaches(entry, t, c) && x == if limit as real < c then limit as real else c
    else x == limit as real
  }

  lemma BatchReachIs(entry: Entry, slo: real, limit: int, x: real)
    ensures BatchReach(entry, slo, limit, x) <==> x == BypassBatchBound(entry, slo, limit)
  {
    hide Reaches;
    if Rising(entry) {
      var s := slo / BYPASS_TPOT_FLOOR;
      assert 0.95 * s == slo;
      ReachesAt(entry, s);
      var c := (s - entry.intercept) / entry.slope;
      forall d, t | 0.95 * t == slo && Reaches(entry, t, d) ensures d == c {
        assert t == s;
        ReachesOnce(entry, s, c, d);
      }
    }
  }

  // The batch over the GPUs is not above the incumbent.
  predicate PerGpuAtMost(b: real, gpus: Pos, incumbent: real) { b <= incumbent * gpus as real }

  lemma PerGpuIs(b: real, gpus: Pos, incumbent: real)
    ensures PerGpuAtMost(b, gpus, incumbent) <==> b / gpus as real <= incumbent
  {
    QuotientAtMost(b, gpus as real, incumbent, incumbent * gpus as real);
  }

  predicate BatchFailsBelow(points: seq<Point>, gpus: Pos, slo: real, incumbent: real) {
    exists p :: p in points && p.upper > slo && PerGpuAtMost(p.batch as real * 1.1, gpus, incumbent)
  }

  lemma BatchFailsBelowIs(points: seq<Point>, gpus: Pos, slo: real, incumbent: real)
    ensures BatchFailsBelow(points, gpus, slo, incumbent) <==>
              exists p :: p in points && p.upper > slo
                          && p.batch as real * (1.0 + RATE_MARGIN) / gpus as real <= incumbent
  {
    hide PerGpuAtMost;
    if p :| p in points && p.upper > slo && PerGpuAtMost(p.batch as real * 1.1, gpus, incumbent) {
      PerGpuIs(p.batch as real * 1.1, gpus, incumbent);
    }
    if p :| p in points && p.upper > slo && p.batch as real * (1.0 + RATE_MARGIN) / gpus as real <= incumbent {
      PerGpuIs(p.batch as real * 1.1, gpus, incumbent);
    }
  }

  ghost predicate PointReachesBelow(p: Point, gpus: Pos, slo: real, slope: real, incumbent: real) {
    exists r :: SlopeReaches(p, slo, slope, r) && PerGpuAtMost(r, gpus, incumbent)
  }

  ghost predicate BatchFloorBelow(entry: Entry, points: seq<Point>, gpus: Pos, slo: real, floor: real,
                                  incumbent: real) {
    var slope := FloorSlope(entry, floor);
    slope > 0.0 && exists p :: p in points && p.upper <= slo && PointReachesBelow(p, gpus, slo, slope, incumbent)
  }

  lemma BatchFloorBelowIs(entry: Entry, points: seq<Point>, gpus: Pos, slo: real, floor: real, incumbent: real)
    ensures BatchFloorBelow(entry, points, gpus, slo, floor, incumbent) <==>
              exists p :: p in points && p.upper <= slo && var b := SlopeBatchBound(entry, p, slo, floor);
                          b.Some? && b.value / gpus as real <= incumbent
  {
    hide PointReachesBelow, FloorSlope, SlopeReach;
    if FloorSlope(entry, floor) > 0.0 {
      forall p: Point
        ensures PointReachesBelow(p, gpus, slo, FloorSlope(entry, floor), incumbent) <==>
                  SlopeReach(p, slo, FloorSlope(entry, floor)) / gpus as real <= incumbent
      {
        BatchFloorPoint(p, gpus, slo, FloorSlope(entry, floor), incumbent);
      }
    }
  }

  lemma BatchFloorPoint(p: Point, gpus: Pos, slo: real, slope: PosReal, incumbent: real)
    ensures PointReachesBelow(p, gpus, slo, slope, incumbent) <==> SlopeReach(p, slo, slope) / gpus as real <= incumbent
  {
    hide SlopeReaches, SlopeReach, PerGpuAtMost;
    var r := SlopeReach(p, slo, slope);
    SlopeReachIs(p, slo, slope, r);
    forall x | SlopeReaches(p, slo, slope, x) ensures x == r { SlopeReachIs(p, slo, slope, x); }
    PerGpuIs(r, gpus, incumbent);
  }

  ghost predicate BatchBypassBelow(entry: Entry, points: seq<Point>, gpus: Pos, slo: real, runs: seq<Run>,
                                   incumbent: real)
  {
    exists limit, x :: LeastBatchLimit(entry, runs, points, limit) && BatchReach(entry, slo, limit, x)
                       && PerGpuAtMost(x, gpus, incumbent)
  }

  // The batch pruner crashes exactly without a limit, and else drops a layout exactly on these inequalities.
  lemma BatchVerdictExactly(entry: Entry, slo: PosReal, gpus: Pos, incumbent: real, floor: Option<real>, runs: seq<Run>,
                            points: seq<Point>)
    ensures BatchVerdict(entry, slo, gpus, incumbent, floor, runs, points) ==
              if forall x :: !BatchLimited(entry, runs, points, x) then Crash
              else if BatchBypassBelow(entry, points, gpus, slo, runs, incumbent) then Drop(BypassBatchNotAbove)
              else if BatchFailsBelow(points, gpus, slo, incumbent) then Drop(PointBatchNotAbove)
              else if floor.Some? && BatchFloorBelow(entry, points, gpus, slo, floor.value, incumbent)
              then Drop(SlopeBatchNotAbove)
              else Keep
  {
    BatchLimitsAre(entry, runs, points);
    if BatchLimits(entry, runs, points) != [] { BatchBypassBelowIs(entry, points, gpus, slo, runs, incumbent); }
    BatchFailsBelowIs(points, gpus, slo, incumbent);
    if floor.Some? { BatchFloorBelowIs(entry, points, gpus, slo, floor.value, incumbent); }
    hide BatchBypassBelow, BatchFailsBelow, BatchFloorBelow, BypassBatchBound, SlopeBatchBound, BatchLimits,
      BatchLimited,
         LeastBatchLimit;
  }

  lemma BatchBypassBelowIs(entry: Entry, points: seq<Point>, gpus: Pos, slo: real, runs: seq<Run>, incumbent: real)
    requires BatchLimits(entry, runs, points) != []
    ensures BatchBypassBelow(entry, points, gpus, slo, runs, incumbent) <==>
              BypassBatchBound(entry, slo, MinSeq(BatchLimits(entry, runs, points))) / gpus as real <= incumbent
  {
    hide BatchLimits, BatchLimited, BatchReach, BypassBatchBound;
    BatchLimitsAre(entry, runs, points);
    var limit := MinSeq(BatchLimits(entry, runs, points));
    var bound := BypassBatchBound(entry, slo, limit);
    BatchReachIs(entry, slo, limit, bound);
    PerGpuIs(bound, gpus, incumbent);
    forall x | BatchReach(entry, slo, limit, x) ensures x == bound { BatchReachIs(entry, slo, limit, x); }
  }
}
