// What a replay with another incumbent and slope floor still drops.
module FloorPruning {
  import opened Prelude
  import opened RealFacts
  import opened NativeSearch
  import opened NativeBounds
  import opened SearchFacts
  import opened PruningSoundness
  import opened SlopeFloorFacts

  // A passing point's estimate is within the SLO, as it is at most its upper bound.
  predicate EstimatesWithin(points: seq<Point>, slo: real) {
    forall p :: p in points && Within(p, slo) ==> p.tpot <= slo
  }

  // ----- A floor that does not fall keeps every drop

  lemma ReachFalls(p: Point, slo: real, slope: PosReal, steeper: PosReal)
    requires p.tpot <= slo && slope <= steeper
    ensures SlopeReach(p, slo, steeper) <= SlopeReach(p, slo, slope)
  {
    var room := slo - p.tpot;
    var x := room / slope;
    QuotientTimes(room, slope);
    QuotientAtLeast(room, slope, 0.0, 0.0);
    MulNonnegative(x, steeper - slope);
    assert x * steeper == x * slope + x * (steeper - slope);
    QuotientAtMost(room, steeper, x, x * steeper);
  }

  lemma MoreBatches(a: real, c: real, t: PosReal, gpus: Pos)
    requires a <= c
    ensures Rate(a, t, gpus) <= Rate(c, t, gpus)
  {
    MulAtMost(a, c, t, a * t, c * t);
    RatesOrdered(a, t, c, t, gpus, a * t, c * t);
  }

  lemma SteeperBounds(entry: Entry, p: Point, gpus: Pos, slo: PosReal, floor: real, later: real)
    requires 0.0 < floor <= later && p.tpot <= slo && SlopeRateBound(entry, p, gpus, slo, floor).Some?
    ensures SlopeRateBound(entry, p, gpus, slo, later).Some? && SlopeBatchBound(entry, p, slo, later).Some?
    ensures SlopeRateBound(entry, p, gpus, slo, later).value <= SlopeRateBound(entry, p, gpus, slo, floor).value
    ensures SlopeBatchBound(entry, p, slo, later).value <= SlopeBatchBound(entry, p, slo, floor).value
  {
    var slope: PosReal := FloorSlope(entry, floor);
    SteeperSlope(entry, floor, later);
    var steeper: PosReal := FloorSlope(entry, later);
    hide FloorSlope, SlopeReach, Rate, RaisedRate;
    ReachFalls(p, slo, slope, steeper);
    MoreBatches(SlopeReach(p, slo, steeper), SlopeReach(p, slo, slope), slo, gpus);
  }

  lemma SteeperSlope(entry: Entry, floor: real, later: real)
    requires 0.0 < floor <= later && FloorSlope(entry, floor) > 0.0
    ensures FloorSlope(entry, floor) <= FloorSlope(entry, later)
  {
    var s := entry.slope;
    ProductsOrdered(0.0, s, floor, 0.0, floor * s);
    MulAtMost(floor, later, s, floor * s, later * s);
  }

  // A floor that bounds nothing on a layout, or one that did not fall.
  predicate FloorKept(entry: Entry, floor: Option<real>, later: Option<real>) {
    floor.Some? ==> FloorSlope(entry, floor.value) <= 0.0 || (later.Some? && 0.0 < floor.value <= later.value)
  }

  // With an incumbent that did not fall, and a floor that did not, both pruners
  // drop whatever they dropped, on the same runs and points.
  lemma FloorDrops(entry: Entry, slo: PosReal, gpus: Pos, low: real, high: real, floor: Option<real>,
                   later: Option<real>, runs: seq<Run>, points: seq<Point>)
    requires low <= high && EstimatesWithin(points, slo) && FloorKept(entry, floor, later)
    ensures RateVerdict(entry, slo, gpus, low, floor, runs, points).Drop? ==>
              RateVerdict(entry, slo, gpus, high, later, runs, points).Drop?
    ensures BatchVerdict(entry, slo, gpus, low, floor, runs, points).Drop? ==>
              BatchVerdict(entry, slo, gpus, high, later, runs, points).Drop?
  {
    hide BypassRateBound, BypassBatchBound, SlopeRateBound, SlopeBatchBound, PointRate, BatchLimits, RunLimit,
      FloorSlope;
    if floor.Some? {
      if FloorSlope(entry, floor.value) <= 0.0 {
        forall p | p in points
          ensures SlopeRateBound(entry, p, gpus, slo, floor.value).None?
                    && SlopeBatchBound(entry, p, slo, floor.value).None?
        {
          NoSlopeBound(entry, p, gpus, slo, floor.value);
        }
      } else {
        forall p | p in points && p.upper <= slo
          ensures BoundBelow(SlopeRateBound(entry, p, gpus, slo, floor.value), low) ==>
                    BoundBelow(SlopeRateBound(entry, p, gpus, slo, later.value), high)
          ensures var b := SlopeBatchBound(entry, p, slo, floor.value); b.Some? && b.value / gpus as real <= low ==>
                    var c := SlopeBatchBound(entry, p, slo, later.value); c.Some? && c.value / gpus as real <= high
        {
          assert Within(p, slo);
          PointDrops(entry, p, slo, gpus, low, high, floor.value, later.value);
        }
      }
    }
  }

  lemma NoSlopeBound(entry: Entry, p: Point, gpus: Pos, slo: PosReal, floor: real)
    requires FloorSlope(entry, floor) <= 0.0
    ensures SlopeRateBound(entry, p, gpus, slo, floor).None? && SlopeBatchBound(entry, p, slo, floor).None?
  {}

  lemma PointDrops(entry: Entry, p: Point, slo: PosReal, gpus: Pos, low: real, high: real, floor: real, later: real)
    requires low <= high && 0.0 < floor <= later && p.tpot <= slo
    ensures BoundBelow(SlopeRateBound(entry, p, gpus, slo, floor), low) ==>
              BoundBelow(SlopeRateBound(entry, p, gpus, slo, later), high)
    ensures var b := SlopeBatchBound(entry, p, slo, floor); b.Some? && b.value / gpus as real <= low ==>
              var c := SlopeBatchBound(entry, p, slo, later); c.Some? && c.value / gpus as real <= high
  {
    SlopeBoundsTogether(entry, p, gpus, slo, floor);
    hide SlopeRateBound, SlopeBatchBound;
    if SlopeRateBound(entry, p, gpus, slo, floor).Some? {
      SteeperBounds(entry, p, gpus, slo, floor, later);
      var b, c := SlopeBatchBound(entry, p, slo, floor).value, SlopeBatchBound(entry, p, slo, later).value;
      if b / gpus as real <= low { PerGpu(c, b, gpus, low); }
    }
  }

  lemma SlopeBoundsTogether(entry: Entry, p: Point, gpus: Pos, slo: PosReal, floor: real)
    ensures SlopeRateBound(entry, p, gpus, slo, floor).Some? <==> SlopeBatchBound(entry, p, slo, floor).Some?
  {}

  // ----- More measured points never raise a floor

  lemma MoreRatiosLowerFloor(plans: seq<Measurement>, more: seq<Measurement>, slo: real)
    requires forall m :: m in plans || m in more ==> PositiveBatches(m.points)
    requires forall x :: Ratio(plans, slo, x) ==> Ratio(more, slo, x)
    ensures SlopeFloor(plans, slo).Some? ==>
              SlopeFloor(more, slo).Some? && SlopeFloor(more, slo).value <= SlopeFloor(plans, slo).value
  {
    hide SlopeFloor, Ratio;
    SlopeFloorExact(plans, slo);
    SlopeFloorExact(more, slo);
    if SlopeFloor(plans, slo).Some? {
      var a :| IsLeast(plans, slo, a) && SlopeFloor(plans, slo).value == SLOPE_FLOOR * a;
      var x :| Ratio(plans, slo, x);
      assert Ratio(more, slo, x);
      var c :| IsLeast(more, slo, c) && SlopeFloor(more, slo).value == SLOPE_FLOOR * c;
      assert c <= a;
    }
  }

  // ----- Exactly the floors that keep every drop

  ghost predicate RateDropsPersist(slo: PosReal, incumbent: real, floor: real, later: real) {
    forall entry, gpus, runs, points ::
      EstimatesWithin(points, slo) && RateVerdict(entry, slo, gpus, incumbent, Some(floor), runs, points).Drop? ==>
        RateVerdict(entry, slo, gpus, incumbent, Some(later), runs, points).Drop?
  }

  ghost predicate BatchDropsPersist(slo: PosReal, incumbent: real, floor: real, later: real) {
    forall entry, gpus, runs, points ::
      EstimatesWithin(points, slo) && BatchVerdict(entry, slo, gpus, incumbent, Some(floor), runs, points).Drop? ==>
        BatchVerdict(entry, slo, gpus, incumbent, Some(later), runs, points).Drop?
  }

  // A passing point with 0.4 of the SLO to spare, on a layout of this bypass slope.
  function SparePoint(slo: PosReal): (p: Point)
    ensures p.batch == 1 && p.tpot == p.upper == 0.6 * slo && Within(p, slo)
  {
    Point(1, 0.6 * slo, 0.6 * slo, Completed, 0.0, None)
  }

  function FlatEntry(slope: real, capacity: int): Entry { Entry(1, 1, 1, 1, capacity, 0.0, slope) }

  // The point reaches the SLO after 0.4 * slo / slope further batches.
  lemma SpareReach(slo: PosReal, slope: PosReal, x: real)
    requires x * slope == 0.4 * slo
    ensures SlopeReach(SparePoint(slo), slo, slope) == 1.0 + x
  {
    var room := slo - SparePoint(slo).tpot;
    QuotientTimes(room, slope);
    ProductsOrdered(room / slope, x, slope, room, x * slope);
    ProductsOrdered(x, room / slope, slope, x * slope, room);
  }

  // The slope at which a floor reaches the SLO after this many further batches.
  lemma SlopeFor(slo: PosReal, floor: PosReal, x: PosReal) returns (slope: PosReal)
    ensures x * (floor * slope) == 0.4 * slo
  {
    ProductPositive(x, floor);
    var k: PosReal := x * floor;
    PositiveQuotient(0.4 * slo, k);
    slope := 0.4 * slo / k;
    QuotientTimes(0.4 * slo, k);
    Regroup(x, floor, slope);
  }

  // Enough GPUs for a product of at least two.
  lemma Enough(a: PosReal) returns (n: Pos)
    ensures a * n as real >= 2.0
  {
    PositiveQuotient(2.0, a);
    n := (2.0 / a).Floor + 1;
    QuotientAtMost(2.0, a, n as real, n as real * a);
  }

  lemma RateAgainst(x: real, t: PosReal, gpus: Pos, incumbent: real, room: real)
    requires room == incumbent * (t * gpus as real)
    ensures Rate(x, t, gpus) < incumbent <==> x * NS_PER_S < room
  {
    var d: PosReal := t * gpus as real;
    QuotientAtMost(x * NS_PER_S, d, incumbent, room);
  }

  // A layout dropped at one floor and kept at a lower one.
  lemma LowerFloorKeeps(slo: PosReal, incumbent: PosReal, floor: PosReal, later: real)
    returns (entry: Entry, gpus: Pos, points: seq<Point>)
    requires later < floor
    ensures EstimatesWithin(points, slo)
    ensures RateVerdict(entry, slo, gpus, incumbent, Some(floor), [], points) == Drop(SlopeRateBelow)
    ensures RateVerdict(entry, slo, gpus, incumbent, Some(later), [], points) == Keep
  {
    hide Rate, PointRate, SlopeReach, FloorSlope;
    ProductPositive(incumbent, slo);
    var k: PosReal := incumbent * slo / NS_PER_S;
    gpus := Enough(k);
    var reach := k * gpus as real;
    var held: PosReal := if later > 0.0 then later else floor / 2.0;
    var slope := SlopeFor(slo, held, reach - 1.0);
    var p := SparePoint(slo);
    entry := FlatEntry(slope, 1);
    points := [p];
    SpareBounds(slo, incumbent, gpus, floor, held, slope, reach, p);
    FlatSlope(entry, slope, floor, held);
    if later <= 0.0 { FallingSlope(entry, later); }
    OnePointVerdict(entry, slo, gpus, incumbent, floor, p);
    OnePointVerdict(entry, slo, gpus, incumbent, later, p);
  }

  lemma FlatSlope(entry: Entry, slope: PosReal, floor: PosReal, held: PosReal)
    requires entry.slope == slope
    ensures FloorSlope(entry, floor) == floor * slope > 0.0 && FloorSlope(entry, held) == held * slope > 0.0
  {
    ProductPositive(floor, slope);
    ProductPositive(held, slope);
  }

  lemma FallingSlope(entry: Entry, later: real)
    requires entry.slope > 0.0 && later <= 0.0
    ensures FloorSlope(entry, later) <= 0.0
  {
    MulNonnegative(-later, entry.slope);
    assert -later * entry.slope == -(later * entry.slope);
  }

  // With one passing point, no rejection and no rising bypass line, only the slope bound can drop a layout.
  lemma OnePointVerdict(entry: Entry, slo: PosReal, gpus: Pos, incumbent: real, floor: real, p: Point)
    requires !Rising(entry) && Within(p, slo)
    ensures RateVerdict(entry, slo, gpus, incumbent, Some(floor), [], [p])
         == if BoundBelow(SlopeRateBound(entry, p, gpus, slo, floor), incumbent) then Drop(SlopeRateBelow) else Keep
  {
    hide SlopeRateBound, PointRate;
    assert [p][0] == p;
  }

  lemma SpareBounds(slo: PosReal, incumbent: PosReal, gpus: Pos, floor: PosReal, held: PosReal, slope: PosReal,
                    reach: real, p: Point)
    requires held < floor && p == SparePoint(slo) && reach == incumbent * slo / NS_PER_S * gpus as real && reach >= 2.0
    requires (reach - 1.0) * (held * slope) == 0.4 * slo
    ensures held * slope > 0.0 && floor * slope > 0.0
    ensures RaisedRate(p, gpus) < incumbent
    ensures Rate(SlopeReach(p, slo, held * slope), slo, gpus) >= incumbent
    ensures Rate(SlopeReach(p, slo, floor * slope), slo, gpus) < incumbent
  {
    ProductPositive(held, slope);
    ProductPositive(floor, slope);
    var room := incumbent * (slo * gpus as real);
    RoomIs(incumbent, slo, gpus as real, reach, room);
    SpareReach(slo, held * slope, reach - 1.0);
    RateAgainst(reach, slo, gpus, incumbent, room);
    var x := 0.4 * slo / (floor * slope);
    QuotientTimes(0.4 * slo, floor * slope);
    SpareReach(slo, floor * slope, x);
    MulLess(held, floor, slope, held * slope, floor * slope);
    MulLess(held * slope, floor * slope, reach - 1.0, held * slope * (reach - 1.0), floor * slope * (reach - 1.0));
    ProductsOrdered(x, reach - 1.0, floor * slope, x * (floor * slope), (reach - 1.0) * (floor * slope));
    RateAgainst(1.0 + x, slo, gpus, incumbent, room);
    RaisedBelow(slo, incumbent, gpus, room, p);
    hide Rate, SlopeReach, RaisedRate;
  }

  lemma RoomIs(incumbent: real, slo: real, gpus: real, reach: real, room: real)
    requires reach == incumbent * slo / NS_PER_S * gpus && room == incumbent * (slo * gpus)
    ensures room == reach * NS_PER_S
  {
    Regroup(incumbent, slo, gpus);
    var x := incumbent * slo;
    assert x / NS_PER_S * gpus * NS_PER_S == x * gpus;
  }

  lemma RaisedBelow(slo: PosReal, incumbent: PosReal, gpus: Pos, room: real, p: Point)
    requires p == SparePoint(slo) && room == incumbent * (slo * gpus as real) && room >= 2.0 * NS_PER_S
    ensures RaisedRate(p, gpus) < incumbent
  {
    var t: PosReal := 0.6 * slo;
    var d: PosReal := t * gpus as real;
    assert incumbent * d == 0.6 * room;
    var rate := PointRate(p, gpus);
    PointRateIs(p, gpus);
    QuotientTimes(NS_PER_S, d);
    assert rate * d == NS_PER_S;
    ProductsOrdered(rate * 1.1, incumbent, d, 1.1 * NS_PER_S, incumbent * d)
      by { assert rate * 1.1 * d == rate * d * 1.1; }
  }

  // At one incumbent and a positive floor, the throughput pruner keeps dropping
  // every dropped layout exactly when the floor does not fall.
  lemma RateDropsPersistExactly(slo: PosReal, incumbent: PosReal, floor: PosReal, later: real)
    ensures RateDropsPersist(slo, incumbent, floor, later) <==> floor <= later
  {
    hide RateVerdict;
    if floor <= later {
      forall entry, gpus, runs, points | EstimatesWithin(points, slo)
        && RateVerdict(entry, slo, gpus, incumbent, Some(floor), runs, points).Drop?
        ensures RateVerdict(entry, slo, gpus, incumbent, Some(later), runs, points).Drop?
      {
        FloorDrops(entry, slo, gpus, incumbent, incumbent, Some(floor), Some(later), runs, points);
      }
    } else {
      var entry, gpus, points := LowerFloorKeeps(slo, incumbent, floor, later);
    }
  }

  // ----- The batch pruner

  lemma OnePointBatchVerdict(entry: Entry, slo: PosReal, gpus: Pos, incumbent: real, floor: real, p: Point)
    requires !Rising(entry) && Within(p, slo) && p.batch < entry.capacityMaxBatch
    requires entry.capacityMaxBatch as real / gpus as real > incumbent
    ensures BatchVerdict(entry, slo, gpus, incumbent, Some(floor), [], [p])
         == var bound := SlopeBatchBound(entry, p, slo, floor);
            if bound.Some? && bound.value / gpus as real <= incumbent then Drop(SlopeBatchNotAbove) else Keep
  {
    hide SlopeBatchBound;
    assert [p][0] == p;
    assert BatchLimits(entry, [], [p]) == [entry.capacityMaxBatch];
  }

  lemma LowerFloorKeepsBatch(slo: PosReal, incumbent: PosReal, floor: PosReal, later: real)
    returns (entry: Entry, gpus: Pos, points: seq<Point>)
    requires later < floor
    ensures EstimatesWithin(points, slo)
    ensures BatchVerdict(entry, slo, gpus, incumbent, Some(floor), [], points) == Drop(SlopeBatchNotAbove)
    ensures BatchVerdict(entry, slo, gpus, incumbent, Some(later), [], points) == Keep
  {
    hide SlopeReach, FloorSlope;
    gpus := Enough(incumbent);
    var g: PosReal := gpus as real;
    var reach := incumbent * g;
    var slope := SlopeFor(slo, floor, reach - 1.0);
    var p := SparePoint(slo);
    var capacity := reach.Floor + 1;
    entry := FlatEntry(slope, capacity);
    points := [p];
    QuotientAtLeast(capacity as real, g, incumbent, reach);
    ProductPositive(floor, slope);
    FlatSlope(entry, slope, floor, floor);
    SpareReach(slo, floor * slope, reach - 1.0);
    QuotientAtMost(reach, g, incumbent, reach);
    if later > 0.0 {
      FlatSlope(entry, slope, floor, later);
      LongerReach(slo, floor, later, slope, reach, p);
      QuotientAtLeast(SlopeReach(p, slo, later * slope), g, incumbent, reach);
    } else {
      FallingSlope(entry, later);
    }
    OnePointBatchVerdict(entry, slo, gpus, incumbent, floor, p);
    OnePointBatchVerdict(entry, slo, gpus, incumbent, later, p);
  }

  lemma LongerReach(slo: PosReal, floor: PosReal, later: PosReal, slope: PosReal, reach: real, p: Point)
    requires later < floor && p == SparePoint(slo) && reach >= 2.0 && (reach - 1.0) * (floor * slope) == 0.4 * slo
    ensures later * slope > 0.0 && SlopeReach(p, slo, later * slope) > reach
  {
    ProductPositive(later, slope);
    var x := 0.4 * slo / (later * slope);
    QuotientTimes(0.4 * slo, later * slope);
    SpareReach(slo, later * slope, x);
    MulLess(later, floor, slope, later * slope, floor * slope);
    MulLess(later * slope, floor * slope, reach - 1.0, later * slope * (reach - 1.0), floor * slope * (reach - 1.0));
    ProductsOrdered(reach - 1.0, x, later * slope, (reach - 1.0) * (later * slope), x * (later * slope));
  }

  // The same holds for the batch pruner.
  lemma BatchDropsPersistExactly(slo: PosReal, incumbent: PosReal, floor: PosReal, later: real)
    ensures BatchDropsPersist(slo, incumbent, floor, later) <==> floor <= later
  {
    hide BatchVerdict;
    if floor <= later {
      forall entry, gpus, runs, points | EstimatesWithin(points, slo)
        && BatchVerdict(entry, slo, gpus, incumbent, Some(floor), runs, points).Drop?
        ensures BatchVerdict(entry, slo, gpus, incumbent, Some(later), runs, points).Drop?
      {
        FloorDrops(entry, slo, gpus, incumbent, incumbent, Some(floor), Some(later), runs, points);
      }
    } else {
      var entry, gpus, points := LowerFloorKeepsBatch(slo, incumbent, floor, later);
    }
  }
}
