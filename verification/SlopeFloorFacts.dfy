// slope_floor in scripts/exploring_hbf_native_search.py: the safety share of the least measured slope ratio.
module SlopeFloorFacts {
  import opened Prelude
  import opened RealFacts
  import opened NativeSearch
  import opened NativeBounds
  import opened SearchFacts

  // A passing point and one at least MIN_STEP larger.
  predicate Calibrates(low: Point, high: Point, slo: real) {
    low.batch > 0 && Within(low, slo) && high.batch as real >= (1.0 + MIN_STEP) * low.batch as real
  }

  lemma CalibrationGrows(low: Point, high: Point, slo: real)
    requires Calibrates(low, high, slo)
    ensures low.batch < high.batch
  {}

  function SlopeRatio(low: Point, high: Point, slope: PosReal): real
    requires low.batch < high.batch
  {
    (high.tpot - low.tpot) / (high.batch - low.batch) as real / slope
  }

  ghost predicate IsRatio(points: seq<Point>, slope: PosReal, slo: real, x: real) {
    exists low, high :: low in points && high in points && Calibrates(low, high, slo)
                        && low.batch < high.batch && x == SlopeRatio(low, high, slope)
  }

  lemma {:induction false} RatiosFromAre(low: Point, later: seq<Point>, slope: PosReal, slo: real)
    requires low.batch > 0
    ensures forall x :: x in RatiosFrom(low, later, slope, slo) <==>
              exists high :: high in later && Calibrates(low, high,
                                                         slo) && low.batch < high.batch
                                                           && x == SlopeRatio(low, high, slope)
  {
    if later != [] {
      RatiosFromAre(low, later[1..], slope, slo);
      assert later == [later[0]] + later[1..];
      if Calibrates(low, later[0], slo) { CalibrationGrows(low, later[0], slo); }
    }
  }

  lemma {:induction false} RatiosAre(ordered: seq<Point>, slope: PosReal, slo: real)
    requires PositiveBatches(ordered) && SortedByBatch(ordered)
    ensures forall x :: x in Ratios(ordered, slope, slo) <==> IsRatio(ordered, slope, slo, x)
  {
    if ordered != [] {
      var first, rest := ordered[0], ordered[1..];
      assert ordered == [first] + rest;
      RatiosAre(rest, slope, slo);
      RatiosFromAre(first, rest, slope, slo);
      forall x ensures x in Ratios(ordered, slope, slo) <==> IsRatio(ordered, slope, slo, x) {
        RatioSplits(first, rest, slope, slo, x);
      }
    }
  }

  // The smallest point is only ever the lower one of a pair.
  lemma RatioSplits(first: Point, rest: seq<Point>, slope: PosReal, slo: real, x: real)
    requires forall p :: p in rest ==> first.batch <= p.batch
    ensures IsRatio([first] + rest, slope, slo, x) <==>
              || IsRatio(rest, slope, slo, x)
              || exists high :: high in rest && Calibrates(first, high,
                                                           slo) && first.batch < high.batch
                                                             && x == SlopeRatio(first, high, slope)
  {
    hide Calibrates, SlopeRatio;
    assert forall p :: p in [first] + rest <==> p == first || p in rest;
  }

  ghost predicate Ratio(plans: seq<Measurement>, slo: real, x: real) {
    exists m :: m in plans && m.entry.slope > 0.0 && IsRatio(m.points, m.entry.slope, slo, x)
  }

  lemma {:induction false} AllRatiosAre(plans: seq<Measurement>, slo: real)
    requires forall m :: m in plans ==> PositiveBatches(m.points)
    ensures forall x :: x in AllRatios(plans, slo) <==> Ratio(plans, slo, x)
  {
    hide IsRatio, Ratios, PositiveBatches;
    if plans != [] {
      var init, last := plans[..|plans| - 1], plans[|plans| - 1];
      assert plans == init + [last];
      AllRatiosAre(init, slo);
      if last.entry.slope > 0.0 { LayoutRatios(last, slo); }
      assert forall m :: m in plans <==> m in init || m == last;
    }
  }

  lemma LayoutRatios(m: Measurement, slo: real)
    requires PositiveBatches(m.points) && m.entry.slope > 0.0
    ensures PositiveBatches(ByBatch(m.points))
    ensures forall x :: x in Ratios(ByBatch(m.points), m.entry.slope, slo) <==> IsRatio(m.points, m.entry.slope, slo, x)
  {
    hide ByBatch, Calibrates, SlopeRatio;
    RatiosAre(ByBatch(m.points), m.entry.slope, slo);
  }

  // The least ratio, or 1 when none is smaller.
  ghost predicate IsLeast(plans: seq<Measurement>, slo: real, least: real) {
    least <= 1.0 && (forall x :: Ratio(plans, slo, x) ==> least <= x) && (least == 1.0 || Ratio(plans, slo, least))
  }

  // No floor exactly without a calibrating pair; otherwise the safety share
  // of the least ratio.
  lemma SlopeFloorExact(plans: seq<Measurement>, slo: real)
    requires forall m :: m in plans ==> PositiveBatches(m.points)
    ensures SlopeFloor(plans, slo).None? <==> forall x :: !Ratio(plans, slo, x)
    ensures SlopeFloor(plans, slo).Some? ==>
              exists least :: IsLeast(plans, slo, least) && SlopeFloor(plans, slo).value == SLOPE_FLOOR * least
  {
    hide Ratio;
    AllRatiosAre(plans, slo);
    var ratios := AllRatios(plans, slo);
    if ratios != [] { assert ratios[0] in ratios; }
    var least := MinRealSeq(ratios, 1.0);
    assert IsLeast(plans, slo, least);
  }

  // A positive floor line from any passing point stays under every measured point of the layout at
  // least MIN_STEP larger.
  lemma FloorUnderMeasured(plans: seq<Measurement>, slo: real, m: Measurement, low: Point, high: Point)
    requires forall m :: m in plans ==> PositiveBatches(m.points)
    requires m in plans && m.entry.slope > 0.0 && low in m.points && high in m.points && Calibrates(low, high, slo)
    ensures SlopeFloor(plans, slo).Some?
    ensures SlopeFloor(plans, slo).value > 0.0 ==>
              low.tpot + SlopeFloor(plans, slo).value * m.entry.slope * (high.batch - low.batch) as real <= high.tpot
  {
    hide SlopeFloor, Calibrates;
    CalibrationGrows(low, high, slo);
    SlopeFloorExact(plans, slo);
    var x := SlopeRatio(low, high, m.entry.slope);
    assert IsRatio(m.points, m.entry.slope, slo, x);
    assert Ratio(plans, slo, x);
    var floor := SlopeFloor(plans, slo).value;
    if floor > 0.0 { UnderRatio(low, high, m.entry.slope, floor, x); }
  }

  lemma UnderRatio(low: Point, high: Point, slope: PosReal, floor: real, x: real)
    requires low.batch < high.batch && x == SlopeRatio(low, high, slope) && floor <= x
    ensures low.tpot + floor * slope * (high.batch - low.batch) as real <= high.tpot
  {
    var rise, width: PosReal := high.tpot - low.tpot, (high.batch - low.batch) as real;
    QuotientTimes(rise, width);
    QuotientTimes(rise / width, slope);
    ProductsOrdered(floor, x, slope, floor * slope, rise / width);
    ProductsOrdered(floor * slope, rise / width, width, floor * slope * width, rise);
  }
}
