// The bounds and pruners of the branch and bound in scripts/exploring_hbf_native_search.py.
module NativeBounds {
  import opened Prelude
  import opened NativeSearch

  // An unbounded value (None) lies above every number.
  predicate BoundBelow(bound: Option<real>, x: real) { bound.Some? && bound.value < x }

  // Per-GPU tokens per second of a batch at a TPOT in nanoseconds.
  function Rate(batch: real, tpot: PosReal, gpus: Pos): real { batch * NS_PER_S / (tpot * gpus as real) }

  function PointRate(p: Point, gpus: Pos): real { Rate(p.batch as real, p.tpot, gpus) }

  // Whether the bypass line rises from a positive intercept; else it bounds nothing.
  predicate Rising(entry: Entry) { entry.intercept > 0.0 && entry.slope > 0.0 }

  // The rate along a rising bypass line.
  function LineRate(entry: Entry, batch: real, gpus: Pos): real
    requires Rising(entry) && batch > 0.0
  {
    assert entry.slope * batch > 0.0;
    Rate(batch, entry.intercept + entry.slope * batch, gpus)
  }

  // The batch where a rising bypass line reaches the SLO, up to a limit.
  function BypassReach(entry: Entry, slo: real, limit: Option<int>): real
    requires Rising(entry)
  {
    var crossing := (slo - entry.intercept) / entry.slope;
    if limit.Some? then MinReal(crossing, limit.value as real) else crossing
  }

  function BypassRateBound(entry: Entry, gpus: Pos, slo: real, limit: Option<int>): Option<real> {
    if !Rising(entry) then None
    else
      var batch := BypassReach(entry, slo, limit);
      Some(if batch > 0.0 then LineRate(entry, batch, gpus) else 0.0)
  }

  function FloorSlope(entry: Entry, floor: real): real { floor * entry.slope }

  // Where a line of this slope through a measured point reaches the SLO.
  function SlopeReach(p: Point, slo: real, slope: PosReal): real { p.batch as real + (slo - p.tpot) / slope }

  function RaisedRate(p: Point, gpus: Pos): real { PointRate(p, gpus) * (1.0 + RATE_MARGIN) }

  function SlopeRateBound(entry: Entry, p: Point, gpus: Pos, slo: PosReal, floor: real): Option<real> {
    var slope := FloorSlope(entry, floor);
    if slope <= 0.0 then None else Some(MaxReal(Rate(SlopeReach(p, slo, slope), slo, gpus), RaisedRate(p, gpus)))
  }

  function BypassBatchBound(entry: Entry, slo: real, limit: int): real {
    if Rising(entry)
    then MinReal((slo / BYPASS_TPOT_FLOOR - entry.intercept) / entry.slope, limit as real)
    else limit as real
  }

  function SlopeBatchBound(entry: Entry, p: Point, slo: real, floor: real): Option<real> {
    var slope := FloorSlope(entry, floor);
    if slope > 0.0 then Some(SlopeReach(p, slo, slope)) else None
  }

  // ----- The slope floor of a case

  predicate PositiveBatches(points: seq<Point>) {
    forall p :: p in points ==> p.batch > 0
  }

  function RatiosFrom(low: Point, later: seq<Point>, slope: PosReal, slo: real): seq<real>
    requires low.batch > 0
  {
    if later == [] then []
    else
      var high, rest := later[0], RatiosFrom(low, later[1..], slope, slo);
      if low.upper <= slo && high.batch as real >= (1.0 + MIN_STEP) * low.batch as real
      then [(high.tpot - low.tpot) / (high.batch - low.batch) as real / slope] + rest
      else rest
  }

  // Native over bypass slope ratios between points of one layout, in batch order.
  function Ratios(ordered: seq<Point>, slope: PosReal, slo: real): seq<real>
    requires PositiveBatches(ordered)
  {
    if ordered == [] then []
    else RatiosFrom(ordered[0], ordered[1..], slope, slo) + Ratios(ordered[1..], slope, slo)
  }

  // A layout's screen entry with the points its plan measured (none while it waits for a run).
  datatype Measurement = Measurement(entry: Entry, points: seq<Point>)

  function AllRatios(plans: seq<Measurement>, slo: real): seq<real>
    requires forall m :: m in plans ==> PositiveBatches(m.points)
  {
    if plans == [] then []
    else
      var last := plans[|plans| - 1];
      assert PositiveBatches(last.points);
      AllRatios(plans[..|plans| - 1], slo)
      + (if last.entry.slope > 0.0 then Ratios(ByBatch(last.points), last.entry.slope, slo) else [])
  }

  function MinRealSeq(s: seq<real>, cap: real): (m: real)
    ensures m <= cap && (forall x :: x in s ==> m <= x) && (m == cap || m in s)
  {
    if s == [] then cap
    else
      assert s == s[..|s| - 1] + [s[|s| - 1]];
      MinReal(MinRealSeq(s[..|s| - 1], cap), s[|s| - 1])
  }

  function SlopeFloor(plans: seq<Measurement>, slo: real): Option<real>
    requires forall m :: m in plans ==> PositiveBatches(m.points)
  {
    var ratios := AllRatios(plans, slo);
    if ratios == [] then None else Some(SLOPE_FLOOR * MinRealSeq(ratios, 1.0))
  }

  // ----- Pruners

  datatype PruneReason = BypassRateBelow | PointRateBelow | SlopeRateBelow
                       | BypassBatchNotAbove | PointBatchNotAbove | SlopeBatchNotAbove

  // Crash: the minimum of an empty list of limits, which Python refuses.
  datatype Verdict = Keep | Drop(why: PruneReason) | Crash

  datatype Pruner = NoPruner
                  | RatePruner(gpus: Pos, incumbent: real, floor: Option<real>)
                  | BatchPruner(gpus: Pos, incumbent: real, floor: Option<real>)

  predicate LimitReported(runs: seq<Run>, x: int) {
    exists i ::
      && 0 <= i < |runs|
      && (runs[i].capacity == Some(x) || (runs[i].kind.TooBig? && runs[i].batch - 1 == x))
  }

  // Reported native capacities and one less than every too-big batch.
  function RejectionLimits(runs: seq<Run>): (limits: seq<int>)
    ensures forall x :: x in limits <==> LimitReported(runs, x)
  {
    Capacities(runs) + TooBigLimits(runs)
  }

  // The smallest limit of the runs.
  function RunLimit(runs: seq<Run>): Option<int> {
    var limits := RejectionLimits(runs);
    if limits == [] then None else Some(MinSeq(limits))
  }

  function TooBigLimits(runs: seq<Run>): (limits: seq<int>)
    ensures forall x :: x in limits <==> exists i :: 0 <= i < |runs| && runs[i].kind.TooBig? && runs[i].batch - 1 == x
  {
    if runs == [] then []
    else
      var rest, last := TooBigLimits(runs[..|runs| - 1]), runs[|runs| - 1];
      if last.kind.TooBig? then rest + [last.batch - 1] else rest
  }

  predicate ReachedCapacity(entry: Entry, points: seq<Point>) {
    exists p :: p in points && p.batch >= entry.capacityMaxBatch
  }

  function RateVerdict(entry: Entry, slo: PosReal, gpus: Pos, incumbent: real, floor: Option<real>,
                       runs: seq<Run>, points: seq<Point>): Verdict
  {
    var bound := BypassRateBound(entry, gpus, slo, RunLimit(runs));
    if bound.Some? && bound.value / BYPASS_TPOT_FLOOR < incumbent then Drop(BypassRateBelow)
    else if exists p :: p in points && p.upper > slo && PointRate(p, gpus) * (1.0 + RATE_MARGIN) < incumbent
    then Drop(PointRateBelow)
    else if floor.Some? && exists p :: p in points && p.upper <= slo
                             && BoundBelow(SlopeRateBound(entry, p, gpus, slo, floor.value), incumbent)
    then Drop(SlopeRateBelow)
    else Keep
  }

  function BatchLimits(entry: Entry, runs: seq<Run>, points: seq<Point>): seq<int> {
    RejectionLimits(runs) + (if ReachedCapacity(entry, points) then [] else [entry.capacityMaxBatch])
  }

  function BatchVerdict(entry: Entry, slo: PosReal, gpus: Pos, incumbent: real, floor: Option<real>,
                        runs: seq<Run>, points: seq<Point>): Verdict
  {
    var limits := BatchLimits(entry, runs, points);
    if limits == [] then Crash
    else if BypassBatchBound(entry, slo, MinSeq(limits)) / gpus as real <= incumbent then Drop(BypassBatchNotAbove)
    else if exists p ::
      p in points && p.upper > slo && p.batch as real * (1.0 + RATE_MARGIN) / gpus as real <= incumbent
    then Drop(PointBatchNotAbove)
    else if floor.Some? && exists p :: p in points && p.upper <= slo
                             && var b := SlopeBatchBound(entry, p, slo, floor.value);
                                b.Some? && b.value / gpus as real <= incumbent
    then Drop(SlopeBatchNotAbove)
    else Keep
  }

  function VerdictOf(pruner: Pruner, entry: Entry, slo: PosReal, runs: seq<Run>, points: seq<Point>): Verdict {
    match pruner
    case NoPruner => Keep
    case RatePruner(gpus, incumbent, floor) => RateVerdict(entry, slo, gpus, incumbent, floor, runs, points)
    case BatchPruner(gpus, incumbent, floor) => BatchVerdict(entry, slo, gpus, incumbent, floor, runs, points)
  }
}
