// The per-layout batch search of scripts/exploring_hbf_native_search.py:
// saved candidate rows, the next batch a replay asks for, and its outcome.
module NativeSearch {
  import opened Prelude

  const FIRST_POINT_MAX_BATCH := 512
  const WALL_FILL := 0.9
  const MIN_STEP := 0.1
  const RATE_MARGIN := 0.1
  const BYPASS_TPOT_FLOOR := 0.95
  const SLOPE_FLOOR := 0.8
  const NS_PER_S := 1000000000.0

  // ----- Saved rows and screen entries

  datatype Status = Completed | SloRejected | CapacityRejected | ForecastRejected | FailedStatus | OtherStatus

  datatype Bounds = Bounds(upper: PosReal, estimate: PosReal)

  datatype Row = Row(status: Status, bounds: Option<Bounds>, prefillPhase: bool, reason: Option<string>,
                     nativeCapacity: Option<int>, wall: Option<real>, prefillWall: Option<real>,
                     retryWall: Option<real>, peakMemory: Option<real>)

  // A layout's screen: its quantum, EP and microbatch degrees, and its bypass line.
  datatype Entry = Entry(quantum: Pos, ep: Pos, microbatches: Pos, candidateBatch: int,
                         capacityMaxBatch: int, intercept: real, slope: real)

  datatype Kind = Measured | TooBig | Unusable | Failed | Pending

  datatype Run = Run(batch: int, kind: Kind, status: Status, reason: Option<string>, capacity: Option<int>)

  datatype Point = Point(batch: int, upper: PosReal, tpot: PosReal, status: Status, wall: real, peak: Option<real>)

  const CAPACITY_REJECTIONS := ["kv_block_peak_exceeds_capacity", "not_a_full_batch", "import_pool_not_full"]
  const WALL_TOO_BIG := "wall_budget"
  const IMPORT_REJECTION := "native_stationary_refill_not_always_ready"
  const INTERVAL_REJECTION := "native_stationary_independent_budget_exceeded"

  predicate OccursAt(text: string, marker: string, i: nat) {
    i + |marker| <= |text| && text[i..i + |marker|] == marker
  }

  predicate Mentions(text: Option<string>, marker: string) {
    text.Some? && exists i: nat :: i <= |text.value| && OccursAt(text.value, marker, i)
  }

  predicate IsTooBigReason(reason: Option<string>) {
    || Mentions(reason, WALL_TOO_BIG)
    || (exists k :: 0 <= k < |CAPACITY_REJECTIONS| && Mentions(reason, CAPACITY_REJECTIONS[k]))
    || Mentions(reason, IMPORT_REJECTION)
    || Mentions(reason, INTERVAL_REJECTION)
  }

  function Classify(row: Row): (k: Kind)
    ensures k.Measured? ==> row.bounds.Some?
  {
    match row.status
    case Completed => if row.bounds.Some? then Measured else Unusable
    case SloRejected => if row.bounds.Some? then Measured else Unusable
    case CapacityRejected => TooBig
    case ForecastRejected => if !row.prefillPhase && IsTooBigReason(row.reason) then TooBig else Unusable
    case FailedStatus => Failed
    case OtherStatus => Pending
  }

  predicate Answered(rows: map<int, Row>, batch: int) {
    batch in rows && !Classify(rows[batch]).Pending?
  }

  function OrZero(x: Option<real>): real { if x.Some? then x.value else 0.0 }

  function PointAt(batch: int, row: Row): Point
    requires row.bounds.Some?
  {
    var wall := if row.retryWall.Some? then row.retryWall.value
                else MaxReal(0.0, OrZero(row.wall) - OrZero(row.prefillWall));
    Point(batch, row.bounds.value.upper, row.bounds.value.estimate, row.status, wall, row.peakMemory)
  }

  function RunAt(batch: int, row: Row): Run {
    Run(batch, Classify(row), row.status, row.reason, row.nativeCapacity)
  }

  predicate Recorded(rows: map<int, Row>, runs: seq<Run>) {
    forall i :: 0 <= i < |runs| ==> runs[i].batch in rows && runs[i] == RunAt(runs[i].batch, rows[runs[i].batch])
  }

  // The measured points of the runs, in run order.
  function PointsOf(rows: map<int, Row>, runs: seq<Run>): (points: seq<Point>)
    requires Recorded(rows, runs)
    ensures forall p :: p in points ==> p.batch in rows && rows[p.batch].bounds.Some?
                                        && p == PointAt(p.batch, rows[p.batch])
  {
    if runs == [] then []
    else
      var init, last := runs[..|runs| - 1], runs[|runs| - 1];
      var earlier := PointsOf(rows, init);
      if last.kind.Measured? then earlier + [PointAt(last.batch, rows[last.batch])] else earlier
  }

  lemma PointIsRun(rows: map<int, Row>, runs: seq<Run>, p: Point)
    requires Recorded(rows, runs) && p in PointsOf(rows, runs)
    ensures exists i :: 0 <= i < |runs| && runs[i].batch == p.batch && runs[i].kind.Measured?
  {
    var init, last := runs[..|runs| - 1], runs[|runs| - 1];
    if p in PointsOf(rows, init) {
      PointIsRun(rows, init, p);
    }
  }

  lemma RunIsPoint(rows: map<int, Row>, runs: seq<Run>, i: nat)
    requires Recorded(rows, runs) && i < |runs| && runs[i].kind.Measured?
    ensures rows[runs[i].batch].bounds.Some? && PointAt(runs[i].batch, rows[runs[i].batch]) in PointsOf(rows, runs)
  {
    if i < |runs| - 1 {
      RunIsPoint(rows, runs[..|runs| - 1], i);
    }
  }

  // ----- Quantum arithmetic

  function Quantum(entry: Entry): Pos {
    MaxInt(entry.quantum, entry.ep * entry.microbatches)
  }

  function FloorTo(x: real, q: Pos): int { (x / q as real).Floor * q }

  function Rounded(x: real, q: Pos): int { MaxInt(q, FloorTo(x, q)) }

  // The spacing of batches: a tenth of the batch, and at least a quantum.
  function Step(batch: int, q: Pos): (step: real)
    ensures step >= q as real && 10.0 * step >= batch as real
    ensures step == q as real || 10.0 * step == batch as real
  {
    MaxReal(q as real, MIN_STEP * batch as real)
  }

  function DefaultFirstBatch(entry: Entry): int {
    Rounded(MinReal(entry.candidateBatch as real / 2.0, FIRST_POINT_MAX_BATCH as real), Quantum(entry))
  }

  // ----- Points in batch order

  predicate SortedByBatch(points: seq<Point>) {
    forall i, j :: 0 <= i < j < |points| ==> points[i].batch <= points[j].batch
  }

  // Stable insertion, as Python's sort keyed by the batch.
  function InsertByBatch(p: Point, sorted: seq<Point>): seq<Point>
  {
    if sorted == [] || sorted[|sorted| - 1].batch <= p.batch then sorted + [p]
    else InsertByBatch(p, sorted[..|sorted| - 1]) + [sorted[|sorted| - 1]]
  }

  lemma {:induction false} InsertKeepsOrder(p: Point, sorted: seq<Point>)
    requires SortedByBatch(sorted)
    ensures SortedByBatch(InsertByBatch(p, sorted))
  {
    if sorted != [] && sorted[|sorted| - 1].batch > p.batch {
      var k := |sorted| - 1;
      InsertKeepsOrder(p, sorted[..k]);
      var r := InsertByBatch(p, sorted[..k]);
      forall i | 0 <= i < |r| ensures r[i].batch <= sorted[k].batch {
        InsertKeepsPoints(p, sorted[..k]);
        assert r[i] in multiset(r);
        assert r[i] == p || r[i] in sorted[..k];
      }
    }
  }

  lemma {:induction false} InsertKeepsPoints(p: Point, sorted: seq<Point>)
    ensures var r := InsertByBatch(p, sorted);
            |r| == |sorted| + 1 && multiset(r) == multiset(sorted) + multiset{p}
  {
    if sorted != [] && sorted[|sorted| - 1].batch > p.batch {
      InsertKeepsPoints(p, sorted[..|sorted| - 1]);
      assert sorted == sorted[..|sorted| - 1] + [sorted[|sorted| - 1]];
    }
  }

  function ByBatch(points: seq<Point>): (r: seq<Point>)
    ensures SortedByBatch(r) && |r| == |points| && multiset(r) == multiset(points)
    ensures forall p :: p in r <==> p in points
  {
    if points == [] then []
    else
      assert points == points[..|points| - 1] + [points[|points| - 1]];
      var rest := ByBatch(points[..|points| - 1]);
      InsertKeepsOrder(points[|points| - 1], rest);
      InsertKeepsPoints(points[|points| - 1], rest);
      var r := InsertByBatch(points[|points| - 1], rest);
      assert forall p :: p in r <==> p in multiset(r);
      assert forall p :: p in points <==> p in multiset(points);
      r
  }

  // The first adjacent pair, from the front, whose upper bounds straddle the SLO.
  function Straddle(ordered: seq<Point>, slo: real): (r: Option<(Point, Point)>)
    ensures r.Some? ==> r.value.0 in ordered && r.value.1 in ordered
                        && r.value.0.upper <= slo < r.value.1.upper
  {
    if |ordered| < 2 then None
    else if ordered[0].upper <= slo < ordered[1].upper then Some((ordered[0], ordered[1]))
    else Straddle(ordered[1..], slo)
  }

  function Bracket(points: seq<Point>, slo: real): (r: Option<(Point, Point)>)
    ensures r.Some? ==> r.value.0 in points && r.value.1 in points
                        && r.value.0.upper <= slo < r.value.1.upper
  {
    Straddle(ByBatch(points), slo)
  }

  function Largest(points: seq<Point>): (r: Point)
    requires points != []
    ensures r in points && forall p :: p in points ==> p.batch <= r.batch
  {
    if |points| == 1 then points[0]
    else
      var rest := Largest(points[..|points| - 1]);
      if rest.batch < points[|points| - 1].batch then points[|points| - 1] else rest
  }

  function Smallest(points: seq<Point>): (r: Point)
    requires points != []
    ensures r in points && forall p :: p in points ==> r.batch <= p.batch
  {
    if |points| == 1 then points[0]
    else
      var rest := Smallest(points[..|points| - 1]);
      if points[|points| - 1].batch < rest.batch then points[|points| - 1] else rest
  }

  // The measured batch nearest to a batch; the earliest run wins a tie.
  function Nearest(points: seq<Point>, batch: int): (r: int)
    requires points != []
    ensures exists p :: p in points && p.batch == r
    ensures forall p :: p in points ==> AbsReal((r - batch) as real) <= AbsReal((p.batch - batch) as real)
  {
    if |points| == 1 then assert points[0] in points; points[0].batch
    else
      var rest, last := Nearest(points[..|points| - 1], batch), points[|points| - 1].batch;
      assert points[|points| - 1] in points;
      if AbsReal((last - batch) as real) < AbsReal((rest - batch) as real) then last else rest
  }

  // ----- Limits

  datatype Label = WallLimited | ImportLimited | IntervalLimited | CapacityLimited | MemoryLimited
                 | SloWithinStep | SloNotReached

  // An upper limit on the batch; None is unlimited.
  datatype Limit = Limit(at: Option<int>, binds: Option<Label>)

  predicate Tighter(a: Option<int>, b: Option<int>) {
    a.Some? && (b.None? || a.value < b.value)
  }

  function SmallestTooBig(runs: seq<Run>): (r: Option<Run>)
    ensures r.Some? ==> r.value in runs && r.value.kind.TooBig?
    ensures r.Some? ==> forall run :: run in runs && run.kind.TooBig? ==> r.value.batch <= run.batch
    ensures r.None? ==> forall run :: run in runs ==> !run.kind.TooBig?
  {
    if runs == [] then None
    else
      var rest, last := SmallestTooBig(runs[..|runs| - 1]), runs[|runs| - 1];
      assert forall run :: run in runs ==> run in runs[..|runs| - 1] || run == last;
      if last.kind.TooBig? && (rest.None? || last.batch < rest.value.batch) then Some(last) else rest
  }

  function Capacities(runs: seq<Run>): (c: seq<int>)
    ensures forall x :: x in c <==> exists i :: 0 <= i < |runs| && runs[i].capacity == Some(x)
  {
    if runs == [] then []
    else
      var rest, last := Capacities(runs[..|runs| - 1]), runs[|runs| - 1];
      if last.capacity.Some? then rest + [last.capacity.value] else rest
  }

  function TightestOf(limits: seq<Limit>): (r: Limit)
    requires limits != []
    ensures r in limits && forall l :: l in limits ==> !Tighter(l.at, r.at)
  {
    if |limits| == 1 then limits[0]
    else
      var rest, last := TightestOf(limits[..|limits| - 1]), limits[|limits| - 1];
      if Tighter(last.at, rest.at) then last else rest
  }

  // The per-candidate wall cap and memory budget (None: unbounded).
  datatype Caps = Caps(wall: real, memory: Option<real>)

  function TooBigLabel(reason: Option<string>): Label {
    if Mentions(reason, WALL_TOO_BIG) then WallLimited
    else if Mentions(reason, IMPORT_REJECTION) then ImportLimited
    else if Mentions(reason, INTERVAL_REJECTION) then IntervalLimited
    else CapacityLimited
  }

  function HeavyPoints(points: seq<Point>): (r: seq<Point>)
    ensures forall p :: p in r ==> p in points && p.peak.Some? && p.peak.value != 0.0
  {
    if points == [] then []
    else
      var rest, last := HeavyPoints(points[..|points| - 1]), points[|points| - 1];
      if last.peak.Some? && last.peak.value != 0.0 then rest + [last] else rest
  }

  function RunLimits(entry: Entry, runs: seq<Run>, points: seq<Point>): seq<Limit> {
    var big, known := SmallestTooBig(runs), Capacities(runs);
    [Limit(None, None)]
    + (if big.Some? then [Limit(Some(big.value.batch - 1), Some(TooBigLabel(big.value.reason)))] else [])
    + (if known != [] then [Limit(Some(MinSeq(known)), Some(CapacityLimited))] else [])
    + (if exists p :: p in points && p.batch >= entry.capacityMaxBatch then []
       else [Limit(Some(entry.capacityMaxBatch), Some(CapacityLimited))])
  }

  // The batch whose wall time or peak memory, in proportion to a measured point's, fills the budget.
  function Projection(p: Point, budget: real, used: real): real
    requires used != 0.0
  {
    p.batch as real * budget / used
  }

  function WallBudget(caps: Caps): real { WALL_FILL * caps.wall }

  function ProjectedLimits(points: seq<Point>, caps: Caps, q: Pos): seq<Limit> {
    if points == [] then []
    else
      var largest, peaks := Largest(points), HeavyPoints(points);
      (if largest.wall > 0.0
       then [Limit(Some(Rounded(Projection(largest, WallBudget(caps), largest.wall), q)), Some(WallLimited))]
       else [])
      + (if caps.memory.Some? && peaks != []
         then var heaviest := Largest(peaks);
              [Limit(Some(Rounded(Projection(heaviest, caps.memory.value, heaviest.peak.value), q)),
                     Some(MemoryLimited))]
         else [])
  }

  // The tightest of all limits on the next batch, with its label.
  function LimitOf(entry: Entry, runs: seq<Run>, points: seq<Point>, caps: Caps): Limit {
    TightestOf(RunLimits(entry, runs, points) + ProjectedLimits(points, caps, Quantum(entry)))
  }

  // ----- Where a line reaches the SLO

  // The batch at which a rising line meets the SLO.
  function Toward(intercept: real, slope: real, slo: real): Option<real> {
    if slope > 0.0 then Some((slo - intercept) / slope) else None
  }

  function SumX(points: seq<(real, real)>): real {
    if points == [] then 0.0 else SumX(points[..|points| - 1]) + points[|points| - 1].0
  }

  function SumY(points: seq<(real, real)>): real {
    if points == [] then 0.0 else SumY(points[..|points| - 1]) + points[|points| - 1].1
  }

  // Sum of squared deviations from mx, and of cross deviations from (mx, my).
  function Spread(points: seq<(real, real)>, mx: real): real {
    if points == [] then 0.0
    else
      var d := points[|points| - 1].0 - mx;
      Spread(points[..|points| - 1], mx) + d * d
  }

  function Cross(points: seq<(real, real)>, mx: real, my: real): real {
    if points == [] then 0.0
    else Cross(points[..|points| - 1], mx, my) + (points[|points| - 1].0 - mx) * (points[|points| - 1].1 - my)
  }

  // The line through the means whose slope is the cross deviation over the spread; flat without a spread.
  function FitLine(points: seq<(real, real)>): (real, real)
    requires points != []
  {
    var n := |points| as real;
    var mx, my := SumX(points) / n, SumY(points) / n;
    var spread := Spread(points, mx);
    var slope := if spread != 0.0 then Cross(points, mx, my) / spread else 0.0;
    (my - slope * mx, slope)
  }

  predicate AllWithin(points: seq<Point>, slo: real) {
    forall p :: p in points ==> p.upper <= slo
  }

  // A parameter of the bypass line, scaled to a point it underestimates by upper / bypass.
  function Scaled(x: real, upper: real, bypass: PosReal): real { x * upper / bypass }

  // The bypass line's TPOT at a batch.
  function LineAt(entry: Entry, b: int): real { entry.intercept + entry.slope * b as real }

  // The batch the measured points aim the next run at, before any limit.
  function Target(entry: Entry, points: seq<Point>, slo: real): (target: real)
    requires points != []
  {
    var rising :=
      if |points| == 1 then
        var bypass := LineAt(entry, points[0].batch);
        if bypass > 0.0
        then Toward(Scaled(entry.intercept, points[0].upper, bypass), Scaled(entry.slope, points[0].upper, bypass), slo)
        else None
      else
        var ordered := ByBatch(points);
        var pair := if AllWithin(points, slo) then ordered[|ordered| - 2..] else ordered[..2];
        var line := FitLine([(pair[0].batch as real, pair[0].upper), (pair[1].batch as real, pair[1].upper)]);
        Toward(line.0, line.1, slo);
    match rising
    case Some(t) => t
    case None => if AllWithin(points, slo) then Largest(points).batch as real * 2.0
                 else Smallest(points).batch as real / 2.0
  }

  // The passing batches below a batch.
  function PassingBelow(points: seq<Point>, slo: real, big: int): (r: seq<int>)
    ensures forall b :: b in r <==> exists p :: p in points && p.upper <= slo && p.batch < big && p.batch == b
  {
    if points == [] then []
    else
      var init, last := points[..|points| - 1], points[|points| - 1];
      assert forall p :: p in points <==> p in init || p == last;
      var rest := PassingBelow(init, slo, big);
      if last.upper <= slo && last.batch < big then rest + [last.batch] else rest
  }

  // ----- The next batch and the outcome

  // The SLO crossing of the chord between a bracket's upper bounds.
  function SloCrossing(low: Point, high: Point, slo: real): real
    requires low.upper < high.upper
  {
    var share := (slo - low.upper) / (high.upper - low.upper);
    low.batch as real + share * (high.batch - low.batch) as real
  }

  function InterpolatedBatch(low: Point, high: Point, slo: real, q: Pos): int
    requires low.upper < high.upper
  {
    Rounded(SloCrossing(low, high, slo), q)
  }

  predicate Tried(runs: seq<Run>, batch: int) {
    exists i :: 0 <= i < |runs| && runs[i].batch == batch
  }

  predicate Spaced(points: seq<Point>, batch: int, q: Pos) {
    forall p :: p in points ==> AbsReal((batch - p.batch) as real) >= Step(p.batch, q)
  }

  // A batch that may be run next: not repeated, else the search is finished.
  function Fresh(runs: seq<Run>, batch: int, acceptable: bool): Option<int> {
    if acceptable && !Tried(runs, batch) then Some(batch) else None
  }

  // With a bracket: interpolate, unless the SLO lies at or past a too-big batch inside it.
  function FollowBracket(runs: seq<Run>, low: Point, high: Point, slo: real, q: Pos): Option<int>
    requires low.upper < high.upper
  {
    var big := SmallestTooBig(runs);
    if big.None? || InterpolatedBatch(low, high, slo, q) < big.value.batch then None
    else
      var batch := Rounded((low.batch + big.value.batch) as real / 2.0, q);
      Fresh(runs, batch, (batch - low.batch) as real >= Step(low.batch, q))
  }

  // Without a measured point: a reported native capacity, else half the last batch.
  function FollowUnmeasured(runs: seq<Run>, q: Pos): Option<int>
    requires runs != []
  {
    var last, known := runs[|runs| - 1], Capacities(runs);
    if !last.kind.TooBig? || last.batch <= q then None
    else
      var batch := if known != [] && MinSeq(known) < last.batch then MinSeq(known) / q * q
                   else Rounded(last.batch as real / 2.0, q);
      Fresh(runs, batch, batch >= q)
  }

  function AimedBatch(entry: Entry, runs: seq<Run>, points: seq<Point>, slo: real, limit: Option<int>): (batch: int)
    requires points != []
  {
    var q, big, known := Quantum(entry), SmallestTooBig(runs), Capacities(runs);
    var aim := Target(entry, points, slo);
    var target :=
      if big.Some? && aim >= big.value.batch as real && !(known != [] && MinSeq(known) < big.value.batch)
      then
        var passing := PassingBelow(points, slo, big.value.batch);
        ((if passing == [] then 0 else MaxSeq(passing)) + big.value.batch) as real / 2.0
      else aim;
    Rounded(if limit.Some? then MinReal(target, limit.value as real) else target, q)
  }

  function FollowMeasured(entry: Entry, runs: seq<Run>, points: seq<Point>, slo: real, caps: Caps): Option<int>
    requires points != []
  {
    var q, limit := Quantum(entry), LimitOf(entry, runs, points, caps).at;
    var aimed := AimedBatch(entry, runs, points, slo, limit);
    var nearest := Nearest(points, aimed);
    var below := AllWithin(points, slo);
    var batch :=
      if AbsReal((aimed - nearest) as real) < Step(nearest, q) then
        // Within a step of a measured batch: step off it, up while all pass, else down.
        if below then Rounded(nearest as real + Step(nearest, q), q)
        else FloorTo(nearest as real - Step(nearest, q), q)
      else aimed;
    Fresh(runs, batch, batch >= q && (limit.Some? ==> batch <= limit.value) && Spaced(points, batch, q))
  }

  function Following(entry: Entry, runs: seq<Run>, points: seq<Point>, slo: real, caps: Caps): Option<int>
    requires runs != []
  {
    var pair := Bracket(points, slo);
    if pair.Some? then FollowBracket(runs, pair.value.0, pair.value.1, slo, Quantum(entry))
    else if points == [] then FollowUnmeasured(runs, Quantum(entry))
    else FollowMeasured(entry, runs, points, slo, caps)
  }

  datatype Outcome =
    | Interpolated(batch: int, low: int, high: int, predicted: real, settled: bool)
    | Limited(why: Label, batch: int)
    | NoNativeMeasurement(reason: Option<string>)
    | SloUnreachable(batch: int)
    | NoPassingPoint

  function LabelOr(l: Option<Label>): Label { if l.Some? then l.value else SloNotReached }

  // Two points measured at one batch are one point.
  predicate Functional(points: seq<Point>) {
    forall p, r :: p in points && r in points && p.batch == r.batch ==> p == r
  }

  predicate MeasuredAt(points: seq<Point>, batch: int) {
    exists p :: p in points && p.batch == batch
  }

  function OutcomeOf(entry: Entry, runs: seq<Run>, points: seq<Point>, slo: real, caps: Caps): (o: Outcome)
    requires Functional(points)
    ensures o.Interpolated? ==> MeasuredAt(points, o.low)
  {
    var pair, q, big := Bracket(points, slo), Quantum(entry), SmallestTooBig(runs);
    if pair.Some? then
      var (low, high) := pair.value;
      var batch := InterpolatedBatch(low, high, slo, q);
      if big.Some? && batch >= big.value.batch
      then Limited(LabelOr(LimitOf(entry, runs, points, caps).binds), low.batch)
      else
        var tpot := low.tpot + (high.tpot - low.tpot) * (batch - low.batch) as real / (high.batch - low.batch) as real;
        Interpolated(batch, low.batch, high.batch, tpot, false)
    else if points == [] then NoNativeMeasurement(if runs != [] then runs[|runs| - 1].reason else None)
    else if AllWithin(points, slo) then
      var largest, limit := Largest(points), LimitOf(entry, runs, points, caps);
      var away := limit.at.None? || (limit.at.value - largest.batch) as real >= Step(largest.batch, q);
      Limited(if away && big.None? then SloWithinStep else LabelOr(limit.binds), largest.batch)
    else if Smallest(points).batch == q then SloUnreachable(q)
    else NoPassingPoint
  }

  // The proposed batch as a further point, once a saved run of it proved too big or above the SLO.
  function Refinement(rows: map<int, Row>, outcome: Outcome, points: seq<Point>, slo: real): Option<int> {
    if !outcome.Interpolated? || MeasuredAt(points, outcome.batch) || outcome.batch !in rows then None
    else
      var row := rows[outcome.batch];
      match Classify(row)
      case TooBig => Some(outcome.batch)
      case Measured => if row.bounds.value.upper > slo then Some(outcome.batch) else None
      case _ => None
  }

  // The outcome after failed acceptances: the bracket's low end, once the proposed batch is not spaced from the points.
  function RefinedOutcome(outcome: Outcome, points: seq<Point>, q: Pos): Outcome
    requires outcome.Interpolated? ==> MeasuredAt(points, outcome.low)
  {
    if !outcome.Interpolated? || Spaced(points, outcome.batch, q) then outcome
    else
      var low := FirstAt(points, outcome.low);
      outcome.(batch := low.batch, predicted := low.tpot, settled := true)
  }

  function FirstAt(points: seq<Point>, batch: int): (r: Point)
    requires MeasuredAt(points, batch)
    ensures r in points && r.batch == batch
  {
    if points[0].batch == batch then points[0] else FirstAt(points[1..], batch)
  }
}
