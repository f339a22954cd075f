// Small row stores, and the plans their replays end in.
module WorkedStores {
  import opened Prelude
  import opened RealFacts
  import opened NativeSearch
  import opened NativeBounds
  import opened QuantumFacts
  import opened SearchFacts
  import opened NativePlan

  const SLO: PosReal := 100.0

  function MeasuredRow(upper: PosReal, tpot: PosReal): Row {
    Row(if upper <= SLO then Completed else SloRejected, Some(Bounds(upper, tpot)), false, None, None, None, None,
        None, None)
  }

  function MeasuredRun(batch: int, upper: PosReal): Run {
    Run(batch, Measured, if upper <= SLO then Completed else SloRejected, None, None)
  }

  function MeasuredPoint(batch: int, upper: PosReal, tpot: PosReal): Point {
    Point(batch, upper, tpot, if upper <= SLO then Completed else SloRejected, 0.0, None)
  }

  lemma MeasuredParts(batch: int, upper: PosReal, tpot: PosReal)
    ensures RunAt(batch, MeasuredRow(upper, tpot)) == MeasuredRun(batch, upper)
    ensures PointAt(batch, MeasuredRow(upper, tpot)) == MeasuredPoint(batch, upper, tpot)
  {}

  // ----- The anchor layout: 200 passes, 400 fails at the bypass capacity

  const ANCHOR := Entry(10, 1, 1, 400, 400, 10.0, 0.2)

  const FIRST := MeasuredRun(200, 55.0)
  const SECOND := MeasuredRun(400, 110.0)
  const P_FIRST := MeasuredPoint(200, 55.0, 50.0)
  const P_SECOND := MeasuredPoint(400, 110.0, 88.0)

  const ROWS: map<int, Row> := map[200 := MeasuredRow(55.0, 50.0), 400 := MeasuredRow(110.0, 88.0)]

  // The acceptance run at 360 passes.
  const ROWS_ACCEPTED: map<int, Row> := ROWS[360 := MeasuredRow(99.0, 80.0)]

  // Or it fails just above the SLO, or proves too big, and
  // then the batch asked for under it passes.
  const ROWS_FAILED: map<int, Row> := ROWS[360 := MeasuredRow(101.0, 60.0)]
  const TOO_BIG_ROW := Row(CapacityRejected, None, false, None, None, None, None, None, None)
  const ROWS_TOO_BIG: map<int, Row> := ROWS[360 := TOO_BIG_ROW]
  const ROWS_RAISED: map<int, Row> := ROWS_TOO_BIG[280 := MeasuredRow(90.0, 65.2)]

  // Points without walls or peaks project no limit.
  lemma NoProjection(points: seq<Point>, caps: Caps, q: Pos)
    requires forall p :: p in points ==> p.wall == 0.0 && p.peak.None?
    ensures ProjectedLimits(points, caps, q) == []
  {
    if points != [] {
      assert Largest(points) in points;
      NoHeavyPoint(points);
    }
  }

  lemma NoHeavyPoint(points: seq<Point>)
    requires forall p :: p in points ==> p.peak.None?
    ensures HeavyPoints(points) == []
  {
    var heavy := HeavyPoints(points);
    assert forall p :: p in heavy ==> p in points && p.peak.Some?;
    assert forall p :: p !in heavy;
  }

  lemma CapacityLimit(entry: Entry, runs: seq<Run>, points: seq<Point>, caps: Caps)
    requires forall p :: p in points ==> p.wall == 0.0 && p.peak.None? && p.batch < entry.capacityMaxBatch
    requires forall r :: r in runs ==> r.kind.Measured? && r.capacity.None?
    ensures LimitOf(entry, runs, points, caps).at == Some(entry.capacityMaxBatch)
  {
    NoProjection(points, caps, Quantum(entry));
    assert SmallestTooBig(runs).None?;
    NoCapacity(runs);
    var limits := RunLimits(entry, runs, points);
    assert limits == [Limit(None, None), Limit(Some(entry.capacityMaxBatch), Some(CapacityLimited))];
    assert limits + [] == limits;
    assert limits[..1] == [Limit(None, None)];
  }

  lemma NoCapacity(runs: seq<Run>)
    requires forall r :: r in runs ==> r.capacity.None?
    ensures Capacities(runs) == []
  {
    assert forall i :: 0 <= i < |runs| ==> runs[i] in runs;
    assert forall x :: x !in Capacities(runs);
  }

  // From one point the search aims where the bypass line, scaled to it, meets the SLO.
  lemma AimedFromOne(entry: Entry, p: Point, x: real)
    requires entry.slope > 0.0 && entry.intercept + entry.slope * p.batch as real > 0.0
    ensures x <= Target(entry, [p], SLO) <==>
              (entry.intercept + entry.slope * x) * p.upper <= SLO * (entry.intercept + entry.slope * p.batch as real)
  {
    hide Target;
    var i, s, u: PosReal := entry.intercept, entry.slope, p.upper;
    var bypass: PosReal := i + s * p.batch as real;
    TargetOfOne(entry, p, bypass);
    ScaledLine(i, s, u, bypass, x);
    var slope: PosReal := Scaled(s, u, bypass);
    QuotientAtLeast(SLO - Scaled(i, u, bypass), slope, x, x * slope);
  }

  lemma TargetOfOne(entry: Entry, p: Point, bypass: PosReal)
    requires entry.slope > 0.0 && bypass == entry.intercept + entry.slope * p.batch as real
    ensures Scaled(entry.slope, p.upper, bypass) > 0.0
    ensures Target(entry, [p], SLO)
         == (SLO - Scaled(entry.intercept, p.upper, bypass)) / Scaled(entry.slope, p.upper, bypass)
  {
    ProductOver(entry.slope, p.upper, bypass);
    hide Scaled;
  }

  lemma ScaledLine(i: real, s: PosReal, u: PosReal, bypass: PosReal, x: real)
    ensures Scaled(i, u, bypass) + x * Scaled(s, u, bypass) <= SLO <==> (i + s * x) * u <= SLO * bypass
  {
    QuotientTimes(i * u, bypass);
    QuotientTimes(s * u, bypass);
    var a, c := Scaled(i, u, bypass), Scaled(s, u, bypass);
    var y := a + x * c;
    assert x * c * bypass == x * (s * u);
    assert y * bypass == (i + s * x) * u;
    ProductsOrdered(y, SLO, bypass, y * bypass, SLO * bypass);
  }

  lemma ProductOver(s: PosReal, u: PosReal, d: PosReal)
    ensures Scaled(s, u, d) > 0.0
  {
    assert s * u > 0.0;
    QuotientAtLeast(s * u, d, 0.0, 0.0);
  }

  // It runs the aimed batch, up to the capacity, when that is spaced from the point.
  lemma OneFollowed(entry: Entry, p: Point, run: Run, caps: Caps, next: int)
    requires p.wall == 0.0 && p.peak.None? && 0 < p.batch < entry.capacityMaxBatch
    requires run.batch == p.batch && run.kind.Measured? && run.capacity.None?
    requires entry.slope > 0.0 && entry.intercept + entry.slope * p.batch as real > 0.0
    requires next % Quantum(entry) == 0 && Quantum(entry) <= next <= entry.capacityMaxBatch
    requires AbsReal((next - p.batch) as real) >= Step(p.batch, Quantum(entry))
    requires next as real <= Target(entry, [p], SLO)
    requires next == entry.capacityMaxBatch || Target(entry, [p], SLO) < (next + Quantum(entry)) as real
    ensures Following(entry, [run], [p], SLO, caps) == Some(next)
  {
    hide AimedBatch, LimitOf, Bracket, Rounded, FloorTo, Quantum, Target;
    NoBracketOfOne(p);
    CapacityLimit(entry, [run], [p], caps);
    OneAimed(entry, p, run, next);
    assert Nearest([p], next) == p.batch;
    assert [run][0] == run;
  }

  lemma OneAimed(entry: Entry, p: Point, run: Run, next: int)
    requires run.kind.Measured? && next % Quantum(entry) == 0 && Quantum(entry) <= next <= entry.capacityMaxBatch
    requires next as real <= Target(entry, [p], SLO)
    requires next == entry.capacityMaxBatch || Target(entry, [p], SLO) < (next + Quantum(entry)) as real
    ensures AimedBatch(entry, [run], [p], SLO, Some(entry.capacityMaxBatch)) == next
  {
    var x := MinReal(Target(entry, [p], SLO), entry.capacityMaxBatch as real);
    RoundedIs(x, next, Quantum(entry));
    hide Target, Rounded, Quantum;
  }

  lemma RoundedIs(x: real, b: int, q: Pos)
    requires b % q == 0 && q <= b && b as real <= x < (b + q) as real
    ensures Rounded(x, q) == b
  {
    RoundedFacts(x, q);
    var r := Rounded(x, q);
    assert r == r / q * q && b == b / q * q;
    MultiplyOrdered(b / q, r / q, q);
  }

  lemma NoBracketOfOne(p: Point)
    ensures Bracket([p], SLO).None?
  {}

  // ----- The replay of the anchor layout

  predicate AnchorStore(s: Search) {
    && s.entry == ANCHOR && s.slo == SLO && s.first == 200
    && 200 in s.rows && s.rows[200] == ROWS[200] && 400 in s.rows && s.rows[400] == ROWS[400]
  }

  lemma AnchorFollowed(caps: Caps)
    ensures Following(ANCHOR, [FIRST], [P_FIRST], SLO, caps) == Some(400)
  {
    AimedFromOne(ANCHOR, P_FIRST, 400.0);
    OneFollowed(ANCHOR, P_FIRST, FIRST, caps, 400);
  }

  lemma OneRun(s: Search)
    requires AnchorStore(s) && VerdictAt(s, []).Keep?
    ensures Recorded(s.rows, [FIRST]) && PointsOf(s.rows, [FIRST]) == [P_FIRST]
    ensures Replay(s, [FIRST]) && !Refined(s, [FIRST]) && !Refines(s, [FIRST]) && Ask(s, [FIRST]) == Some(400)
  {
    MeasuredParts(200, 55.0, 50.0);
    Starts(s);
    Extends(s, [], 200);
    assert [] + [FIRST] == [FIRST] && [FIRST][..0] == [];
    AnchorFollowed(s.caps);
    hide Following, Replay, VerdictAt, Refined;
  }

  lemma TwoRuns(s: Search)
    requires AnchorStore(s) && VerdictAt(s, []).Keep?
    requires Recorded(s.rows, [FIRST]) && VerdictAt(s, [FIRST]).Keep?
    ensures Recorded(s.rows, [FIRST, SECOND]) && PointsOf(s.rows, [FIRST, SECOND]) == [P_FIRST, P_SECOND]
    ensures Replay(s, [FIRST, SECOND]) && !Refined(s, [FIRST, SECOND])
  {
    MeasuredParts(400, 110.0, 88.0);
    OneRun(s);
    Extends(s, [FIRST], 400);
    assert [FIRST] + [SECOND] == [FIRST, SECOND] && [FIRST, SECOND][..1] == [FIRST];
    hide Replay, VerdictAt, Refined, Refines, Ask;
  }

  lemma FirstBracket(low: Point, high: Point, points: seq<Point>)
    requires Functional(points) && IsBracket(points, SLO, low, high)
    ensures Bracket(points, SLO) == Some((low, high))
  {
    hide IsBracket;
    BracketUnique(points, SLO, low, high);
  }

  lemma AnchorBracket()
    ensures Functional([P_FIRST, P_SECOND]) && Bracket([P_FIRST, P_SECOND], SLO) == Some((P_FIRST, P_SECOND))
    ensures InterpolatedBatch(P_FIRST, P_SECOND, SLO, 10) == 360
  {
    assert P_FIRST in [P_FIRST, P_SECOND] && P_SECOND in [P_FIRST, P_SECOND];
    FirstBracket(P_FIRST, P_SECOND, [P_FIRST, P_SECOND]);
    AnchorCrossing();
  }

  lemma AnchorCrossing()
    ensures InterpolatedBatch(P_FIRST, P_SECOND, SLO, 10) == 360
  {
    var share := 45.0 / 55.0;
    QuotientTimes(45.0, 55.0);
    var x := SloCrossing(P_FIRST, P_SECOND, SLO);
    assert x == 200.0 + share * 200.0;
    RoundedIs(x, 360, 10);
    hide SloCrossing;
  }

  const PROPOSED := Interpolated(360, 200, 400, 80.4, false)

  lemma AnchorOutcome(caps: Caps)
    ensures Functional([P_FIRST, P_SECOND])
    ensures OutcomeOf(ANCHOR, [FIRST, SECOND], [P_FIRST, P_SECOND], SLO, caps) == PROPOSED
    ensures Following(ANCHOR, [FIRST, SECOND], [P_FIRST, P_SECOND], SLO, caps).None?
  {
    AnchorBracket();
    assert Quantum(ANCHOR) == 10;
    assert SmallestTooBig([FIRST, SECOND]).None?;
    hide Bracket, InterpolatedBatch, LimitOf, Quantum, SmallestTooBig;
  }

  // What the anchor asks next: its acceptance batch, once a saved run of it failed.
  lemma AnchorAsk(s: Search)
    requires AnchorStore(s) && Recorded(s.rows, [FIRST, SECOND])
             && PointsOf(s.rows, [FIRST, SECOND]) == [P_FIRST, P_SECOND]
    ensures Ask(s, [FIRST, SECOND]) == Refinement(s.rows, PROPOSED, [P_FIRST, P_SECOND], SLO)
    ensures Refines(s, [FIRST, SECOND]) <==> Ask(s, [FIRST, SECOND]).Some?
    ensures FinalOutcome(s, [FIRST, SECOND]) == if Refined(s, [FIRST, SECOND])
              then RefinedOutcome(PROPOSED, [P_FIRST, P_SECOND], 10) else PROPOSED
  {
    AnchorOutcome(s.caps);
    AskUnfolds(s, [FIRST, SECOND]);
    hide Ask, Refines, Refined, FinalOutcome, OutcomeOf, Following, Refinement, RefinedOutcome;
    assert Quantum(ANCHOR) == 10;
  }

  // Without a row at 360, or with one that passes, the anchor settles there.
  lemma AnchorSettles(s: Search)
    requires AnchorStore(s) && (360 in s.rows ==> s.rows[360] == ROWS_ACCEPTED[360]) && VerdictAt(s, []).Keep?
    requires Recorded(s.rows, [FIRST]) && VerdictAt(s, [FIRST]).Keep?
    ensures IsPlan(s, Settled([FIRST, SECOND], [P_FIRST, P_SECOND], PROPOSED))
  {
    hide Ask, Refines, Refined, FinalOutcome, Replay, PointsOf, RefinedOutcome, VerdictAt;
    TwoRuns(s);
    AnchorAsk(s);
    assert [FIRST, SECOND][1] == SECOND;
  }

  // ----- The failed acceptance run joins the points

  const THIRD := MeasuredRun(360, 101.0)
  const P_THIRD := MeasuredPoint(360, 101.0, 60.0)
  const PASSING_END := Interpolated(200, 200, 360, 50.0, true)

  lemma AsksAgain(s: Search)
    requires AnchorStore(s) && 360 in s.rows && s.rows[360] == ROWS_FAILED[360]
    requires Recorded(s.rows, [FIRST, SECOND]) && PointsOf(s.rows, [FIRST, SECOND]) == [P_FIRST, P_SECOND]
    ensures Ask(s, [FIRST, SECOND]) == Some(360) && Refines(s, [FIRST, SECOND])
  {
    AnchorAsk(s);
    hide Ask, Refines, FinalOutcome;
  }

  lemma ThirdBracket()
    ensures Functional([P_FIRST, P_SECOND, P_THIRD])
    ensures Bracket([P_FIRST, P_SECOND, P_THIRD], SLO) == Some((P_FIRST, P_THIRD))
    ensures InterpolatedBatch(P_FIRST, P_THIRD, SLO, 10) == 350
  {
    hide Bracket, InterpolatedBatch;
    var points := [P_FIRST, P_SECOND, P_THIRD];
    assert P_FIRST in points && P_SECOND in points && P_THIRD in points;
    assert Functional(points) && IsBracket(points, SLO, P_FIRST, P_THIRD);
    FirstBracket(P_FIRST, P_THIRD, points);
    ThirdCrossing();
  }

  lemma ThirdCrossing()
    ensures InterpolatedBatch(P_FIRST, P_THIRD, SLO, 10) == 350
  {
    var share := 45.0 / 46.0;
    QuotientTimes(45.0, 46.0);
    var x := SloCrossing(P_FIRST, P_THIRD, SLO);
    assert x == 200.0 + share * 160.0;
    RoundedIs(x, 350, 10);
    hide SloCrossing;
  }

  lemma ThirdOutcome(caps: Caps) returns (predicted: real)
    ensures Functional([P_FIRST, P_SECOND, P_THIRD])
    ensures OutcomeOf(ANCHOR, [FIRST, SECOND, THIRD], [P_FIRST, P_SECOND, P_THIRD], SLO, caps)
         == Interpolated(350, 200, 360, predicted, false)
    ensures Following(ANCHOR, [FIRST, SECOND, THIRD], [P_FIRST, P_SECOND, P_THIRD], SLO, caps).None?
  {
    ThirdBracket();
    assert Quantum(ANCHOR) == 10;
    assert SmallestTooBig([FIRST, SECOND, THIRD]).None? by { NoTooBigRun([FIRST, SECOND, THIRD]); }
    hide Bracket, InterpolatedBatch, LimitOf, Quantum, SmallestTooBig;
    predicted := OutcomeOf(ANCHOR, [FIRST, SECOND, THIRD], [P_FIRST, P_SECOND, P_THIRD], SLO, caps).predicted;
  }

  lemma NoTooBigRun(runs: seq<Run>)
    requires forall r :: r in runs ==> !r.kind.TooBig?
    ensures SmallestTooBig(runs).None?
  {}

  lemma ThirdReplay(s: Search)
    requires AnchorStore(s) && 360 in s.rows && s.rows[360] == ROWS_FAILED[360]
    requires VerdictAt(s, []).Keep? && Recorded(s.rows, [FIRST, SECOND])
    requires Recorded(s.rows, [FIRST]) && VerdictAt(s, [FIRST]).Keep? && VerdictAt(s, [FIRST, SECOND]).Keep?
    ensures Recorded(s.rows, [FIRST, SECOND, THIRD]) && Replay(s, [FIRST, SECOND, THIRD])
              && Refined(s, [FIRST, SECOND, THIRD])
    ensures PointsOf(s.rows, [FIRST, SECOND, THIRD]) == [P_FIRST, P_SECOND, P_THIRD]
  {
    hide Ask, Refines, Refined, Replay, PointsOf, VerdictAt;
    TwoRuns(s);
    AsksAgain(s);
    MeasuredParts(360, 101.0, 60.0);
    Extends(s, [FIRST, SECOND], 360);
    assert [FIRST, SECOND] + [THIRD] == [FIRST, SECOND, THIRD];
    ThirdPoints(s);
  }

  // It settles at the bracket's passing end, a step from the failed run.
  lemma AnchorSettlesAgain(s: Search)
    requires AnchorStore(s) && 360 in s.rows && s.rows[360] == ROWS_FAILED[360] && 350 !in s.rows
    requires VerdictAt(s, []).Keep? && Recorded(s.rows, [FIRST, SECOND])
    requires Recorded(s.rows, [FIRST]) && VerdictAt(s, [FIRST]).Keep? && VerdictAt(s, [FIRST, SECOND]).Keep?
    ensures IsPlan(s, Settled([FIRST, SECOND, THIRD], [P_FIRST, P_SECOND, P_THIRD], PASSING_END))
  {
    hide Ask, Refines, Refined, FinalOutcome, Replay, PointsOf, RefinedOutcome, VerdictAt, Refinement, Following,
      OutcomeOf;
    var runs := [FIRST, SECOND, THIRD];
    ThirdReplay(s);
    var predicted := ThirdOutcome(s.caps);
    AskUnfolds(s, runs);
    ThirdSettles(s.rows, predicted);
    assert Quantum(ANCHOR) == 10;
    assert runs[2] == THIRD;
  }

  lemma ThirdPoints(s: Search)
    requires Recorded(s.rows, [FIRST, SECOND, THIRD]) && Recorded(s.rows, [FIRST, SECOND]) && 360 in s.rows
    requires PointsOf(s.rows, [FIRST, SECOND]) == [P_FIRST, P_SECOND]
    requires s.rows[360] == ROWS_FAILED[360]
    ensures PointsOf(s.rows, [FIRST, SECOND, THIRD]) == [P_FIRST, P_SECOND, P_THIRD]
  {
    MeasuredParts(360, 101.0, 60.0);
    assert [FIRST, SECOND, THIRD][..2] == [FIRST, SECOND];
    assert [P_FIRST, P_SECOND] + [P_THIRD] == [P_FIRST, P_SECOND, P_THIRD];
  }

  lemma ThirdSettles(rows: map<int, Row>, predicted: real)
    requires 350 !in rows
    ensures var o, points := Interpolated(350, 200, 360, predicted, false), [P_FIRST, P_SECOND, P_THIRD];
            Refinement(rows, o, points, SLO).None? && MeasuredAt(points, 200)
              && RefinedOutcome(o, points, 10) == PASSING_END
  {
    var points := [P_FIRST, P_SECOND, P_THIRD];
    assert P_FIRST in points && P_THIRD in points && P_FIRST.batch == 200;
    assert !Spaced(points, 350, 10);
    assert FirstAt(points, 200) == P_FIRST;
  }

  // ----- The acceptance run proves too big

  const BIG := Run(360, TooBig, CapacityRejected, None, None)

  lemma BigReplay(s: Search)
    requires AnchorStore(s) && 360 in s.rows && s.rows[360] == ROWS_TOO_BIG[360]
    requires VerdictAt(s, []).Keep? && Recorded(s.rows, [FIRST, SECOND])
    requires Recorded(s.rows, [FIRST]) && VerdictAt(s, [FIRST]).Keep? && VerdictAt(s, [FIRST, SECOND]).Keep?
    ensures Recorded(s.rows, [FIRST, SECOND, BIG]) && Replay(s, [FIRST, SECOND, BIG])
    ensures PointsOf(s.rows, [FIRST, SECOND, BIG]) == [P_FIRST, P_SECOND]
  {
    hide Ask, Refines, Refined, Replay, PointsOf, VerdictAt, FinalOutcome;
    TwoRuns(s);
    AnchorAsk(s);
    BigAnswers(s);
    Extends(s, [FIRST, SECOND], 360);
    assert [FIRST, SECOND] + [BIG] == [FIRST, SECOND, BIG];
    BigPoints(s);
  }

  lemma BigAnswers(s: Search)
    requires 360 in s.rows && s.rows[360] == ROWS_TOO_BIG[360]
    ensures Refinement(s.rows, PROPOSED, [P_FIRST, P_SECOND], SLO) == Some(360) && Answered(s.rows, 360)
    ensures RunAt(360, s.rows[360]) == BIG
  {}

  lemma BigPoints(s: Search)
    requires Recorded(s.rows, [FIRST, SECOND, BIG]) && Recorded(s.rows, [FIRST, SECOND])
    ensures PointsOf(s.rows, [FIRST, SECOND, BIG]) == PointsOf(s.rows, [FIRST, SECOND])
  {
    assert [FIRST, SECOND, BIG][..2] == [FIRST, SECOND];
  }

  // The search then waits for a batch under it, and reports no point.
  lemma AnchorRequests(s: Search)
    requires AnchorStore(s) && 360 in s.rows && s.rows[360] == ROWS_TOO_BIG[360] && 280 !in s.rows
    requires VerdictAt(s, []).Keep? && Recorded(s.rows, [FIRST, SECOND]) && Recorded(s.rows, [FIRST, SECOND, BIG])
    requires Recorded(s.rows, [FIRST]) && VerdictAt(s, [FIRST]).Keep?
    requires VerdictAt(s, [FIRST, SECOND]).Keep? && VerdictAt(s, [FIRST, SECOND, BIG]).Keep?
    ensures IsPlan(s, Next(280, [FIRST, SECOND, BIG]))
  {
    hide Ask, Refines, Refined, FinalOutcome, Replay, PointsOf, RefinedOutcome, VerdictAt, Refinement, Following,
      OutcomeOf;
    BigReplay(s);
    AskUnfolds(s, [FIRST, SECOND, BIG]);
    UnderTooBig(s.caps);
    assert [FIRST, SECOND, BIG][2] == BIG;
  }

  lemma UnderTooBig(caps: Caps)
    ensures Following(ANCHOR, [FIRST, SECOND, BIG], [P_FIRST, P_SECOND], SLO, caps) == Some(280)
  {
    AnchorBracket();
    var runs := [FIRST, SECOND, BIG];
    assert runs[..2] == [FIRST, SECOND] && [FIRST, SECOND][..1] == [FIRST];
    assert SmallestTooBig(runs) == Some(BIG);
    RoundedIs(280.0, 280, 10);
    hide Bracket, InterpolatedBatch, SmallestTooBig, Rounded;
  }

  // ----- The batch under the too-big one passes

  const RAISED := MeasuredRun(280, 90.0)
  const P_RAISED := MeasuredPoint(280, 90.0, 65.2)
  const RAISED_PROPOSAL := Interpolated(340, 280, 400, 76.6, false)

  lemma RaisedReplay(s: Search)
    requires AnchorStore(s) && 360 in s.rows && s.rows[360] == TOO_BIG_ROW
    requires 280 in s.rows && s.rows[280] == ROWS_RAISED[280]
    requires VerdictAt(s, []).Keep? && Recorded(s.rows, [FIRST, SECOND]) && Recorded(s.rows, [FIRST, SECOND, BIG])
    requires Recorded(s.rows, [FIRST]) && VerdictAt(s, [FIRST]).Keep?
    requires VerdictAt(s, [FIRST, SECOND]).Keep? && VerdictAt(s, [FIRST, SECOND, BIG]).Keep?
    ensures Recorded(s.rows, [FIRST, SECOND, BIG, RAISED]) && Replay(s, [FIRST, SECOND, BIG, RAISED])
    ensures PointsOf(s.rows, [FIRST, SECOND, BIG, RAISED]) == [P_FIRST, P_SECOND, P_RAISED]
  {
    hide Ask, Refines, Refined, Replay, PointsOf, VerdictAt, FinalOutcome, Following, OutcomeOf, Refinement,
      RefinedOutcome;
    BigReplay(s);
    AskUnfolds(s, [FIRST, SECOND, BIG]);
    UnderTooBig(s.caps);
    MeasuredParts(280, 90.0, 65.2);
    Extends(s, [FIRST, SECOND, BIG], 280);
    assert [FIRST, SECOND, BIG] + [RAISED] == [FIRST, SECOND, BIG, RAISED];
    assert [FIRST, SECOND, BIG][2] == BIG;
    RaisedPoints(s);
  }

  lemma RaisedPoints(s: Search)
    requires Recorded(s.rows, [FIRST, SECOND, BIG, RAISED]) && Recorded(s.rows, [FIRST, SECOND, BIG]) && 280 in s.rows
    requires PointsOf(s.rows, [FIRST, SECOND, BIG]) == [P_FIRST, P_SECOND] && s.rows[280] == ROWS_RAISED[280]
    ensures PointsOf(s.rows, [FIRST, SECOND, BIG, RAISED]) == [P_FIRST, P_SECOND, P_RAISED]
  {
    MeasuredParts(280, 90.0, 65.2);
    assert [FIRST, SECOND, BIG, RAISED][..3] == [FIRST, SECOND, BIG];
    assert [P_FIRST, P_SECOND] + [P_RAISED] == [P_FIRST, P_SECOND, P_RAISED];
  }

  lemma RaisedBracket()
    ensures Functional([P_FIRST, P_SECOND, P_RAISED])
    ensures Bracket([P_FIRST, P_SECOND, P_RAISED], SLO) == Some((P_RAISED, P_SECOND))
    ensures InterpolatedBatch(P_RAISED, P_SECOND, SLO, 10) == 340
  {
    hide Bracket, InterpolatedBatch;
    var points := [P_FIRST, P_SECOND, P_RAISED];
    assert P_FIRST in points && P_SECOND in points && P_RAISED in points;
    assert Functional(points) && IsBracket(points, SLO, P_RAISED, P_SECOND);
    FirstBracket(P_RAISED, P_SECOND, points);
    RaisedCrossing();
  }

  lemma RaisedCrossing()
    ensures InterpolatedBatch(P_RAISED, P_SECOND, SLO, 10) == 340
  {
    assert SloCrossing(P_RAISED, P_SECOND, SLO) == 340.0;
    RoundedIs(340.0, 340, 10);
    hide SloCrossing;
  }

  lemma RaisedOutcome(caps: Caps)
    ensures Functional([P_FIRST, P_SECOND, P_RAISED])
    ensures OutcomeOf(ANCHOR, [FIRST, SECOND, BIG, RAISED], [P_FIRST, P_SECOND, P_RAISED], SLO, caps) == RAISED_PROPOSAL
    ensures Following(ANCHOR, [FIRST, SECOND, BIG, RAISED], [P_FIRST, P_SECOND, P_RAISED], SLO, caps).None?
  {
    hide Bracket, InterpolatedBatch, LimitOf, Quantum, SmallestTooBig, Capacities, FollowMeasured, Functional;
    RaisedBracket();
    AnchorQuantum();
    OnlyTooBig();
  }

  lemma AnchorQuantum()
    ensures Quantum(ANCHOR) == 10
  {}

  lemma OnlyTooBig()
    ensures SmallestTooBig([FIRST, SECOND, BIG, RAISED]) == Some(BIG)
  {
    var runs := [FIRST, SECOND, BIG, RAISED];
    assert BIG in runs && BIG.kind.TooBig?;
    assert forall r :: r in runs && r.kind.TooBig? ==> r == BIG;
    hide SmallestTooBig;
    assert SmallestTooBig(runs).Some? && SmallestTooBig(runs).value in runs;
  }

  // The anchor settles again, now with a faster passing point.
  lemma AnchorRaised(s: Search)
    requires AnchorStore(s) && 360 in s.rows && s.rows[360] == TOO_BIG_ROW
    requires 280 in s.rows && s.rows[280] == ROWS_RAISED[280] && 340 !in s.rows
    requires VerdictAt(s, []).Keep? && Recorded(s.rows, [FIRST, SECOND]) && Recorded(s.rows, [FIRST, SECOND, BIG])
    requires Recorded(s.rows, [FIRST]) && VerdictAt(s, [FIRST]).Keep?
    requires VerdictAt(s, [FIRST, SECOND]).Keep? && VerdictAt(s, [FIRST, SECOND, BIG]).Keep?
    ensures IsPlan(s, Settled([FIRST, SECOND, BIG, RAISED], [P_FIRST, P_SECOND, P_RAISED], RAISED_PROPOSAL))
  {
    hide Ask, Refines, Refined, FinalOutcome, Replay, PointsOf, VerdictAt, Following, OutcomeOf, RefinedOutcome;
    var runs := [FIRST, SECOND, BIG, RAISED];
    RaisedReplay(s);
    RaisedOutcome(s.caps);
    AskUnfolds(s, runs);
    RaisedSpaced();
    assert Quantum(ANCHOR) == 10;
    assert runs[3] == RAISED;
  }

  lemma RaisedSpaced()
    ensures MeasuredAt([P_FIRST, P_SECOND, P_RAISED], 280)
    ensures RefinedOutcome(RAISED_PROPOSAL, [P_FIRST, P_SECOND, P_RAISED], 10) == RAISED_PROPOSAL
  {
    assert P_RAISED in [P_FIRST, P_SECOND, P_RAISED] && P_RAISED.batch == 280;
  }

  // ----- The batch pruner on the failed acceptance

  // Once 400 reached the bypass capacity, nothing is left to limit the batch.
  lemma AnchorCrashes(s: Search)
    requires AnchorStore(s) && 360 in s.rows && s.rows[360] == ROWS_FAILED[360] && s.pruner.BatchPruner?
    requires VerdictAt(s, []).Keep? && Recorded(s.rows, [FIRST]) && VerdictAt(s, [FIRST]).Keep?
    ensures IsPlan(s, Crashed([FIRST, SECOND], [P_FIRST, P_SECOND]))
  {
    hide Ask, Refines, Refined, FinalOutcome, Replay, PointsOf, VerdictAt;
    TwoRuns(s);
    AsksAgain(s);
    NoLimitLeft(s);
    assert [FIRST, SECOND][1] == SECOND;
  }

  lemma NoLimitLeft(s: Search)
    requires AnchorStore(s) && s.pruner.BatchPruner?
    requires Recorded(s.rows, [FIRST, SECOND]) && PointsOf(s.rows, [FIRST, SECOND]) == [P_FIRST, P_SECOND]
    ensures VerdictAt(s, [FIRST, SECOND]).Crash?
  {
    var runs, points := [FIRST, SECOND], [P_FIRST, P_SECOND];
    assert P_SECOND in points;
    assert forall x :: !LimitReported(runs, x);
    assert forall x :: x !in RejectionLimits(runs);
  }
}
