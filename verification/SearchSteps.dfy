// One step of a layout's search as a relation on its runs and points: which
// batch is proposed in each situation, and when it is taken.
module SearchSteps {
  import opened Prelude
  import opened NativeSearch
  import opened QuantumFacts
  import opened SearchFacts
  import opened SearchAim

  // The greatest positive multiple of the quantum at or below x, or the quantum.
  predicate GridAt(b: int, x: real, q: Pos) {
    b % q == 0 && q <= b && x < (b + q) as real && (b as real <= x || b == q)
  }

  lemma RoundedIsGrid(x: real, q: Pos)
    ensures GridAt(Rounded(x, q), x, q)
  {
    RoundedFacts(x, q);
    FloorToIsGreatest(x, q);
  }

  lemma GridUnique(a: int, b: int, x: real, q: Pos)
    requires GridAt(a, x, q) && GridAt(b, x, q)
    ensures a == b
  {
    MultipleBelow(a, b / q, q);
    MultipleBelow(b, a / q, q);
  }

  predicate LeastTooBig(runs: seq<Run>, b: int) {
    && (exists i :: 0 <= i < |runs| && runs[i].kind.TooBig? && runs[i].batch == b)
    && forall i :: 0 <= i < |runs| && runs[i].kind.TooBig? ==> b <= runs[i].batch
  }

  predicate LeastCapacity(runs: seq<Run>, k: int) {
    && (exists i :: 0 <= i < |runs| && runs[i].capacity == Some(k))
    && forall i :: 0 <= i < |runs| && runs[i].capacity.Some? ==> k <= runs[i].capacity.value
  }

  predicate CapacityUnder(runs: seq<Run>, b: int) {
    exists i :: 0 <= i < |runs| && runs[i].capacity.Some? && runs[i].capacity.value < b
  }

  lemma TooBigIs(runs: seq<Run>)
    ensures var big := SmallestTooBig(runs);
            if big.Some? then LeastTooBig(runs, big.value.batch) else forall b :: !LeastTooBig(runs, b)
  {
    hide SmallestTooBig;
    assert forall i :: 0 <= i < |runs| ==> runs[i] in runs;
  }

  lemma CapacityIs(runs: seq<Run>)
    ensures Capacities(runs) != [] ==> LeastCapacity(runs, MinSeq(Capacities(runs)))
    ensures forall b :: CapacityUnder(runs, b) <==> Capacities(runs) != [] && MinSeq(Capacities(runs)) < b
  {
    hide Capacities, MinSeq;
    var known := Capacities(runs);
    forall i | 0 <= i < |runs| && runs[i].capacity.Some? ensures runs[i].capacity.value in known {}
    if known != [] {
      assert MinSeq(known) in known;
    } else {
      assert forall x :: x !in known;
    }
  }

  // ----- No point measured

  // Below a batch that proved too big: what the memory holds, when a rejection
  // reported less than the batch, else half the batch.
  predicate ProposedUnmeasured(runs: seq<Run>, q: Pos, b: int) {
    runs != [] &&
    var last := runs[|runs| - 1];
    && last.kind.TooBig? && last.batch > q
    && if CapacityUnder(runs, last.batch)
       then exists k :: LeastCapacity(runs, k) && b % q == 0 && b <= k < b + q
       else GridAt(b, last.batch as real / 2.0, q)
  }

  lemma UnmeasuredStep(runs: seq<Run>, q: Pos, b: int)
    requires runs != []
    ensures FollowUnmeasured(runs, q) == Some(b) <==> ProposedUnmeasured(runs, q, b) && q <= b && !Tried(runs, b)
  {
    hide Capacities, MinSeq, Rounded, Tried;
    var last, known := runs[|runs| - 1], Capacities(runs);
    CapacityIs(runs);
    RoundedIsGrid(last.batch as real / 2.0, q);
    if last.kind.TooBig? && last.batch > q {
      if CapacityUnder(runs, last.batch) {
        var k := MinSeq(known);
        FloorUnder(k, q);
        if ProposedUnmeasured(runs, q, b) {
          var k' :| LeastCapacity(runs, k') && b % q == 0 && b <= k' < b + q;
          assert k' == k;
          SameFloor(b, k / q * q, k, q);
        }
      } else if ProposedUnmeasured(runs, q, b) {
        GridUnique(b, Rounded(last.batch as real / 2.0, q), last.batch as real / 2.0, q);
      }
    }
  }

  lemma FloorUnder(k: int, q: Pos)
    ensures k / q * q % q == 0 && k / q * q <= k < k / q * q + q
  {
    ProductIsMultiple(k / q, q);
  }

  lemma SameFloor(a: int, b: int, k: int, q: Pos)
    requires a % q == 0 && a <= k < a + q && b % q == 0 && b <= k < b + q
    ensures a == b
  {
    MultipleBelow(a, b / q, q);
    MultipleBelow(b, a / q, q);
  }

  // ----- Inside a bracket

  // Halfway to a too-big batch, when the SLO is met at or past that batch.
  ghost predicate ProposedInBracket(runs: seq<Run>, low: Point, high: Point, slo: real, q: Pos, b: int) {
    exists big, x, c :: HalfwayTo(runs, low, high, slo, q, b, big, x, c)
  }

  predicate HalfwayTo(runs: seq<Run>, low: Point, high: Point, slo: real, q: Pos, b: int, big: int, x: real, c: int) {
    && LeastTooBig(runs, big) && Meets(x, low, high, slo) && GridAt(c, x, q) && big <= c
    && GridAt(b, (low.batch + big) as real / 2.0, q)
  }

  lemma BracketStep(runs: seq<Run>, low: Point, high: Point, slo: real, q: Pos, b: int)
    requires Within(low, slo) && !Within(high, slo) && low.batch < high.batch
    ensures FollowBracket(runs, low, high, slo, q) == Some(b) <==>
              ProposedInBracket(runs, low, high, slo, q, b) && b as real >= low.batch as real + Step(low.batch, q)
              && !Tried(runs, b)
  {
    hide SmallestTooBig, Rounded, Tried, SloCrossing, Step, HalfwayTo, LeastTooBig, InterpolatedBatch;
    TooBigIs(runs);
    if SmallestTooBig(runs).Some? {
      var big := SmallestTooBig(runs).value.batch;
      HalfwayExactly(runs, low, high, slo, q, big);
    } else if ProposedInBracket(runs, low, high, slo, q, b) {
      var big, x, c :| HalfwayTo(runs, low, high, slo, q, b, big, x, c);
      HalfwayBig(runs, low, high, slo, q, b, big, x, c);
    }
  }

  lemma HalfwayBig(runs: seq<Run>, low: Point, high: Point, slo: real, q: Pos, b: int, big: int, x: real, c: int)
    requires HalfwayTo(runs, low, high, slo, q, b, big, x, c)
    ensures LeastTooBig(runs, big)
  {}

  lemma HalfwayExactly(runs: seq<Run>, low: Point, high: Point, slo: real, q: Pos, big: int)
    requires low.upper < high.upper && LeastTooBig(runs, big)
    ensures forall b :: ProposedInBracket(runs, low, high, slo, q, b) <==>
              big <= InterpolatedBatch(low, high, slo, q) && b == Rounded((low.batch + big) as real / 2.0, q)
  {
    hide Rounded, SloCrossing, LeastTooBig, Meets, GridAt;
    var x, c, middle := SloCrossing(low, high, slo), InterpolatedBatch(low, high, slo, q),
      (low.batch + big) as real / 2.0;
    CrossingMeets(low, high, slo);
    RoundedIsGrid(x, q);
    RoundedIsGrid(middle, q);
    forall b | ProposedInBracket(runs, low, high, slo, q, b) ensures big <= c && b == Rounded(middle, q) {
      var big', x', c' :| HalfwayTo(runs, low, high, slo, q, b, big', x', c');
      LeastUnique(runs, big, big');
      MeetsOnce(x, x', low, high, slo);
      GridUnique(c, c', x, q);
      GridUnique(b, Rounded(middle, q), middle, q);
    }
    if big <= c { assert HalfwayTo(runs, low, high, slo, q, Rounded(middle, q), big, x, c); }
  }

  lemma LeastUnique(runs: seq<Run>, a: int, b: int)
    requires LeastTooBig(runs, a) && LeastTooBig(runs, b)
    ensures a == b
  {}

  lemma MeetsOnce(x: real, y: real, low: Point, high: Point, slo: real)
    requires low.upper < high.upper && Meets(x, low, high, slo) && Meets(y, low, high, slo)
    ensures x == y
  {
    OneMeeting(x, y, low, high, slo);
  }

  // ----- Points without a bracket

  // The largest passing batch under a batch, or zero.
  predicate PassedUnder(points: seq<Point>, slo: real, big: int, m: int) {
    if exists p :: p in points && p.upper <= slo && p.batch < big
    then && (exists p :: p in points && p.upper <= slo && p.batch == m && m < big)
         && forall p :: p in points && p.upper <= slo && p.batch < big ==> p.batch <= m
    else m == 0
  }

  // The aimed batch; at or past a too-big one, unless a rejection reported less
  // than that, halfway to it from the largest passing batch.
  ghost predicate Goal(entry: Entry, runs: seq<Run>, points: seq<Point>, slo: real, g: real) {
    exists x :: GoalFrom(entry, runs, points, slo, g, x)
  }

  ghost predicate GoalFrom(entry: Entry, runs: seq<Run>, points: seq<Point>, slo: real, g: real, x: real) {
    && Aims(entry, points, slo, x)
    && if Bisects(runs, x)
       then exists big, m :: LeastTooBig(runs, big) && PassedUnder(points, slo, big, m) && 2.0 * g == (m + big) as real
       else g == x
  }

  ghost predicate Bisects(runs: seq<Run>, x: real) {
    exists big :: LeastTooBig(runs, big) && big as real <= x && !CapacityUnder(runs, big)
  }

  function Capped(g: real, limit: Option<int>): real {
    if limit.Some? && limit.value as real < g then limit.value as real else g
  }

  // The measured batch nearest to a; of equally near ones the first run's.
  predicate NearestTo(points: seq<Point>, a: int, n: int) {
    exists k ::
      && 0 <= k < |points| && points[k].batch == n
      && (forall j :: 0 <= j < |points| ==> AbsReal((n - a) as real) <= AbsReal((points[j].batch - a) as real))
      && forall j :: 0 <= j < k ==> AbsReal((n - a) as real) < AbsReal((points[j].batch - a) as real)
  }

  // The goal within the limit on the grid; within a step of the nearest measured
  // batch, a step off that instead: up while all pass, else down.
  ghost predicate ProposedMeasured(entry: Entry, runs: seq<Run>, points: seq<Point>, slo: real, limit: Option<int>,
                                   b: int)
  {
    var q := Quantum(entry);
    exists g, a, n ::
      && Goal(entry, runs, points, slo, g) && GridAt(a, Capped(g, limit), q) && NearestTo(points, a, n)
      && AimedOrOff(points, slo, q, a, n, b)
  }

  predicate AimedOrOff(points: seq<Point>, slo: real, q: Pos, a: int, n: int, b: int) {
    if AbsReal((a - n) as real) >= Step(n, q) then b == a
    else if forall p :: p in points ==> p.upper <= slo then GridAt(b, n as real + Step(n, q), q)
    else b % q == 0 && b as real <= n as real - Step(n, q) < (b + q) as real
  }

  predicate Taken(points: seq<Point>, limit: Option<int>, q: Pos, b: int) {
    && q <= b && (limit.Some? ==> b <= limit.value)
    && forall p :: p in points ==> AbsReal((b - p.batch) as real) >= Step(p.batch, q)
  }

  function Away(p: Point, a: int): real { AbsReal((p.batch - a) as real) }

  // This point's batch is the one nearest to a.
  predicate NearestAt(points: seq<Point>, a: int, k: nat) {
    && k < |points|
    && (forall j :: 0 <= j < |points| ==> Away(points[k], a) <= Away(points[j], a))
    && forall j :: 0 <= j < k ==> Away(points[k], a) < Away(points[j], a)
  }

  lemma {:induction false} NearestFound(points: seq<Point>, a: int) returns (k: nat)
    requires points != []
    ensures k < |points| && NearestAt(points, a, k) && points[k].batch == Nearest(points, a)
  {
    hide AbsReal, NearestAt, Away;
    if |points| == 1 {
      k := 0;
      OnlyNearest(points, a);
    } else {
      var n := |points| - 1;
      var i := NearestFound(points[..n], a);
      NearestLonger(points, a, n, i);
      k := if Away(points[n], a) < Away(points[i], a) then n else i;
      NearestValue(points, a, n, i);
    }
  }

  lemma OnlyNearest(points: seq<Point>, a: int)
    requires |points| == 1
    ensures NearestAt(points, a, 0)
  {}

  lemma NearestLonger(points: seq<Point>, a: int, n: nat, k: nat)
    requires |points| == n + 1 && NearestAt(points[..n], a, k)
    ensures k < n && NearestAt(points, a, if Away(points[n], a) < Away(points[k], a) then n else k)
  {
    hide Away;
    assert forall j :: 0 <= j < n ==> points[j] == points[..n][j];
  }

  lemma NearestValue(points: seq<Point>, a: int, n: nat, i: nat)
    requires |points| == n + 1 && i < n && points[i].batch == Nearest(points[..n], a)
    ensures Nearest(points, a) == points[if Away(points[n], a) < Away(points[i], a) then n else i].batch
  {
    hide AbsReal;
  }

  lemma NearestIs(points: seq<Point>, a: int)
    requires points != []
    ensures NearestTo(points, a, Nearest(points, a))
  {
    var k := NearestFound(points, a);
    hide Nearest, AbsReal;
    assert forall j :: 0 <= j < |points| ==> Away(points[j], a) == AbsReal((points[j].batch - a) as real);
  }

  lemma NearestUnique(points: seq<Point>, a: int, n: int, m: int)
    requires NearestTo(points, a, n) && NearestTo(points, a, m)
    ensures n == m
  {
    hide AbsReal;
  }

  lemma GoalIs(entry: Entry, runs: seq<Run>, points: seq<Point>, slo: real) returns (g: real)
    requires points != [] && DistinctPoints(points)
    ensures Goal(entry, runs, points, slo, g)
    ensures forall limit :: AimedBatch(entry, runs, points, slo, limit) == Rounded(Capped(g, limit), Quantum(entry))
  {
    hide Target, Rounded, Aims, SmallestTooBig, Capacities, MinSeq;
    var aim, big := Target(entry, points, slo), SmallestTooBig(runs);
    AimExactly(entry, points, slo);
    TooBigIs(runs);
    CapacityIs(runs);
    if big.Some? && aim >= big.value.batch as real && !CapacityUnder(runs, big.value.batch) {
      var passing := PassingBelow(points, slo, big.value.batch);
      var m := if passing == [] then 0 else MaxSeq(passing);
      PassedIs(points, slo, big.value.batch);
      g := (m + big.value.batch) as real / 2.0;
    } else {
      g := aim;
      if big.Some? { BigUnique(runs, big.value.batch); }
    }
    assert GoalFrom(entry, runs, points, slo, g, aim);
  }

  lemma BigUnique(runs: seq<Run>, big: int)
    requires LeastTooBig(runs, big)
    ensures forall b :: LeastTooBig(runs, b) ==> b == big
  {}

  lemma PassedIs(points: seq<Point>, slo: real, big: int)
    ensures var passing := PassingBelow(points, slo, big);
            PassedUnder(points, slo, big, if passing == [] then 0 else MaxSeq(passing))
  {
    hide PassingBelow, MaxSeq;
    var passing := PassingBelow(points, slo, big);
    forall p | p in points && p.upper <= slo && p.batch < big ensures p.batch in passing {}
    if passing != [] { assert MaxSeq(passing) in passing; }
  }

  lemma GoalUnique(entry: Entry, runs: seq<Run>, points: seq<Point>, slo: real, g: real, h: real)
    requires points != [] && DistinctPoints(points)
    requires Goal(entry, runs, points, slo, g) && Goal(entry, runs, points, slo, h)
    ensures g == h
  {
    hide Aims, DistinctPoints, PassedUnder;
    var x :| GoalFrom(entry, runs, points, slo, g, x);
    var y :| GoalFrom(entry, runs, points, slo, h, y);
    AimUnique(entry, points, slo, x, y);
    if Bisects(runs, x) {
      var big, m :| LeastTooBig(runs, big) && PassedUnder(points, slo, big, m) && 2.0 * g == (m + big) as real;
      var big', m' :| LeastTooBig(runs, big') && PassedUnder(points, slo, big', m') && 2.0 * h == (m' + big') as real;
      LeastUnique(runs, big, big');
      PassedUnique(points, slo, big, m, m');
    }
  }

  lemma PassedUnique(points: seq<Point>, slo: real, big: int, m: int, n: int)
    requires PassedUnder(points, slo, big, m) && PassedUnder(points, slo, big, n)
    ensures m == n
  {}

  lemma MeasuredStep(entry: Entry, runs: seq<Run>, points: seq<Point>, slo: real, caps: Caps, b: int)
    requires points != [] && DistinctPoints(points)
    ensures var limit := LimitOf(entry, runs, points, caps).at;
            FollowMeasured(entry, runs, points, slo, caps) == Some(b) <==>
              ProposedMeasured(entry, runs, points, slo, limit, b) && Taken(points, limit, Quantum(entry), b)
              && !Tried(runs, b)
  {
    hide AimedBatch, LimitOf, Nearest, Rounded, AbsReal, Quantum, Tried, DistinctPoints, Step, FloorTo,
         ProposedMeasured, AimedOrOff, AllWithin;
    var q, limit := Quantum(entry), LimitOf(entry, runs, points, caps).at;
    var a := AimedBatch(entry, runs, points, slo, limit);
    var n := Nearest(points, a);
    ProposedIs(entry, runs, points, slo, limit, a, n, b);
    OffStep(points, slo, n, q, a, b);
  }

  lemma ProposedIs(entry: Entry, runs: seq<Run>, points: seq<Point>, slo: real, limit: Option<int>, a: int, n: int,
                   b: int)
    requires points != [] && DistinctPoints(points)
    requires a == AimedBatch(entry, runs, points, slo, limit) && n == Nearest(points, a)
    ensures ProposedMeasured(entry, runs, points, slo, limit, b) <==>
              AimedOrOff(points, slo, Quantum(entry), a, n, b)
  {
    hide AimedBatch, Nearest, Rounded, Goal, GridAt, NearestTo, AimedOrOff, Quantum, DistinctPoints, Capped;
    var q := Quantum(entry);
    var g := GoalIs(entry, runs, points, slo);
    RoundedIsGrid(Capped(g, limit), q);
    NearestIs(points, a);
    if ProposedMeasured(entry, runs, points, slo, limit, b) {
      var g', a', n' :| Goal(entry, runs, points, slo, g') && GridAt(a', Capped(g', limit), q)
                        && NearestTo(points, a', n') && AimedOrOff(points, slo, q, a', n', b);
      GoalUnique(entry, runs, points, slo, g, g');
      GridUnique(a, a', Capped(g, limit), q);
      NearestUnique(points, a, n, n');
    }
  }

  // The batch a step off, as the search computes it.
  lemma OffStep(points: seq<Point>, slo: real, n: int, q: Pos, a: int, b: int)
    ensures AimedOrOff(points, slo, q, a, n, b) <==>
              b == if AbsReal((a - n) as real) >= Step(n, q) then a
                   else if AllWithin(points, slo) then Rounded(n as real + Step(n, q), q)
                   else FloorTo(n as real - Step(n, q), q)
  {
    var x, y := n as real + Step(n, q), n as real - Step(n, q);
    RoundedIsGrid(x, q);
    FloorToIsGreatest(y, q);
    hide Step, Rounded, FloorTo, AbsReal;
    if GridAt(b, x, q) { GridUnique(b, Rounded(x, q), x, q); }
    if b % q == 0 && b as real <= y < (b + q) as real { RealFloors(b, FloorTo(y, q), y, q); }
  }

  lemma RealFloors(a: int, b: int, y: real, q: Pos)
    requires a % q == 0 && a as real <= y < (a + q) as real && b % q == 0 && b as real <= y < (b + q) as real
    ensures a == b
  {
    SameFloor(a, b, y.Floor, q);
  }

  // ----- The whole step

  ghost predicate StepsTo(entry: Entry, runs: seq<Run>, points: seq<Point>, slo: real, limit: Option<int>, b: int) {
    var q := Quantum(entry);
    if exists low, high :: IsBracket(points, slo, low, high) then
      exists low, high :: IsBracket(points, slo, low, high) && ProposedInBracket(runs, low, high, slo, q, b)
                          && b as real >= low.batch as real + Step(low.batch, q)
    else if points == [] then ProposedUnmeasured(runs, q, b) && q <= b
    else ProposedMeasured(entry, runs, points, slo, limit, b) && Taken(points, limit, q, b)
  }

  // The search runs exactly the batch of these equations, if it was not tried.
  lemma FollowingExactly(entry: Entry, runs: seq<Run>, points: seq<Point>, slo: real, caps: Caps, b: int)
    requires runs != [] && DistinctPoints(points)
    ensures Following(entry, runs, points, slo, caps) == Some(b) <==>
              !Tried(runs, b) && StepsTo(entry, runs, points, slo, LimitOf(entry, runs, points, caps).at, b)
  {
    hide Bracket, IsBracket, Unbracketed, FollowBracket, FollowMeasured, FollowUnmeasured, ProposedInBracket,
         ProposedMeasured, ProposedUnmeasured, LimitOf, Step, Quantum, Taken, Tried, Functional;
    DistinctFunctional(points);
    BracketFacts(points, slo);
    if Bracket(points, slo).Some? {
      var (low, high) := Bracket(points, slo).value;
      BracketEnds(points, slo, low, high);
      BracketStep(runs, low, high, slo, Quantum(entry), b);
      forall l, h | IsBracket(points, slo, l, h) ensures l == low && h == high { BracketUnique(points, slo, l, h); }
    } else {
      NoneBracket(points, slo);
      if points == [] { UnmeasuredStep(runs, Quantum(entry), b); }
        else { MeasuredStep(entry, runs, points, slo, caps, b); }
    }
  }

  lemma BracketEnds(points: seq<Point>, slo: real, low: Point, high: Point)
    requires IsBracket(points, slo, low, high)
    ensures Within(low, slo) && !Within(high, slo) && low.batch < high.batch
  {}

  lemma NoneBracket(points: seq<Point>, slo: real)
    requires Unbracketed(points, slo)
    ensures forall low, high :: !IsBracket(points, slo, low, high)
  {}

  // ----- Outcomes

  // In a bracket: its chord's batch at the SLO and the estimate on the chord
  // between the ends' estimates; at or past a too-big batch, the passing end.
  lemma BracketOutcome(entry: Entry, runs: seq<Run>, points: seq<Point>, slo: real, caps: Caps, low: Point, high: Point)
    requires Functional(points) && IsBracket(points, slo, low, high)
    ensures exists x, b :: Meets(x, low, high, slo) && GridAt(b, x, Quantum(entry)) &&
              var o := OutcomeOf(entry, runs, points, slo, caps);
              if exists big :: LeastTooBig(runs, big) && big <= b
              then
                var binds := LimitOf(entry, runs, points, caps).binds;
                o == Limited(if binds.Some? then binds.value else SloNotReached, low.batch)
              else
                && o.Interpolated? && o.batch == b && o.low == low.batch && o.high == high.batch && !o.settled
                && OnChord(o.predicted, low, high, b)
  {
    hide LimitOf, SmallestTooBig, Rounded, SloCrossing, Quantum, Bracket;
    BracketUnique(points, slo, low, high);
    TooBigIs(runs);
    CrossingMeets(low, high, slo);
    RoundedIsGrid(SloCrossing(low, high, slo), Quantum(entry));
    var b := InterpolatedBatch(low, high, slo, Quantum(entry));
    ChordEstimate(low, high, b);
    assert Meets(SloCrossing(low, high, slo), low, high, slo) && GridAt(b, SloCrossing(low, high, slo), Quantum(entry));
    if SmallestTooBig(runs).Some? { BigUnique(runs, SmallestTooBig(runs).value.batch); }
    hide Meets, GridAt, LeastTooBig, OnChord, IsBracket, Functional;
  }

  // The estimate at a batch on the chord between two points' estimates.
  predicate OnChord(t: real, low: Point, high: Point, b: int) {
    (t - low.tpot) * (high.batch - low.batch) as real == (high.tpot - low.tpot) * (b - low.batch) as real
  }

  lemma ChordEstimate(low: Point, high: Point, b: int)
    requires low.batch < high.batch
    ensures OnChord(low.tpot + (high.tpot - low.tpot) * (b - low.batch) as real / (high.batch - low.batch) as real,
                    low, high, b)
  {
    Divides((high.tpot - low.tpot) * (b - low.batch) as real, (high.batch - low.batch) as real);
  }

  lemma Divides(n: real, d: real)
    requires d > 0.0
    ensures n / d * d == n
  {}

  // Without a bracket: nothing measured, or the largest point, limited by the
  // step when no limit is within a step of it, or nothing that passes.
  lemma OpenOutcome(entry: Entry, runs: seq<Run>, points: seq<Point>, slo: real, caps: Caps)
    requires Functional(points) && Unbracketed(points, slo) && runs != []
    ensures var o, limit, q := OutcomeOf(entry, runs, points, slo, caps), LimitOf(entry, runs, points, caps),
              Quantum(entry);
            && (points == [] ==> o == NoNativeMeasurement(runs[|runs| - 1].reason))
            && (forall p :: p in points && (forall o :: o in points ==> Within(o, slo) && o.batch <= p.batch) ==>
                  o == Limited(if (limit.at.None? || (limit.at.value - p.batch) as real >= Step(p.batch, q))
                                  && forall run :: run in runs ==> !run.kind.TooBig? then SloWithinStep
                               else if limit.binds.Some? then limit.binds.value else SloNotReached, p.batch))
            && (forall p, f :: p in points && f in points && !Within(f, slo)
                               && (forall o :: o in points ==> p.batch <= o.batch) ==>
                  o == if p.batch == q then SloUnreachable(q) else NoPassingPoint)
  {
    hide LimitOf, SmallestTooBig, Quantum, Bracket, Largest, Smallest, Step;
    BracketFacts(points, slo);
    if Bracket(points, slo).Some? {
      NoneBracket(points, slo);
    }
    hide IsBracket, Unbracketed;
  }
}
