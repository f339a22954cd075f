// _limit in scripts/exploring_hbf_native_search.py: what binds the next batch, and no more.
module LimitFacts {
  import opened Prelude
  import opened NativeSearch
  import opened NativeBounds
  import opened RealFacts
  import opened QuantumFacts
  import opened SearchSteps

  predicate AtMostLimit(limit: Option<int>, x: int) { limit.Some? && limit.value <= x }

  lemma TightestBelow(limits: seq<Limit>, l: Limit)
    requires l in limits && l.at.Some?
    ensures AtMostLimit(TightestOf(limits).at, l.at.value)
  {}

  lemma ListedLimits(entry: Entry, runs: seq<Run>, points: seq<Point>, x: int)
    requires LimitReported(runs, x) || (!ReachedCapacity(entry, points) && x == entry.capacityMaxBatch)
    ensures exists l :: l in RunLimits(entry, runs, points) && l.at.Some? && l.at.value <= x
  {
    var big, known, listed := SmallestTooBig(runs), Capacities(runs), RunLimits(entry, runs, points);
    if !ReachedCapacity(entry, points) && x == entry.capacityMaxBatch {
      assert listed[|listed| - 1] == Limit(Some(entry.capacityMaxBatch), Some(CapacityLimited));
    } else {
      var i :| 0 <= i < |runs| && (runs[i].capacity == Some(x) || (runs[i].kind.TooBig? && runs[i].batch - 1 == x));
      assert runs[i] in runs;
      if runs[i].capacity == Some(x) {
        var l := Limit(Some(MinSeq(known)), Some(CapacityLimited));
        assert listed[if big.Some? then 2 else 1] == l;
      } else {
        assert listed[1] == Limit(Some(big.value.batch - 1), Some(TooBigLabel(big.value.reason)));
      }
    }
  }

  // A further batch stays at or under every reported capacity, under every
  // too-big batch, at or under the bypass capacity until a point reaches it,
  // and above the quantum within the projected wall and memory budgets.
  lemma LimitBinds(entry: Entry, runs: seq<Run>, points: seq<Point>, caps: Caps)
    ensures var limit, q := LimitOf(entry, runs, points, caps).at, Quantum(entry);
            && (forall x :: LimitReported(runs, x) ==> AtMostLimit(limit, x))
            && (!ReachedCapacity(entry, points) ==> AtMostLimit(limit, entry.capacityMaxBatch))
            && (points != [] && Largest(points).wall > 0.0 ==>
                  && limit.Some?
                  && (limit.value > q ==>
                      Fills(limit.value as real, Largest(points), 0.9 * caps.wall, Largest(points).wall)))
            && (HeavyPoints(points) != [] && caps.memory.Some? && Largest(HeavyPoints(points)).peak.value > 0.0 ==>
                  var p := Largest(HeavyPoints(points));
                  limit.Some? && (limit.value > q ==> Fills(limit.value as real, p, caps.memory.value, p.peak.value)))
  {
    var q := Quantum(entry);
    var run, projected := RunLimits(entry, runs, points), ProjectedLimits(points, caps, q);
    var limits := run + projected;
    forall x | LimitReported(runs, x) || (!ReachedCapacity(entry, points) && x == entry.capacityMaxBatch)
      ensures AtMostLimit(TightestOf(limits).at, x)
    {
      ListedLimits(entry, runs, points, x);
      var l :| l in run && l.at.Some? && l.at.value <= x;
      TightestBelow(limits, l);
    }
    if points != [] && Largest(points).wall > 0.0 { WallLimit(run, points, caps, q); }
    if HeavyPoints(points) != [] && caps.memory.Some? && Largest(HeavyPoints(points)).peak.value > 0.0 {
      MemoryLimit(run, points, caps, q);
    }
  }

  // What this batch uses, in proportion to what the point used, is within the budget.
  predicate Fills(b: real, p: Point, budget: real, used: real) { b * used <= p.batch as real * budget }

  lemma RoundedWithin(limit: Option<int>, p: Point, budget: real, used: PosReal, q: Pos)
    requires AtMostLimit(limit, Rounded(Projection(p, budget, used), q))
    ensures limit.value > q ==> Fills(limit.value as real, p, budget, used)
  {
    RoundedFacts(Projection(p, budget, used), q);
    hide Rounded;
    if limit.value > q {
      var b := limit.value as real;
      QuotientAtLeast(p.batch as real * budget, used, b, b * used);
    }
  }

  lemma WallLimit(run: seq<Limit>, points: seq<Point>, caps: Caps, q: Pos)
    requires points != [] && Largest(points).wall > 0.0 && run != []
    ensures var limit := TightestOf(run + ProjectedLimits(points, caps, q)).at;
            limit.Some?
            && (limit.value > q ==> Fills(limit.value as real, Largest(points), 0.9 * caps.wall, Largest(points).wall))
  {
    hide Rounded, Projection, Fills, HeavyPoints, Largest, TightestOf;
    var p := Largest(points);
    var x := Projection(p, WallBudget(caps), p.wall);
    var l := Limit(Some(Rounded(x, q)), Some(WallLimited));
    assert ProjectedLimits(points, caps, q)[0] == l;
    TightestBelow(run + ProjectedLimits(points, caps, q), l);
    RoundedWithin(TightestOf(run + ProjectedLimits(points, caps, q)).at, p, WallBudget(caps), p.wall, q);
  }

  lemma MemoryLimit(run: seq<Limit>, points: seq<Point>, caps: Caps, q: Pos)
    requires HeavyPoints(points) != [] && caps.memory.Some? && Largest(HeavyPoints(points)).peak.value > 0.0
             && run != []
    ensures var limit, p := TightestOf(run + ProjectedLimits(points, caps, q)).at, Largest(HeavyPoints(points));
            limit.Some? && (limit.value > q ==> Fills(limit.value as real, p, caps.memory.value, p.peak.value))
  {
    var p := Largest(HeavyPoints(points));
    var x := Projection(p, caps.memory.value, p.peak.value);
    var l := Limit(Some(Rounded(x, q)), Some(MemoryLimited));
    var projected := ProjectedLimits(points, caps, q);
    hide Rounded, Projection;
    assert projected[|projected| - 1] == l;
    TightestBelow(run + projected, l);
    RoundedWithin(TightestOf(run + projected).at, p, caps.memory.value, p.peak.value, q);
  }

  // ----- The limit and its label, exactly

  // The sources of a limit, in order: the least too-big batch, the least
  // reported capacity, the bypass capacity until a point reached it, and the
  // batches that fill the wall and memory budgets, projected from the largest point.
  ghost predicate Gives(entry: Entry, runs: seq<Run>, points: seq<Point>, caps: Caps, k: int, x: int, why: Label) {
    var q := Quantum(entry);
    || (k == 1 && LeastTooBig(runs, x + 1) && exists run ::
          run in runs && run.kind.TooBig? && run.batch == x + 1 && why == TooBigLabel(run.reason))
    || (k == 2 && LeastCapacity(runs, x) && why == CapacityLimited)
    || (k == 3 && x == entry.capacityMaxBatch && (forall p :: p in points ==> p.batch < x) && why == CapacityLimited)
    || (k == 4 && why == WallLimited && exists p, y ::
          p in points && (forall o :: o in points ==> o.batch <= p.batch) && p.wall > 0.0
          && GridAt(x, y, q) && ProjectsTo(y, p, 0.9 * caps.wall, p.wall))
    || (k == 5 && why == MemoryLimited && caps.memory.Some? && exists p, y ::
          HeaviestIn(points, p) && GridAt(x, y, q) && ProjectsTo(y, p, caps.memory.value, p.peak.value))
  }

  // The batch that uses the whole budget, in proportion to what the point used.
  predicate ProjectsTo(y: real, p: Point, budget: real, used: real) { y * used == p.batch as real * budget }

  // The largest point with a recorded peak.
  predicate HeaviestIn(points: seq<Point>, p: Point) {
    && p in points && p.peak.Some? && p.peak.value != 0.0
    && forall o :: o in points && o.peak.Some? && o.peak.value != 0.0 ==> o.batch <= p.batch
  }

  // The limit one source gives.
  function SourceOf(entry: Entry, runs: seq<Run>, points: seq<Point>, caps: Caps, k: int): seq<Limit> {
    var big, known, heavy := SmallestTooBig(runs), Capacities(runs), HeavyPoints(points);
    match k
    case 1 => if big.Some? then [Limit(Some(big.value.batch - 1), Some(TooBigLabel(big.value.reason)))] else []
    case 2 => if known != [] then [Limit(Some(MinSeq(known)), Some(CapacityLimited))] else []
    case 3 => if exists p :: p in points && p.batch >= entry.capacityMaxBatch then []
              else [Limit(Some(entry.capacityMaxBatch), Some(CapacityLimited))]
    case 4 => if points != [] && Largest(points).wall > 0.0 then
                [Limit(Some(Rounded(Projection(Largest(points), WallBudget(caps), Largest(points).wall),
                                    Quantum(entry))),
                       Some(WallLimited))]
              else []
    case 5 => if points != [] && caps.memory.Some? && heavy != [] then
                [Limit(Some(Rounded(Projection(Largest(heavy), caps.memory.value, Largest(heavy).peak.value),
                                    Quantum(entry))), Some(MemoryLimited))]
              else []
    case _ => []
  }

  function UpTo(entry: Entry, runs: seq<Run>, points: seq<Point>, caps: Caps, k: nat): (r: seq<Limit>)
    ensures r != []
  {
    if k == 0 then [Limit(None, None)]
    else UpTo(entry, runs, points, caps, k - 1) + SourceOf(entry, runs, points, caps, k)
  }

  lemma AllSources(entry: Entry, runs: seq<Run>, points: seq<Point>, caps: Caps)
    ensures UpTo(entry, runs, points, caps, 5)
         == RunLimits(entry, runs, points) + ProjectedLimits(points, caps, Quantum(entry))
  {
    hide SmallestTooBig, Capacities, HeavyPoints, Rounded, Projection, Quantum, MinSeq, Largest, TooBigLabel,
      WallBudget;
    UpToThree(entry, runs, points, caps);
    var run := RunLimits(entry, runs, points);
    var wall, memory := SourceOf(entry, runs, points, caps, 4), SourceOf(entry, runs, points, caps, 5);
    assert ProjectedLimits(points, caps, Quantum(entry)) == wall + memory;
    assert run + (wall + memory) == run + wall + memory;
    hide SourceOf, RunLimits, ProjectedLimits;
  }

  lemma UpToThree(entry: Entry, runs: seq<Run>, points: seq<Point>, caps: Caps)
    ensures UpTo(entry, runs, points, caps, 3) == RunLimits(entry, runs, points)
  {
    hide SmallestTooBig, Capacities, MinSeq, TooBigLabel;
    assert UpTo(entry, runs, points, caps, 1)
        == UpTo(entry, runs, points, caps, 0) + SourceOf(entry, runs, points, caps, 1);
    assert UpTo(entry, runs, points, caps, 2)
        == UpTo(entry, runs, points, caps, 1) + SourceOf(entry, runs, points, caps, 2);
  }

  // The tightest source up to k: the first of equally tight ones.
  ghost predicate BestUpTo(entry: Entry, runs: seq<Run>, points: seq<Point>, caps: Caps, k: nat, l: Limit) {
    if l.at.None? then l.binds.None? && forall j :: 1 <= j <= k ==> SourceOf(entry, runs, points, caps, j) == []
    else exists j ::
      && 1 <= j <= k && SourceOf(entry, runs, points, caps, j) == [l]
      && forall i, m :: 1 <= i <= k && SourceOf(entry, runs, points, caps, i) == [m] ==>
           m.at.Some? && (l.at.value < m.at.value || (l.at.value == m.at.value && j <= i))
  }

  lemma SourceShape(entry: Entry, runs: seq<Run>, points: seq<Point>, caps: Caps, k: int)
    ensures var s := SourceOf(entry, runs, points, caps, k); s == [] || (|s| == 1 && s[0].at.Some? && s[0].binds.Some?)
  {}

  lemma {:induction false} BestFound(entry: Entry, runs: seq<Run>, points: seq<Point>, caps: Caps, k: nat)
    ensures BestUpTo(entry, runs, points, caps, k, TightestOf(UpTo(entry, runs, points, caps, k)))
  {
    hide SourceOf, BestUpTo, Tighter;
    if k > 0 {
      BestFound(entry, runs, points, caps, k - 1);
      SourceShape(entry, runs, points, caps, k);
      var init, last := UpTo(entry, runs, points, caps, k - 1), SourceOf(entry, runs, points, caps, k);
      if last == [] {
        assert init + last == init;
        BestStays(entry, runs, points, caps, k, TightestOf(init));
      } else {
        assert (init + last)[..|init|] == init && last == [last[0]];
        BestStep(entry, runs, points, caps, k, TightestOf(init), last[0]);
      }
    } else {
      NoBest(entry, runs, points, caps);
    }
  }

  lemma NoBest(entry: Entry, runs: seq<Run>, points: seq<Point>, caps: Caps)
    ensures BestUpTo(entry, runs, points, caps, 0, Limit(None, None))
  {}

  lemma BestStays(entry: Entry, runs: seq<Run>, points: seq<Point>, caps: Caps, k: nat, l: Limit)
    requires k > 0 && BestUpTo(entry, runs, points, caps, k - 1, l) && SourceOf(entry, runs, points, caps, k) == []
    ensures BestUpTo(entry, runs, points, caps, k, l)
  {
    hide SourceOf;
    if l.at.Some? {
      var j :| 1 <= j <= k - 1 && SourceOf(entry, runs, points, caps, j) == [l]
               && forall i, n :: 1 <= i <= k - 1 && SourceOf(entry, runs, points, caps, i) == [n] ==>
                    n.at.Some? && (l.at.value < n.at.value || (l.at.value == n.at.value && j <= i));
      assert SourceOf(entry, runs, points, caps, j) == [l];
    }
  }

  lemma BestStep(entry: Entry, runs: seq<Run>, points: seq<Point>, caps: Caps, k: nat, l: Limit, m: Limit)
    requires k > 0 && BestUpTo(entry, runs, points, caps, k - 1, l) && SourceOf(entry, runs, points, caps, k) == [m]
    requires m.at.Some?
    ensures BestUpTo(entry, runs, points, caps, k, if Tighter(m.at, l.at) then m else l)
  {
    hide SourceOf;
    if l.at.Some? {
      var j :| 1 <= j <= k - 1 && SourceOf(entry, runs, points, caps, j) == [l]
               && forall i, n :: 1 <= i <= k - 1 && SourceOf(entry, runs, points, caps, i) == [n] ==>
                    n.at.Some? && (l.at.value < n.at.value || (l.at.value == n.at.value && j <= i));
      assert SourceOf(entry, runs, points, caps, j) == [l];
    }
  }

  // A source gives exactly its limit and label.
  lemma SourceGives(entry: Entry, runs: seq<Run>, points: seq<Point>, caps: Caps, k: int, x: int, why: Label)
    requires DistinctRuns(runs) && Functional(points)
    ensures Gives(entry, runs, points, caps, k, x, why) <==>
              SourceOf(entry, runs, points, caps, k) == [Limit(Some(x), Some(why))]
  {
    hide SmallestTooBig, Capacities, HeavyPoints, Rounded, Projection, Quantum, MinSeq, Largest, TooBigLabel,
      WallBudget,
         LeastTooBig, LeastCapacity, GridAt, ProjectsTo;
    match k {
      case 1 => TooBigIs(runs); TooBigGives(runs, x, why);
      case 2 => CapacityIs(runs); CapacityGives(runs, x);
      case 3 =>
      case 4 => WallGives(entry, points, caps, x);
      case 5 => MemoryGives(entry, points, caps, x);
      case _ =>
    }
  }

  predicate DistinctRuns(runs: seq<Run>) {
    forall i, j :: 0 <= i < j < |runs| ==> runs[i].batch != runs[j].batch
  }

  lemma TooBigGives(runs: seq<Run>, x: int, why: Label)
    requires DistinctRuns(runs)
    ensures var big := SmallestTooBig(runs);
            (LeastTooBig(runs, x + 1) && exists run ::
               run in runs && run.kind.TooBig? && run.batch == x + 1 && why == TooBigLabel(run.reason)) <==>
            big.Some? && x == big.value.batch - 1 && why == TooBigLabel(big.value.reason)
  {
    hide SmallestTooBig, TooBigLabel;
    TooBigIs(runs);
    var big := SmallestTooBig(runs);
    if big.Some? {
      forall run | run in runs && run.batch == big.value.batch ensures run == big.value {
        var i :| 0 <= i < |runs| && runs[i] == run;
        var j :| 0 <= j < |runs| && runs[j] == big.value;
      }
    }
  }

  lemma CapacityGives(runs: seq<Run>, x: int)
    ensures LeastCapacity(runs, x) <==> Capacities(runs) != [] && x == MinSeq(Capacities(runs))
  {
    CapacityIs(runs);
    hide Capacities, MinSeq;
    var known := Capacities(runs);
    if LeastCapacity(runs, x) { assert x in known; }
  }

  lemma ProjectionIs(p: Point, budget: real, used: real, y: real, x: int, q: Pos)
    requires used != 0.0
    ensures ProjectsTo(Projection(p, budget, used), p, budget, used)
    ensures ProjectsTo(y, p, budget, used) ==> y == Projection(p, budget, used)
    ensures GridAt(x, y, q) && ProjectsTo(y, p, budget, used) ==> x == Rounded(Projection(p, budget, used), q)
  {
    DividedTimes(p.batch as real * budget, used);
    RoundedIsGrid(Projection(p, budget, used), q);
    hide Rounded, GridAt;
    if ProjectsTo(y, p, budget, used) {
      SameQuotient(y, Projection(p, budget, used), used);
      if GridAt(x, y, q) { GridUnique(x, Rounded(y, q), y, q); }
    }
  }

  lemma DividedTimes(n: real, d: real)
    requires d != 0.0
    ensures n / d * d == n
  {}

  lemma SameQuotient(y: real, z: real, d: real)
    requires d != 0.0 && y * d == z * d
    ensures y == z
  {
    assert (y - z) * d == 0.0;
  }

  lemma WallGives(entry: Entry, points: seq<Point>, caps: Caps, x: int)
    requires Functional(points)
    ensures (exists p, y :: p in points && (forall o :: o in points ==> o.batch <= p.batch) && p.wall > 0.0
                            && GridAt(x, y, Quantum(entry)) && ProjectsTo(y, p, 0.9 * caps.wall, p.wall)) <==>
            points != [] && Largest(points).wall > 0.0
            && x == Rounded(Projection(Largest(points), WallBudget(caps), Largest(points).wall), Quantum(entry))
  {
    hide Largest, Rounded, GridAt, ProjectsTo, Projection, Quantum;
    var q := Quantum(entry);
    if p, y :| p in points && (forall o :: o in points ==> o.batch <= p.batch) && p.wall > 0.0 && GridAt(x, y, q)
               && ProjectsTo(y, p, 0.9 * caps.wall, p.wall) {
      assert p == Largest(points);
      ProjectionIs(p, WallBudget(caps), p.wall, y, x, q);
    }
    if points != [] && Largest(points).wall > 0.0 {
      var p := Largest(points);
      var y := Projection(p, WallBudget(caps), p.wall);
      ProjectionIs(p, WallBudget(caps), p.wall, y, x, q);
      RoundedIsGrid(y, q);
      assert p in points && ProjectsTo(y, p, 0.9 * caps.wall, p.wall);
    }
  }

  lemma HeavyIs(points: seq<Point>)
    ensures forall p :: p in HeavyPoints(points) <==> p in points && p.peak.Some? && p.peak.value != 0.0
  {}

  lemma MemoryGives(entry: Entry, points: seq<Point>, caps: Caps, x: int)
    requires Functional(points)
    ensures (caps.memory.Some? && exists p, y :: HeaviestIn(points, p) && GridAt(x, y, Quantum(entry))
                                                 && ProjectsTo(y, p, caps.memory.value, p.peak.value)) <==>
            caps.memory.Some? && HeavyPoints(points) != []
            && var p := Largest(HeavyPoints(points));
               x == Rounded(Projection(p, caps.memory.value, p.peak.value), Quantum(entry))
  {
    HeavyIs(points);
    hide Largest, Rounded, GridAt, ProjectsTo, Projection, Quantum, HeavyPoints;
    var q, heavy := Quantum(entry), HeavyPoints(points);
    if caps.memory.Some? {
      if p, y :| HeaviestIn(points, p) && GridAt(x, y, q) && ProjectsTo(y, p, caps.memory.value, p.peak.value) {
        assert p in heavy && p == Largest(heavy);
        ProjectionIs(p, caps.memory.value, p.peak.value, y, x, q);
      }
      if heavy != [] {
        var p := Largest(heavy);
        var y := Projection(p, caps.memory.value, p.peak.value);
        ProjectionIs(p, caps.memory.value, p.peak.value, y, x, q);
        RoundedIsGrid(y, q);
        assert HeaviestIn(points, p) && ProjectsTo(y, p, caps.memory.value, p.peak.value);
      }
    }
  }

  // The limit and its label are those of the tightest source, the first of
  // equally tight ones; there is none exactly when no source gives one.
  lemma LimitExactly(entry: Entry, runs: seq<Run>, points: seq<Point>, caps: Caps)
    requires DistinctRuns(runs) && Functional(points)
    ensures var limit := LimitOf(entry, runs, points, caps);
            if limit.at.None? then limit.binds.None? && forall k, x, why :: !Gives(entry, runs, points, caps, k, x, why)
            else limit.binds.Some? && exists k ::
              && Gives(entry, runs, points, caps, k, limit.at.value, limit.binds.value)
              && forall j, x, why :: Gives(entry, runs, points, caps, j, x, why) ==>
                   limit.at.value < x || (limit.at.value == x && k <= j)
  {
    hide Gives, SourceOf, Functional, DistinctRuns, UpTo, RunLimits, ProjectedLimits, TightestOf;
    AllSources(entry, runs, points, caps);
    BestFound(entry, runs, points, caps, 5);
    var limit := LimitOf(entry, runs, points, caps);
    forall k, x, why | Gives(entry, runs, points, caps, k, x, why)
      ensures 1 <= k <= 5 && SourceOf(entry, runs, points, caps, k) == [Limit(Some(x), Some(why))]
    {
      GivesRank(entry, runs, points, caps, k, x, why);
      SourceGives(entry, runs, points, caps, k, x, why);
    }
    if limit.at.Some? {
      var k :| 1 <= k <= 5 && SourceOf(entry, runs, points, caps, k) == [limit]
        && forall i, m :: 1 <= i <= 5 && SourceOf(entry, runs, points, caps, i) == [m] ==>
             m.at.Some? && (limit.at.value < m.at.value || (limit.at.value == m.at.value && k <= i));
      SourceShape(entry, runs, points, caps, k);
      SourceGives(entry, runs, points, caps, k, limit.at.value, limit.binds.value);
    }
  }

  lemma GivesRank(entry: Entry, runs: seq<Run>, points: seq<Point>, caps: Caps, k: int, x: int, why: Label)
    requires Gives(entry, runs, points, caps, k, x, why)
    ensures 1 <= k <= 5
  {}
}
