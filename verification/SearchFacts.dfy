// What one step of a layout's search may ask for, and when a bracket exists.
module SearchFacts {
  import opened Prelude
  import opened NativeSearch
  import opened RealFacts
  import opened QuantumFacts

  // ----- Brackets

  predicate Within(p: Point, slo: real) { p.upper <= slo }

  // low passes, high fails, nothing is measured between them, and below low
  // every failing point lies under every passing one.
  predicate IsBracket(points: seq<Point>, slo: real, low: Point, high: Point) {
    && low in points && high in points
    && Within(low, slo) && !Within(high, slo) && low.batch < high.batch
    && (forall p :: p in points ==> p.batch <= low.batch || high.batch <= p.batch)
    && (forall p, f :: p in points && f in points && Within(p, slo) && !Within(f, slo) && f.batch <= low.batch ==>
                         f.batch < p.batch)
  }

  // Every failing point lies under every passing one.
  predicate Unbracketed(points: seq<Point>, slo: real) {
    forall p, f :: p in points && f in points && Within(p, slo) && !Within(f, slo) ==> f.batch < p.batch
  }

  // A least point in front of a sorted rest, not itself the low end of a bracket with it.
  lemma PrependKeeps(a: Point, rest: seq<Point>, slo: real)
    requires rest != [] && SortedByBatch(rest) && Functional([a] + rest) && a.batch <= rest[0].batch
    requires Within(a, slo) ==> Within(rest[0], slo)
    ensures Unbracketed(rest, slo) ==> Unbracketed([a] + rest, slo)
    ensures forall l, h :: IsBracket(rest, slo, l, h) ==> IsBracket([a] + rest, slo, l, h)
  {
    hide IsBracket, Unbracketed;
    FailuresAboveFront(a, rest, slo);
    PrependUnbracketed(a, rest, slo);
    forall l, h | IsBracket(rest, slo, l, h) ensures IsBracket([a] + rest, slo, l, h) {
      PrependBracket(a, rest, slo, l, h);
    }
  }

  lemma FailuresAboveFront(a: Point, rest: seq<Point>, slo: real)
    requires rest != [] && SortedByBatch(rest) && Functional([a] + rest) && a.batch <= rest[0].batch
    requires Within(a, slo) ==> Within(rest[0], slo)
    ensures forall f :: f in rest ==> a.batch <= f.batch && (f.batch == a.batch ==> f == a)
    ensures forall f :: f in rest && Within(a, slo) && !Within(f, slo) ==> rest[0].batch < f.batch
  {
    forall f | f in rest
      ensures a.batch <= f.batch && (f.batch == a.batch ==> f == a)
      ensures Within(a, slo) && !Within(f, slo) ==> rest[0].batch < f.batch
    {
      assert a in [a] + rest && f in [a] + rest && rest[0] in [a] + rest;
    }
  }

  lemma PrependUnbracketed(a: Point, rest: seq<Point>, slo: real)
    requires forall f :: f in rest ==> a.batch <= f.batch && (f.batch == a.batch ==> f == a)
    requires rest != [] && (Within(a, slo) ==> Within(rest[0], slo))
    requires forall f :: f in rest && Within(a, slo) && !Within(f, slo) ==> rest[0].batch < f.batch
    ensures Unbracketed(rest, slo) ==> Unbracketed([a] + rest, slo)
  {
    assert rest[0] in rest;
    assert forall p :: p in [a] + rest <==> p == a || p in rest;
  }

  lemma PrependBracket(a: Point, rest: seq<Point>, slo: real, low: Point, high: Point)
    requires forall f :: f in rest ==> a.batch <= f.batch && (f.batch == a.batch ==> f == a)
    requires IsBracket(rest, slo, low, high) && rest != [] && (Within(a, slo) ==> Within(rest[0], slo))
    requires forall f :: f in rest && Within(a, slo) && !Within(f, slo) ==> rest[0].batch < f.batch
    ensures IsBracket([a] + rest, slo, low, high)
  {
    assert rest[0] in rest;
    assert forall p :: p in [a] + rest <==> p == a || p in rest;
  }

  lemma ShortUnbracketed(points: seq<Point>, slo: real)
    requires |points| < 2
    ensures Unbracketed(points, slo)
  {}

  lemma FunctionalTail(a: Point, rest: seq<Point>)
    requires Functional([a] + rest)
    ensures Functional(rest)
  {
    assert forall p :: p in rest ==> p in [a] + rest;
  }

  lemma {:induction false} StraddleFinds(ordered: seq<Point>, slo: real)
    requires SortedByBatch(ordered) && Functional(ordered)
    ensures var r := Straddle(ordered, slo);
            if r.Some? then IsBracket(ordered, slo, r.value.0, r.value.1) else Unbracketed(ordered, slo)
  {
    hide IsBracket, Functional;
    if |ordered| < 2 {
      ShortUnbracketed(ordered, slo);
    } else {
      hide Unbracketed;
      var a, rest := ordered[0], ordered[1..];
      assert ordered == [a] + rest;
      FunctionalTail(a, rest);
      if a.upper <= slo < rest[0].upper {
        StraddleFront(a, rest, slo);
      } else {
        StraddleFinds(rest, slo);
        PrependKeeps(a, rest, slo);
      }
    }
  }

  lemma StraddleFront(a: Point, rest: seq<Point>, slo: real)
    requires rest != [] && SortedByBatch([a] + rest) && Functional([a] + rest)
    requires Within(a, slo) && !Within(rest[0], slo)
    ensures IsBracket([a] + rest, slo, a, rest[0])
  {
    var all := [a] + rest;
    assert all[0] == a && all[1] == rest[0];
    assert forall i :: 0 <= i < |all| ==> all[0].batch <= all[i].batch;
    assert forall i :: 1 <= i < |all| ==> all[1].batch <= all[i].batch;
  }

  // The search brackets the SLO exactly when some measured point passes below a failing one.
  lemma BracketFacts(points: seq<Point>, slo: real)
    requires Functional(points)
    ensures var r := Bracket(points, slo);
            if r.Some? then IsBracket(points, slo, r.value.0, r.value.1) else Unbracketed(points, slo)
  {
    StraddleFinds(ByBatch(points), slo);
  }

  lemma BracketUnique(points: seq<Point>, slo: real, low: Point, high: Point)
    requires Functional(points) && IsBracket(points, slo, low, high)
    ensures Bracket(points, slo) == Some((low, high))
  {
    BracketFacts(points, slo);
    var r := Bracket(points, slo);
    assert !Unbracketed(points, slo);
    var (l, h) := r.value;
    assert l.batch <= low.batch || high.batch <= l.batch;
    assert h.batch <= low.batch || high.batch <= h.batch;
  }

  // ----- One step

  predicate OnGrid(b: int, q: Pos) { b >= q && b % q == 0 }

  predicate PointsOnGrid(points: seq<Point>, q: Pos) {
    forall p :: p in points ==> OnGrid(p.batch, q)
  }

  predicate BelowTooBig(runs: seq<Run>, b: int) {
    forall run :: run in runs && run.kind.TooBig? ==> b < run.batch
  }

  predicate LastIsSmallestTooBig(runs: seq<Run>) {
    forall i :: 0 <= i < |runs| && runs[i].kind.TooBig? ==> runs[|runs| - 1].batch <= runs[i].batch
  }

  lemma FollowBracketFacts(runs: seq<Run>, low: Point, high: Point, slo: real, q: Pos)
    requires low.upper < high.upper && OnGrid(low.batch, q)
    requires FollowBracket(runs, low, high, slo, q).Some?
    ensures var b := FollowBracket(runs, low, high, slo, q).value;
            !Tried(runs, b) && OnGrid(b, q) && low.batch < b && BelowTooBig(runs, b)
  {
    var big := SmallestTooBig(runs).value.batch;
    var middle := (low.batch + big) as real / 2.0;
    RoundedFacts(middle, q);
  }

  lemma CapacityOnGrid(known: int, q: Pos)
    ensures known / q * q <= known && known / q * q % q == 0
  {
    ProductIsMultiple(known / q, q);
  }

  lemma FollowUnmeasuredFacts(runs: seq<Run>, q: Pos)
    requires runs != [] && LastIsSmallestTooBig(runs)
    requires FollowUnmeasured(runs, q).Some?
    ensures var b := FollowUnmeasured(runs, q).value;
            !Tried(runs, b) && OnGrid(b, q) && BelowTooBig(runs, b)
  {
    hide Rounded;
    var last, known := runs[|runs| - 1], Capacities(runs);
    RoundedFacts(last.batch as real / 2.0, q);
    if known != [] {
      CapacityOnGrid(MinSeq(known), q);
    }
    assert FollowUnmeasured(runs, q).value < last.batch;
  }

  lemma FollowMeasuredFacts(entry: Entry, runs: seq<Run>, points: seq<Point>, slo: real, caps: Caps)
    requires points != []
    requires FollowMeasured(entry, runs, points, slo, caps).Some?
    ensures var b := FollowMeasured(entry, runs, points, slo, caps).value;
            && !Tried(runs, b) && OnGrid(b, Quantum(entry)) && BelowTooBig(runs, b)
            && Spaced(points, b, Quantum(entry))
            && !Tighter(LimitOf(entry, runs, points, caps).at, Some(b))
  {
    hide AimedBatch, Nearest;
    var q, limit := Quantum(entry), LimitOf(entry, runs, points, caps);
    AimedOnGrid(entry, runs, points, slo, limit.at);
    var nearest := Nearest(points, AimedBatch(entry, runs, points, slo, limit.at));
    RoundedFacts(nearest as real + Step(nearest, q), q);
    FloorToIsGreatest(nearest as real - Step(nearest, q), q);
    LimitUnderTooBig(entry, runs, points, caps);
  }

  lemma AimedOnGrid(entry: Entry, runs: seq<Run>, points: seq<Point>, slo: real, limit: Option<int>)
    requires points != []
    ensures OnGrid(AimedBatch(entry, runs, points, slo, limit), Quantum(entry))
  {
    hide Target;
    var q, big, known := Quantum(entry), SmallestTooBig(runs), Capacities(runs);
    var aim := Target(entry, points, slo);
    var passing := if big.Some? then PassingBelow(points, slo, big.value.batch) else [];
    var half := if big.Some? then ((if passing == [] then 0 else MaxSeq(passing)) + big.value.batch) as real / 2.0
      else 0.0;
    RoundedFacts(aim, q);
    RoundedFacts(half, q);
    if limit.Some? {
      RoundedFacts(MinReal(aim, limit.value as real), q);
      RoundedFacts(MinReal(half, limit.value as real), q);
    }
  }

  lemma LimitUnderTooBig(entry: Entry, runs: seq<Run>, points: seq<Point>, caps: Caps)
    ensures var big, limit := SmallestTooBig(runs), LimitOf(entry, runs, points, caps);
            big.Some? ==> limit.at.Some? && limit.at.value < big.value.batch
  {
    hide ProjectedLimits;
    var big := SmallestTooBig(runs);
    if big.Some? {
      var l := Limit(Some(big.value.batch - 1), Some(TooBigLabel(big.value.reason)));
      assert RunLimits(entry, runs, points)[1] == l;
      assert l in RunLimits(entry, runs, points) + ProjectedLimits(points, caps, Quantum(entry));
    }
  }

  // A step of the search never repeats a batch, keeps to the quantum, and
  // stays strictly under every too-big batch.
  lemma FollowingFacts(entry: Entry, runs: seq<Run>, points: seq<Point>, slo: real, caps: Caps)
    requires runs != [] && PointsOnGrid(points, Quantum(entry))
    requires points == [] ==> LastIsSmallestTooBig(runs)
    requires Following(entry, runs, points, slo, caps).Some?
    ensures var b := Following(entry, runs, points, slo, caps).value;
            !Tried(runs, b) && OnGrid(b, Quantum(entry)) && BelowTooBig(runs, b)
  {
    hide FollowBracket, FollowUnmeasured, FollowMeasured, Bracket;
    var pair := Bracket(points, slo);
    if pair.Some? {
      FollowBracketFacts(runs, pair.value.0, pair.value.1, slo, Quantum(entry));
    } else if points == [] {
      FollowUnmeasuredFacts(runs, Quantum(entry));
    } else {
      FollowMeasuredFacts(entry, runs, points, slo, caps);
    }
  }

  // ----- Interpolation

  // Between a passing low and a failing high end the line meets the SLO inside [low, high).
  lemma ShareInside(low: Point, high: Point, slo: real)
    requires Within(low, slo) && !Within(high, slo) && low.batch < high.batch
    ensures low.batch as real <= SloCrossing(low, high, slo) < high.batch as real
  {
    var d, n: PosReal := high.upper - low.upper, (high.batch - low.batch) as real;
    var share := (slo - low.upper) / d;
    QuotientAtMost(slo - low.upper, d, 1.0, d);
    assert share >= 0.0;
    MulAtMost(0.0, share, n, 0.0, share * n);
    MulLess(share, 1.0, n, share * n, n);
  }

  lemma InterpolatedInside(low: Point, high: Point, slo: real, q: Pos)
    requires Within(low, slo) && !Within(high, slo) && low.batch < high.batch && OnGrid(low.batch, q)
    ensures var b := InterpolatedBatch(low, high, slo, q);
            OnGrid(b, q) && low.batch <= b < high.batch
  {
    hide Rounded, SloCrossing;
    ShareInside(low, high, slo);
    RoundedBetween(SloCrossing(low, high, slo), low.batch, high.batch, q);
  }

  lemma RoundedBetween(x: real, low: int, high: int, q: Pos)
    requires OnGrid(low, q) && low as real <= x < high as real
    ensures OnGrid(Rounded(x, q), q) && low <= Rounded(x, q) < high
  {
    RoundedFacts(x, q);
  }
}
