// The next batch as equations on the measured points: a secant, a scaled line,
// a doubling or halving, a bisection, or a reported capacity.
module SearchAim {
  import opened Prelude
  import opened RealFacts
  import opened NativeSearch
  import opened SearchDirection

  // ----- The batch aimed at before any limit

  // The line through two measured upper bounds reaches the SLO at x.
  predicate Meets(x: real, p: Point, r: Point, slo: real) {
    (x - p.batch as real) * (r.upper - p.upper) == (slo - p.upper) * (r.batch - p.batch) as real
  }

  // The two largest points while all are within the SLO, else the two smallest.
  predicate EndPair(points: seq<Point>, slo: real, p: Point, r: Point) {
    && p in points && r in points && p.batch < r.batch
    && if forall o :: o in points ==> o.upper <= slo
       then forall o :: o in points ==> o == r || o.batch <= p.batch
       else forall o :: o in points ==> o == p || r.batch <= o.batch
  }

  // Twice the largest point while all are within the SLO, else half the smallest.
  predicate Stretches(x: real, points: seq<Point>, slo: real) {
    if forall o :: o in points ==> o.upper <= slo
    then exists p :: p in points && (forall o :: o in points ==> o.batch <= p.batch) && x == 2.0 * p.batch as real
    else exists p :: p in points && (forall o :: o in points ==> p.batch <= o.batch) && 2.0 * x == p.batch as real
  }

  // The bypass line, scaled to the point's upper bound, reaches the SLO at x.
  predicate ScaledMeets(x: real, entry: Entry, p: Point, slo: real) {
    (entry.intercept + entry.slope * x) * p.upper == slo * LineAt(entry, p.batch)
  }

  predicate ScaledRises(entry: Entry, p: Point) {
    entry.slope > 0.0 && LineAt(entry, p.batch) > 0.0
  }

  predicate PairAims(points: seq<Point>, slo: real, p: Point, r: Point, x: real) {
    EndPair(points, slo, p, r) && if p.upper < r.upper then Meets(x, p, r, slo) else Stretches(x, points, slo)
  }

  // One point: where the bypass line, scaled to its upper bound, reaches the
  // SLO. More: where the line through the end pair does. Else a stretch.
  ghost predicate Aims(entry: Entry, points: seq<Point>, slo: real, x: real) {
    if |points| == 1
    then if ScaledRises(entry, points[0]) then ScaledMeets(x, entry, points[0], slo) else Stretches(x, points, slo)
    else exists p, r :: PairAims(points, slo, p, r, x)
  }

  predicate DistinctPoints(points: seq<Point>) {
    forall i, j :: 0 <= i < j < |points| ==> points[i].batch != points[j].batch
  }

  lemma StretchIs(points: seq<Point>, slo: real)
    requires points != []
    ensures Stretches(if AllWithin(points, slo) then Largest(points).batch as real * 2.0
                      else Smallest(points).batch as real / 2.0, points, slo)
  {
    hide Largest, Smallest;
    assert Largest(points) in points && Smallest(points) in points;
  }

  // A line scaled by upper / bypass meets the SLO where the line meets slo * bypass / upper.
  lemma ScaledCrossing(i: real, s: PosReal, u: PosReal, bypass: PosReal, slo: real)
    ensures Scaled(s, u, bypass) > 0.0
    ensures Toward(Scaled(i, u, bypass), Scaled(s, u, bypass), slo).Some?
    ensures var x := Toward(Scaled(i, u, bypass), Scaled(s, u, bypass), slo).value; (i + s * x) * u == slo * bypass
  {
    var a, c := Scaled(i, u, bypass), Scaled(s, u, bypass);
    QuotientTimes(i * u, bypass);
    QuotientTimes(s * u, bypass);
    assert s * u > 0.0;
    QuotientAtLeast(s * u, bypass, 0.0, 0.0);
    var x := (slo - a) / c;
    QuotientTimes(slo - a, c);
    ScaledProducts(i, s, u, bypass, slo, a, c, x);
    hide Scaled;
  }

  lemma ScaledProducts(i: real, s: real, u: real, bypass: real, slo: real, a: real, c: real, x: real)
    requires a * bypass == i * u && c * bypass == s * u && x * c == slo - a
    ensures (i + s * x) * u == slo * bypass
  {
    assert x * c * bypass == x * (c * bypass) == x * (s * u);
    assert (slo - a) * bypass == slo * bypass - a * bypass;
    assert (i + s * x) * u == i * u + x * (s * u);
  }

  lemma NotScaled(s: real, u: PosReal, bypass: PosReal)
    requires s <= 0.0
    ensures Scaled(s, u, bypass) <= 0.0
  {
    assert s * u <= 0.0;
    QuotientAtMost(s * u, bypass, 0.0, 0.0);
  }

  lemma OneAim(entry: Entry, points: seq<Point>, slo: real)
    requires |points| == 1
    ensures Aims(entry, points, slo, Target(entry, points, slo))
  {
    hide Scaled, Stretches, ScaledMeets, ScaledRises, LineAt, PairAims, Toward, FitLine, ByBatch, Largest, Smallest;
    StretchIs(points, slo);
    ScaledAim(entry, points[0], slo);
  }

  // The scaled line of one point, as the search follows it.
  lemma ScaledAim(entry: Entry, p: Point, slo: real)
    ensures var bypass := LineAt(entry, p.batch);
            if bypass > 0.0 then
              var aim := Toward(Scaled(entry.intercept, p.upper, bypass), Scaled(entry.slope, p.upper, bypass), slo);
              (aim.Some? <==> ScaledRises(entry, p)) && (aim.Some? ==> ScaledMeets(aim.value, entry, p, slo))
            else !ScaledRises(entry, p)
  {
    var bypass := LineAt(entry, p.batch);
    hide Scaled;
    if bypass > 0.0 {
      if entry.slope > 0.0 { ScaledCrossing(entry.intercept, entry.slope, p.upper, bypass, slo); }
      else { NotScaled(entry.slope, p.upper, bypass); }
    }
  }

  // The fitted line of two points rises exactly with them, and meets the SLO where the chord does.
  lemma TwoPointAim(p: Point, r: Point, slo: real)
    requires p.batch < r.batch
    ensures var line := FitLine([(p.batch as real, p.upper), (r.batch as real, r.upper)]);
            var aim := Toward(line.0, line.1, slo);
            && (aim.Some? <==> p.upper < r.upper)
            && (aim.Some? ==> Meets(aim.value, p, r, slo))
  {
    var a, c := (p.batch as real, p.upper as real), (r.batch as real, r.upper as real);
    FitOfTwo(a, c);
    hide FitLine;
    var line := FitLine([a, c]);
    var width: PosReal := c.0 - a.0;
    assert line.1 * width == c.1 - a.1 by { assert line.1 * width == line.1 * c.0 - line.1 * a.0; }
    ProductsOrdered(0.0, line.1, width, 0.0, c.1 - a.1);
    if line.1 > 0.0 {
      var x := (slo - line.0) / line.1;
      QuotientTimes(slo - line.0, line.1);
      ChordProducts(line.0, line.1, a.0, c.0, a.1, c.1, x, slo);
    }
  }

  lemma ChordProducts(i: real, s: real, p: real, r: real, u: real, v: real, x: real, slo: real)
    requires i + s * p == u && i + s * r == v && x * s == slo - i
    ensures (x - p) * (v - u) == (slo - u) * (r - p)
  {
    assert v - u == s * (r - p) by { assert s * (r - p) == s * r - s * p; }
    assert slo - u == s * (x - p) by { assert s * (x - p) == s * x - s * p; }
    Commute(x - p, s, r - p);
  }

  lemma Commute(a: real, s: real, b: real)
    ensures a * (s * b) == s * a * b
  {}

  // Among points of distinct batches the ends of the batch order are the end pair.
  lemma OrderedPair(points: seq<Point>, slo: real)
    requires |points| >= 2 && DistinctPoints(points)
    ensures var ordered := ByBatch(points);
            var pair := if AllWithin(points, slo) then ordered[|ordered| - 2..] else ordered[..2];
            |pair| == 2 && pair[0].batch < pair[1].batch && EndPair(points, slo, pair[0], pair[1])
  {
    hide ByBatch;
    var ordered := ByBatch(points);
    OrderedDistinct(points, ordered);
    var n := |ordered|;
    assert ordered[0] in ordered && ordered[1] in ordered && ordered[n - 2] in ordered && ordered[n - 1] in ordered;
    forall o | o in points
      ensures o == ordered[n - 1] || o.batch <= ordered[n - 2].batch
      ensures o == ordered[0] || ordered[1].batch <= o.batch
    {
      assert o in ordered;
      var k :| 0 <= k < n && ordered[k] == o;
    }
  }

  lemma OrderedDistinct(points: seq<Point>, ordered: seq<Point>)
    requires DistinctPoints(points) && multiset(ordered) == multiset(points) && SortedByBatch(ordered)
    ensures |ordered| == |points| && forall i, j :: 0 <= i < j < |ordered| ==> ordered[i].batch < ordered[j].batch
  {
    assert |multiset(ordered)| == |ordered| && |multiset(points)| == |points|;
    forall i, j | 0 <= i < j < |ordered| ensures ordered[i].batch != ordered[j].batch {
      if ordered[i].batch == ordered[j].batch { SameTwice(points, ordered, i, j); }
    }
  }

  lemma SameTwice(points: seq<Point>, ordered: seq<Point>, i: nat, j: nat)
    requires DistinctPoints(points) && multiset(ordered) == multiset(points) && i < j < |ordered|
    ensures ordered[i].batch != ordered[j].batch
  {
    var p, r := ordered[i], ordered[j];
    assert p in multiset(points) && r in multiset(points);
    var k :| 0 <= k < |points| && points[k] == p;
    var l :| 0 <= l < |points| && points[l] == r;
    if p.batch == r.batch {
      assert k == l && p == r;
      TwiceIn(ordered, i, j);
      OnceIn(points, k);
      assert false;
    }
  }

  lemma TwiceIn(s: seq<Point>, i: nat, j: nat)
    requires i < j < |s| && s[i] == s[j]
    ensures multiset(s)[s[i]] >= 2
  {
    assert s == s[..j] + s[j..];
    assert s[i] in s[..j] && s[j] in s[j..];
    assert multiset(s) == multiset(s[..j]) + multiset(s[j..]);
  }

  lemma OnceIn(s: seq<Point>, k: nat)
    requires DistinctPoints(s) && k < |s|
    ensures multiset(s)[s[k]] == 1
  {
    assert s == s[..k] + [s[k]] + s[k + 1..];
    assert s[k] !in s[..k] && s[k] !in s[k + 1..];
  }

  // The batch aimed at is given by those equations.
  lemma AimExactly(entry: Entry, points: seq<Point>, slo: real)
    requires points != [] && DistinctPoints(points)
    ensures Aims(entry, points, slo, Target(entry, points, slo))
  {
    if |points| == 1 { OneAim(entry, points, slo); } else { PairAim(entry, points, slo); }
    hide *;
  }

  lemma PairAim(entry: Entry, points: seq<Point>, slo: real)
    requires |points| >= 2 && DistinctPoints(points)
    ensures exists p, r :: PairAims(points, slo, p, r, Target(entry, points, slo))
  {
    hide FitLine, Meets, Stretches, EndPair, ByBatch, Largest, Smallest, Toward, Scaled, DistinctPoints;
    OrderedPair(points, slo);
    var ordered := ByBatch(points);
    var pair := if AllWithin(points, slo) then ordered[|ordered| - 2..] else ordered[..2];
    TwoPointAim(pair[0], pair[1], slo);
    StretchIs(points, slo);
    assert PairAims(points, slo, pair[0], pair[1], Target(entry, points, slo));
  }

  // No other batch meets them.
  lemma AimUnique(entry: Entry, points: seq<Point>, slo: real, x: real, y: real)
    requires points != [] && DistinctPoints(points) && Aims(entry, points, slo, x) && Aims(entry, points, slo, y)
    ensures x == y
  {
    hide Stretches, ScaledMeets, PairAims, DistinctPoints;
    StretchUnique(points, slo, x, y);
    if |points| == 1 {
      if ScaledRises(entry, points[0]) { OneScaledLine(entry, points[0], slo, x, y); }
    } else {
      var p, r :| PairAims(points, slo, p, r, x);
      var p', r' :| PairAims(points, slo, p', r', y);
      PairAimUnique(points, slo, p, r, p', r', x, y);
    }
  }

  lemma PairAimUnique(points: seq<Point>, slo: real, p: Point, r: Point, p': Point, r': Point, x: real, y: real)
    requires DistinctPoints(points) && PairAims(points, slo, p, r, x) && PairAims(points, slo, p', r', y)
    ensures x == y
  {
    hide Stretches, DistinctPoints, EndPair, Meets;
    StretchUnique(points, slo, x, y);
    PairUnique(points, slo, p, r, p', r');
    if p.upper < r.upper { OneMeeting(x, y, p, r, slo); }
  }

  lemma OneMeeting(x: real, y: real, p: Point, r: Point, slo: real)
    requires p.upper < r.upper && Meets(x, p, r, slo) && Meets(y, p, r, slo)
    ensures x == y
  {
    OneChord(x, y, p.batch as real, r.upper - p.upper);
  }

  lemma OneScaledLine(entry: Entry, p: Point, slo: real, x: real, y: real)
    requires ScaledRises(entry, p) && ScaledMeets(x, entry, p, slo) && ScaledMeets(y, entry, p, slo)
    ensures x == y
  {
    OneLine(entry.intercept, entry.slope, p.upper, x, y);
  }

  lemma OneLine(i: real, s: PosReal, u: PosReal, x: real, y: real)
    requires (i + s * x) * u == (i + s * y) * u
    ensures x == y
  {
    ProductsOrdered(i + s * x, i + s * y, u, (i + s * x) * u, (i + s * y) * u);
    ProductsOrdered(x, y, s, x * s, y * s);
  }

  lemma OneChord(x: real, y: real, p: real, d: PosReal)
    requires (x - p) * d == (y - p) * d
    ensures x == y
  {
    ProductsOrdered(x - p, y - p, d, (x - p) * d, (y - p) * d);
  }

  lemma StretchUnique(points: seq<Point>, slo: real, x: real, y: real)
    ensures Stretches(x, points, slo) && Stretches(y, points, slo) ==> x == y
  {}

  lemma PairUnique(points: seq<Point>, slo: real, p: Point, r: Point, p': Point, r': Point)
    requires EndPair(points, slo, p, r) && EndPair(points, slo, p', r') && DistinctPoints(points)
    ensures p == p' && r == r'
  {
    hide DistinctPoints;
    assert Functional(points) by { DistinctFunctional(points); }
  }

  lemma DistinctFunctional(points: seq<Point>)
    requires DistinctPoints(points)
    ensures Functional(points)
  {}

  // The chord of a bracket meets the SLO at its crossing.
  lemma CrossingMeets(low: Point, high: Point, slo: real)
    requires low.upper < high.upper
    ensures Meets(SloCrossing(low, high, slo), low, high, slo)
  {
    var d: PosReal := high.upper - low.upper;
    var share := (slo - low.upper) / d;
    QuotientTimes(slo - low.upper, d);
    ShareOf(share, (high.batch - low.batch) as real, d, slo - low.upper);
  }

  lemma ShareOf(share: real, width: real, d: real, n: real)
    requires share * d == n
    ensures share * width * d == n * width
  {
    assert share * width * d == share * d * width;
  }
}
