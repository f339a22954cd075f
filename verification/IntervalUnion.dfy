// prefetch_overlap in scripts/hbf_hbm_metrics.py: union durations of overlapping intervals.
module IntervalUnion {
  import opened Prelude

  // A half-open interval; one that ends at or before its start is empty.
  datatype Interval = Interval(start: real, end: real)

  ghost predicate Covers(intervals: seq<Interval>, x: real) {
    exists i :: 0 <= i < |intervals| && intervals[i].start <= x < intervals[i].end
  }

  // Nonempty, in order, and pairwise disjoint.
  predicate Disjoint(d: seq<Interval>) {
    && (forall i :: 0 <= i < |d| ==> d[i].start < d[i].end)
    && (forall i, j :: 0 <= i < j < |d| ==> d[i].end <= d[j].start)
  }

  function Total(d: seq<Interval>): real {
    if d == [] then 0.0 else Total(d[..|d| - 1]) + (d[|d| - 1].end - d[|d| - 1].start)
  }

  // The length of a union: the total of disjoint intervals that cover the same points.
  ghost predicate Decomposes(d: seq<Interval>, intervals: seq<Interval>) {
    Disjoint(d) && forall x :: Covers(d, x) <==> Covers(intervals, x)
  }

  // ----- Sorting

  predicate Precedes(a: Interval, b: Interval) { a.start < b.start || (a.start == b.start && a.end <= b.end) }

  predicate Sorted(s: seq<Interval>) { forall i, j :: 0 <= i < j < |s| ==> s[i].start <= s[j].start }

  function Insert(x: Interval, sorted: seq<Interval>): seq<Interval> {
    if sorted == [] then [x]
    else
      var k := |sorted| - 1;
      if Precedes(sorted[k], x) then sorted + [x] else Insert(x, sorted[..k]) + [sorted[k]]
  }

  function SortIntervals(s: seq<Interval>): seq<Interval> {
    if s == [] then [] else Insert(s[|s| - 1], SortIntervals(s[..|s| - 1]))
  }

  lemma {:induction false} InsertFacts(x: Interval, sorted: seq<Interval>, top: real)
    requires Sorted(sorted) && x.start <= top && forall i :: 0 <= i < |sorted| ==> sorted[i].start <= top
    ensures Sorted(Insert(x, sorted)) && forall y :: y in Insert(x, sorted) <==> y == x || y in sorted
    ensures forall i :: 0 <= i < |Insert(x, sorted)| ==> Insert(x, sorted)[i].start <= top
  {
    if sorted != [] {
      var k := |sorted| - 1;
      if !Precedes(sorted[k], x) {
        InsertFacts(x, sorted[..k], sorted[k].start);
      } else {
        assert forall i :: 0 <= i < k ==> sorted[i].start <= sorted[k].start;
      }
    }
  }

  lemma {:induction false} SortFacts(s: seq<Interval>)
    ensures Sorted(SortIntervals(s)) && forall y :: y in SortIntervals(s) <==> y in s
  {
    if s != [] {
      var k := |s| - 1;
      SortFacts(s[..k]);
      var rest := SortIntervals(s[..k]);
      var top := if rest == [] || rest[|rest| - 1].start < s[k].start then s[k].start else rest[|rest| - 1].start;
      InsertFacts(s[k], rest, top);
    }
  }

  lemma SameMembersCover(a: seq<Interval>, b: seq<Interval>, x: real)
    requires forall y :: y in a ==> y in b
    ensures Covers(a, x) ==> Covers(b, x)
  {
    if Covers(a, x) {
      var i :| 0 <= i < |a| && a[i].start <= x < a[i].end;
      assert a[i] in a;
      var j :| 0 <= j < |b| && b[j] == a[i];
    }
  }

  // ----- The sweep

  datatype Sweep = Sweep(total: real, right: Option<real>)

  function Swept(s: Sweep, x: Interval): Sweep {
    if x.end <= x.start then s
    else
      var total := if s.right.None? || x.start >= s.right.value then s.total + (x.end - x.start)
                   else if x.end > s.right.value then s.total + (x.end - s.right.value)
                   else s.total;
      Sweep(total, Some(if s.right.Some? then MaxReal(s.right.value, x.end) else x.end))
  }

  function SweepOver(sorted: seq<Interval>): Sweep {
    if sorted == [] then Sweep(0.0, None) else Swept(SweepOver(sorted[..|sorted| - 1]), sorted[|sorted| - 1])
  }

  function UnionDurationOf(intervals: seq<Interval>): real { SweepOver(SortIntervals(intervals)).total }

  method UnionDuration(intervals: seq<Interval>) returns (total: real)
    ensures total == UnionDurationOf(intervals)
  {
    var sorted := SortIntervals(intervals);
    total := 0.0;
    var right := None;
    for k := 0 to |sorted|
      invariant Sweep(total, right) == SweepOver(sorted[..k])
    {
      var x := sorted[k];
      assert sorted[..k + 1][..k] == sorted[..k];
      if x.end > x.start {
        if right.None? || x.start >= right.value {
          total := total + (x.end - x.start);
        } else if x.end > right.value {
          total := total + (x.end - right.value);
        }
        right := Some(if right.Some? then MaxReal(right.value, x.end) else x.end);
      }
    }
    assert sorted[..|sorted|] == sorted;
  }

  // What the sweep has covered, as disjoint intervals ending at its right edge.
  ghost predicate Tracks(s: Sweep, d: seq<Interval>, seen: seq<Interval>) {
    && Decomposes(d, seen) && s.total == Total(d)
    && (if d == [] then s.right.None? else s.right == Some(d[|d| - 1].end))
    && (d != [] ==> exists i :: 0 <= i < |seen| && d[|d| - 1].start == seen[i].start)
  }

  lemma TotalSnoc(d: seq<Interval>, x: Interval)
    ensures Total(d + [x]) == Total(d) + (x.end - x.start)
  {
    assert (d + [x])[..|d|] == d;
  }

  lemma CoversSnoc(seen: seq<Interval>, x: Interval, p: real)
    ensures Covers(seen + [x], p) <==> Covers(seen, p) || x.start <= p < x.end
  {
    var longer := seen + [x];
    assert longer[|seen|] == x;
    if Covers(seen, p) {
      var i :| 0 <= i < |seen| && seen[i].start <= p < seen[i].end;
      assert longer[i] == seen[i];
    }
  }

  lemma SweepSkips(s: Sweep, d: seq<Interval>, seen: seq<Interval>, x: Interval)
    requires Tracks(s, d, seen) && x.end <= x.start
    ensures Tracks(s, d, seen + [x])
  {
    hide Covers;
    forall p ensures Covers(seen + [x], p) <==> Covers(seen, p) { CoversSnoc(seen, x, p); }
    assert forall i :: 0 <= i < |seen| ==> (seen + [x])[i] == seen[i];
  }

  lemma SweepAppends(s: Sweep, d: seq<Interval>, seen: seq<Interval>, x: Interval)
    requires Tracks(s, d, seen) && x.start < x.end && (s.right.None? || x.start >= s.right.value)
    ensures Tracks(Sweep(s.total + (x.end - x.start), Some(x.end)), d + [x], seen + [x])
  {
    hide Covers;
    TotalSnoc(d, x);
    forall p ensures Covers(d + [x], p) <==> Covers(seen + [x], p) {
      CoversSnoc(seen, x, p);
      CoversSnoc(d, x, p);
    }
    assert (seen + [x])[|seen|] == x;
  }

  // x starts inside the last interval, which then ends at the later of the two ends.
  lemma SweepWidens(s: Sweep, d: seq<Interval>, seen: seq<Interval>, x: Interval) returns (next: seq<Interval>)
    requires Tracks(s, d, seen) && x.start < x.end && s.right.Some? && x.start < s.right.value
    requires forall i :: 0 <= i < |seen| ==> seen[i].start <= x.start
    ensures Tracks(Sweep(s.total + MaxReal(0.0, x.end - s.right.value), Some(MaxReal(s.right.value, x.end))), next,
                   seen + [x])
  {
    hide Covers;
    var init, last := d[..|d| - 1], d[|d| - 1];
    assert d == init + [last];
    var wide := Interval(last.start, MaxReal(last.end, x.end));
    next := init + [wide];
    TotalSnoc(init, last);
    TotalSnoc(init, wide);
    forall p ensures Covers(next, p) <==> Covers(seen + [x], p) {
      CoversSnoc(seen, x, p);
      CoversSnoc(init, last, p);
      CoversSnoc(init, wide, p);
    }
    assert forall i :: 0 <= i < |seen| ==> (seen + [x])[i] == seen[i];
  }

  lemma SweepStep(s: Sweep, d: seq<Interval>, seen: seq<Interval>, x: Interval) returns (next: seq<Interval>)
    requires Tracks(s, d, seen) && forall i :: 0 <= i < |seen| ==> seen[i].start <= x.start
    ensures Tracks(Swept(s, x), next, seen + [x])
  {
    hide Tracks;
    if x.end <= x.start {
      next := d;
      SweepSkips(s, d, seen, x);
    } else if s.right.None? || x.start >= s.right.value {
      next := d + [x];
      SweepAppends(s, d, seen, x);
    } else {
      next := SweepWidens(s, d, seen, x);
    }
  }

  lemma {:induction false} SweepTracks(sorted: seq<Interval>) returns (d: seq<Interval>)
    requires Sorted(sorted)
    ensures Tracks(SweepOver(sorted), d, sorted)
  {
    if sorted == [] {
      d := [];
    } else {
      var init, last := sorted[..|sorted| - 1], sorted[|sorted| - 1];
      assert sorted == init + [last];
      var before := SweepTracks(init);
      d := SweepStep(SweepOver(init), before, init, last);
    }
  }

  // ----- Lengths of covered sets

  function Overlap(x: Interval, a: real, b: real): real {
    MaxReal(0.0, MinReal(x.end, b) - MaxReal(x.start, a))
  }

  // How much of [a, b) the intervals take, from the front.
  function Taken(d: seq<Interval>, a: real, b: real): real {
    if d == [] then 0.0 else Overlap(d[0], a, b) + Taken(d[1..], a, b)
  }

  function TotalFront(d: seq<Interval>): real {
    if d == [] then 0.0 else (d[0].end - d[0].start) + TotalFront(d[1..])
  }

  lemma {:induction false} TotalFromFront(d: seq<Interval>)
    ensures Total(d) == TotalFront(d)
  {
    if |d| > 1 {
      TotalFromFront(d[1..]);
      TotalFromFront(d[..|d| - 1]);
      TotalFromFront(d[1..][..|d| - 2]);
      assert d[1..][..|d| - 2] == d[..|d| - 1][1..];
    } else if |d| == 1 {
      assert d[..0] == [] && d[1..] == [];
    }
  }

  lemma {:induction false} TakenMonotone(d: seq<Interval>, a: real, c: real, b: real)
    requires a <= c
    ensures 0.0 <= Taken(d, c, b) <= Taken(d, a, b)
  {
    if d != [] { TakenMonotone(d[1..], a, c, b); }
  }

  // A covered interval is taken entirely.
  lemma {:induction false} CoveredIsTaken(d: seq<Interval>, a: real, b: real)
    requires Disjoint(d) && a < b && forall x :: a <= x < b ==> Covers(d, x)
    ensures Taken(d, a, b) >= b - a
  {
    assert Covers(d, a);
    var first, rest := d[0], d[1..];
    assert forall i :: 0 <= i < |rest| ==> rest[i] == d[i + 1];
    assert forall i :: 0 <= i < |rest| ==> first.end <= rest[i].start;
    forall x | a <= x < b && first.end <= x ensures Covers(rest, x) {
      assert Covers(d, x);
      var i :| 0 <= i < |d| && d[i].start <= x < d[i].end;
      assert rest[i - 1] == d[i];
    }
    if first.end <= a {
      CoveredIsTaken(rest, a, b);
    } else if b > first.end {
      CoveredIsTaken(rest, first.end, b);
      TakenMonotone(rest, a, first.end, b);
    } else {
      TakenMonotone(rest, a, a, b);
    }
  }

  // Disjoint intervals take no more than there is.
  lemma {:induction false} TakenAtMost(d: seq<Interval>, a: real, b: real)
    requires Disjoint(d)
    ensures Taken(d, a, b) <= MaxReal(0.0, b - a)
    ensures d != [] ==> Taken(d, a, b) == Taken(d, MaxReal(a, d[0].start), b)
  {
    if d != [] {
      var rest := d[1..];
      assert forall i :: 0 <= i < |rest| ==> rest[i] == d[i + 1];
      TakenAtMost(rest, a, b);
      TakenAtMost(rest, MaxReal(a, d[0].end), b);
      TakenAtMost(rest, MaxReal(a, d[0].start), b);
      if rest != [] {
        TakenAtMost(rest, MaxReal(a, rest[0].start), b);
        assert MaxReal(MaxReal(a, d[0].end), rest[0].start) == MaxReal(a, rest[0].start);
        assert MaxReal(MaxReal(a, d[0].start), rest[0].start) == MaxReal(a, rest[0].start);
      }
    }
  }

  // What d takes of each interval of e, summed.
  function Shared(e: seq<Interval>, d: seq<Interval>): real {
    if e == [] then 0.0 else Taken(d, e[0].start, e[0].end) + Shared(e[1..], d)
  }

  lemma {:induction false} SharedSplits(e: seq<Interval>, d: seq<Interval>)
    requires d != []
    ensures Shared(e, d) == Taken(e, d[0].start, d[0].end) + Shared(e, d[1..])
  {
    if e != [] { SharedSplits(e[1..], d); }
  }

  lemma {:induction false} NothingShared(e: seq<Interval>)
    ensures Shared(e, []) == 0.0
  {
    if e != [] { NothingShared(e[1..]); }
  }

  lemma {:induction false} SharedAtMost(e: seq<Interval>, d: seq<Interval>)
    requires Disjoint(e) && Disjoint(d)
    ensures Shared(e, d) <= TotalFront(d)
  {
    if d == [] {
      NothingShared(e);
    } else {
      assert forall i :: 0 <= i < |d[1..]| ==> d[1..][i] == d[i + 1];
      SharedSplits(e, d);
      SharedAtMost(e, d[1..]);
      TakenAtMost(e, d[0].start, d[0].end);
    }
  }

  lemma {:induction false} SharedAtLeast(e: seq<Interval>, d: seq<Interval>)
    requires Disjoint(e) && Disjoint(d) && forall x :: Covers(e, x) ==> Covers(d, x)
    ensures Shared(e, d) >= TotalFront(e)
  {
    if e != [] {
      assert forall i :: 0 <= i < |e[1..]| ==> e[1..][i] == e[i + 1];
      forall x ensures Covers(e[1..], x) ==> Covers(e, x) { SameMembersCover(e[1..], e, x); }
      SharedAtLeast(e[1..], d);
      assert forall x :: e[0].start <= x < e[0].end ==> Covers(e, x);
      CoveredIsTaken(d, e[0].start, e[0].end);
    }
  }

  // A disjoint cover of fewer points is no longer.
  lemma TotalsOrdered(e: seq<Interval>, d: seq<Interval>)
    requires Disjoint(e) && Disjoint(d) && forall x :: Covers(e, x) ==> Covers(d, x)
    ensures Total(e) <= Total(d)
  {
    SharedAtLeast(e, d);
    SharedAtMost(e, d);
    TotalFromFront(e);
    TotalFromFront(d);
  }

  // ----- The union duration is the length of the union

  // It is the total of every disjoint decomposition, and one exists.
  lemma UnionIsMeasure(intervals: seq<Interval>) returns (d: seq<Interval>)
    ensures Decomposes(d, intervals) && UnionDurationOf(intervals) == Total(d)
    ensures forall e :: Decomposes(e, intervals) ==> Total(e) == UnionDurationOf(intervals)
  {
    SortFacts(intervals);
    var sorted := SortIntervals(intervals);
    d := SweepTracks(sorted);
    forall x ensures Covers(sorted, x) <==> Covers(intervals, x) {
      SameMembersCover(sorted, intervals, x);
      SameMembersCover(intervals, sorted, x);
    }
    forall e | Decomposes(e, intervals) ensures Total(e) == Total(d) {
      TotalsOrdered(e, d);
      TotalsOrdered(d, e);
    }
  }

  // Covering fewer points takes no longer: so order, repetition and empty intervals do not matter.
  lemma UnionMonotone(a: seq<Interval>, b: seq<Interval>)
    requires forall x :: Covers(a, x) ==> Covers(b, x)
    ensures UnionDurationOf(a) <= UnionDurationOf(b)
  {
    var e := UnionIsMeasure(a);
    var d := UnionIsMeasure(b);
    TotalsOrdered(e, d);
  }

  lemma UnionOfSameSet(a: seq<Interval>, b: seq<Interval>)
    requires forall x :: Covers(a, x) <==> Covers(b, x)
    ensures UnionDurationOf(a) == UnionDurationOf(b)
  {
    UnionMonotone(a, b);
    UnionMonotone(b, a);
  }

  lemma UnionOrderFree(a: seq<Interval>, b: seq<Interval>)
    requires multiset(a) == multiset(b)
    ensures UnionDurationOf(a) == UnionDurationOf(b)
  {
    assert forall y :: y in a <==> y in multiset(a);
    assert forall y :: y in b <==> y in multiset(b);
    forall x ensures Covers(a, x) <==> Covers(b, x) {
      SameMembersCover(a, b, x);
      SameMembersCover(b, a, x);
    }
    UnionOfSameSet(a, b);
  }

  lemma UnionInside(a: seq<Interval>, start: real, end: real)
    requires forall i :: 0 <= i < |a| ==> start <= a[i].start && a[i].end <= end
    ensures 0.0 <= UnionDurationOf(a) <= MaxReal(0.0, end - start)
  {
    var e := UnionIsMeasure(a);
    var whole := if start < end then [Interval(start, end)] else [];
    forall x | Covers(e, x) ensures Covers(whole, x) {
      assert Covers(a, x);
      var i :| 0 <= i < |a| && a[i].start <= x < a[i].end;
      assert whole[0].start <= x < whole[0].end;
    }
    TotalsOrdered(e, whole);
    if start < end { assert whole[..0] == []; }
    assert forall x :: !Covers([], x);
    TotalsOrdered([], e);
  }

  // ----- prefetch_overlap

  datatype Stage = Stage(start: real, end: real, decode: bool, requests: seq<nat>)

  datatype Copy = Copy(request: nat, start: real, end: real)

  // Which hits of a copy are counted: independent operators, their decode part, or the copy's own consumer.
  datatype HitKind = Independent | IndependentDecode | Premature

  predicate Selected(kind: HitKind, copy: Copy, stage: Stage) {
    var own := copy.request in stage.requests;
    match kind
    case Independent => !own
    case IndependentDecode => !own && stage.decode
    case Premature => own
  }

  function Hit(copy: Copy, stage: Stage): Interval {
    Interval(MaxReal(copy.start, stage.start), MinReal(copy.end, stage.end))
  }

  function Hits(kind: HitKind, copy: Copy, stages: seq<Stage>): seq<Interval> {
    if stages == [] then []
    else
      var rest, stage := Hits(kind, copy, stages[..|stages| - 1]), stages[|stages| - 1];
      var hit := Hit(copy, stage);
      if hit.end > hit.start && Selected(kind, copy, stage) then rest + [hit] else rest
  }

  function AllHits(kind: HitKind, copies: seq<Copy>, stages: seq<Stage>): seq<Interval> {
    if copies == [] then []
    else AllHits(kind, copies[..|copies| - 1], stages) + Hits(kind, copies[|copies| - 1], stages)
  }

  datatype CopyOverlap = CopyOverlap(independent: real, decode: real, premature: real)

  function OverlapOf(copy: Copy, stages: seq<Stage>): CopyOverlap {
    CopyOverlap(UnionDurationOf(Hits(Independent, copy, stages)),
                UnionDurationOf(Hits(IndependentDecode, copy, stages)),
                UnionDurationOf(Hits(Premature, copy, stages)))
  }

  method CopyHits(copy: Copy, stages: seq<Stage>)
    returns (independent: seq<Interval>, decode: seq<Interval>, premature: seq<Interval>)
    ensures independent == Hits(Independent, copy, stages) && decode == Hits(IndependentDecode, copy, stages)
    ensures premature == Hits(Premature, copy, stages)
  {
    independent, decode, premature := [], [], [];
    for k := 0 to |stages|
      invariant independent == Hits(Independent, copy, stages[..k])
      invariant decode == Hits(IndependentDecode, copy, stages[..k])
      invariant premature == Hits(Premature, copy, stages[..k])
    {
      var stage := stages[k];
      assert stages[..k + 1][..k] == stages[..k];
      var hit := Hit(copy, stage);
      if hit.end > hit.start {
        if copy.request in stage.requests {
          premature := premature + [hit];
        } else {
          independent := independent + [hit];
          if stage.decode { decode := decode + [hit]; }
        }
      }
    }
    assert stages[..|stages|] == stages;
  }

  method PrefetchOverlap(copies: seq<Copy>, stages: seq<Stage>)
    returns (rows: seq<CopyOverlap>, operator: real, decode: real)
    ensures |rows| == |copies| && forall i :: 0 <= i < |rows| ==> rows[i] == OverlapOf(copies[i], stages)
    ensures operator == UnionDurationOf(AllHits(Independent, copies, stages))
    ensures decode == UnionDurationOf(AllHits(IndependentDecode, copies, stages))
  {
    hide UnionDurationOf, Hits;
    rows := [];
    var allIndependent, allDecode := [], [];
    for c := 0 to |copies|
      invariant |rows| == c && forall i :: 0 <= i < c ==> rows[i] == OverlapOf(copies[i], stages)
      invariant allIndependent == AllHits(Independent, copies[..c], stages)
      invariant allDecode == AllHits(IndependentDecode, copies[..c], stages)
    {
      var copy := copies[c];
      var independent, decodeHits, premature := CopyHits(copy, stages);
      assert copies[..c + 1][..c] == copies[..c];
      allIndependent, allDecode := allIndependent + independent, allDecode + decodeHits;
      var a := UnionDuration(independent);
      var b := UnionDuration(decodeHits);
      var p := UnionDuration(premature);
      rows := rows + [CopyOverlap(a, b, p)];
    }
    assert copies[..|copies|] == copies;
    operator := UnionDuration(allIndependent);
    decode := UnionDuration(allDecode);
  }

  // What a hit of each kind must be: another request's operator, one in a decode
  // batch, or the copy's own.
  predicate Counts(kind: HitKind, copy: Copy, stage: Stage) {
    match kind
    case Independent => copy.request !in stage.requests
    case IndependentDecode => copy.request !in stage.requests && stage.decode
    case Premature => copy.request in stage.requests
  }

  // The hits of a copy cover exactly the instants at which it and such a stage both run.
  lemma {:induction false} HitsCover(kind: HitKind, copy: Copy, stages: seq<Stage>, x: real)
    ensures Covers(Hits(kind, copy, stages), x) <==>
              copy.start <= x < copy.end
              && exists stage :: stage in stages && stage.start <= x < stage.end && Counts(kind, copy, stage)
  {
    if stages != [] {
      var init, last := stages[..|stages| - 1], stages[|stages| - 1];
      assert stages == init + [last];
      HitsCover(kind, copy, init, x);
      var rest, hit := Hits(kind, copy, init), Hit(copy, last);
      if hit.end > hit.start && Selected(kind, copy, last) { CoversSnoc(rest, hit, x); }
    }
  }

  lemma CoversConcat(a: seq<Interval>, b: seq<Interval>, x: real)
    ensures Covers(a + b, x) <==> Covers(a, x) || Covers(b, x)
  {
    if Covers(a, x) {
      var i :| 0 <= i < |a| && a[i].start <= x < a[i].end;
      assert (a + b)[i] == a[i];
    }
    if Covers(b, x) {
      var i :| 0 <= i < |b| && b[i].start <= x < b[i].end;
      assert (a + b)[|a| + i] == b[i];
    }
  }

  // Those of all copies, the instants at which some copy does.
  lemma {:induction false} AllHitsCover(kind: HitKind, copies: seq<Copy>, stages: seq<Stage>, x: real)
    ensures Covers(AllHits(kind, copies, stages), x) <==>
              exists copy, stage :: copy in copies && stage in stages && copy.start <= x < copy.end
                                    && stage.start <= x < stage.end && Counts(kind, copy, stage)
  {
    if copies != [] {
      var init, last := copies[..|copies| - 1], copies[|copies| - 1];
      assert copies == init + [last];
      AllHitsCover(kind, init, stages, x);
      HitsCover(kind, last, stages, x);
      CoversConcat(AllHits(kind, init, stages), Hits(kind, last, stages), x);
      hide Hits, Covers, Counts;
    }
  }

  lemma {:induction false} HitsInside(kind: HitKind, copy: Copy, stages: seq<Stage>)
    ensures forall i :: 0 <= i < |Hits(kind, copy, stages)| ==>
              copy.start <= Hits(kind, copy, stages)[i].start && Hits(kind, copy, stages)[i].end <= copy.end
  {
    if stages != [] { HitsInside(kind, copy, stages[..|stages| - 1]); }
  }

  lemma {:induction false} DecodeHitsAreHits(copy: Copy, stages: seq<Stage>)
    ensures forall y :: y in Hits(IndependentDecode, copy, stages) ==> y in Hits(Independent, copy, stages)
  {
    if stages != [] { DecodeHitsAreHits(copy, stages[..|stages| - 1]); }
  }

  lemma {:induction false} AllDecodeHitsAreHits(copies: seq<Copy>, stages: seq<Stage>)
    ensures forall y :: y in AllHits(IndependentDecode, copies, stages) ==> y in AllHits(Independent, copies, stages)
  {
    if copies != [] {
      AllDecodeHitsAreHits(copies[..|copies| - 1], stages);
      DecodeHitsAreHits(copies[|copies| - 1], stages);
    }
  }

  lemma MembersMonotone(a: seq<Interval>, b: seq<Interval>)
    requires forall y :: y in a ==> y in b
    ensures UnionDurationOf(a) <= UnionDurationOf(b)
  {
    forall x ensures Covers(a, x) ==> Covers(b, x) { SameMembersCover(a, b, x); }
    UnionMonotone(a, b);
  }

  // A copy overlaps operators for no longer than it lasts, and decode operators for no longer than all.
  lemma CopyBounded(copy: Copy, stages: seq<Stage>)
    ensures var o := OverlapOf(copy, stages);
            && 0.0 <= o.decode <= o.independent <= MaxReal(0.0, copy.end - copy.start)
            && 0.0 <= o.premature <= MaxReal(0.0, copy.end - copy.start)
  {
    HitsInside(Independent, copy, stages);
    HitsInside(IndependentDecode, copy, stages);
    HitsInside(Premature, copy, stages);
    UnionInside(Hits(Independent, copy, stages), copy.start, copy.end);
    UnionInside(Hits(IndependentDecode, copy, stages), copy.start, copy.end);
    UnionInside(Hits(Premature, copy, stages), copy.start, copy.end);
    DecodeHitsAreHits(copy, stages);
    MembersMonotone(Hits(IndependentDecode, copy, stages), Hits(Independent, copy, stages));
  }

  lemma DecodeWithinOperator(copies: seq<Copy>, stages: seq<Stage>)
    ensures UnionDurationOf(AllHits(IndependentDecode, copies, stages)) <= UnionDurationOf(AllHits(Independent,
              copies, stages))
  {
    AllDecodeHitsAreHits(copies, stages);
    MembersMonotone(AllHits(IndependentDecode, copies, stages), AllHits(Independent, copies, stages));
  }
}
