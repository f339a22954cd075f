// The worked layouts' bypass lines, as fitted to two screening trials each.
module WorkedLines {
  import opened Prelude
  import opened NativeSearch
  import opened LeastSquares
  import opened SearchDirection
  import opened WorkedStores
  import opened WorkedReports
  import opened WorkedCases
  import opened WorkedPruners

  // A line fitted to trials of positive TPOT at two multiples of the quantum: a
  // small batch, and the candidate, the largest batch of the screen within the SLO.
  predicate Screened(entry: Entry, batch: int, tpot: PosReal, candidateTpot: PosReal) {
    && 0 < batch < entry.candidateBatch <= entry.capacityMaxBatch
    && batch % Quantum(entry) == 0 && entry.candidateBatch % Quantum(entry) == 0 && candidateTpot <= SLO
    && FitLine([(batch as real, tpot), (entry.candidateBatch as real, candidateTpot)]) == (entry.intercept, entry.slope)
    && (entry.candidateBatch + Quantum(entry) <= entry.capacityMaxBatch ==>
        entry.intercept + entry.slope * (entry.candidateBatch + Quantum(entry)) as real > SLO)
  }

  // The fitted line of two points is any line through them.
  lemma LineThroughTwo(p: Sample, r: Sample, c: real, m: real)
    requires p.0 < r.0 && c + m * p.0 == p.1 && c + m * r.0 == r.1
    ensures FitLine([p, r]) == (c, m)
  {
    FitOfTwo(p, r);
    hide FitLine;
    var (a, b) := FitLine([p, r]);
    SameSlope(b, m, p.0, r.0);
  }

  lemma SameSlope(b: real, m: real, x: real, y: real)
    requires x < y && b * y - b * x == m * y - m * x
    ensures b == m
  {
    assert (b - m) * (y - x) == 0.0;
  }

  lemma LinesAreFitted()
    ensures Screened(ANCHOR, 100, 30.0, 90.0) && Screened(OTHER, 100, 22.0, 100.0)
    ensures Screened(SLOWER, 100, 32.0, 100.0) && Screened(NARROW, 100, 65.0, 80.0)
    ensures Screened(WIDE, 128, 33.024, 86.272)
  {
    LineThroughTwo((100.0, 30.0), (400.0, 90.0), 10.0, 0.2);
    LineThroughTwo((100.0, 22.0), (880.0, 100.0), 12.0, 0.1);
    LineThroughTwo((100.0, 32.0), (440.0, 100.0), 12.0, 0.2);
    LineThroughTwo((100.0, 65.0), (400.0, 80.0), 60.0, 0.05);
    LineThroughTwo((128.0, 33.024), (384.0, 86.272), 6.4, 0.208);
    hide FitLine;
  }
}
