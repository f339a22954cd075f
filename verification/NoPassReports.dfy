// Exactly when a settled search reports that nothing passes although a measured point does.
module NoPassReports {
  import opened Prelude
  import opened NativeSearch
  import opened SearchFacts
  import opened SearchDirection
  import opened NativePlan
  import opened PlanFacts
  import opened PlanOutcomes

  // ----- Points of a run list and of its prefixes

  lemma PrefixPoints(rows: map<int, Row>, runs: seq<Run>, k: nat)
    requires Recorded(rows, runs) && k <= |runs|
    ensures Recorded(rows, runs[..k])
    ensures forall p :: p in PointsOf(rows, runs[..k]) ==> p in PointsOf(rows, runs)
  {
    forall p | p in PointsOf(rows, runs[..k]) ensures p in PointsOf(rows, runs) {
      PointIsRun(rows, runs[..k], p);
      var i :| 0 <= i < k && runs[..k][i].batch == p.batch && runs[..k][i].kind.Measured?;
      RunIsPoint(rows, runs, i);
    }
  }

  function PointOfRun(rows: map<int, Row>, run: Run): Point
    requires run.batch in rows && rows[run.batch].bounds.Some?
  {
    PointAt(run.batch, rows[run.batch])
  }

  // A point is a measured run before the cut, or one after it.
  lemma PointsSplit(rows: map<int, Row>, runs: seq<Run>, k: nat, p: Point)
    requires Recorded(rows, runs) && k <= |runs| && p in PointsOf(rows, runs)
    ensures Recorded(rows, runs[..k])
    ensures p in PointsOf(rows, runs[..k]) || exists j ::
              k <= j < |runs| && runs[j].kind.Measured? && runs[j].batch == p.batch
  {
    PointIsRun(rows, runs, p);
    var i :| 0 <= i < |runs| && runs[i].batch == p.batch && runs[i].kind.Measured?;
    if i < k {
      assert runs[..k][i] == runs[i];
      RunIsPoint(rows, runs[..k], i);
    }
  }

  // ----- What a step asks without a bracket

  lemma UnbracketedPart(part: seq<Point>, points: seq<Point>, slo: real)
    requires Unbracketed(points, slo) && Functional(part) && forall p :: p in part ==> p in points
    ensures Bracket(part, slo).None?
  {
    hide Bracket;
    BracketFacts(part, slo);
  }

  // The k-th run of a replay that never brackets follows from the points before it.
  lemma AskedUnbracketed(s: Search, runs: seq<Run>, k: nat)
    requires OnGrid(s.first, s.Q()) && Replay(s, runs) && 0 < k < |runs| && Unbracketed(PointsOf(s.rows, runs), s.slo)
    requires Recorded(s.rows, runs[..k]) && PointsOf(s.rows, runs[..k]) != []
    ensures var points, b := PointsOf(s.rows, runs[..k]), runs[k].batch;
            && (AllWithin(points, s.slo) && !LimitDropped(s, runs[..k]) ==> Beyond(points, b, s.Q()))
            && (SmallestFails(points, s.slo) ==> Under(points, b, s.Q()))
  {
    var init := runs[..k];
    var points := PointsOf(s.rows, init);
    PrefixPoints(s.rows, runs, k);
    UnbracketedPart(points, PointsOf(s.rows, runs), s.slo);
    ReplayPrefix(s, runs, k);
    ReplaySound(s, init);
    PointsFollowRuns(s.rows, init, s.Q());
    AskUnfolds(s, init);
    FollowedUnbracketed(s, runs, k, points);
    FollowingDirection(s.entry, init, points, s.slo, s.caps);
    hide Ask, VerdictAt, Following, OutcomeOf, LimitOf, Bracket, Beyond, Under, PointsOf;
  }

  lemma FollowedUnbracketed(s: Search, runs: seq<Run>, k: nat, points: seq<Point>)
    requires Replay(s, runs) && 0 < k < |runs| && Recorded(s.rows, runs[..k]) && points == PointsOf(s.rows, runs[..k])
    requires Functional(points) && Bracket(points, s.slo).None?
    ensures Following(s.entry, runs[..k], points, s.slo, s.caps) == Some(runs[k].batch)
  {
    AskUnfolds(s, runs[..k]);
    InterpolatedUnderTooBig(s.entry, runs[..k], points, s.slo, s.caps);
    assert Grows(s, runs[..k], runs[k]);
    hide Ask, VerdictAt, Following, OutcomeOf, Bracket;
  }

  // ----- Failures after a dropped limit

  // Every measured point passes, and the limit on further batches lies under the largest of them.
  predicate LimitDropped(s: Search, runs: seq<Run>)
    requires Recorded(s.rows, runs)
  {
    var points := PointsOf(s.rows, runs);
    points != [] && AllWithin(points, s.slo)
      && Tighter(LimitOf(s.entry, runs, points, s.caps).at, Some(Largest(points).batch))
  }

  predicate FailsUnder(s: Search, run: Run, points: seq<Point>) {
    && run.batch in s.rows && s.rows[run.batch].bounds.Some? && s.rows[run.batch].bounds.value.upper > s.slo
    && forall p :: p in points ==> run.batch < p.batch
  }

  // From the k-th run on, after the limit dropped, every measured run fails under all the points before.
  predicate Undercut(s: Search, runs: seq<Run>, k: nat)
    requires Recorded(s.rows, runs)
  {
    && 0 < k < |runs| && runs[k].kind.Measured? && LimitDropped(s, runs[..k])
    && forall j :: k <= j < |runs| && runs[j].kind.Measured? ==> FailsUnder(s, runs[j], PointsOf(s.rows, runs[..k]))
  }

  lemma RunPoint(s: Search, runs: seq<Run>, j: nat) returns (p: Point)
    requires Recorded(s.rows, runs) && j < |runs| && runs[j].kind.Measured?
    ensures runs[j].batch in s.rows && s.rows[runs[j].batch].bounds.Some? && p == PointOfRun(s.rows, runs[j])
    ensures p in PointsOf(s.rows, runs) && p.batch == runs[j].batch
              && p.upper == s.rows[runs[j].batch].bounds.value.upper
  {
    RunIsPoint(s.rows, runs, j);
    p := PointOfRun(s.rows, runs[j]);
  }

  // Under a failing smallest point, a replay that never brackets only measures further failures.
  lemma FailsAgain(s: Search, runs: seq<Run>, j: nat)
    requires OnGrid(s.first, s.Q()) && Recorded(s.rows, runs) && Replay(s, runs) && 0 < j < |runs|
             && Unbracketed(PointsOf(s.rows, runs), s.slo)
    requires Recorded(s.rows, runs[..j]) && SmallestFails(PointsOf(s.rows, runs[..j]), s.slo) && runs[j].kind.Measured?
    ensures s.rows[runs[j].batch].bounds.Some? && s.rows[runs[j].batch].bounds.value.upper > s.slo
  {
    hide Replay, PointsOf, LimitDropped;
    var points := PointsOf(s.rows, runs[..j]);
    AskedUnbracketed(s, runs, j);
    PrefixPoints(s.rows, runs, j);
    var p := RunPoint(s, runs, j);
    var f := Smallest(points);
    StepPositive(f.batch, s.Q());
    assert p.batch < f.batch;
    assert !Within(p, s.slo);
  }

  lemma {:induction false} FirstFailure(s: Search, runs: seq<Run>) returns (k: nat)
    requires Recorded(s.rows, runs) && SomeFails(PointsOf(s.rows, runs), s.slo)
    ensures k < |runs| && runs[k].kind.Measured? && Recorded(s.rows, runs[..k])
    ensures s.rows[runs[k].batch].bounds.Some? && s.rows[runs[k].batch].bounds.value.upper > s.slo
    ensures AllWithin(PointsOf(s.rows, runs[..k]), s.slo)
  {
    var init, last := runs[..|runs| - 1], runs[|runs| - 1];
    if SomeFails(PointsOf(s.rows, init), s.slo) {
      k := FirstFailure(s, init);
      assert init[..k] == runs[..k];
    } else {
      k := |runs| - 1;
      var f :| f in PointsOf(s.rows, runs) && !Within(f, s.slo);
      assert f !in PointsOf(s.rows, init);
    }
  }

  // With no point before it, everything measured from the first failure on fails.
  lemma {:induction false} FailsFromStart(s: Search, runs: seq<Run>, k: nat, n: nat)
    requires OnGrid(s.first, s.Q()) && Recorded(s.rows, runs) && Replay(s, runs)
             && Unbracketed(PointsOf(s.rows, runs), s.slo)
    requires k < n <= |runs| && runs[k].kind.Measured? && Recorded(s.rows, runs[..k])
             && PointsOf(s.rows, runs[..k]) == []
    requires s.rows[runs[k].batch].bounds.Some? && s.rows[runs[k].batch].bounds.value.upper > s.slo
    ensures Recorded(s.rows, runs[..n])
    ensures PointsOf(s.rows, runs[..n]) != [] && forall p :: p in PointsOf(s.rows, runs[..n]) ==> !Within(p, s.slo)
    decreases n
  {
    hide PointsOf, Unbracketed, Replay;
    var j := n - 1;
    PointsSnoc(s.rows, runs, j);
    if j > k {
      FailsFromStart(s, runs, k, j);
      if runs[j].kind.Measured? { FailsAgain(s, runs, j); }
    }
  }

  lemma PointsSnoc(rows: map<int, Row>, runs: seq<Run>, j: nat)
    requires Recorded(rows, runs) && j < |runs|
    ensures Recorded(rows, runs[..j]) && Recorded(rows, runs[..j + 1])
    ensures runs[j].kind.Measured? ==> rows[runs[j].batch].bounds.Some?
    ensures PointsOf(rows, runs[..j + 1])
         == PointsOf(rows, runs[..j]) + (if runs[j].kind.Measured? then [PointAt(runs[j].batch, rows[runs[j].batch])]
                                         else [])
  {
    assert runs[..j + 1][..j] == runs[..j];
  }

  // After the limit dropped, everything measured from the first failure on fails under the points before it.
  lemma {:induction false} FailsUnderAll(s: Search, runs: seq<Run>, k: nat, n: nat)
    requires OnGrid(s.first, s.Q()) && Recorded(s.rows, runs) && Replay(s, runs)
             && Unbracketed(PointsOf(s.rows, runs), s.slo)
    requires k < n <= |runs| && runs[k].kind.Measured? && Recorded(s.rows, runs[..k])
    requires PointsOf(s.rows, runs[..k]) != [] && AllWithin(PointsOf(s.rows, runs[..k]), s.slo)
    requires s.rows[runs[k].batch].bounds.Some? && s.rows[runs[k].batch].bounds.value.upper > s.slo
    ensures forall j :: k <= j < n && runs[j].kind.Measured? ==> FailsUnder(s, runs[j], PointsOf(s.rows, runs[..k]))
    decreases n
  {
    hide Replay, PointsOf, Unbracketed;
    var j := n - 1;
    if j > k {
      FailsUnderAll(s, runs, k, j);
      if runs[j].kind.Measured? {
        SmallestIsLate(s, runs, k, j);
        FailsAgain(s, runs, j);
        FailingUnder(s, runs, k, j);
      }
    } else {
      FailingUnder(s, runs, k, k);
    }
  }

  lemma FailingUnder(s: Search, runs: seq<Run>, k: nat, j: nat)
    requires Recorded(s.rows, runs) && Unbracketed(PointsOf(s.rows, runs), s.slo)
    requires k <= j < |runs| && runs[j].kind.Measured? && Recorded(s.rows, runs[..k])
    requires AllWithin(PointsOf(s.rows, runs[..k]), s.slo)
    requires s.rows[runs[j].batch].bounds.Some? && s.rows[runs[j].batch].bounds.value.upper > s.slo
    ensures FailsUnder(s, runs[j], PointsOf(s.rows, runs[..k]))
  {
    hide PointsOf;
    PrefixPoints(s.rows, runs, k);
    var f := RunPoint(s, runs, j);
    forall p | p in PointsOf(s.rows, runs[..k]) ensures f.batch < p.batch {
      assert Within(p, s.slo) && !Within(f, s.slo);
    }
  }

  lemma SmallestIsLate(s: Search, runs: seq<Run>, k: nat, j: nat)
    requires Recorded(s.rows, runs) && k < j < |runs| && runs[k].kind.Measured? && Recorded(s.rows, runs[..k])
    requires forall i :: k <= i < j && runs[i].kind.Measured? ==> FailsUnder(s, runs[i], PointsOf(s.rows, runs[..k]))
    ensures Recorded(s.rows, runs[..j]) && SmallestFails(PointsOf(s.rows, runs[..j]), s.slo)
  {
    var init := runs[..j];
    assert init[k] == runs[k] && init[..k] == runs[..k];
    var f := RunPoint(s, init, k);
    var least := Smallest(PointsOf(s.rows, init));
    PointsSplit(s.rows, init, k, least);
    hide PointsOf;
    assert FailsUnder(s, runs[k], PointsOf(s.rows, runs[..k]));
    assert forall p :: p in PointsOf(s.rows, runs[..k]) ==> f.batch < p.batch;
    var i :| k <= i < j && init[i].kind.Measured? && init[i].batch == least.batch;
    assert FailsUnder(s, runs[i], PointsOf(s.rows, runs[..k]));
  }

  // ----- The exact condition

  lemma UnbracketedUndercut(s: Search, runs: seq<Run>) returns (k: nat)
    requires OnGrid(s.first, s.Q()) && Replay(s, runs)
    requires var points := PointsOf(s.rows, runs);
             Unbracketed(points, s.slo) && SomeFails(points, s.slo) && SomePasses(points, s.slo)
    ensures Undercut(s, runs, k)
  {
    k := FirstFailure(s, runs);
    var before := PointsOf(s.rows, runs[..k]);
    assert runs[..|runs|] == runs;
    if before == [] {
      FailsFromStart(s, runs, k, |runs|);
      assert false;
    }
    FailsUnderAll(s, runs, k, |runs|);
    hide Replay, PointsOf, Unbracketed;
    assert k > 0 by { if k == 0 { NoRunsNoPoints(s, runs); } }
    assert FailsUnder(s, runs[k], before);
    if !LimitDropped(s, runs[..k]) {
      AskedUnbracketed(s, runs, k);
      var p := Largest(before);
      StepPositive(p.batch, s.Q());
      assert false;
    }
  }

  lemma NoRunsNoPoints(s: Search, runs: seq<Run>)
    ensures PointsOf(s.rows, runs[..0]) == []
  {}

  lemma UndercutUnbracketed(s: Search, runs: seq<Run>, k: nat)
    requires Recorded(s.rows, runs) && Undercut(s, runs, k)
    ensures var points := PointsOf(s.rows, runs);
            Unbracketed(points, s.slo) && SomeFails(points, s.slo) && SomePasses(points, s.slo)
  {
    hide PointsOf, LimitOf;
    var points, before := PointsOf(s.rows, runs), PointsOf(s.rows, runs[..k]);
    PrefixPoints(s.rows, runs, k);
    var first := RunPoint(s, runs, k);
    assert FailsUnder(s, runs[k], before);
    assert !Within(first, s.slo);
    assert Within(before[0], s.slo) && before[0] in points;
    forall p, f | p in points && f in points && Within(p, s.slo) && !Within(f, s.slo) ensures f.batch < p.batch {
      PassesEarly(s, runs, k, p);
      FailsLate(s, runs, k, f);
    }
  }

  lemma PassesEarly(s: Search, runs: seq<Run>, k: nat, p: Point)
    requires Recorded(s.rows, runs) && Undercut(s, runs, k) && p in PointsOf(s.rows, runs) && Within(p, s.slo)
    ensures p in PointsOf(s.rows, runs[..k])
  {
    hide LimitOf;
    PointsSplit(s.rows, runs, k, p);
    forall j | k <= j < |runs| && runs[j].kind.Measured? ensures runs[j].batch != p.batch {
      assert FailsUnder(s, runs[j], PointsOf(s.rows, runs[..k]));
    }
  }

  lemma FailsLate(s: Search, runs: seq<Run>, k: nat, f: Point)
    requires Recorded(s.rows, runs) && Undercut(s, runs, k) && f in PointsOf(s.rows, runs) && !Within(f, s.slo)
    ensures forall p :: p in PointsOf(s.rows, runs[..k]) ==> f.batch < p.batch
  {
    hide LimitOf;
    PointsSplit(s.rows, runs, k, f);
    hide PointsOf;
    if f !in PointsOf(s.rows, runs[..k]) {
      var j :| k <= j < |runs| && runs[j].kind.Measured? && runs[j].batch == f.batch;
      assert FailsUnder(s, runs[j], PointsOf(s.rows, runs[..k]));
    }
  }

  // A settled search reports that nothing passes although some measured point
  // does, exactly when all its points passed until the limit dropped under the
  // largest of them, and everything it measured from then on failed under them.
  lemma MisreportExactly(s: Search, plan: Plan)
    requires OnGrid(s.first, s.Q()) && IsPlan(s, plan) && plan.Settled?
    ensures ReportsNoPass(plan.outcome) && SomePasses(plan.points, s.slo) <==>
              exists k: nat :: Undercut(s, plan.runs, k)
  {
    var runs, points := plan.runs, plan.points;
    OutcomeJustified(s, plan);
    if ReportsNoPass(plan.outcome) && SomePasses(points, s.slo) {
      ReportUnbracketed(points, runs, s.slo, s.Q(), plan.outcome);
      var k := UnbracketedUndercut(s, runs);
    }
    if k: nat :| Undercut(s, runs, k) {
      UndercutUnbracketed(s, runs, k);
      UnbracketedMisreported(s.entry, runs, points, s.slo, s.caps);
      SettledReport(s, plan);
    }
  }

  lemma ReportUnbracketed(points: seq<Point>, runs: seq<Run>, slo: real, q: Pos, o: Outcome)
    requires Justified(points, runs, slo, q, o) && ReportsNoPass(o) && SomePasses(points, slo)
    ensures Unbracketed(points, slo) && SomeFails(points, slo)
  {
    if o.SloUnreachable? {
      var f :| f in points && f.batch == q;
      assert !Within(f, slo);
    }
  }

  lemma SettledReport(s: Search, plan: Plan)
    requires IsPlan(s, plan) && plan.Settled? && plan.points == PointsOf(s.rows, plan.runs)
    requires ReportsNoPass(OutcomeOf(s.entry, plan.runs, plan.points, s.slo, s.caps))
    ensures ReportsNoPass(plan.outcome)
  {
    hide Ask, VerdictAt, Replay, OutcomeOf, Refined, PointsOf;
  }

  // While the limit never drops under a passing point, the report is exact, for any shape of TPOT.
  lemma KeptLimitReport(s: Search, plan: Plan)
    requires OnGrid(s.first, s.Q()) && IsPlan(s, plan) && plan.Settled?
    requires forall k :: 0 <= k < |plan.runs| ==> Recorded(s.rows, plan.runs[..k]) && !LimitDropped(s, plan.runs[..k])
    ensures ReportsNoPass(plan.outcome) <==> !SomePasses(plan.points, s.slo)
  {
    MisreportExactly(s, plan);
    NoPassReport(s, plan);
    hide IsPlan, LimitDropped;
  }
}
