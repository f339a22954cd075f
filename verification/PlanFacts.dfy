// What every replay of a layout's saved rows keeps, and what its plans mean.
module PlanFacts {
  import opened Prelude
  import opened NativeSearch
  import opened SearchFacts
  import opened NativePlan

  // ----- Safety of every request

  // No batch twice, every batch a positive multiple of the quantum, and every
  // run after a too-big one strictly below it.
  predicate RunsSound(runs: seq<Run>, q: Pos) {
    && (forall i, j :: 0 <= i < j < |runs| ==> runs[i].batch != runs[j].batch)
    && (forall i :: 0 <= i < |runs| ==> OnGrid(runs[i].batch, q))
    && (forall i, j :: 0 <= i < j < |runs| && runs[i].kind.TooBig? ==> runs[j].batch < runs[i].batch)
  }

  predicate FreshRequest(runs: seq<Run>, q: Pos, b: int) {
    && OnGrid(b, q)
    && (forall i :: 0 <= i < |runs| ==> runs[i].batch != b)
    && (forall i :: 0 <= i < |runs| && runs[i].kind.TooBig? ==> b < runs[i].batch)
  }

  lemma PointsFollowRuns(rows: map<int, Row>, runs: seq<Run>, q: Pos)
    requires Recorded(rows, runs) && forall i :: 0 <= i < |runs| ==> OnGrid(runs[i].batch, q)
    ensures PointsOnGrid(PointsOf(rows, runs), q)
  {
    forall p | p in PointsOf(rows, runs)
      ensures OnGrid(p.batch, q)
    {
      PointIsRun(rows, runs, p);
    }
  }

  lemma OutcomeOnGrid(entry: Entry, runs: seq<Run>, points: seq<Point>, slo: real, caps: Caps)
    requires Functional(points) && PointsOnGrid(points, Quantum(entry))
    ensures var o := OutcomeOf(entry, runs, points, slo, caps);
            o.Interpolated? ==> OnGrid(o.batch, Quantum(entry)) && o.low <= o.batch < o.high
  {
    InterpolatedUnderTooBig(entry, runs, points, slo, caps);
    BracketFacts(points, slo);
    hide OutcomeOf, InterpolatedBatch;
    var o := OutcomeOf(entry, runs, points, slo, caps);
    if o.Interpolated? {
      var pair := Bracket(points, slo).value;
      InterpolatedInside(pair.0, pair.1, slo, Quantum(entry));
    }
  }

  lemma AskSound(s: Search, runs: seq<Run>)
    requires OnGrid(s.first, s.Q()) && Recorded(s.rows, runs) && RunsSound(runs, s.Q())
    requires Ask(s, runs).Some?
    ensures FreshRequest(runs, s.Q(), Ask(s, runs).value)
  {
    AskFresh(s, runs);
    if runs != [] {
      var points := PointsOf(s.rows, runs);
      PointsFollowRuns(s.rows, runs, s.Q());
      AskUnfolds(s, runs);
      AskParts(s, runs, points);
    }
  }

  lemma AskParts(s: Search, runs: seq<Run>, points: seq<Point>)
    requires OnGrid(s.first, s.Q()) && Recorded(s.rows, runs) && RunsSound(runs, s.Q()) && runs != []
    requires Ask(s, runs).Some? && Ask(s, runs).value !in Batches(runs)
    requires points == PointsOf(s.rows, runs) && PointsOnGrid(points, s.Q())
    requires var following := Following(s.entry, runs, points, s.slo, s.caps);
             var outcome := OutcomeOf(s.entry, runs, points, s.slo, s.caps);
             Ask(s, runs) == (if following.Some? then following else Refinement(s.rows, outcome, points, s.slo))
    ensures FreshRequest(runs, s.Q(), Ask(s, runs).value)
  {
    hide Ask, Following, OutcomeOf, PointsOf;
    var outcome := OutcomeOf(s.entry, runs, points, s.slo, s.caps);
    InterpolatedUnderTooBig(s.entry, runs, points, s.slo, s.caps);
    OutcomeOnGrid(s.entry, runs, points, s.slo, s.caps);
    var b := Ask(s, runs).value;
    assert forall i :: 0 <= i < |runs| ==> runs[i].batch in Batches(runs);
    if Following(s.entry, runs, points, s.slo, s.caps).Some? {
      FollowingFacts(s.entry, runs, points, s.slo, s.caps);
    }
    assert forall i :: 0 <= i < |runs| ==> runs[i] in runs;
  }

  lemma RunsSoundSnoc(runs: seq<Run>, last: Run, q: Pos)
    requires RunsSound(runs, q) && FreshRequest(runs, q, last.batch)
    ensures RunsSound(runs + [last], q)
  {}

  lemma ReplayPrefix(s: Search, runs: seq<Run>, k: nat)
    requires Replay(s, runs) && k <= |runs|
    ensures Replay(s, runs[..k])
  {
    hide Grows;
    var init := runs[..k];
    forall i | 0 <= i < k
      ensures Grows(s, init[..i], init[i])
    {
      assert init[..i] == runs[..i];
    }
  }

  lemma Asked(s: Search, runs: seq<Run>, k: nat)
    requires Replay(s, runs) && k < |runs|
    ensures Recorded(s.rows, runs[..k]) && Ask(s, runs[..k]) == Some(runs[k].batch)
  {
    hide Ask, VerdictAt;
    assert Grows(s, runs[..k], runs[k]);
  }

  // Safety over whole runs.
  lemma {:induction false} ReplaySound(s: Search, runs: seq<Run>)
    requires OnGrid(s.first, s.Q()) && Replay(s, runs)
    ensures RunsSound(runs, s.Q())
  {
    hide Grows, FreshRequest;
    if runs != [] {
      var k := |runs| - 1;
      ReplayPrefix(s, runs, k);
      ReplaySound(s, runs[..k]);
      LastStepSound(s, runs[..k], runs[k]);
      assert runs == runs[..k] + [runs[k]];
    }
  }

  lemma LastStepSound(s: Search, runs: seq<Run>, last: Run)
    requires OnGrid(s.first, s.Q()) && Recorded(s.rows, runs) && RunsSound(runs, s.Q()) && Grows(s, runs, last)
    ensures RunsSound(runs + [last], s.Q())
  {
    hide Ask, VerdictAt, RunsSound, FreshRequest;
    AskSound(s, runs);
    RunsSoundSnoc(runs, last, s.Q());
  }

  // A plan repeats no batch, and what it asks to run next is a new multiple of
  // the quantum below every too-big batch, with no answer saved.
  lemma RequestsSound(s: Search, plan: Plan)
    requires OnGrid(s.first, s.Q()) && IsPlan(s, plan)
    ensures RunsSound(plan.runs, s.Q())
    ensures plan.Next? ==> FreshRequest(plan.runs, s.Q(), plan.batch) && !Answered(s.rows, plan.batch)
  {
    hide Ask, VerdictAt, RunsSound, FreshRequest, FinalOutcome;
    ReplaySound(s, plan.runs);
    if plan.Next? {
      AskSound(s, plan.runs);
    }
  }

  lemma {:induction false} DistinctRunsFit(runs: seq<Run>, rows: map<int, Row>)
    requires forall i, j :: 0 <= i < j < |runs| ==> runs[i].batch != runs[j].batch
    ensures |Batches(runs)| == |runs|
  {
    if runs != [] {
      var init, last := runs[..|runs| - 1], runs[|runs| - 1];
      DistinctRunsFit(init, rows);
      BatchesSnoc(init, last);
      assert runs == init + [last];
      assert last.batch !in Batches(init);
    }
  }

  lemma SubsetFits<T>(a: set<T>, b: set<T>)
    requires a <= b
    ensures |a| <= |b|
  {
    assert b == a + (b - a);
    assert |b| == |a| + |b - a|;
  }

  // The replay makes no more runs than rows are saved.
  lemma RunsWithinRows(s: Search, plan: Plan)
    requires OnGrid(s.first, s.Q()) && IsPlan(s, plan)
    ensures |plan.runs| <= |s.rows|
  {
    hide Ask, VerdictAt, FinalOutcome, Stops, Grows;
    ReplaySound(s, plan.runs);
    DistinctRunsFit(plan.runs, s.rows);
    assert Batches(plan.runs) <= s.rows.Keys;
    SubsetFits(Batches(plan.runs), s.rows.Keys);
  }
}
