// plan_layout: one layout's batch search replayed over its saved rows.
module NativePlan {
  import opened Prelude
  import opened NativeSearch
  import opened NativeBounds
  import opened SearchFacts

  // Everything plan_layout is called with.
  datatype Search = Search(entry: Entry, rows: map<int, Row>, slo: PosReal, caps: Caps, first: int, pruner: Pruner) {
    function Q(): Pos { Quantum(entry) }
  }

  datatype Plan =
    | Next(batch: int, runs: seq<Run>)
    | FailedPlan(runs: seq<Run>)
    | Pruned(runs: seq<Run>, points: seq<Point>, why: PruneReason)
    | Crashed(runs: seq<Run>, points: seq<Point>)
    | Settled(runs: seq<Run>, points: seq<Point>, outcome: Outcome)

  // The batch after these runs: the first batch, a following one, or the acceptance batch as a new point.
  function Ask(s: Search, runs: seq<Run>): Option<int>
    requires Recorded(s.rows, runs)
  {
    if runs == [] then Some(s.first)
    else
      var points := PointsOf(s.rows, runs);
      var following := Following(s.entry, runs, points, s.slo, s.caps);
      if following.Some? then following
      else Refinement(s.rows, OutcomeOf(s.entry, runs, points, s.slo, s.caps), points, s.slo)
  }

  predicate Refines(s: Search, runs: seq<Run>)
    requires Recorded(s.rows, runs)
  {
    runs != [] && Following(s.entry, runs, PointsOf(s.rows, runs), s.slo, s.caps).None? && Ask(s, runs).Some?
  }

  function VerdictAt(s: Search, runs: seq<Run>): Verdict
    requires Recorded(s.rows, runs)
  {
    VerdictOf(s.pruner, s.entry, s.slo, runs, PointsOf(s.rows, runs))
  }

  // One more run after these: no verdict against it, asked for, and answered by its row.
  predicate Grows(s: Search, runs: seq<Run>, next: Run)
    requires Recorded(s.rows, runs)
  {
    && (runs != [] ==> !runs[|runs| - 1].kind.Failed?)
    && VerdictAt(s, runs).Keep?
    && Ask(s, runs) == Some(next.batch)
    && Answered(s.rows, next.batch)
    && next == RunAt(next.batch, s.rows[next.batch])
  }

  // The run lists the replay passes through.
  predicate Replay(s: Search, runs: seq<Run>) {
    && Recorded(s.rows, runs)
    && forall k :: 0 <= k < |runs| ==> Grows(s, runs[..k], runs[k])
  }

  // Whether some earlier ask was an acceptance batch taken as a point.
  predicate Refined(s: Search, runs: seq<Run>)
    requires Recorded(s.rows, runs)
  {
    exists k :: 0 <= k < |runs| && Refines(s, runs[..k])
  }

  function FinalOutcome(s: Search, runs: seq<Run>): Outcome
    requires Recorded(s.rows, runs)
  {
    var points := PointsOf(s.rows, runs);
    var outcome := OutcomeOf(s.entry, runs, points, s.slo, s.caps);
    if Refined(s, runs) then RefinedOutcome(outcome, points, s.Q()) else outcome
  }

  // The plan that stops the replay at these runs.
  predicate Stops(s: Search, plan: Plan)
    requires Recorded(s.rows, plan.runs)
  {
    var runs := plan.runs;
    var open := runs == [] || !runs[|runs| - 1].kind.Failed?;
    match plan
    case Next(batch, _) => open && VerdictAt(s, runs).Keep? && Ask(s, runs) == Some(batch) && !Answered(s.rows, batch)
    case FailedPlan(_) => !open
    case Pruned(_, points, why) =>
      open && Ask(s, runs).Some? && VerdictAt(s, runs) == Drop(why) && points == PointsOf(s.rows, runs)
    case Crashed(_, points) =>
      open && Ask(s, runs).Some? && VerdictAt(s, runs).Crash? && points == PointsOf(s.rows, runs)
    case Settled(_, points, outcome) =>
      open && Ask(s, runs).None? && points == PointsOf(s.rows, runs) && outcome == FinalOutcome(s, runs)
  }

  predicate IsPlan(s: Search, plan: Plan) {
    Replay(s, plan.runs) && Stops(s, plan)
  }

  // ----- A batch is never asked for twice

  lemma InterpolatedUnderTooBig(entry: Entry, runs: seq<Run>, points: seq<Point>, slo: real, caps: Caps)
    requires Functional(points)
    ensures var o := OutcomeOf(entry, runs, points, slo, caps);
            o.Interpolated? ==>
              && !o.settled
              && BelowTooBig(runs, o.batch)
              && var pair := Bracket(points, slo);
                 pair.Some? && o.low == pair.value.0.batch && o.high == pair.value.1.batch
                 && o.batch == InterpolatedBatch(pair.value.0, pair.value.1, slo, Quantum(entry))
  {
    hide LimitOf, Bracket, InterpolatedBatch;
  }

  lemma RefinementFresh(s: Search, runs: seq<Run>, outcome: Outcome)
    requires Recorded(s.rows, runs)
    requires outcome.Interpolated? ==> BelowTooBig(runs, outcome.batch)
    requires Refinement(s.rows, outcome, PointsOf(s.rows, runs), s.slo).Some?
    ensures var b := Refinement(s.rows, outcome, PointsOf(s.rows, runs), s.slo).value;
            b == outcome.batch && !Tried(runs, b) && Answered(s.rows, b)
  {
    var b := outcome.batch;
    var points := PointsOf(s.rows, runs);
    forall i | 0 <= i < |runs|
      ensures runs[i].batch != b
    {
      assert runs[i] == RunAt(runs[i].batch, s.rows[runs[i].batch]);
      if runs[i].kind.Measured? {
        RunIsPoint(s.rows, runs, i);
        var p := PointAt(runs[i].batch, s.rows[runs[i].batch]);
        assert p in points && p.batch == runs[i].batch;
        assert !MeasuredAt(points, b);
      } else if runs[i].kind.TooBig? {
        assert runs[i] in runs;
      }
    }
  }

  lemma AskFresh(s: Search, runs: seq<Run>)
    requires Recorded(s.rows, runs)
    requires Ask(s, runs).Some?
    ensures Ask(s, runs).value !in Batches(runs)
  {
    if runs != [] {
      var points := PointsOf(s.rows, runs);
      FollowingFresh(s.entry, runs, points, s.slo, s.caps);
      InterpolatedUnderTooBig(s.entry, runs, points, s.slo, s.caps);
      hide Following, OutcomeOf, Refinement;
      if Following(s.entry, runs, points, s.slo, s.caps).None? {
        RefinementFresh(s, runs, OutcomeOf(s.entry, runs, points, s.slo, s.caps));
      }
    }
  }

  lemma FollowingFresh(entry: Entry, runs: seq<Run>, points: seq<Point>, slo: real, caps: Caps)
    requires runs != []
    ensures var f := Following(entry, runs, points, slo, caps);
            f.Some? ==> !Tried(runs, f.value)
  {
    hide LimitOf, Rounded, Bracket, AimedBatch, Nearest, Capacities, SmallestTooBig, InterpolatedBatch;
  }

  function Batches(runs: seq<Run>): set<int> { set i | 0 <= i < |runs| :: runs[i].batch }

  lemma AskUnfolds(s: Search, runs: seq<Run>)
    requires Recorded(s.rows, runs) && runs != []
    ensures var points := PointsOf(s.rows, runs);
            var following := Following(s.entry, runs, points, s.slo, s.caps);
            var outcome := OutcomeOf(s.entry, runs, points, s.slo, s.caps);
            var refined := Refinement(s.rows, outcome, points, s.slo);
            && Ask(s, runs) == (if following.Some? then following else refined)
            && (Refines(s, runs) <==> following.None? && refined.Some?)
            && FinalOutcome(s, runs) == if Refined(s, runs) then RefinedOutcome(outcome, points, s.Q()) else outcome
  {
    hide Following, OutcomeOf, Refinement, RefinedOutcome, Refined;
  }

  // An answered batch extends the replay.
  lemma Extends(s: Search, runs: seq<Run>, batch: int)
    requires Recorded(s.rows, runs) && Replay(s, runs) && (runs != [] ==> !runs[|runs| - 1].kind.Failed?)
    requires VerdictAt(s, runs).Keep? && Ask(s, runs) == Some(batch) && Answered(s.rows, batch)
    ensures var longer := runs + [RunAt(batch, s.rows[batch])];
            && Recorded(s.rows, longer) && Replay(s, longer)
            && (Refined(s, longer) <==> Refined(s, runs) || Refines(s, runs))
            && Batches(longer) == Batches(runs) + {batch}
  {
    var last := RunAt(batch, s.rows[batch]);
    hide Ask, VerdictAt, Refined, Refines, Replay;
    ReplaySnoc(s, runs, last);
    RefinedSnoc(s, runs, last);
    BatchesSnoc(runs, last);
  }

  lemma Starts(s: Search)
    ensures Replay(s, []) && PointsOf(s.rows, []) == [] && Ask(s, []) == Some(s.first)
    ensures Batches([]) == {} && !Refined(s, []) && !Refines(s, [])
  {}

  method PlanLayout(s: Search) returns (plan: Plan)
    ensures IsPlan(s, plan)
  {
    Starts(s);
    hide Following, OutcomeOf, Refinement, RefinedOutcome, VerdictOf, Replay, Refined, Refines, Ask, FinalOutcome,
      Batches, PointsOf;
    var batch, runs, points, refining := s.first, [], [], false;
    while true
      invariant Recorded(s.rows, runs) && Replay(s, runs)
      invariant runs != [] ==> !runs[|runs| - 1].kind.Failed?
      invariant points == PointsOf(s.rows, runs)
      invariant Ask(s, runs) == Some(batch) && batch !in Batches(runs)
      invariant refining <==> Refined(s, runs) || Refines(s, runs)
      decreases s.rows.Keys - Batches(runs)
    {
      match VerdictOf(s.pruner, s.entry, s.slo, runs, points) {
        case Drop(why) => return Pruned(runs, points, why);
        case Crash => return Crashed(runs, points);
        case Keep =>
      }
      if batch !in s.rows || Classify(s.rows[batch]).Pending? {
        return Next(batch, runs);
      }
      Extends(s, runs, batch);
      runs := runs + [RunAt(batch, s.rows[batch])];
      if Classify(s.rows[batch]).Failed? {
        return FailedPlan(runs);
      }
      points := PointsOf(s.rows, runs);
      AskUnfolds(s, runs);
      var following := Following(s.entry, runs, points, s.slo, s.caps);
      if following.Some? {
        batch := following.value;
      } else {
        var outcome := OutcomeOf(s.entry, runs, points, s.slo, s.caps);
        var refined := Refinement(s.rows, outcome, points, s.slo);
        if refined.None? {
          return Settled(runs, points, if refining then RefinedOutcome(outcome, points, s.Q()) else outcome);
        }
        batch, refining := refined.value, true;
      }
      AskFresh(s, runs);
    }
  }

  lemma BatchesSnoc(runs: seq<Run>, last: Run)
    ensures Batches(runs + [last]) == Batches(runs) + {last.batch}
  {
    var longer := runs + [last];
    assert longer[|runs|] == last;
    assert forall i :: 0 <= i < |runs| ==> longer[i] == runs[i];
  }

  lemma GrowsRecorded(s: Search, runs: seq<Run>, last: Run)
    requires Recorded(s.rows, runs) && Grows(s, runs, last)
    ensures Recorded(s.rows, runs + [last])
  {
    hide Ask, VerdictAt;
  }

  lemma ReplaySnoc(s: Search, runs: seq<Run>, last: Run)
    requires Recorded(s.rows, runs) && Replay(s, runs) && Grows(s, runs, last)
    ensures Recorded(s.rows, runs + [last]) && Replay(s, runs + [last])
  {
    GrowsRecorded(s, runs, last);
    hide Grows;
    var longer := runs + [last];
    assert Recorded(s.rows, longer);
    forall k | 0 <= k < |longer|
      ensures Grows(s, longer[..k], longer[k])
    {
      LongerPrefix(runs, last, k);
    }
  }

  lemma LongerPrefix(runs: seq<Run>, last: Run, k: nat)
    requires k <= |runs|
    ensures (runs + [last])[..k] == runs[..k] && (k == |runs| ==> runs[..k] == runs)
  {}

  lemma RefinedSnoc(s: Search, runs: seq<Run>, last: Run)
    requires Recorded(s.rows, runs) && Recorded(s.rows, runs + [last])
    ensures Refined(s, runs + [last]) <==> Refined(s, runs) || Refines(s, runs)
  {
    hide Refines;
    var longer := runs + [last];
    assert forall k :: 0 <= k < |runs| ==> longer[..k] == runs[..k];
    assert longer[..|runs|] == runs;
  }
}
