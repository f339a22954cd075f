// When a pruned layout stays pruned over a resume, and when its pruner crashes.
module PrunedReplay {
  import opened Prelude
  import opened NativeSearch
  import opened NativeBounds
  import opened NativePlan
  import opened PlanFacts
  import opened PlanReplay
  import opened FloorPruning
  import PruningSoundness

  // The search over a later store, under another pruner.
  function Again(s: Search, later: map<int, Row>, q: Pruner): Search { s.(rows := later, pruner := q) }

  lemma AgainAsks(s: Search, later: map<int, Row>, q: Pruner, runs: seq<Run>)
    requires Recorded(s.rows, runs) && AllAnswered(s.rows, runs) && Keeps(s.rows, later) && Ask(s, runs).Some?
    ensures Recorded(later, runs) && Ask(Again(s, later, q), runs) == Ask(s, runs)
  {
    AskKept(s, later, runs);
    SameAsk(s.(rows := later), q, runs);
    hide Ask, VerdictAt, PointsOf, Reasked;
  }

  // What is asked does not depend on the pruner.
  lemma SameAsk(s: Search, q: Pruner, runs: seq<Run>)
    requires Recorded(s.rows, runs)
    ensures Ask(s.(pruner := q), runs) == Ask(s, runs)
  {
    hide Following, OutcomeOf, Refinement, PointsOf;
  }

  // The other pruner's verdict on these runs, over either store.
  lemma AgainJudges(s: Search, later: map<int, Row>, q: Pruner, runs: seq<Run>)
    requires Recorded(s.rows, runs) && AllAnswered(s.rows, runs) && Keeps(s.rows, later)
    ensures Recorded(later, runs) && VerdictAt(Again(s, later, q), runs) == VerdictAt(s.(pruner := q), runs)
  {
    PointsKept(s.rows, later, runs);
    hide PointsOf, VerdictOf;
  }

  // As long as the other pruner keeps the layout, the replay is the same.
  lemma {:induction false} AgainReplays(s: Search, later: map<int, Row>, q: Pruner, runs: seq<Run>, k: nat)
    requires Replay(s, runs) && Keeps(s.rows, later) && k <= |runs|
    requires forall j :: 0 <= j < k ==> Recorded(s.rows, runs[..j]) && VerdictAt(s.(pruner := q), runs[..j]).Keep?
    ensures Recorded(later, runs[..k]) && Replay(Again(s, later, q), runs[..k])
  {
    hide Ask, VerdictAt, PointsOf, Replay;
    var t := Again(s, later, q);
    if k > 0 {
      var j := k - 1;
      AgainReplays(s, later, q, runs, j);
      ReplayPrefix(s, runs, j);
      ReplayAnswered(s, runs[..j]);
      ReplayStep(s, runs, j);
      AgainAsks(s, later, q, runs[..j]);
      AgainJudges(s, later, q, runs[..j]);
      assert Grows(t, runs[..j], runs[j]);
      ReplaySnoc(t, runs[..j], runs[j]);
      assert runs[..j] + [runs[j]] == runs[..k];
    } else {
      Starts(t);
      assert runs[..0] == [];
    }
  }

  lemma ReplayRecorded(s: Search, runs: seq<Run>)
    requires Replay(s, runs)
    ensures Recorded(s.rows, runs) && forall j :: 0 <= j <= |runs| ==> Recorded(s.rows, runs[..j])
  {
    hide Grows;
  }

  lemma ReplayStep(s: Search, runs: seq<Run>, j: nat)
    requires Replay(s, runs) && j < |runs|
    ensures Recorded(s.rows, runs[..j]) && Grows(s, runs[..j], runs[j])
  {
    hide Grows;
  }

  // The first of these runs' prefixes that the other pruner drops, after keeping all before.
  predicate DropsAt(s: Search, q: Pruner, runs: seq<Run>, k: nat)
    requires Recorded(s.rows, runs) && k <= |runs|
  {
    && VerdictAt(s.(pruner := q), runs[..k]).Drop?
    && forall j :: 0 <= j < k ==> VerdictAt(s.(pruner := q), runs[..j]).Keep?
  }

  lemma DroppedAgain(s: Search, later: map<int, Row>, q: Pruner, plan: Plan, k: nat) returns (dropped: Plan)
    requires Keeps(s.rows, later) && IsPlan(s, plan) && plan.Pruned? && k <= |plan.runs| && DropsAt(s, q, plan.runs, k)
    ensures IsPlan(Again(s, later, q), dropped) && dropped.Pruned? && dropped.runs == plan.runs[..k]
  {
    hide Ask, VerdictAt, PointsOf, Replay;
    var t, runs := Again(s, later, q), plan.runs;
    ReplayRecorded(s, runs);
    AgainReplays(s, later, q, runs, k);
    ReplayPrefix(s, runs, k);
    ReplayAnswered(s, runs[..k]);
    if k < |runs| { ReplayStep(s, runs, k); } else { assert runs[..k] == runs; }
    AgainAsks(s, later, q, runs[..k]);
    AgainJudges(s, later, q, runs[..k]);
    dropped := Pruned(runs[..k], PointsOf(later, runs[..k]), VerdictAt(t, runs[..k]).why);
  }

  // A pruned plan is pruned again, no later than before, exactly when the other
  // pruner drops some prefix of its runs and keeps all before.
  lemma PrunedAgainExactly(s: Search, later: map<int, Row>, q: Pruner, plan: Plan, resumed: Plan)
    requires Keeps(s.rows, later) && IsPlan(s, plan) && plan.Pruned? && IsPlan(Again(s, later, q), resumed)
    ensures resumed.Pruned? && resumed.runs <= plan.runs <==>
              exists k: nat :: k <= |plan.runs| && DropsAt(s, q, plan.runs, k)
  {
    hide Ask, VerdictAt, PointsOf, Grows, Stops;
    if k: nat :| k <= |plan.runs| && DropsAt(s, q, plan.runs, k) {
      var dropped := DroppedAgain(s, later, q, plan, k);
      PlanUnique(Again(s, later, q), resumed, dropped);
    }
    if resumed.Pruned? && resumed.runs <= plan.runs {
      PrunedDrops(s, later, q, plan, resumed);
    }
  }

  lemma PrunedDrops(s: Search, later: map<int, Row>, q: Pruner, plan: Plan, resumed: Plan)
    requires Keeps(s.rows, later) && IsPlan(s, plan) && IsPlan(Again(s, later, q), resumed)
    requires resumed.Pruned? && resumed.runs <= plan.runs
    ensures DropsAt(s, q, plan.runs, |resumed.runs|)
  {
    hide Ask, VerdictAt, PointsOf, Replay;
    var t, k := Again(s, later, q), |resumed.runs|;
    assert plan.runs[..k] == resumed.runs;
    ReplayRecorded(s, plan.runs);
    forall j | 0 <= j <= k
      ensures Recorded(s.rows, plan.runs[..j]) && Recorded(later, resumed.runs[..j])
      ensures VerdictAt(s.(pruner := q), plan.runs[..j]) == VerdictAt(t, resumed.runs[..j])
    {
      assert plan.runs[..j] == resumed.runs[..j];
      ReplayPrefix(s, plan.runs, j);
      ReplayAnswered(s, plan.runs[..j]);
      AgainJudges(s, later, q, plan.runs[..j]);
    }
    assert resumed.runs[..k] == resumed.runs;
    forall j | 0 <= j < k ensures VerdictAt(s.(pruner := q), plan.runs[..j]).Keep? {
      ReplayStep(t, resumed.runs, j);
    }
  }

  // A pruner that drops whatever another dropped, and crashes only where it did.
  ghost predicate DropsMore(s: Search, q: Pruner) {
    forall runs :: Recorded(s.rows, runs) ==>
      && (VerdictAt(s, runs).Drop? ==> VerdictAt(s.(pruner := q), runs).Drop?)
      && (VerdictAt(s.(pruner := q), runs).Crash? ==> VerdictAt(s, runs).Crash?)
  }

  lemma {:induction false} FirstDrop(s: Search, q: Pruner, runs: seq<Run>, n: nat) returns (k: nat)
    requires Recorded(s.rows, runs) && n <= |runs|
    requires VerdictAt(s.(pruner := q), runs[..n]).Drop?
    requires forall j :: 0 <= j < n ==> !VerdictAt(s.(pruner := q), runs[..j]).Crash?
    ensures k <= n && DropsAt(s, q, runs, k)
  {
    hide VerdictAt;
    if j :| 0 <= j < n && !VerdictAt(s.(pruner := q), runs[..j]).Keep? {
      k := FirstDrop(s, q, runs, j);
    } else {
      k := n;
    }
  }

  // With the same first batch and a pruner that drops more, a pruned plan stays pruned, on no more runs.
  lemma PrunedStays(s: Search, later: map<int, Row>, q: Pruner, plan: Plan, resumed: Plan)
    requires Keeps(s.rows, later) && IsPlan(s, plan) && plan.Pruned? && IsPlan(Again(s, later, q), resumed)
    requires DropsMore(s, q)
    ensures resumed.Pruned? && resumed.runs <= plan.runs
  {
    hide Ask, VerdictAt, PointsOf, Replay, DropsAt, DropsMore, Stops;
    var runs := plan.runs;
    ReplayRecorded(s, runs);
    PrunedAgainExactly(s, later, q, plan, resumed);
    DroppedMore(s, q, plan);
    var k := FirstDrop(s, q, runs, |runs|);
  }

  lemma DroppedMore(s: Search, q: Pruner, plan: Plan)
    requires IsPlan(s, plan) && plan.Pruned? && DropsMore(s, q)
    ensures forall j :: 0 <= j <= |plan.runs| ==> Recorded(s.rows, plan.runs[..j])
    ensures VerdictAt(s.(pruner := q), plan.runs[..|plan.runs|]).Drop?
    ensures forall j :: 0 <= j < |plan.runs| ==> !VerdictAt(s.(pruner := q), plan.runs[..j]).Crash?
  {
    hide Ask, VerdictAt, PointsOf, Replay;
    var runs := plan.runs;
    ReplayRecorded(s, runs);
    assert runs[..|runs|] == runs;
    forall j | 0 <= j < |runs| ensures !VerdictAt(s.(pruner := q), runs[..j]).Crash? {
      ReplayStep(s, runs, j);
    }
  }

  // ----- Pruners of one kind

  // Every saved estimate is at most its upper bound.
  ghost predicate EstimatesUnder(rows: map<int, Row>) {
    forall b :: b in rows && rows[b].bounds.Some? ==> rows[b].bounds.value.estimate <= rows[b].bounds.value.upper
  }

  // Two pruners of one kind, where neither the incumbent nor the floor fell.
  predicate Tightened(entry: Entry, p: Pruner, q: Pruner) {
    match p
    case RatePruner(gpus, low, floor) =>
      q.RatePruner? && q.gpus == gpus && low <= q.incumbent && FloorKept(entry, floor, q.floor)
    case BatchPruner(gpus, low, floor) =>
      q.BatchPruner? && q.gpus == gpus && low <= q.incumbent && FloorKept(entry, floor, q.floor)
    case NoPruner => q.NoPruner?
  }

  lemma TightenedDropsMore(s: Search, q: Pruner)
    requires EstimatesUnder(s.rows) && Tightened(s.entry, s.pruner, q)
    ensures DropsMore(s, q)
  {
    hide RateVerdict, BatchVerdict, PointsOf, FloorKept;
    forall runs | Recorded(s.rows, runs)
      ensures VerdictAt(s, runs).Drop? ==> VerdictAt(s.(pruner := q), runs).Drop?
      ensures VerdictAt(s.(pruner := q), runs).Crash? ==> VerdictAt(s, runs).Crash?
    {
      var points := PointsOf(s.rows, runs);
      assert EstimatesWithin(points, s.slo);
      if !s.pruner.NoPruner? {
        var p := s.pruner;
        FloorDrops(s.entry, s.slo, p.gpus, p.incumbent, q.incumbent, p.floor, q.floor, runs, points);
        SameCrash(s.entry, s.slo, p.gpus, p.incumbent, q.incumbent, p.floor, q.floor, runs, points);
      }
    }
  }

  lemma SameCrash(entry: Entry, slo: PosReal, gpus: Pos, low: real, high: real, floor: Option<real>,
                  later: Option<real>,
                  runs: seq<Run>, points: seq<Point>)
    ensures BatchVerdict(entry, slo, gpus, low, floor, runs, points).Crash? <==>
              BatchVerdict(entry, slo, gpus, high, later, runs, points).Crash?
    ensures !RateVerdict(entry, slo, gpus, low, floor, runs, points).Crash?
    ensures !RateVerdict(entry, slo, gpus, high, later, runs, points).Crash?
  {
    hide BatchLimits, BypassBatchBound, SlopeBatchBound, BypassRateBound, SlopeRateBound, PointRate, RunLimit;
  }

  // ----- Crashes

  // A batch-pruned plan crashes exactly when a further batch is asked for after
  // a point reached the bypass capacity, and no run gave a limit.
  lemma CrashedExactly(s: Search, plan: Plan)
    requires IsPlan(s, plan) && s.pruner.BatchPruner?
    ensures plan.Crashed? <==>
              && !plan.FailedPlan? && Ask(s, plan.runs).Some?
              && ReachedCapacity(s.entry, PointsOf(s.rows, plan.runs)) && forall x :: !LimitReported(plan.runs, x)
  {
    hide Ask, PointsOf, Grows, BatchVerdict, FinalOutcome;
    var b := s.pruner;
    PruningSoundness.BatchPrunerCrashes(s.entry, s.slo, b.gpus, b.incumbent, b.floor, plan.runs,
                                        PointsOf(s.rows, plan.runs));
  }
}
