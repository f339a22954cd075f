// How high a layout's search climbs, and how many runs it makes in all, over stores that grow.
module SearchBudget {
  import opened Prelude
  import opened NativeSearch
  import opened NativeBounds
  import opened QuantumFacts
  import opened SearchFacts
  import opened SearchDirection
  import opened LimitFacts
  import opened NativePlan
  import opened PlanFacts
  import opened PlanReplay
  import opened PlanOutcomes
  import opened NoPassReports

  // ----- What a new highest batch takes

  predicate UnderSome(runs: seq<Run>, b: int) {
    exists i :: 0 <= i < |runs| && b < runs[i].batch
  }

  // Some point was measured, and no run was too big or above the SLO.
  predicate OnlyPassed(runs: seq<Run>, points: seq<Point>, slo: real) {
    points != [] && AllWithin(points, slo) && NoTooBig(runs)
  }

  // A step or more past every point, and within the limit on the next batch.
  predicate ClimbsTo(s: Search, runs: seq<Run>, b: int)
    requires Recorded(s.rows, runs)
  {
    var points := PointsOf(s.rows, runs);
    && OnlyPassed(runs, points, s.slo) && Beyond(points, b, s.Q())
    && !Tighter(LimitOf(s.entry, runs, points, s.caps).at, Some(b))
  }

  lemma RunsOfPoints(rows: map<int, Row>, runs: seq<Run>)
    requires Recorded(rows, runs)
    ensures Functional(PointsOf(rows, runs))
    ensures forall p, b :: p in PointsOf(rows, runs) && b < p.batch ==> UnderSome(runs, b)
  {
    forall p, b | p in PointsOf(rows, runs) && b < p.batch ensures UnderSome(runs, b) {
      PointIsRun(rows, runs, p);
    }
    hide PointsOf;
  }

  lemma NotUnder(runs: seq<Run>, points: seq<Point>, b: int)
    requires forall p :: p in points && b < p.batch ==> UnderSome(runs, b)
    requires !UnderSome(runs, b)
    ensures forall p :: p in points ==> p.batch <= b
    ensures BelowTooBig(runs, b) ==> NoTooBig(runs)
  {
    if BelowTooBig(runs, b) {
      forall i | 0 <= i < |runs| ensures !runs[i].kind.TooBig? { assert runs[i] in runs; }
    }
  }

  lemma LowerEnd(points: seq<Point>, slo: real)
    requires Functional(points) && points != [] && Unbracketed(points, slo) && !AllWithin(points, slo)
    ensures SmallestFails(points, slo)
  {
    var f :| f in points && f.upper > slo;
    var p := Smallest(points);
    assert Within(p, slo) ==> f.batch < p.batch;
  }

  lemma FollowingClimbs(s: Search, runs: seq<Run>)
    requires Recorded(s.rows, runs) && RunsSound(runs, s.Q()) && runs != []
    requires Following(s.entry, runs, PointsOf(s.rows, runs), s.slo, s.caps).Some?
    requires !UnderSome(runs, Following(s.entry, runs, PointsOf(s.rows, runs), s.slo, s.caps).value)
    ensures ClimbsTo(s, runs, Following(s.entry, runs, PointsOf(s.rows, runs), s.slo, s.caps).value)
  {
    hide FollowBracket, FollowMeasured, Bracket, LimitOf, Largest, Smallest, Spaced, PointsOf, Beyond, Functional,
      Under;
    var points := PointsOf(s.rows, runs);
    var b := Following(s.entry, runs, points, s.slo, s.caps).value;
    RunsOfPoints(s.rows, runs);
    SoundPoints(s, runs);
    BracketFacts(points, s.slo);
    FollowingDirection(s.entry, runs, points, s.slo, s.caps);
    BracketedFalls(s, runs);
    if points == [] {
      UnmeasuredFalls(runs, s.Q());
      assert false;
    } else {
      FollowMeasuredFacts(s.entry, runs, points, s.slo, s.caps);
      NotUnder(runs, points, b);
      if !AllWithin(points, s.slo) {
        LowerEnd(points, s.slo);
        UnderSmallest(points, b, s.Q());
        assert false;
      }
      SpacedSides(points, b, s.Q());
    }
  }

  lemma BracketedFalls(s: Search, runs: seq<Run>)
    requires Recorded(s.rows, runs) && RunsSound(runs, s.Q()) && runs != []
    requires Following(s.entry, runs, PointsOf(s.rows, runs), s.slo, s.caps).Some?
    ensures Bracket(PointsOf(s.rows, runs), s.slo).Some? ==>
              UnderSome(runs, Following(s.entry, runs, PointsOf(s.rows, runs), s.slo, s.caps).value)
  {
    hide Following, Bracket, PointsOf, Functional, UnderSome;
    RunsOfPoints(s.rows, runs);
    SoundPoints(s, runs);
    FollowingDirection(s.entry, runs, PointsOf(s.rows, runs), s.slo, s.caps);
  }

  lemma UnderSmallest(points: seq<Point>, b: int, q: Pos)
    requires points != [] && Under(points, b, q)
    ensures b < Smallest(points).batch
  {
    StepPositive(Smallest(points).batch, q);
    hide Step, Smallest;
    assert Smallest(points) in points;
  }

  lemma UnmeasuredFalls(runs: seq<Run>, q: Pos)
    requires runs != [] && RunsSound(runs, q) && FollowUnmeasured(runs, q).Some?
    ensures UnderSome(runs, FollowUnmeasured(runs, q).value)
  {
    FollowUnmeasuredFacts(runs, q);
    hide FollowUnmeasured;
    var last := runs[|runs| - 1];
    assert last in runs;
  }

  // A batch above every run so far is asked for only while some point was measured and none failed and no run
  // was too big: it then lies a step or more past every point, and within the limit.
  lemma OnlyPassingClimbs(s: Search, runs: seq<Run>)
    requires OnGrid(s.first, s.Q()) && Replay(s, runs) && runs != []
    requires Ask(s, runs).Some? && !UnderSome(runs, Ask(s, runs).value)
    ensures ClimbsTo(s, runs, Ask(s, runs).value)
  {
    hide Ask, Following, OutcomeOf, PointsOf, Replay, ClimbsTo, UnderSome, RunsSound;
    ReplayRecords(s, runs);
    ReplaySound(s, runs);
    AskUnfolds(s, runs);
    if Following(s.entry, runs, PointsOf(s.rows, runs), s.slo, s.caps).Some? {
      FollowingClimbs(s, runs);
    } else {
      AcceptanceUnder(s, runs);
      assert false;
    }
  }

  lemma ReplayRecords(s: Search, runs: seq<Run>)
    requires Replay(s, runs)
    ensures Recorded(s.rows, runs)
  {
    hide Grows;
  }

  // An acceptance batch lies under its bracket's failing end.
  lemma AcceptanceUnder(s: Search, runs: seq<Run>)
    requires Recorded(s.rows, runs) && RunsSound(runs, s.Q())
    requires Functional(PointsOf(s.rows, runs))
    requires var points := PointsOf(s.rows, runs);
             Refinement(s.rows, OutcomeOf(s.entry, runs, points, s.slo, s.caps), points, s.slo).Some?
    ensures var points := PointsOf(s.rows, runs);
            UnderSome(runs, Refinement(s.rows, OutcomeOf(s.entry, runs, points, s.slo, s.caps), points, s.slo).value)
  {
    hide OutcomeOf, PointsOf, UnderSome, RunsSound, Functional, Bracket;
    var points := PointsOf(s.rows, runs);
    RunsOfPoints(s.rows, runs);
    SoundPoints(s, runs);
    InterpolatedUnderTooBig(s.entry, runs, points, s.slo, s.caps);
    OutcomeOnGrid(s.entry, runs, points, s.slo, s.caps);
    var high := Bracket(points, s.slo).value.1;
    assert high in points;
  }

  // ----- How high it climbs

  // Until a point reaches the bypass capacity, no run and no request lies above it and the first batch.
  lemma {:induction false} CapacityHolds(s: Search, runs: seq<Run>)
    requires OnGrid(s.first, s.Q()) && Replay(s, runs) && Recorded(s.rows, runs)
    requires !ReachedCapacity(s.entry, PointsOf(s.rows, runs))
    ensures var top := MaxInt(s.first, s.entry.capacityMaxBatch);
            && (forall i :: 0 <= i < |runs| ==> runs[i].batch <= top)
            && (Ask(s, runs).Some? ==> Ask(s, runs).value <= top)
  {
    hide Ask, PointsOf, Replay, Grows, ClimbsTo;
    if runs != [] {
      var k := |runs| - 1;
      ReplayPrefix(s, runs, k);
      ReplayRecords(s, runs[..k]);
      PrefixPoints(s.rows, runs, k);
      CapacityHolds(s, runs[..k]);
      Asked(s, runs, k);
      if Ask(s, runs).Some? && !UnderSome(runs, Ask(s, runs).value) {
        OnlyPassingClimbs(s, runs);
        ClimbWithin(s, runs, Ask(s, runs).value);
      }
    } else {
      Starts(s);
    }
  }

  lemma ClimbWithin(s: Search, runs: seq<Run>, b: int)
    requires Recorded(s.rows, runs) && ClimbsTo(s, runs, b) && !ReachedCapacity(s.entry, PointsOf(s.rows, runs))
    ensures b <= s.entry.capacityMaxBatch
  {
    LimitBinds(s.entry, runs, PointsOf(s.rows, runs), s.caps);
    hide LimitOf, PointsOf, LimitReported;
  }

  // Some run was too big or above the SLO.
  predicate Stopped(s: Search, runs: seq<Run>)
    requires Recorded(s.rows, runs)
  {
    !NoTooBig(runs) || !AllWithin(PointsOf(s.rows, runs), s.slo)
  }

  // Once a run was too big or above the SLO, every later run lies under one made until then.
  lemma FailureCaps(s: Search, runs: seq<Run>, k: nat, j: nat)
    requires OnGrid(s.first, s.Q()) && Replay(s, runs) && 0 < k <= j < |runs|
    requires Recorded(s.rows, runs[..k]) && Stopped(s, runs[..k])
    ensures UnderSome(runs[..k], runs[j].batch)
    decreases j
  {
    hide Ask, PointsOf, Replay;
    ReplayPrefix(s, runs, j);
    ReplayRecords(s, runs[..j]);
    Asked(s, runs, j);
    StillStopped(s, runs, k, j);
    if !UnderSome(runs[..j], runs[j].batch) {
      OnlyPassingClimbs(s, runs[..j]);
      assert false;
    }
    var i :| 0 <= i < j && runs[j].batch < runs[i].batch;
    if i < k {
      assert runs[..k][i] == runs[i];
    } else {
      FailureCaps(s, runs, k, i);
      var h :| 0 <= h < k && runs[i].batch < runs[..k][h].batch;
    }
  }

  lemma StillStopped(s: Search, runs: seq<Run>, k: nat, j: nat)
    requires k <= j <= |runs| && Recorded(s.rows, runs[..j]) && Recorded(s.rows, runs[..k]) && Stopped(s, runs[..k])
    ensures Stopped(s, runs[..j])
  {
    PrefixPoints(s.rows, runs[..j], k);
    hide PointsOf;
    assert runs[..j][..k] == runs[..k];
    if !NoTooBig(runs[..k]) {
      var i :| 0 <= i < k && runs[..k][i].kind.TooBig?;
      assert runs[..j][i].kind.TooBig?;
    }
  }

  // ----- How many runs it makes

  // The product is a parameter, so that callers keep only linear facts about it.
  lemma {:induction false} MultiplesFit(batches: set<int>, q: Pos, n: nat, top: int)
    requires top == n * q && forall b :: b in batches ==> OnGrid(b, q) && b <= top
    ensures |batches| <= n
  {
    if n == 0 {
      assert forall b :: b !in batches;
      assert batches == {};
    } else {
      var rest := batches - {top};
      FewerMultiples(n, q);
      forall b | b in rest ensures b <= top - q { MultipleBelow(b, n - 1, q); }
      MultiplesFit(rest, q, n - 1, top - q);
      SubsetFits(batches, rest + {top});
    }
  }

  lemma FewerMultiples(n: int, q: int)
    ensures (n - 1) * q == n * q - q
  {}

  // Runs that are distinct multiples of the quantum up to a batch number at most that batch over the quantum.
  lemma RunsFit(runs: seq<Run>, q: Pos, top: nat)
    requires RunsSound(runs, q) && forall i :: 0 <= i < |runs| ==> runs[i].batch <= top
    ensures |runs| <= top / q
  {
    DistinctRunsFit(runs, map[]);
    BatchesOnGrid(runs, q, top);
    hide RunsSound, OnGrid, Batches;
    MultiplesFit(Batches(runs), q, top / q, top / q * q);
  }

  lemma BatchesOnGrid(runs: seq<Run>, q: Pos, top: nat)
    requires RunsSound(runs, q) && forall i :: 0 <= i < |runs| ==> runs[i].batch <= top
    ensures forall b :: b in Batches(runs) ==> OnGrid(b, q) && b <= top / q * q
  {
    forall b | b in Batches(runs) ensures OnGrid(b, q) && b <= top / q * q {
      MultipleBelow(b, top / q, q);
    }
  }

  // A plan makes at most capacity / quantum runs if no point before its last run reached the capacity.
  lemma CapacityBudget(s: Search, plan: Plan)
    requires OnGrid(s.first, s.Q()) && IsPlan(s, plan) && plan.runs != []
    requires Recorded(s.rows, plan.runs[..|plan.runs| - 1])
    requires !ReachedCapacity(s.entry, PointsOf(s.rows, plan.runs[..|plan.runs| - 1]))
    ensures |plan.runs| <= MaxInt(s.first, s.entry.capacityMaxBatch) / s.Q()
  {
    hide Ask, PointsOf, Replay, Stops, RunsSound, ReachedCapacity;
    var runs, k := plan.runs, |plan.runs| - 1;
    ReplayPrefix(s, runs, k);
    CapacityHolds(s, runs[..k]);
    Asked(s, runs, k);
    ReplaySound(s, runs);
    var top := MaxInt(s.first, s.entry.capacityMaxBatch);
    forall i | 0 <= i < |runs| ensures runs[i].batch <= top {
      if i < k { assert runs[i] == runs[..k][i]; }
    }
    RunsFit(runs, s.Q(), top);
  }

  // Once a run was too big or above the SLO, the highest batch until then bounds the runs of the whole search.
  lemma FailureBudget(s: Search, plan: Plan, k: nat, top: nat)
    requires OnGrid(s.first, s.Q()) && IsPlan(s, plan) && 0 < k <= |plan.runs|
    requires Recorded(s.rows, plan.runs[..k]) && Stopped(s, plan.runs[..k])
    requires forall i :: 0 <= i < k ==> plan.runs[i].batch <= top
    ensures |plan.runs| <= top / s.Q()
  {
    hide Ask, PointsOf, Replay, Stops, RunsSound, Stopped;
    var runs := plan.runs;
    ReplaySound(s, runs);
    forall i | 0 <= i < |runs| ensures runs[i].batch <= top {
      if i >= k { FailureCaps(s, runs, k, i); }
    }
    RunsFit(runs, s.Q(), top);
  }

  // ----- Plan, run what is asked, plan again

  // Pruned, crashed and failed plans stay as they are.
  predicate Final(plan: Plan) { plan.Pruned? || plan.Crashed? || plan.FailedPlan? }

  function Work(plan: Plan): nat { |plan.runs| + if Final(plan) then 1 else 0 }

  // A resumed plan that changed has more runs, or is final on the same ones.
  lemma ChangeWorks(s: Search, later: map<int, Row>, plan: Plan, resumed: Plan)
    requires Keeps(s.rows, later) && IsPlan(s, plan) && IsPlan(s.(rows := later), resumed) && resumed != plan
    ensures Work(plan) < Work(resumed)
  {
    hide Ask, VerdictAt, PointsOf, Reasked, Refines, FinalOutcome, Replay;
    Resume(s, later, plan, resumed);
    ReplayAnswered(s, plan.runs);
    AskKept(s, later, plan.runs);
    if resumed.runs == plan.runs { SameRunsFinal(s, later, plan, resumed); }
  }

  lemma SameRunsFinal(s: Search, later: map<int, Row>, plan: Plan, resumed: Plan)
    requires Recorded(s.rows, plan.runs) && Recorded(later, plan.runs) && resumed.runs == plan.runs && resumed != plan
    requires Stops(s, plan) && Stops(s.(rows := later), resumed) && !Final(plan)
    requires plan.Next? ==> Answered(later, plan.batch)
    requires plan.Settled? ==> Reasked(s.(rows := later), plan.runs).Some?
    requires var t := s.(rows := later);
             && VerdictAt(t, plan.runs) == VerdictAt(s, plan.runs)
             && (Ask(s, plan.runs).Some? ==> Ask(t, plan.runs) == Ask(s, plan.runs))
             && (Ask(s, plan.runs).None? ==> Ask(t, plan.runs) == Reasked(t, plan.runs))
    ensures Final(resumed)
  {
    hide Ask, VerdictAt, FinalOutcome, PointsOf, OutcomeOf;
  }

  // Plans of one search over stores that keep their settled rows, each changed from the one before.
  ghost predicate Session(s: Search, stores: seq<map<int, Row>>, plans: seq<Plan>) {
    && |stores| == |plans| > 0
    && (forall i :: 0 <= i < |plans| ==> IsPlan(s.(rows := stores[i]), plans[i]))
    && forall i :: 0 < i < |plans| ==> Keeps(stores[i - 1], stores[i]) && plans[i] != plans[i - 1]
  }

  lemma {:induction false} SessionWorks(s: Search, stores: seq<map<int, Row>>, plans: seq<Plan>)
    requires Session(s, stores, plans)
    ensures |plans| - 1 <= Work(plans[|plans| - 1])
  {
    hide IsPlan, Keeps, Work;
    var k := |plans| - 1;
    if k > 0 {
      SessionWorks(s, stores[..k], plans[..k]);
      ChangeWorks(s.(rows := stores[k - 1]), stores[k], plans[k - 1], plans[k]);
    }
  }

  // However often a search is resumed, its plan changes at most once more than
  // its last plan has runs: at most capacity / quantum + 1 times, if no point
  // before the last run reached the capacity.
  lemma SessionBudget(s: Search, stores: seq<map<int, Row>>, plans: seq<Plan>)
    requires OnGrid(s.first, s.Q()) && Session(s, stores, plans)
    ensures var n, runs := |plans| - 1, plans[|plans| - 1].runs;
            && n <= |runs| + 1
            && (runs != [] && Recorded(stores[n], runs[..|runs| - 1])
                && !ReachedCapacity(s.entry, PointsOf(stores[n], runs[..|runs| - 1])) ==>
                  n <= MaxInt(s.first, s.entry.capacityMaxBatch) / s.Q() + 1)
  {
    hide IsPlan, Keeps, PointsOf, ReachedCapacity;
    SessionWorks(s, stores, plans);
    var n, plan := |plans| - 1, plans[|plans| - 1];
    var runs := plan.runs;
    if runs != [] && Recorded(stores[n], runs[..|runs| - 1])
       && !ReachedCapacity(s.entry, PointsOf(stores[n], runs[..|runs| - 1])) {
      CapacityBudget(s.(rows := stores[n]), plan);
    }
  }
}
