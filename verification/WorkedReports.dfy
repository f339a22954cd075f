// A store whose wall limit drops under its passing point, and the report that nothing passes.
module WorkedReports {
  import opened Prelude
  import opened NativeSearch
  import opened NativeBounds
  import opened SearchFacts
  import opened SearchDirection
  import opened NativePlan
  import opened PlanOutcomes
  import opened NoPassReports
  import opened WorkedStores

  const NARROW := Entry(100, 1, 1, 400, 400, 60.0, 0.05)

  // 200 passes but fills its wall budget; 100 fails.
  const NARROW_ROWS: map<int, Row> := map[
    200 := Row(Completed, Some(Bounds(90.0, 89.0)), false, None, None, Some(100.0), None, None, None),
    100 := MeasuredRow(110.0, 109.0)]

  const SLOW := Point(200, 90.0, 89.0, Completed, 100.0, None)
  const SLOW_RUN := Run(200, Measured, Completed, None, None)
  const LOWER := MeasuredPoint(100, 110.0, 109.0)
  const LOWER_RUN := MeasuredRun(100, 110.0)

  const NARROW_SEARCH := Search(NARROW, NARROW_ROWS, SLO, Caps(100.0, None), 200, NoPruner)

  lemma SlowLimit()
    ensures LimitOf(NARROW, [SLOW_RUN], [SLOW], Caps(100.0, None)).at == Some(100)
  {
    NoCapacity([SLOW_RUN]);
    NoTooBigRun([SLOW_RUN]);
    NoHeavyPoint([SLOW]);
    assert Quantum(NARROW) == 100;
    assert Projection(SLOW, WallBudget(Caps(100.0, None)), 100.0) == 180.0;
    assert (180.0 / 100.0).Floor == 1;
    assert ProjectedLimits([SLOW], Caps(100.0, None), 100) == [Limit(Some(100), Some(WallLimited))];
    assert RunLimits(NARROW, [SLOW_RUN], [SLOW]) == [Limit(None, None), Limit(Some(400), Some(CapacityLimited))];
    var limits := [Limit(None, None), Limit(Some(400), Some(CapacityLimited)), Limit(Some(100), Some(WallLimited))];
    assert RunLimits(NARROW, [SLOW_RUN], [SLOW]) + [Limit(Some(100), Some(WallLimited))] == limits;
    assert limits[..2][..1] == [Limit(None, None)];
  }

  lemma SlowFollowed()
    ensures Following(NARROW, [SLOW_RUN], [SLOW], SLO, Caps(100.0, None)) == Some(100)
  {
    SlowLimit();
    NoBracketOfOne(SLOW);
    NoTooBigRun([SLOW_RUN]);
    assert Quantum(NARROW) == 100;
    AimedFromOne(NARROW, SLOW, 100.0);
    RoundedIs(100.0, 100, 100);
    SlowAimed();
    hide Bracket, LimitOf, AimedBatch, Quantum, Rounded, FloorTo, SmallestTooBig;
    assert Nearest([SLOW], 100) == 200;
  }

  lemma SlowAimed()
    requires 100.0 <= Target(NARROW, [SLOW], SLO)
    ensures AimedBatch(NARROW, [SLOW_RUN], [SLOW], SLO, Some(100)) == 100
  {
    assert Quantum(NARROW) == 100;
    NoTooBigRun([SLOW_RUN]);
    RoundedIs(100.0, 100, 100);
    hide Target, Rounded, SmallestTooBig;
  }

  lemma SlowAlone()
    ensures Recorded(NARROW_ROWS, [SLOW_RUN]) && PointsOf(NARROW_ROWS, [SLOW_RUN]) == [SLOW]
    ensures Replay(NARROW_SEARCH, [SLOW_RUN]) && Ask(NARROW_SEARCH, [SLOW_RUN]) == Some(100)
    ensures !Refined(NARROW_SEARCH, [SLOW_RUN]) && !Refines(NARROW_SEARCH, [SLOW_RUN])
    ensures LimitDropped(NARROW_SEARCH, [SLOW_RUN])
  {
    hide Following, Replay, LimitOf, Refined, Refines, Ask, PointsOf, VerdictAt, Largest, OutcomeOf;
    var s := NARROW_SEARCH;
    Starts(s);
    FirstAnswers();
    Extends(s, [], 200);
    assert [] + [SLOW_RUN] == [SLOW_RUN];
    SlowMeasured();
    SlowFollowed();
    SlowLimit();
    AskUnfolds(s, [SLOW_RUN]);
    assert [SLOW_RUN][0] == SLOW_RUN;
    SlowLargest();
  }

  lemma FirstAnswers()
    ensures Answered(NARROW_ROWS, 200) && RunAt(200, NARROW_ROWS[200]) == SLOW_RUN && VerdictAt(NARROW_SEARCH, []).Keep?
  {}

  lemma SlowLargest()
    ensures Largest([SLOW]) == SLOW && AllWithin([SLOW], SLO)
  {}

  lemma SlowMeasured()
    ensures Recorded(NARROW_ROWS, [SLOW_RUN]) && PointsOf(NARROW_ROWS, [SLOW_RUN]) == [SLOW]
  {
    assert [SLOW_RUN][..0] == [];
  }

  lemma BothRuns()
    ensures Recorded(NARROW_ROWS, [SLOW_RUN, LOWER_RUN])
              && PointsOf(NARROW_ROWS, [SLOW_RUN, LOWER_RUN]) == [SLOW, LOWER]
    ensures Replay(NARROW_SEARCH, [SLOW_RUN, LOWER_RUN]) && !Refined(NARROW_SEARCH, [SLOW_RUN, LOWER_RUN])
  {
    hide Replay, Refined, Refines, Ask, PointsOf, LimitDropped, VerdictAt;
    SlowAlone();
    LowerAnswers();
    Extends(NARROW_SEARCH, [SLOW_RUN], 100);
    assert [SLOW_RUN] + [LOWER_RUN] == [SLOW_RUN, LOWER_RUN];
    BothMeasured();
  }

  lemma LowerAnswers()
    ensures Answered(NARROW_ROWS, 100) && RunAt(100, NARROW_ROWS[100]) == LOWER_RUN
    ensures Recorded(NARROW_ROWS, [SLOW_RUN]) && VerdictAt(NARROW_SEARCH, [SLOW_RUN]).Keep?
  {
    MeasuredParts(100, 110.0, 109.0);
    hide PointsOf;
  }

  lemma BothMeasured()
    requires Recorded(NARROW_ROWS, [SLOW_RUN, LOWER_RUN]) && Recorded(NARROW_ROWS, [SLOW_RUN])
    requires PointsOf(NARROW_ROWS, [SLOW_RUN]) == [SLOW]
    ensures PointsOf(NARROW_ROWS, [SLOW_RUN, LOWER_RUN]) == [SLOW, LOWER]
  {
    MeasuredParts(100, 110.0, 109.0);
    assert [SLOW_RUN, LOWER_RUN][..1] == [SLOW_RUN];
    assert [SLOW] + [LOWER] == [SLOW, LOWER];
  }

  lemma BothPoints()
    ensures Functional([SLOW, LOWER]) && Bracket([SLOW, LOWER], SLO).None? && Smallest([SLOW, LOWER]) == LOWER
    ensures PointsOnGrid([SLOW, LOWER], 100)
  {
    assert SLOW in [SLOW, LOWER] && LOWER in [SLOW, LOWER];
    assert Unbracketed([SLOW, LOWER], SLO);
    UnbracketedPart([SLOW, LOWER], [SLOW, LOWER], SLO);
  }

  lemma NothingFollows(caps: Caps)
    ensures Following(NARROW, [SLOW_RUN, LOWER_RUN], [SLOW, LOWER], SLO, caps).None?
  {
    var runs, points := [SLOW_RUN, LOWER_RUN], [SLOW, LOWER];
    BothPoints();
    assert Quantum(NARROW) == 100 && LOWER in points;
    StepPositive(100, 100);
    hide Following, Bracket, LimitOf, Smallest, Largest;
    if Following(NARROW, runs, points, SLO, caps).Some? {
      FollowingFacts(NARROW, runs, points, SLO, caps);
      FollowingDirection(NARROW, runs, points, SLO, caps);
    }
  }

  // The plan of this store reports the SLO unreachable, although 200 passes.
  lemma LimitDropMisreports()
    ensures OnGrid(NARROW_SEARCH.first, NARROW_SEARCH.Q())
    ensures IsPlan(NARROW_SEARCH, Settled([SLOW_RUN, LOWER_RUN], [SLOW, LOWER], SloUnreachable(100)))
    ensures SomePasses([SLOW, LOWER], SLO) && Undercut(NARROW_SEARCH, [SLOW_RUN, LOWER_RUN], 1)
  {
    hide Ask, Refined, FinalOutcome, Replay, PointsOf, Following, OutcomeOf, LimitDropped, Quantum, VerdictAt,
      Refinement, Undercut;
    var runs, points := [SLOW_RUN, LOWER_RUN], [SLOW, LOWER];
    BothRuns();
    NarrowQuantum();
    NarrowSettles();
    assert runs[1] == LOWER_RUN;
    assert SLOW in points && Within(SLOW, SLO);
    NarrowUndercut();
  }

  lemma NarrowSettles()
    requires Recorded(NARROW_ROWS, [SLOW_RUN, LOWER_RUN])
             && PointsOf(NARROW_ROWS, [SLOW_RUN, LOWER_RUN]) == [SLOW, LOWER]
    requires !Refined(NARROW_SEARCH, [SLOW_RUN, LOWER_RUN])
    ensures Ask(NARROW_SEARCH, [SLOW_RUN, LOWER_RUN]).None?
    ensures FinalOutcome(NARROW_SEARCH, [SLOW_RUN, LOWER_RUN]) == SloUnreachable(100)
  {
    hide Ask, Refined, FinalOutcome, PointsOf, Following, OutcomeOf;
    NothingFollows(NARROW_SEARCH.caps);
    UnreachableOutcome(NARROW_SEARCH.caps);
    AskUnfolds(NARROW_SEARCH, [SLOW_RUN, LOWER_RUN]);
  }

  lemma NarrowUndercut()
    requires Recorded(NARROW_ROWS, [SLOW_RUN, LOWER_RUN])
    ensures Undercut(NARROW_SEARCH, [SLOW_RUN, LOWER_RUN], 1)
  {
    hide PointsOf, LimitDropped, Replay, Ask, Refined, Refines;
    SlowAlone();
    var runs := [SLOW_RUN, LOWER_RUN];
    assert runs[..1] == [SLOW_RUN] && runs[1] == LOWER_RUN;
  }

  lemma NarrowQuantum()
    ensures Quantum(NARROW) == 100
  {}

  lemma UnreachableOutcome(caps: Caps)
    ensures Functional([SLOW, LOWER])
    ensures OutcomeOf(NARROW, [SLOW_RUN, LOWER_RUN], [SLOW, LOWER], SLO, caps) == SloUnreachable(100)
  {
    BothPoints();
    assert LOWER in [SLOW, LOWER] && Quantum(NARROW) == 100;
    hide Bracket, LimitOf, Smallest, Quantum;
  }
}
