// A replay whose third batch lies on the secant through its two passing points.
module WorkedSteps {
  import opened Prelude
  import opened NativeSearch
  import opened NativeBounds
  import opened SearchAim
  import opened NativePlan
  import opened WorkedStores

  const CLIMBING := Entry(10, 1, 1, 450, 1000, 10.0, 0.2)
  const CLIMB_ROWS: map<int, Row> := map[220 := MeasuredRow(54.0, 54.0), 450 := MeasuredRow(77.0, 77.0)]

  const RUN_220 := MeasuredRun(220, 54.0)
  const RUN_450 := MeasuredRun(450, 77.0)
  const P_220 := MeasuredPoint(220, 54.0, 54.0)
  const P_450 := MeasuredPoint(450, 77.0, 77.0)

  // The bypass line reaches the SLO at 450.
  lemma SecondAsked(caps: Caps)
    ensures Following(CLIMBING, [RUN_220], [P_220], SLO, caps) == Some(450)
  {
    AimedFromOne(CLIMBING, P_220, 450.0);
    AimedFromOne(CLIMBING, P_220, 460.0);
    OneFollowed(CLIMBING, P_220, RUN_220, caps, 450);
  }

  // The secant through (220, 54) and (450, 77) reaches it at 680.
  lemma SecantAim()
    ensures Target(CLIMBING, [P_220, P_450], SLO) == 680.0
  {
    var points := [P_220, P_450];
    assert points[0].batch != points[1].batch;
    AimExactly(CLIMBING, points, SLO);
    hide Target;
    var x := Target(CLIMBING, points, SLO);
    var p, r :| PairAims(points, SLO, p, r, x);
    assert p == P_220 && r == P_450;
    assert (x - 220.0) * 23.0 == 46.0 * 230.0;
  }

  lemma NoBracketWhenAllPass(points: seq<Point>)
    requires AllWithin(points, SLO)
    ensures Bracket(points, SLO).None?
  {}

  lemma ThirdAimed(limit: Option<int>)
    requires limit == Some(1000)
    ensures AimedBatch(CLIMBING, [RUN_220, RUN_450], [P_220, P_450], SLO, limit) == 680
  {
    SecantAim();
    NoTooBigRun([RUN_220, RUN_450]);
    RoundedIs(680.0, 680, 10);
    assert Quantum(CLIMBING) == 10;
    hide Target, Rounded, SmallestTooBig, Quantum;
  }

  lemma ThirdAsked(caps: Caps)
    ensures Following(CLIMBING, [RUN_220, RUN_450], [P_220, P_450], SLO, caps) == Some(680)
  {
    var runs, points := [RUN_220, RUN_450], [P_220, P_450];
    NoBracketWhenAllPass(points);
    CapacityLimit(CLIMBING, runs, points, caps);
    ThirdAimed(LimitOf(CLIMBING, runs, points, caps).at);
    NearestOfTwo();
    ThirdFresh(runs, points);
    assert Quantum(CLIMBING) == 10;
    hide AimedBatch, LimitOf, Bracket, Nearest, Quantum, Spaced, Tried, Rounded, FloorTo;
  }

  lemma ThirdFresh(runs: seq<Run>, points: seq<Point>)
    requires runs == [RUN_220, RUN_450] && points == [P_220, P_450]
    ensures !Tried(runs, 680) && Spaced(points, 680, 10)
  {}

  lemma NearestOfTwo()
    ensures Nearest([P_220, P_450], 680) == 450
  {
    assert [P_220, P_450][..1] == [P_220];
  }

  lemma FirstMeasured(s: Search)
    requires s.entry == CLIMBING && s.rows == CLIMB_ROWS && s.slo == SLO && s.first == 220 && s.pruner.NoPruner?
    ensures Recorded(s.rows, [RUN_220]) && PointsOf(s.rows, [RUN_220]) == [P_220]
    ensures Replay(s, [RUN_220]) && Ask(s, [RUN_220]) == Some(450)
  {
    MeasuredParts(220, 54.0, 54.0);
    Starts(s);
    Extends(s, [], 220);
    assert [] + [RUN_220] == [RUN_220] && [RUN_220][..0] == [];
    SecondAsked(s.caps);
    hide Following, Replay;
  }

  lemma BothMeasured(rows: map<int, Row>)
    requires rows == CLIMB_ROWS && Recorded(rows, [RUN_220]) && Recorded(rows, [RUN_220, RUN_450])
    requires PointsOf(rows, [RUN_220]) == [P_220]
    ensures PointsOf(rows, [RUN_220, RUN_450]) == [P_220, P_450]
  {
    MeasuredParts(450, 77.0, 77.0);
    assert [RUN_220, RUN_450][..1] == [RUN_220];
    assert [P_220] + [P_450] == [P_220, P_450];
  }

  // From the row at 220 it ran 450; from both it asks for 680.
  lemma SecantReplay(s: Search)
    requires s.entry == CLIMBING && s.rows == CLIMB_ROWS && s.slo == SLO && s.first == 220 && s.pruner.NoPruner?
    ensures IsPlan(s, Next(680, [RUN_220, RUN_450]))
  {
    hide Following, Replay, Ask, PointsOf, OutcomeOf, Refinement, Refined, Refines, FinalOutcome;
    FirstMeasured(s);
    MeasuredParts(450, 77.0, 77.0);
    Extends(s, [RUN_220], 450);
    var runs := [RUN_220, RUN_450];
    assert [RUN_220] + [RUN_450] == runs;
    BothMeasured(s.rows);
    ThirdAsked(s.caps);
    AskUnfolds(s, runs);
    assert runs[1] == RUN_450;
  }
}
