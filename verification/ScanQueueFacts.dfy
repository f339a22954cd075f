// Safety and progress of the scan queue over every run.
module ScanQueueFacts {
  import opened Prelude
  import opened ScanQueue

  // ----- Conservation

  function PointIds(points: seq<ScanPoint>): multiset<Id> {
    if points == [] then multiset{} else PointIds(points[..|points| - 1]) + multiset{points[|points| - 1].id}
  }

  function WorkerIds(workers: seq<Worker>): multiset<Id> {
    if workers == [] then multiset{}
    else WorkerIds(workers[..|workers| - 1]) + multiset{workers[|workers| - 1].point.id}
  }

  // The identifiers the counted statuses account for: an interrupted row is not counted.
  function CountedIds(finished: seq<Saved>): multiset<Id> {
    if finished == [] then multiset{}
    else
      var last := finished[|finished| - 1];
      CountedIds(finished[..|finished| - 1]) + (if last.status.Interrupted? then multiset{} else multiset{last.id})
  }

  function Holdings(s: State): multiset<Id> { PointIds(s.pending) + WorkerIds(s.running) + CountedIds(s.finished) }

  lemma {:induction false} PointIdsConcat(a: seq<ScanPoint>, b: seq<ScanPoint>)
    ensures PointIds(a + b) == PointIds(a) + PointIds(b)
  {
    if b == [] {
      assert a + b == a;
    } else {
      assert (a + b)[..|a + b| - 1] == a + b[..|b| - 1];
      PointIdsConcat(a, b[..|b| - 1]);
    }
  }

  lemma {:induction false} CountedIdsConcat(a: seq<Saved>, b: seq<Saved>)
    ensures CountedIds(a + b) == CountedIds(a) + CountedIds(b)
  {
    if b == [] {
      assert a + b == a;
    } else {
      assert (a + b)[..|a + b| - 1] == a + b[..|b| - 1];
      CountedIdsConcat(a, b[..|b| - 1]);
    }
  }

  lemma OnePoint(p: ScanPoint)
    ensures PointIds([p]) == multiset{p.id}
  {
    assert [p][..0] == [];
  }

  lemma OneMore(points: seq<ScanPoint>, workers: seq<Worker>, finished: seq<Saved>, p: ScanPoint, w: Worker, row: Saved)
    ensures PointIds([p] + points) == multiset{p.id} + PointIds(points)
    ensures PointIds(points + [p]) == PointIds(points) + multiset{p.id}
    ensures WorkerIds(workers + [w]) == WorkerIds(workers) + multiset{w.point.id}
    ensures CountedIds(finished + [row])
         == CountedIds(finished) + (if row.status.Interrupted? then multiset{} else multiset{row.id})
  {
    PointIdsConcat([p], points);
    OnePoint(p);
    assert (points + [p])[..|points|] == points;
    assert (workers + [w])[..|workers|] == workers;
    assert (finished + [row])[..|finished|] == finished;
  }

  // Taking a point out of the queue for a worker moves its identifier.
  lemma LaunchMoves(pending: seq<ScanPoint>, running: seq<Worker>, i: nat)
    requires i < |pending|
    ensures PointIds(pending[..i] + pending[i + 1..]) + WorkerIds(running + [Worker(pending[i], false)])
         == PointIds(pending) + WorkerIds(running)
  {
    assert pending == pending[..i] + [pending[i]] + pending[i + 1..];
    PointIdsConcat(pending[..i] + [pending[i]], pending[i + 1..]);
    PointIdsConcat(pending[..i], [pending[i]]);
    PointIdsConcat(pending[..i], pending[i + 1..]);
    OnePoint(pending[i]);
    var longer := running + [Worker(pending[i], false)];
    assert longer[..|longer| - 1] == running;
  }

  lemma {:induction false} LaunchConserves(cfg: Config, retryPhase: bool, s: State)
    ensures Holdings(Launched(cfg, retryPhase, s)) == Holdings(s)
    decreases |s.pending|
  {
    if s.pending != [] && |s.running| < cfg.workers && !cfg.pauseAfterCurrent {
      var index := FirstEligible(cfg, retryPhase, s.running, s.pending);
      if index.Some? {
        var i := index.value;
        LaunchMoves(s.pending, s.running, i);
        var next := s.(pending := s.pending[..i] + s.pending[i + 1..], running := s.running
                       + [Worker(s.pending[i], false)]);
        LaunchConserves(cfg, retryPhase, next);
      }
    }
  }

  // Every collected worker is counted or, when interrupted, back in the queue.
  lemma {:induction false} CollectMoves(workers: seq<Worker>, exits: map<Id, Option<Saved>>)
    ensures PointIds(Returned(workers, exits)) + WorkerIds(Survivors(workers, exits))
              + CountedIds(Arrivals(workers, exits))
         == WorkerIds(workers)
  {
    hide PointIds, CountedIds, WorkerIds;
    if workers != [] {
      var init, w := workers[..|workers| - 1], workers[|workers| - 1];
      assert workers == init + [w];
      CollectMoves(init, exits);
      var row := if Exited(w, exits) then RowOf(w, exits) else Saved(w.point.id, Failed, false);
      OneMore(Returned(init, exits), Survivors(init, exits), Arrivals(init, exits), w.point, w, row);
      OneMore([], init, [], w.point, w, row);
    } else {
      NothingHeld();
    }
  }

  lemma NothingHeld()
    ensures PointIds([]) == multiset{} && WorkerIds([]) == multiset{} && CountedIds([]) == multiset{}
  {}

  lemma CollectConserves(s: State, exits: map<Id, Option<Saved>>)
    ensures Holdings(Collected(s, exits)) == Holdings(s)
  {
    CollectMoves(s.running, exits);
    PointIdsConcat(Returned(s.running, exits), s.pending);
    CountedIdsConcat(s.finished, Arrivals(s.running, exits));
  }

  lemma JudgingHolds(cfg: Config, s: State)
    ensures Holdings(Judged(cfg, s)) == Holdings(s)
  {
    hide GroupRefused;
  }

  lemma IterateConserves(cfg: Config, s: State, tick: Tick)
    ensures Holdings(Iterated(cfg, s, tick)) == Holdings(s)
  {
    var launched := Launched(cfg, RetryPhase(cfg, s.finished), s);
    LaunchConserves(cfg, RetryPhase(cfg, s.finished), s);
    CollectConserves(launched, tick.exits);
    JudgingHolds(cfg, Collected(launched, tick.exits));
    hide Launched, Collected, Judged, RetryPhase, PointIds, WorkerIds, CountedIds;
  }

  // No point is lost or duplicated over any run: pending, running and counted
  // results always hold exactly the same identifiers.
  lemma {:induction false} RunConserves(cfg: Config, s: State, ticks: seq<Tick>)
    ensures Holdings(Ran(cfg, s, ticks)) == Holdings(s)
    decreases |ticks|
  {
    if !Ended(s) && ticks != [] {
      IterateConserves(cfg, s, ticks[0]);
      RunConserves(cfg, Iterated(cfg, s, ticks[0]), ticks[1..]);
    }
  }

  lemma {:induction false} DrainMoves(workers: seq<Worker>, exits: map<Id, Option<Saved>>)
    ensures PointIds(Dropped(workers, exits)) + WorkerIds(Survivors(workers, exits))
              + CountedIds(KeptRows(workers, exits))
         == WorkerIds(workers)
  {
    hide PointIds, CountedIds, WorkerIds;
    if workers != [] {
      var init, w := workers[..|workers| - 1], workers[|workers| - 1];
      assert workers == init + [w];
      DrainMoves(init, exits);
      var row := if Exited(w, exits) then RowOf(w, exits) else Saved(w.point.id, Failed, false);
      OneMore(Dropped(init, exits), Survivors(init, exits), KeptRows(init, exits), w.point, w, row);
      OneMore([], init, [], w.point, w, row);
    } else {
      NothingHeld();
    }
  }

  lemma DrainConserves(s: State, exits: map<Id, Option<Saved>>)
    ensures Holdings(Drained(s, exits)) == Holdings(s)
  {
    DrainMoves(s.running, exits);
    PointIdsConcat(s.pending, Dropped(s.running, exits));
    CountedIdsConcat(s.finished, KeptRows(s.running, exits));
  }

  // ----- The counts of the status file

  lemma {:induction false} CountsAreCounted(finished: seq<Saved>)
    ensures var c := QueueCounts(finished);
            && c.completed + c.capacityRejected + c.forecastRejected + c.failed + c.cancelled == |CountedIds(finished)|
            && c.forecastCompleted <= c.completed
  {
    if finished != [] {
      CountsAreCounted(finished[..|finished| - 1]);
    }
  }

  lemma {:induction false} IdCounts(points: seq<ScanPoint>, workers: seq<Worker>)
    ensures |PointIds(points)| == |points| && |WorkerIds(workers)| == |workers|
    decreases |points| + |workers|
  {
    if points != [] { IdCounts(points[..|points| - 1], workers); }
    if workers != [] { IdCounts(points, workers[..|workers| - 1]); }
  }

  // The numbers of one status write.
  function StatusTotal(s: State): nat {
    var c := QueueCounts(s.finished);
    c.completed + c.capacityRejected + c.forecastRejected + c.failed + c.cancelled + |s.pending| + |s.running|
  }

  // At every status write of a run, and after the drain, the counts add up to the manifest.
  lemma StatusAddsUp(cfg: Config, s: State, ticks: seq<Tick>, exits: map<Id, Option<Saved>>, manifest: seq<ScanPoint>)
    requires Holdings(s) == PointIds(manifest)
    ensures StatusTotal(Ran(cfg, s, ticks)) == |manifest|
    ensures StatusTotal(Drained(Ran(cfg, s, ticks), exits)) == |manifest|
  {
    var live := Ran(cfg, s, ticks);
    var drained := Drained(live, exits);
    RunConserves(cfg, s, ticks);
    DrainConserves(live, exits);
    IdCounts(manifest, []);
    IdCounts(live.pending, live.running);
    IdCounts(drained.pending, drained.running);
    CountsAreCounted(live.finished);
    CountsAreCounted(drained.finished);
  }

  // ----- Workers

  // A worker this manager launched shares its architecture with no other worker.
  predicate Exclusive(running: seq<Worker>) {
    forall i, j :: 0 <= i < j < |running| && (!running[i].adopted || !running[j].adopted) ==>
      running[i].point.architecture != running[j].point.architecture
  }

  predicate WorkersSafe(cfg: Config, s: State) { |s.running| <= cfg.workers && Exclusive(s.running) }

  lemma {:induction false} LaunchSafe(cfg: Config, retryPhase: bool, s: State)
    requires WorkersSafe(cfg, s)
    ensures WorkersSafe(cfg, Launched(cfg, retryPhase, s))
    decreases |s.pending|
  {
    if s.pending != [] && |s.running| < cfg.workers && !cfg.pauseAfterCurrent {
      var index := FirstEligible(cfg, retryPhase, s.running, s.pending);
      if index.Some? {
        var p := s.pending[index.value];
        LaunchSafe(cfg, retryPhase, s.(pending := s.pending[..index.value] + s.pending[index.value + 1..],
                                       running := s.running + [Worker(p, false)]));
      }
    }
  }

  // The survivors keep their relative order: each position comes from an increasing position before.
  lemma {:induction false} SurvivorsInOrder(workers: seq<Worker>, exits: map<Id, Option<Saved>>)
    ensures |Survivors(workers, exits)| <= |workers|
    ensures Exclusive(workers) ==> Exclusive(Survivors(workers, exits))
    ensures forall k :: 0 <= k < |Survivors(workers, exits)| ==> Survivors(workers, exits)[k] in workers
  {
    if workers != [] {
      var init, w := workers[..|workers| - 1], workers[|workers| - 1];
      SurvivorsInOrder(init, exits);
      if Exclusive(workers) {
        forall k | 0 <= k < |Survivors(init, exits)| && (!Survivors(init, exits)[k].adopted || !w.adopted)
          ensures Survivors(init, exits)[k].point.architecture != w.point.architecture
        {
          var j :| 0 <= j < |init| && init[j] == Survivors(init, exits)[k];
          assert workers[j] == init[j];
        }
      }
    }
  }

  lemma {:induction false} RunSafe(cfg: Config, s: State, ticks: seq<Tick>)
    requires WorkersSafe(cfg, s)
    ensures WorkersSafe(cfg, Ran(cfg, s, ticks))
    decreases |ticks|
  {
    if !Ended(s) && ticks != [] {
      var tick := ticks[0];
      if !tick.stopRequested {
        LaunchSafe(cfg, RetryPhase(cfg, s.finished), s);
        SurvivorsInOrder(Launched(cfg, RetryPhase(cfg, s.finished), s).running, tick.exits);
      }
      RunSafe(cfg, Iterated(cfg, s, tick), ticks[1..]);
    }
  }
}
