// What the queue does with each saved row, spelled out on the rows' statuses.
module ScanQueueRows {
  import opened Prelude
  import opened ScanQueue
  import opened ScanQueueFacts
  import opened ScanQueueProgress

  // ----- The retry group's verdict

  // Every retry point has a row, and some row of one was not a completed
  // forecast with an accepted paired budget decision.
  predicate Unaccepted(retry: seq<Id>, finished: seq<Saved>) {
    && (forall id :: id in retry ==> exists row :: row in finished && row.id == id)
    && exists row :: row in finished && row.id in retry && (row.status != ForecastCompleted || !row.budgetAccepted)
  }

  lemma {:induction false} OnlyRow(finished: seq<Saved>, row: Saved)
    requires Uninterrupted(finished) && row in finished && CountedIds(finished)[row.id] <= 1
    ensures HasRow(finished, row.id) && LastRow(finished, row.id) == row
  {
    var n := |finished| - 1;
    var init, last := finished[..n], finished[n];
    var k :| 0 <= k <= n && finished[k] == row;
    if last.id == row.id {
      if k < n {
        assert init[k] == row;
        RowIsCounted(init, row.id);
        assert false;
      }
    } else {
      assert init[k] == row;
      OnlyRow(init, row);
    }
  }

  lemma RefusedByRows(cfg: Config, finished: seq<Saved>)
    requires GroupRefused(cfg, finished)
    ensures Unaccepted(cfg.retry, finished)
  {
    forall id | id in cfg.retry ensures exists row :: row in finished && row.id == id {
      var k :| 0 <= k < |cfg.retry| && cfg.retry[k] == id;
      assert LastRow(finished, id) in finished;
    }
    var k :| 0 <= k < |cfg.retry| && HasRow(finished, cfg.retry[k])
             && !(LastRow(finished, cfg.retry[k]).status.ForecastCompleted?
                  && LastRow(finished, cfg.retry[k]).budgetAccepted);
    assert LastRow(finished, cfg.retry[k]) in finished;
  }

  lemma RowsRefuse(cfg: Config, s: State)
    requires Uninterrupted(s.finished) && HeldOnce(s) && Unaccepted(cfg.retry, s.finished)
    ensures GroupRefused(cfg, s.finished)
  {
    hide CountedIds, Uninterrupted, PointIds, WorkerIds;
    forall k | 0 <= k < |cfg.retry| ensures HasRow(s.finished, cfg.retry[k]) {
      assert cfg.retry[k] in cfg.retry;
      var row :| row in s.finished && row.id == cfg.retry[k];
      var j :| 0 <= j < |s.finished| && s.finished[j] == row;
    }
    var row :| row in s.finished && row.id in cfg.retry && (row.status != ForecastCompleted || !row.budgetAccepted);
    assert Holdings(s)[row.id] >= CountedIds(s.finished)[row.id];
    OnlyRow(s.finished, row);
    var k :| 0 <= k < |cfg.retry| && cfg.retry[k] == row.id;
    assert LastRow(s.finished, cfg.retry[k]) == row;
  }

  lemma {:induction false} StopIsFromExit(workers: seq<Worker>, exits: map<Id, Option<Saved>>)
    ensures StopAfter(workers, exits, None) in {None, Some(PointFailed), Some(WorkerInterrupted)}
  {
    if workers != [] { StopIsFromExit(workers[..|workers| - 1], exits); }
  }

  lemma IterationJudges(cfg: Config, s: State, tick: Tick)
    requires s.stop.None?
    ensures var now := Iterated(cfg, s, tick);
            && (now.stop == Some(RetryGroupNotAccepted) ==> GroupRefused(cfg, now.finished))
            && (now.stop.None? ==> !GroupRefused(cfg, now.finished))
  {
    hide GroupRefused, StopAfter, RetryPhase;
    LaunchKeepsFinished(cfg, RetryPhase(cfg, s.finished), s);
    StopIsFromExit(Launched(cfg, RetryPhase(cfg, s.finished), s).running, tick.exits);
  }

  lemma {:induction false} RunJudges(cfg: Config, s: State, ticks: seq<Tick>)
    requires !Ended(s) && ticks != []
    ensures var now := Ran(cfg, s, ticks);
            && (now.stop == Some(RetryGroupNotAccepted) ==> GroupRefused(cfg, now.finished))
            && (now.stop.None? ==> !GroupRefused(cfg, now.finished))
    decreases |ticks|
  {
    var next := Iterated(cfg, s, ticks[0]);
    IterationJudges(cfg, s, ticks[0]);
    if !Ended(next) && ticks[1..] != [] { RunJudges(cfg, next, ticks[1..]); }
    hide Iterated, GroupRefused;
  }

  // Once every retry point has a row and one of them is not accepted, a run that
  // took an iteration has stopped and starts nothing more; it gives that reason
  // only then.
  lemma RefusalStops(cfg: Config, s: State, ticks: seq<Tick>)
    requires Uninterrupted(s.finished) && HeldOnce(s) && !Ended(s) && ticks != []
    ensures var now := Ran(cfg, s, ticks);
            && (Unaccepted(cfg.retry, now.finished) ==> now.stop.Some?)
            && (now.stop.Some? ==> forall more :: Ran(cfg, now, more) == now)
            && (now.stop == Some(RetryGroupNotAccepted) ==> Unaccepted(cfg.retry, now.finished))
  {
    var now := Ran(cfg, s, ticks);
    RunJudges(cfg, s, ticks);
    if now.stop == Some(RetryGroupNotAccepted) { RefusedByRows(cfg, now.finished); }
    if Unaccepted(cfg.retry, now.finished) && now.stop.None? {
      RunUninterrupted(cfg, s, ticks);
      RunConserves(cfg, s, ticks);
      RowsRefuse(cfg, now);
      assert false;
    }
    hide Unaccepted, GroupRefused, HeldOnce, Uninterrupted;
  }

  // ----- What an exit leaves

  lemma {:induction false} ExitLeaves(workers: seq<Worker>, exits: map<Id, Option<Saved>>, stop: Option<StopReason>,
                                      w: Worker)
    requires w in workers
    ensures w.point.id !in exits ==> w in Survivors(workers, exits)
    ensures w.point.id in exits && exits[w.point.id].None? ==>
              && (exists row :: row in Arrivals(workers, exits) && row.id == w.point.id && row.status == Failed)
              && StopAfter(workers, exits, stop).Some?
    ensures w.point.id in exits && exits[w.point.id].Some? ==>
              var saved := exits[w.point.id].value;
              && saved.(id := w.point.id) in Arrivals(workers, exits)
              && (saved.status in {Failed, Interrupted} ==> StopAfter(workers, exits, stop).Some?)
              && (saved.status == Interrupted ==> w.point in Returned(workers, exits))
  {
    var init, last := workers[..|workers| - 1], workers[|workers| - 1];
    var rest := Arrivals(init, exits);
    if w in init {
      ExitLeaves(init, exits, stop, w);
    } else {
      assert w == last;
      if Exited(w, exits) { assert (rest + [RowOf(w, exits)])[|rest|] == RowOf(w, exits); }
    }
  }

  // In one iteration every worker among those running after the launches that
  // exits leaves its saved row, or a failed one without a result; a failed or
  // interrupted one stops the queue, and an interrupted point is pending again,
  // in front. The others run on.
  lemma ExitsCount(cfg: Config, s: State, tick: Tick, w: Worker)
    requires !tick.stopRequested && w in Launched(cfg, RetryPhase(cfg, s.finished), s).running
    ensures var now, id := Iterated(cfg, s, tick), w.point.id;
            && (id !in tick.exits ==> w in now.running)
            && (id in tick.exits && tick.exits[id].None? ==>
                  (exists row :: row in now.finished && row.id == id && row.status == Failed) && now.stop.Some?)
            && (id in tick.exits && tick.exits[id].Some? ==>
                  var saved := tick.exits[id].value;
                  && saved.(id := id) in now.finished
                  && (saved.status in {Failed, Interrupted} ==> now.stop.Some?)
                  && (saved.status == Interrupted ==>
                      exists front ::
                        w.point in front && now.pending == front
                          + Launched(cfg, RetryPhase(cfg, s.finished), s).pending))
  {
    hide GroupRefused, Launched, RetryPhase, StopAfter, Survivors, Arrivals, Returned;
    var l := Launched(cfg, RetryPhase(cfg, s.finished), s);
    ExitLeaves(l.running, tick.exits, l.stop, w);
    var collected := Collected(l, tick.exits);
    assert collected.pending == Returned(l.running, tick.exits) + l.pending;
  }

  // The exited workers that failed, with or without a result, and that were interrupted.
  predicate SomeExit(workers: seq<Worker>, exits: map<Id, Option<Saved>>, status: Status) {
    exists w :: w in workers && w.point.id in exits
                && (if exits[w.point.id].Some? then exits[w.point.id].value.status == status else status == Failed)
  }

  lemma {:induction false} StopNames(workers: seq<Worker>, exits: map<Id, Option<Saved>>)
    ensures StopAfter(workers, exits, None) == Some(PointFailed) ==> SomeExit(workers, exits, Failed)
    ensures StopAfter(workers, exits, None) == Some(WorkerInterrupted) ==> SomeExit(workers, exits, Interrupted)
  {
    if workers != [] {
      var init, w := workers[..|workers| - 1], workers[|workers| - 1];
      assert workers == init + [w];
      StopNames(init, exits);
    }
  }

  // A stop reason is given only for what it names.
  lemma StopReasons(cfg: Config, s: State, tick: Tick)
    requires s.stop.None?
    ensures var now, l := Iterated(cfg, s, tick), Launched(cfg, RetryPhase(cfg, s.finished), s);
            && (now.stop == Some(StopRequested) <==> tick.stopRequested)
            && (now.stop == Some(PointFailed) ==> SomeExit(l.running, tick.exits, Failed))
            && (now.stop == Some(WorkerInterrupted) ==> SomeExit(l.running, tick.exits, Interrupted))
            && (now.stop == Some(ConfigurationBoundary) ==> cfg.pauseAfterCurrent && now.running == [])
  {
    hide GroupRefused, StopAfter, RetryPhase, SomeExit, Launched;
    LaunchKeepsFinished(cfg, RetryPhase(cfg, s.finished), s);
    var l := Launched(cfg, RetryPhase(cfg, s.finished), s);
    StopNames(l.running, tick.exits);
    StopIsFromExit(l.running, tick.exits);
  }

  // A launch leaves no free place that a pending point could take.
  lemma {:induction false} LaunchFills(cfg: Config, retryPhase: bool, s: State)
    ensures var l := Launched(cfg, retryPhase, s);
            || cfg.pauseAfterCurrent || |l.running| >= cfg.workers
            || forall p :: p in l.pending ==>
                 (exists w :: w in l.running && w.point.architecture == p.architecture)
                 || (retryPhase && p.id !in cfg.retry)
    decreases |s.pending|
  {
    if s.pending != [] && |s.running| < cfg.workers && !cfg.pauseAfterCurrent {
      var index := FirstEligible(cfg, retryPhase, s.running, s.pending);
      if index.Some? {
        var p := s.pending[index.value];
        LaunchFills(cfg, retryPhase, s.(pending := s.pending[..index.value] + s.pending[index.value + 1..],
                                        running := s.running + [Worker(p, false)]));
      } else {
        forall p | p in s.pending && !(retryPhase && p.id !in cfg.retry)
          ensures exists w :: w in s.running && w.point.architecture == p.architecture
        {
          var k :| 0 <= k < |s.pending| && s.pending[k] == p;
          assert !Eligible(cfg, retryPhase, s.running, s.pending[k]);
          var j :| 0 <= j < |s.running| && s.running[j].point.architecture == p.architecture;
          assert s.running[j] in s.running;
        }
      }
    }
  }

  // After the loop every worker that exited is counted when its result is one
  // that is kept, and its point is pending otherwise; the others still run.
  lemma {:induction false} DrainLeaves(workers: seq<Worker>, exits: map<Id, Option<Saved>>, w: Worker)
    requires w in workers
    ensures w.point.id !in exits ==> w in Survivors(workers, exits)
    ensures w.point.id in exits ==>
              var saved := exits[w.point.id];
              if saved.Some? && saved.value.status in {Completed, ForecastCompleted, CapacityRejected, ForecastRejected,
                                                       Failed}
              then saved.value.(id := w.point.id) in KeptRows(workers, exits)
              else w.point in Dropped(workers, exits)
  {
    var init, last := workers[..|workers| - 1], workers[|workers| - 1];
    if w in init {
      DrainLeaves(init, exits, w);
    } else {
      assert w == last;
      var rows, points := KeptRows(init, exits), Dropped(init, exits);
      if Keepable(w, exits) {
        assert (rows + [RowOf(w, exits)])[|rows|] == RowOf(w, exits);
      } else if Exited(w, exits) {
        assert (points + [w.point])[|points|] == w.point;
      }
    }
  }

  lemma ExitsDrain(s: State, exits: map<Id, Option<Saved>>, w: Worker)
    requires w in s.running
    ensures var now := Drained(s, exits);
            && (w.point.id !in exits ==> w in now.running)
            && (w.point.id in exits ==>
                  var saved := exits[w.point.id];
                  if saved.Some? && saved.value.status in {Completed, ForecastCompleted, CapacityRejected,
                                                           ForecastRejected, Failed}
                  then saved.value.(id := w.point.id) in now.finished
                  else w.point in now.pending)
  {
    DrainLeaves(s.running, exits, w);
    hide KeptRows, Dropped, Survivors;
  }

  // ----- The counts by status

  function Statuses(finished: seq<Saved>): multiset<Status> {
    if finished == [] then multiset{}
    else Statuses(finished[..|finished| - 1]) + multiset{finished[|finished| - 1].status}
  }

  // Each count of the status file is the number of rows with its status.
  lemma {:induction false} CountsByStatus(finished: seq<Saved>)
    ensures var c, of := QueueCounts(finished), Statuses(finished);
            && c.completed == of[Completed] + of[ForecastCompleted] && c.forecastCompleted == of[ForecastCompleted]
            && c.capacityRejected == of[CapacityRejected] && c.forecastRejected == of[ForecastRejected]
            && c.failed == of[Failed] && c.cancelled == of[Cancelled]
  {
    if finished != [] { CountsByStatus(finished[..|finished| - 1]); }
  }

  // ----- Loading

  // A saved result that still stands: a refused forecast selected for retry is archived.
  predicate Stands(cfg: Config, start: Start, p: ScanPoint) {
    p.id in start.saved && (start.saved[p.id].status != ForecastRejected || p.id !in cfg.retry)
  }

  predicate Fails(cfg: Config, start: Start, p: ScanPoint) {
    && p.id !in start.cancellations && (forall w :: w in start.adopted ==> w.point.id != p.id)
    && Stands(cfg, start, p) && start.saved[p.id].status == Failed
  }

  lemma AdoptedBy(start: Start, id: Id)
    ensures IsAdopted(start, id) <==> exists w :: w in start.adopted && w.point.id == id
  {
    if IsAdopted(start, id) {
      var k :| 0 <= k < |start.adopted| && start.adopted[k].point.id == id;
      assert start.adopted[k] in start.adopted;
    }
    if w :| w in start.adopted && w.point.id == id {
      var k :| 0 <= k < |start.adopted| && start.adopted[k] == w;
    }
  }

  lemma {:induction false} LoadRefuses(cfg: Config, start: Start, n: nat)
    requires n <= |start.manifest|
    ensures Loaded(cfg, start, n).None? <==>
              !start.retryFailed && exists k :: 0 <= k < n && Fails(cfg, start, start.manifest[k])
  {
    if n > 0 {
      LoadRefuses(cfg, start, n - 1);
      AdoptedBy(start, start.manifest[n - 1].id);
      LoadStepRefuses(cfg, start, start.manifest[n - 1]);
      hide Fails, Uncorrected, StillSaved, IsAdopted;
    }
  }

  lemma LoadStepRefuses(cfg: Config, start: Start, p: ScanPoint)
    ensures Uncorrected(cfg, start, p) <==> !start.retryFailed && Fails(cfg, start, p)
  {
    AdoptedBy(start, p.id);
    hide IsAdopted;
  }

  // Where a loaded point goes: a cancelled or standing result is counted, an
  // adopted worker keeps its own, and everything else is pending.
  predicate PlacedIn(cfg: Config, start: Start, p: ScanPoint, pending: seq<ScanPoint>, finished: seq<Saved>) {
    if p.id in start.cancellations then start.cancellations[p.id].(id := p.id, status := Cancelled) in finished
    else if exists w :: w in start.adopted && w.point.id == p.id then true
    else if Stands(cfg, start, p)
            && start.saved[p.id].status in {Completed, ForecastCompleted, CapacityRejected, ForecastRejected}
    then start.saved[p.id].(id := p.id) in finished
    else p in pending
  }

  lemma {:induction false} LoadPlaces(cfg: Config, start: Start, n: nat, p: ScanPoint)
    requires n <= |start.manifest| && p in start.manifest[..n] && Loaded(cfg, start, n).Some?
    ensures PlacedIn(cfg, start, p, Loaded(cfg, start, n).value.0, Loaded(cfg, start, n).value.1)
  {
    var last := start.manifest[n - 1];
    var (pending, finished) := Loaded(cfg, start, n - 1).value;
    AdoptedBy(start, last.id);
    assert start.manifest[..n] == start.manifest[..n - 1] + [last];
    if p in start.manifest[..n - 1] {
      LoadPlaces(cfg, start, n - 1, p);
      hide StillSaved, IsAdopted, Uncorrected, Stands;
    } else {
      assert (pending + [last])[|pending|] == last;
    }
  }

  // A start is refused exactly when a failed result stands without --retry-failed;
  // otherwise the queue holds every point where it belongs.
  lemma StartPlaces(cfg: Config, start: Start)
    ensures InitialState(cfg, start).None? <==>
              !start.retryFailed && exists k :: 0 <= k < |start.manifest| && Fails(cfg, start, start.manifest[k])
    ensures InitialState(cfg, start).Some? ==>
              var s := InitialState(cfg, start).value;
              && s.running == start.adopted
              && forall p :: p in start.manifest ==> PlacedIn(cfg, start, p, s.pending, s.finished)
  {
    var n := |start.manifest|;
    LoadRefuses(cfg, start, n);
    assert start.manifest[..n] == start.manifest;
    if InitialState(cfg, start).Some? {
      var s, loaded := InitialState(cfg, start).value, Loaded(cfg, start, n).value;
      PrioritizedKeeps(cfg.retry, loaded.0);
      forall p | p in start.manifest ensures PlacedIn(cfg, start, p, s.pending, s.finished) {
        LoadPlaces(cfg, start, n, p);
        hide Loaded, Prioritized, Stands;
      }
    }
  }

  // The points of one priority, in order.
  function OfPriority(retry: seq<Id>, points: seq<ScanPoint>, k: nat): seq<ScanPoint> {
    if points == [] then []
    else
      var rest, last := OfPriority(retry, points[..|points| - 1], k), points[|points| - 1];
      if Priority(retry, last.id) == k then rest + [last] else rest
  }

  lemma OfPrioritySnoc(retry: seq<Id>, points: seq<ScanPoint>, p: ScanPoint, k: nat)
    ensures OfPriority(retry, points + [p], k)
         == OfPriority(retry, points, k) + if Priority(retry, p.id) == k then [p] else []
  {
    assert (points + [p])[..|points|] == points;
  }

  lemma {:induction false} PlaceStable(retry: seq<Id>, p: ScanPoint, sorted: seq<ScanPoint>, k: nat)
    requires InPriorityOrder(retry, sorted)
    ensures OfPriority(retry, Place(retry, p, sorted), k)
         == OfPriority(retry, sorted, k) + if Priority(retry, p.id) == k then [p] else []
  {
    hide Priority;
    if sorted == [] {
      OfPrioritySnoc(retry, [], p, k);
      assert [] + [p] == [p];
    } else {
      var n := |sorted| - 1;
      OfPrioritySnoc(retry, sorted, p, k);
      if Priority(retry, sorted[n].id) > Priority(retry, p.id) {
        PlaceStable(retry, p, sorted[..n], k);
        OfPrioritySnoc(retry, Place(retry, p, sorted[..n]), sorted[n], k);
      }
    }
  }

  // Points of equal priority, as all outside the retry group are, keep their order.
  lemma {:induction false} PrioritizedStable(retry: seq<Id>, points: seq<ScanPoint>, k: nat)
    ensures OfPriority(retry, Prioritized(retry, points), k) == OfPriority(retry, points, k)
  {
    if points != [] {
      var init, last := points[..|points| - 1], points[|points| - 1];
      PrioritizedStable(retry, init, k);
      PrioritizedOrders(retry, init);
      PlaceStable(retry, last, Prioritized(retry, init), k);
    }
  }

  lemma {:induction false} PlaceKeeps(retry: seq<Id>, p: ScanPoint, sorted: seq<ScanPoint>)
    ensures forall x :: x in Place(retry, p, sorted) <==> x in sorted || x == p
  {
    if sorted != [] {
      var init, last := sorted[..|sorted| - 1], sorted[|sorted| - 1];
      assert sorted == init + [last];
      PlaceKeeps(retry, p, init);
    }
  }

  lemma {:induction false} PrioritizedKeeps(retry: seq<Id>, points: seq<ScanPoint>)
    ensures forall x :: x in Prioritized(retry, points) <==> x in points
  {
    if points != [] {
      var init, last := points[..|points| - 1], points[|points| - 1];
      assert points == init + [last];
      PrioritizedKeeps(retry, init);
      PlaceKeeps(retry, last, Prioritized(retry, init));
    }
  }
}
