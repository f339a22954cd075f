// The queue never spins, ends when its workers do, and puts the retry group first.
module ScanQueueProgress {
  import opened Prelude
  import opened ScanQueue
  import opened ScanQueueFacts

  // ----- Progress

  lemma {:induction false} PendingHolds(points: seq<ScanPoint>, id: Id)
    requires id in PointIds(points)
    ensures exists k :: 0 <= k < |points| && points[k].id == id
  {
    var init := points[..|points| - 1];
    if id in PointIds(init) {
      PendingHolds(init, id);
      var k :| 0 <= k < |init| && init[k].id == id;
      assert points[k].id == id;
    }
  }

  lemma {:induction false} CountedHolds(finished: seq<Saved>, id: Id)
    requires id in CountedIds(finished)
    ensures HasRow(finished, id)
  {
    var init := finished[..|finished| - 1];
    if id in CountedIds(init) {
      CountedHolds(init, id);
      var k :| 0 <= k < |init| && init[k].id == id;
      assert finished[k].id == id;
    }
  }

  predicate RetryInManifest(cfg: Config, s: State) {
    forall k :: 0 <= k < |cfg.retry| ==> cfg.retry[k] in Holdings(s)
  }

  // With nothing running, some pending point may start: outside the retry
  // phase the first one, inside it one of the unfinished retry points.
  lemma IdleHasEligible(cfg: Config, s: State)
    requires RetryInManifest(cfg, s) && s.running == [] && s.pending != []
    ensures FirstEligible(cfg, RetryPhase(cfg, s.finished), s.running, s.pending).Some?
  {
    if RetryPhase(cfg, s.finished) {
      var k :| 0 <= k < |cfg.retry| && !HasRow(s.finished, cfg.retry[k]);
      var id := cfg.retry[k];
      assert WorkerIds(s.running) == multiset{};
      if id in CountedIds(s.finished) { CountedHolds(s.finished, id); }
      assert id in PointIds(s.pending);
      PendingHolds(s.pending, id);
      var j :| 0 <= j < |s.pending| && s.pending[j].id == id;
      assert Eligible(cfg, true, s.running, s.pending[j]);
    } else {
      assert Eligible(cfg, false, s.running, s.pending[0]);
    }
  }

  lemma {:induction false} LaunchedShape(cfg: Config, retryPhase: bool, s: State)
    ensures var l := Launched(cfg, retryPhase, s);
            && s.running <= l.running && l.finished == s.finished && l.stop == s.stop
            && |l.pending| + |l.running| == |s.pending| + |s.running|
            && (forall k :: |s.running| <= k < |l.running| ==>
                  !l.running[k].adopted && (retryPhase ==> l.running[k].point.id in cfg.retry))
            && (cfg.pauseAfterCurrent ==> l == s)
    decreases |s.pending|
  {
    if s.pending != [] && |s.running| < cfg.workers && !cfg.pauseAfterCurrent {
      var index := FirstEligible(cfg, retryPhase, s.running, s.pending);
      if index.Some? {
        var p := s.pending[index.value];
        LaunchedShape(cfg, retryPhase, s.(pending := s.pending[..index.value] + s.pending[index.value + 1..],
                                          running := s.running + [Worker(p, false)]));
      }
    }
  }

  // The loop never spins: with pending points, nothing running and no stop
  // reason, the next iteration starts a worker or stops.
  lemma NeverSpins(cfg: Config, s: State, tick: Tick)
    requires RetryInManifest(cfg, s) && s.stop.None? && s.running == [] && s.pending != []
    ensures |Launched(cfg, RetryPhase(cfg, s.finished), s).running| > 0 || Iterated(cfg, s, tick).stop.Some?
  {
    var phase := RetryPhase(cfg, s.finished);
    if !cfg.pauseAfterCurrent {
      IdleHasEligible(cfg, s);
      var i := FirstEligible(cfg, phase, s.running, s.pending).value;
      LaunchedShape(cfg, phase, s.(pending := s.pending[..i] + s.pending[i + 1..],
                                   running := s.running + [Worker(s.pending[i], false)]));
    }
  }

  // ----- Termination

  function ExitCount(workers: seq<Worker>, exits: map<Id, Option<Saved>>): nat {
    if workers == [] then 0
    else ExitCount(workers[..|workers| - 1], exits) + Bit(Exited(workers[|workers| - 1], exits))
  }

  // Every queued point may still be launched and exit; every worker may still exit.
  function Work(s: State): nat { 2 * |s.pending| + |s.running| }

  lemma {:induction false} CollectCounts(workers: seq<Worker>, exits: map<Id, Option<Saved>>, stop: Option<StopReason>)
    ensures |Survivors(workers, exits)| + ExitCount(workers, exits) == |workers|
    ensures Returned(workers, exits) != [] || stop.Some? ==> StopAfter(workers, exits, stop).Some?
  {
    if workers != [] {
      CollectCounts(workers[..|workers| - 1], exits, stop);
    }
  }

  lemma CollectedWork(s: State, exits: map<Id, Option<Saved>>)
    requires Collected(s, exits).stop.None?
    ensures Work(Collected(s, exits)) + ExitCount(s.running, exits) == Work(s)
  {
    CollectCounts(s.running, exits, s.stop);
  }

  // An iteration that does not stop takes exactly its launches and exits off the work.
  lemma IterationWork(cfg: Config, s: State, tick: Tick)
    requires Iterated(cfg, s, tick).stop.None?
    ensures var l := Launched(cfg, RetryPhase(cfg, s.finished), s);
            Work(Iterated(cfg, s, tick)) + (|l.running| - |s.running|) + ExitCount(l.running, tick.exits) == Work(s)
  {
    var l := Launched(cfg, RetryPhase(cfg, s.finished), s);
    LaunchedShape(cfg, RetryPhase(cfg, s.finished), s);
    JudgedKeepsRunning(cfg, Collected(l, tick.exits));
    CollectedWork(l, tick.exits);
  }

  lemma JudgedKeepsRunning(cfg: Config, s: State)
    ensures Judged(cfg, s).stop.None? ==> Judged(cfg, s) == s
  {
    hide GroupRefused;
  }

  // Every iteration finds an exited worker among those running after its launches, if any runs.
  predicate Lively(cfg: Config, s: State, ticks: seq<Tick>)
    decreases |ticks|
  {
    ticks == [] || Ended(s) ||
    var l := Launched(cfg, RetryPhase(cfg, s.finished), s);
    && (l.running != [] && !ticks[0].stopRequested ==> ExitCount(l.running, ticks[0].exits) > 0)
    && Lively(cfg, Iterated(cfg, s, ticks[0]), ticks[1..])
  }

  // If workers exit, the queue ends: within twice the pending points plus the running workers.
  lemma {:induction false} QueueEnds(cfg: Config, s: State, ticks: seq<Tick>)
    requires RetryInManifest(cfg, s) && Lively(cfg, s, ticks) && |ticks| > Work(s)
    ensures Ended(Ran(cfg, s, ticks))
    decreases |ticks|
  {
    if !Ended(s) {
      var next := Iterated(cfg, s, ticks[0]);
      IterateConserves(cfg, s, ticks[0]);
      if next.stop.None? {
        IterationWork(cfg, s, ticks[0]);
        LaunchedShape(cfg, RetryPhase(cfg, s.finished), s);
        if s.running == [] { NeverSpins(cfg, s, ticks[0]); }
        assert Work(next) < Work(s);
        QueueEnds(cfg, next, ticks[1..]);
      }
    }
  }

  // ----- Retry ordering

  // No finished row is an interrupted one, whose point would be pending again.
  predicate Uninterrupted(finished: seq<Saved>) {
    forall k :: 0 <= k < |finished| ==> !finished[k].status.Interrupted?
  }

  // Every identifier is held once.
  predicate HeldOnce(s: State) {
    forall id :: id in Holdings(s) ==> Holdings(s)[id] == 1
  }

  lemma {:induction false} UnstoppedArrivals(workers: seq<Worker>, exits: map<Id, Option<Saved>>,
                                             stop: Option<StopReason>)
    requires StopAfter(workers, exits, stop).None?
    ensures stop.None? && Uninterrupted(Arrivals(workers, exits))
  {
    if workers != [] { UnstoppedArrivals(workers[..|workers| - 1], exits, stop); }
  }

  lemma {:induction false} LaunchKeepsFinished(cfg: Config, retryPhase: bool, s: State)
    ensures Launched(cfg, retryPhase, s).finished == s.finished && Launched(cfg, retryPhase, s).stop == s.stop
    decreases |s.pending|
  {
    if s.pending != [] && |s.running| < cfg.workers && !cfg.pauseAfterCurrent {
      var index := FirstEligible(cfg, retryPhase, s.running, s.pending);
      if index.Some? {
        var i := index.value;
        LaunchKeepsFinished(cfg, retryPhase, s.(pending := s.pending[..i] + s.pending[i + 1..],
                                                running := s.running + [Worker(s.pending[i], false)]));
      }
    }
  }

  lemma UnstoppedIteration(cfg: Config, s: State, tick: Tick)
    requires Uninterrupted(s.finished) && Iterated(cfg, s, tick).stop.None?
    ensures Uninterrupted(Iterated(cfg, s, tick).finished)
  {
    var l := Launched(cfg, RetryPhase(cfg, s.finished), s);
    LaunchKeepsFinished(cfg, RetryPhase(cfg, s.finished), s);
    JudgedKeepsRunning(cfg, Collected(l, tick.exits));
    UnstoppedArrivals(l.running, tick.exits, l.stop);
  }

  // While a run goes on, no row is an interrupted one.
  lemma {:induction false} RunUninterrupted(cfg: Config, s: State, ticks: seq<Tick>)
    requires Uninterrupted(s.finished)
    ensures Ran(cfg, s, ticks).stop.None? ==> Uninterrupted(Ran(cfg, s, ticks).finished)
    decreases |ticks|
  {
    if !Ended(s) && ticks != [] {
      var next := Iterated(cfg, s, ticks[0]);
      if next.stop.None? {
        UnstoppedIteration(cfg, s, ticks[0]);
        RunUninterrupted(cfg, next, ticks[1..]);
      }
    }
  }

  lemma {:induction false} RowIsCounted(finished: seq<Saved>, id: Id)
    requires Uninterrupted(finished) && HasRow(finished, id)
    ensures id in CountedIds(finished)
  {
    var init := finished[..|finished| - 1];
    if finished[|finished| - 1].id != id {
      var k :| 0 <= k < |finished| && finished[k].id == id;
      assert init[k].id == id;
      RowIsCounted(init, id);
    }
  }

  // What a launch starts is a retry point, unless the whole group has a row.
  lemma LaunchPrefersRetry(cfg: Config, s: State, k: nat)
    requires var l := Launched(cfg, RetryPhase(cfg, s.finished), s); |s.running| <= k < |l.running|
    ensures var w := Launched(cfg, RetryPhase(cfg, s.finished), s).running[k];
            w.point.id in cfg.retry || GroupComplete(cfg, s.finished)
  {
    LaunchedShape(cfg, RetryPhase(cfg, s.finished), s);
  }

  // Over whole runs: whenever a point outside the group starts, every retry
  // point has a counted result, and none is pending or running.
  lemma RetryPointsFirst(cfg: Config, s: State, ticks: seq<Tick>, k: nat)
    requires Uninterrupted(s.finished) && HeldOnce(s) && !Ended(Ran(cfg, s, ticks))
    requires var now := Ran(cfg, s, ticks);
             |now.running| <= k < |Launched(cfg, RetryPhase(cfg, now.finished), now).running|
    ensures var now := Ran(cfg, s, ticks);
            var l := Launched(cfg, RetryPhase(cfg, now.finished), now);
            || l.running[k].point.id in cfg.retry
            || forall id :: id in cfg.retry ==>
                 id in CountedIds(now.finished) && id !in PointIds(l.pending) && id !in WorkerIds(l.running)
  {
    hide Launched, Ran, RetryPhase, PointIds, WorkerIds, CountedIds;
    var now := Ran(cfg, s, ticks);
    var l := Launched(cfg, RetryPhase(cfg, now.finished), now);
    LaunchPrefersRetry(cfg, now, k);
    RunUninterrupted(cfg, s, ticks);
    RunConserves(cfg, s, ticks);
    LaunchConserves(cfg, RetryPhase(cfg, now.finished), now);
    LaunchKeepsFinished(cfg, RetryPhase(cfg, now.finished), now);
    if l.running[k].point.id !in cfg.retry {
      forall id | id in cfg.retry
        ensures id in CountedIds(now.finished) && id !in PointIds(l.pending) && id !in WorkerIds(l.running)
      {
        var j :| 0 <= j < |cfg.retry| && cfg.retry[j] == id;
        RowIsCounted(now.finished, id);
        CountedElsewhere(s, l, id);
      }
    }
  }

  lemma CountedElsewhere(s: State, l: State, id: Id)
    requires HeldOnce(s) && Holdings(l) == Holdings(s) && id in CountedIds(l.finished)
    ensures id !in PointIds(l.pending) && id !in WorkerIds(l.running)
  {
    hide PointIds, WorkerIds, CountedIds;
    assert Holdings(l)[id] == PointIds(l.pending)[id] + WorkerIds(l.running)[id] + CountedIds(l.finished)[id];
  }

  // ----- The initial queue

  // What run_queue reads before its loop.
  datatype Start = Start(manifest: seq<ScanPoint>, cancellations: map<Id, Saved>, adopted: seq<Worker>,
                         saved: map<Id, Saved>, retryFailed: bool)

  predicate IsAdopted(start: Start, id: Id) {
    exists k :: 0 <= k < |start.adopted| && start.adopted[k].point.id == id
  }

  // A refused point selected for retry is archived: its saved row is gone.
  predicate StillSaved(cfg: Config, start: Start, p: ScanPoint) {
    p.id in start.saved && !(p.id in cfg.retry && start.saved[p.id].status.ForecastRejected?)
  }

  predicate Uncorrected(cfg: Config, start: Start, p: ScanPoint) {
    && p.id !in start.cancellations && !IsAdopted(start, p.id)
    && StillSaved(cfg, start, p) && start.saved[p.id].status.Failed? && !start.retryFailed
  }

  function Priority(retry: seq<Id>, id: Id): (k: nat)
    ensures k <= |retry| && (k < |retry| ==> retry[k] == id)
    ensures id in retry <==> k < |retry|
  {
    if retry == [] then 0 else if retry[0] == id then 0 else 1 + Priority(retry[1..], id)
  }

  // Python's stable sort by retry priority.
  function Place(retry: seq<Id>, p: ScanPoint, sorted: seq<ScanPoint>): seq<ScanPoint> {
    if sorted == [] then [p]
    else
      var k := |sorted| - 1;
      if Priority(retry, sorted[k].id) <= Priority(retry, p.id) then sorted + [p]
      else Place(retry, p, sorted[..k]) + [sorted[k]]
  }

  function Prioritized(retry: seq<Id>, points: seq<ScanPoint>): seq<ScanPoint> {
    if points == [] then [] else Place(retry, points[|points| - 1], Prioritized(retry, points[..|points| - 1]))
  }

  // The rows and points of a manifest prefix, or None for a failed point without --retry-failed.
  function Loaded(cfg: Config, start: Start, n: nat): Option<(seq<ScanPoint>, seq<Saved>)>
    requires n <= |start.manifest|
  {
    if n == 0 then Some(([], []))
    else
      var before, p := Loaded(cfg, start, n - 1), start.manifest[n - 1];
      if before.None? || Uncorrected(cfg, start, p) then None
      else
        var (pending, finished) := before.value;
        if p.id in start.cancellations
          then Some((pending, finished + [start.cancellations[p.id].(id := p.id, status := Cancelled)]))
        else if IsAdopted(start, p.id) then before
        else if StillSaved(cfg, start, p) && Reusable(start.saved[p.id].status)
        then Some((pending, finished + [start.saved[p.id].(id := p.id)]))
        else Some((pending + [p], finished))
  }

  function InitialState(cfg: Config, start: Start): Option<State> {
    var loaded := Loaded(cfg, start, |start.manifest|);
    if loaded.None? then None
    else Some(State(Prioritized(cfg.retry, loaded.value.0), start.adopted, loaded.value.1, None))
  }

  method LoadQueue(cfg: Config, start: Start) returns (queue: Option<QueueManager>)
    ensures queue.Some? <==> InitialState(cfg, start).Some?
    ensures queue.Some? ==>
              fresh(queue.value) && queue.value.cfg == cfg && queue.value.View() == InitialState(cfg, start).value
  {
    var pending, finished := [], [];
    for n := 0 to |start.manifest|
      invariant Loaded(cfg, start, n) == Some((pending, finished))
    {
      var p := start.manifest[n];
      if p.id in start.cancellations {
        finished := finished + [start.cancellations[p.id].(id := p.id, status := Cancelled)];
      } else if !IsAdopted(start, p.id) {
        if StillSaved(cfg, start, p) && Reusable(start.saved[p.id].status) {
          finished := finished + [start.saved[p.id].(id := p.id)];
        } else if StillSaved(cfg, start, p) && start.saved[p.id].status.Failed? && !start.retryFailed {
          UncorrectedRefuses(cfg, start, n);
          return None;
        } else {
          pending := pending + [p];
        }
      }
    }
    var manager := new QueueManager(cfg, Prioritized(cfg.retry, pending), start.adopted, finished);
    return Some(manager);
  }

  // The loaded rows are cancelled or reusable ones.
  lemma {:induction false} LoadedUninterrupted(cfg: Config, start: Start, n: nat)
    requires n <= |start.manifest| && Loaded(cfg, start, n).Some?
    ensures Uninterrupted(Loaded(cfg, start, n).value.1)
  {
    if n > 0 { LoadedUninterrupted(cfg, start, n - 1); }
  }

  // A loaded queue over distinct points meets what the retry ordering asks of its start.
  lemma InitialOrdered(cfg: Config, start: Start)
    requires WorkerIds(start.adopted) == AdoptedIn(start, |start.manifest|) && InitialState(cfg, start).Some?
    requires forall id :: id in PointIds(start.manifest) ==> PointIds(start.manifest)[id] == 1
    ensures Uninterrupted(InitialState(cfg, start).value.finished) && HeldOnce(InitialState(cfg, start).value)
  {
    InitialHolds(cfg, start);
    LoadedUninterrupted(cfg, start, |start.manifest|);
    hide Holdings, PointIds;
  }

  lemma UncorrectedRefuses(cfg: Config, start: Start, n: nat)
    requires n < |start.manifest| && Uncorrected(cfg, start, start.manifest[n])
    ensures Loaded(cfg, start, |start.manifest|).None?
  {
    RefusalStays(cfg, start, n + 1, |start.manifest|);
  }

  lemma {:induction false} RefusalStays(cfg: Config, start: Start, m: nat, n: nat)
    requires m <= n <= |start.manifest| && Loaded(cfg, start, m).None?
    ensures Loaded(cfg, start, n).None?
    decreases n
  {
    if m < n { RefusalStays(cfg, start, m, n - 1); }
  }

  function AdoptedIn(start: Start, n: nat): multiset<Id>
    requires n <= |start.manifest|
  {
    if n == 0 then multiset{}
    else
      var id := start.manifest[n - 1].id;
      AdoptedIn(start, n - 1) + (if id !in start.cancellations
                                 && IsAdopted(start, id) then multiset{id} else multiset{})
  }

  function LoadedIds(cfg: Config, start: Start, n: nat): multiset<Id>
    requires n <= |start.manifest| && Loaded(cfg, start, n).Some?
  {
    PointIds(Loaded(cfg, start, n).value.0) + CountedIds(Loaded(cfg, start, n).value.1) + AdoptedIn(start, n)
  }

  // Each manifest point is pending, counted or adopted.
  lemma LoadStep(cfg: Config, start: Start, n: nat)
    requires 0 < n <= |start.manifest| && Loaded(cfg, start, n).Some?
    ensures Loaded(cfg, start, n - 1).Some?
    ensures LoadedIds(cfg, start, n) == LoadedIds(cfg, start, n - 1) + multiset{start.manifest[n - 1].id}
  {
    hide PointIds, CountedIds, Uncorrected;
    var p := start.manifest[n - 1];
    var (pending, finished) := Loaded(cfg, start, n - 1).value;
    if p.id in start.cancellations {
      OneCounted(finished, start.cancellations[p.id].(id := p.id, status := Cancelled));
    } else if IsAdopted(start, p.id) {
    } else if StillSaved(cfg, start, p) && Reusable(start.saved[p.id].status) {
      OneCounted(finished, start.saved[p.id].(id := p.id));
    } else {
      OneMore(pending, [], finished, p, Worker(p, false), Saved(p.id, Failed, false));
    }
  }

  lemma OneCounted(finished: seq<Saved>, row: Saved)
    requires !row.status.Interrupted?
    ensures CountedIds(finished + [row]) == CountedIds(finished) + multiset{row.id}
  {
    assert (finished + [row])[..|finished|] == finished;
  }

  lemma ManifestStep(start: Start, n: nat)
    requires 0 < n <= |start.manifest|
    ensures PointIds(start.manifest[..n]) == PointIds(start.manifest[..n - 1]) + multiset{start.manifest[n - 1].id}
  {
    assert start.manifest[..n][..n - 1] == start.manifest[..n - 1];
  }

  lemma {:induction false} LoadConserves(cfg: Config, start: Start, n: nat)
    requires n <= |start.manifest| && Loaded(cfg, start, n).Some?
    ensures LoadedIds(cfg, start, n) == PointIds(start.manifest[..n])
  {
    if n > 0 {
      LoadStep(cfg, start, n);
      LoadConserves(cfg, start, n - 1);
      ManifestStep(start, n);
      hide Loaded, LoadedIds, PointIds;
    }
  }

  lemma {:induction false} PlacePermutes(retry: seq<Id>, p: ScanPoint, sorted: seq<ScanPoint>)
    ensures PointIds(Place(retry, p, sorted)) == PointIds(sorted) + multiset{p.id}
  {
    if sorted == [] {
      OnePoint(p);
    } else {
      var k := |sorted| - 1;
      PlacePermutes(retry, p, sorted[..k]);
      assert (sorted + [p])[..|sorted|] == sorted;
      var shorter := Place(retry, p, sorted[..k]);
      assert (shorter + [sorted[k]])[..|shorter|] == shorter;
    }
  }

  lemma {:induction false} PrioritizedPermutes(retry: seq<Id>, points: seq<ScanPoint>)
    ensures PointIds(Prioritized(retry, points)) == PointIds(points)
  {
    if points != [] {
      PrioritizedPermutes(retry, points[..|points| - 1]);
      PlacePermutes(retry, points[|points| - 1], Prioritized(retry, points[..|points| - 1]));
    }
  }

  predicate InPriorityOrder(retry: seq<Id>, points: seq<ScanPoint>) {
    forall i, j :: 0 <= i < j < |points| ==> Priority(retry, points[i].id) <= Priority(retry, points[j].id)
  }

  lemma {:induction false} PlaceOrders(retry: seq<Id>, p: ScanPoint, sorted: seq<ScanPoint>, top: nat)
    requires InPriorityOrder(retry, sorted)
    requires Priority(retry, p.id) <= top && forall i :: 0 <= i < |sorted| ==> Priority(retry, sorted[i].id) <= top
    ensures InPriorityOrder(retry, Place(retry, p, sorted))
    ensures forall i :: 0 <= i < |Place(retry, p, sorted)| ==> Priority(retry, Place(retry, p, sorted)[i].id) <= top
  {
    hide Priority;
    if sorted != [] {
      var k := |sorted| - 1;
      if Priority(retry, p.id) < Priority(retry, sorted[k].id) {
        PlaceOrders(retry, p, sorted[..k], Priority(retry, sorted[k].id));
      }
    }
  }

  // The retry points come first, in the order they were given.
  lemma {:induction false} PrioritizedOrders(retry: seq<Id>, points: seq<ScanPoint>)
    ensures InPriorityOrder(retry, Prioritized(retry, points))
  {
    if points != [] {
      PrioritizedOrders(retry, points[..|points| - 1]);
      PlaceOrders(retry, points[|points| - 1], Prioritized(retry, points[..|points| - 1]), |retry|);
    }
  }

  // The initial queue holds each manifest point once, so every run's status adds up to the manifest.
  lemma InitialHolds(cfg: Config, start: Start)
    requires WorkerIds(start.adopted) == AdoptedIn(start, |start.manifest|)
    requires InitialState(cfg, start).Some?
    ensures Holdings(InitialState(cfg, start).value) == PointIds(start.manifest)
    ensures (forall k :: 0 <= k < |cfg.retry| ==> cfg.retry[k] in PointIds(start.manifest)) ==>
              RetryInManifest(cfg, InitialState(cfg, start).value)
  {
    LoadConserves(cfg, start, |start.manifest|);
    assert start.manifest[..|start.manifest|] == start.manifest;
    PrioritizedPermutes(cfg.retry, Loaded(cfg, start, |start.manifest|).value.0);
  }
}
