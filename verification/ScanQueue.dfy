// run_queue in scripts/b200_hbm_hbf_scan.py: a manager of at most two scan workers.
module ScanQueue {
  import opened Prelude

  type Id = string

  datatype ScanPoint = ScanPoint(id: Id, architecture: string)

  datatype Status = Completed | ForecastCompleted | CapacityRejected | ForecastRejected | Failed | Cancelled
                  | Interrupted

  // A saved point result; budgetAccepted is its paired budget decision under the current weight semantics.
  datatype Saved = Saved(id: Id, status: Status, budgetAccepted: bool)

  // A running worker; an adopted one was started by an earlier manager.
  datatype Worker = Worker(point: ScanPoint, adopted: bool)

  datatype StopReason = StopRequested | PointFailed | WorkerInterrupted | RetryGroupNotAccepted | ConfigurationBoundary

  datatype Config = Config(workers: Pos, pauseAfterCurrent: bool, retry: seq<Id>)

  datatype State = State(pending: seq<ScanPoint>, running: seq<Worker>, finished: seq<Saved>, stop: Option<StopReason>)

  // What one iteration finds: a stop marker, and the workers that have exited with the results they left, if any.
  datatype Tick = Tick(stopRequested: bool, exits: map<Id, Option<Saved>>)

  predicate Successful(s: Status) { s.Completed? || s.ForecastCompleted? }

  predicate Reusable(s: Status) { Successful(s) || s.CapacityRejected? || s.ForecastRejected? }

  // ----- Counts of the status file

  datatype Counts = Counts(completed: nat, forecastCompleted: nat, capacityRejected: nat,
                           forecastRejected: nat, failed: nat, cancelled: nat)

  function Bit(b: bool): nat { if b then 1 else 0 }

  function QueueCounts(finished: seq<Saved>): Counts {
    if finished == [] then Counts(0, 0, 0, 0, 0, 0)
    else
      var c, s := QueueCounts(finished[..|finished| - 1]), finished[|finished| - 1].status;
      Counts(c.completed + Bit(Successful(s)), c.forecastCompleted + Bit(s.ForecastCompleted?),
             c.capacityRejected + Bit(s.CapacityRejected?), c.forecastRejected + Bit(s.ForecastRejected?),
             c.failed + Bit(s.Failed?), c.cancelled + Bit(s.Cancelled?))
  }

  // ----- The retry group

  predicate HasRow(finished: seq<Saved>, id: Id) {
    exists k :: 0 <= k < |finished| && finished[k].id == id
  }

  // The latest row of an identifier.
  function LastRow(finished: seq<Saved>, id: Id): (r: Saved)
    requires HasRow(finished, id)
    ensures r.id == id && r in finished
  {
    if finished[|finished| - 1].id == id then finished[|finished| - 1] else LastRow(finished[..|finished| - 1], id)
  }

  predicate GroupComplete(cfg: Config, finished: seq<Saved>) {
    forall k :: 0 <= k < |cfg.retry| ==> HasRow(finished, cfg.retry[k])
  }

  predicate GroupAccepted(cfg: Config, finished: seq<Saved>) {
    forall k :: 0 <= k < |cfg.retry| && HasRow(finished, cfg.retry[k]) ==>
      var row := LastRow(finished, cfg.retry[k]); row.status.ForecastCompleted? && row.budgetAccepted
  }

  predicate RetryPhase(cfg: Config, finished: seq<Saved>) {
    cfg.retry != [] && !GroupComplete(cfg, finished)
  }

  predicate GroupRefused(cfg: Config, finished: seq<Saved>) {
    cfg.retry != [] && GroupComplete(cfg, finished) && !GroupAccepted(cfg, finished)
  }

  // ----- Launching

  predicate Occupied(running: seq<Worker>, architecture: string) {
    exists k :: 0 <= k < |running| && running[k].point.architecture == architecture
  }

  predicate Eligible(cfg: Config, retryPhase: bool, running: seq<Worker>, p: ScanPoint) {
    !Occupied(running, p.architecture) && (retryPhase ==> p.id in cfg.retry)
  }

  // The first pending point a worker may take.
  function FirstEligible(cfg: Config, retryPhase: bool, running: seq<Worker>, pending: seq<ScanPoint>): (r: Option<nat>)
    ensures r.Some? ==> r.value < |pending| && Eligible(cfg, retryPhase, running, pending[r.value])
                        && forall k :: 0 <= k < r.value ==> !Eligible(cfg, retryPhase, running, pending[k])
    ensures r.None? ==> forall k :: 0 <= k < |pending| ==> !Eligible(cfg, retryPhase, running, pending[k])
  {
    if pending == [] then None
    else if Eligible(cfg, retryPhase, running, pending[0]) then Some(0)
    else
      var rest := FirstEligible(cfg, retryPhase, running, pending[1..]);
      assert rest.None? ==> forall k :: 0 <= k < |pending[1..]| ==> pending[1..][k] == pending[k + 1];
      assert forall k :: 1 <= k < |pending| ==> pending[k] == pending[1..][k - 1];
      if rest.Some? then Some(rest.value + 1) else None
  }

  // The workers one iteration starts, one after another.
  function Launched(cfg: Config, retryPhase: bool, s: State): State
    decreases |s.pending|
  {
    if s.pending == [] || |s.running| >= cfg.workers || cfg.pauseAfterCurrent then s
    else
      var index := FirstEligible(cfg, retryPhase, s.running, s.pending);
      if index.None? then s
      else
        var p := s.pending[index.value];
        Launched(cfg, retryPhase, s.(pending := s.pending[..index.value] + s.pending[index.value + 1..],
                                     running := s.running + [Worker(p, false)]))
  }

  // ----- Collecting exits, in the order the workers were started

  predicate Exited(w: Worker, exits: map<Id, Option<Saved>>) { w.point.id in exits }

  // The row of an exited worker under its own identifier; without a result it failed.
  function RowOf(w: Worker, exits: map<Id, Option<Saved>>): Saved
    requires Exited(w, exits)
  {
    var saved := exits[w.point.id];
    if saved.Some? then saved.value.(id := w.point.id) else Saved(w.point.id, Failed, false)
  }

  function Survivors(workers: seq<Worker>, exits: map<Id, Option<Saved>>): seq<Worker> {
    if workers == [] then []
    else
      var rest, w := Survivors(workers[..|workers| - 1], exits), workers[|workers| - 1];
      if Exited(w, exits) then rest else rest + [w]
  }

  function Arrivals(workers: seq<Worker>, exits: map<Id, Option<Saved>>): seq<Saved> {
    if workers == [] then []
    else
      var rest, w := Arrivals(workers[..|workers| - 1], exits), workers[|workers| - 1];
      if Exited(w, exits) then rest + [RowOf(w, exits)] else rest
  }

  // Interrupted points go back to the front of the queue.
  function Returned(workers: seq<Worker>, exits: map<Id, Option<Saved>>): seq<ScanPoint> {
    if workers == [] then []
    else
      var rest, w := Returned(workers[..|workers| - 1], exits), workers[|workers| - 1];
      if Exited(w, exits) && RowOf(w, exits).status.Interrupted? then [w.point] + rest else rest
  }

  function StopAfter(workers: seq<Worker>, exits: map<Id, Option<Saved>>,
                     stop: Option<StopReason>): Option<StopReason> {
    if workers == [] then stop
    else
      var rest, w := StopAfter(workers[..|workers| - 1], exits, stop), workers[|workers| - 1];
      if Exited(w, exits) && RowOf(w, exits).status.Failed? then Some(PointFailed)
      else if Exited(w, exits) && RowOf(w, exits).status.Interrupted? then Some(WorkerInterrupted)
      else rest
  }

  function Collected(s: State, exits: map<Id, Option<Saved>>): State {
    State(Returned(s.running, exits) + s.pending, Survivors(s.running, exits),
          s.finished + Arrivals(s.running, exits), StopAfter(s.running, exits, s.stop))
  }

  function Judged(cfg: Config, s: State): State {
    var refused := if GroupRefused(cfg, s.finished) && s.stop.None? then s.(stop := Some(RetryGroupNotAccepted)) else s;
    if cfg.pauseAfterCurrent && refused.running == [] && refused.stop.None?
    then refused.(stop := Some(ConfigurationBoundary)) else refused
  }

  // ----- One iteration and whole runs

  function Iterated(cfg: Config, s: State, tick: Tick): State {
    if tick.stopRequested then s.(stop := Some(StopRequested))
    else Judged(cfg, Collected(Launched(cfg, RetryPhase(cfg, s.finished), s), tick.exits))
  }

  predicate Ended(s: State) {
    s.stop.Some? || (s.pending == [] && s.running == [])
  }

  function Ran(cfg: Config, s: State, ticks: seq<Tick>): State
    decreases |ticks|
  {
    if Ended(s) || ticks == [] then s else Ran(cfg, Iterated(cfg, s, ticks[0]), ticks[1..])
  }

  // After the loop: exited workers are counted when their result can be kept, else their points return.
  function Drained(s: State, exits: map<Id, Option<Saved>>): State {
    State(s.pending + Dropped(s.running, exits), Survivors(s.running, exits), s.finished + KeptRows(s.running, exits),
          s.stop)
  }

  predicate Keepable(w: Worker, exits: map<Id, Option<Saved>>) {
    Exited(w, exits) && exits[w.point.id].Some? && (Reusable(RowOf(w, exits).status) || RowOf(w, exits).status.Failed?)
  }

  function KeptRows(workers: seq<Worker>, exits: map<Id, Option<Saved>>): seq<Saved> {
    if workers == [] then []
    else
      var rest, w := KeptRows(workers[..|workers| - 1], exits), workers[|workers| - 1];
      if Keepable(w, exits) then rest + [RowOf(w, exits)] else rest
  }

  function Dropped(workers: seq<Worker>, exits: map<Id, Option<Saved>>): seq<ScanPoint> {
    if workers == [] then []
    else
      var rest, w := Dropped(workers[..|workers| - 1], exits), workers[|workers| - 1];
      if Exited(w, exits) && !Keepable(w, exits) then rest + [w.point] else rest
  }

  lemma RestAfter(kept: seq<Worker>, snapshot: seq<Worker>, k: nat)
    requires k < |snapshot|
    ensures var r := kept + snapshot[k..];
            && r == kept + [snapshot[k]] + snapshot[k + 1..]
            && r[..|kept|] + r[|kept| + 1..] == kept + snapshot[k + 1..]
  {}

  lemma NoWorker(exits: map<Id, Option<Saved>>, stop: Option<StopReason>)
    ensures Survivors([], exits) == [] && Arrivals([], exits) == [] && Returned([], exits) == []
    ensures StopAfter([], exits, stop) == stop
  {}

  lemma NextWorker(snapshot: seq<Worker>, k: nat, exits: map<Id, Option<Saved>>, stop: Option<StopReason>)
    requires k < |snapshot|
    ensures var before, after, w := snapshot[..k], snapshot[..k + 1], snapshot[k];
            if !Exited(w, exits) then
              && Survivors(after, exits) == Survivors(before, exits) + [w]
              && Arrivals(after, exits) == Arrivals(before, exits)
              && Returned(after, exits) == Returned(before, exits)
              && StopAfter(after, exits, stop) == StopAfter(before, exits, stop)
            else
              var row := RowOf(w, exits);
              && Survivors(after, exits) == Survivors(before, exits)
              && Arrivals(after, exits) == Arrivals(before, exits) + [row]
              && Returned(after, exits) == (if row.status.Interrupted? then [w.point] else []) + Returned(before, exits)
              && StopAfter(after, exits, stop) == (if row.status.Failed? then Some(PointFailed)
                                                   else if row.status.Interrupted? then Some(WorkerInterrupted)
                                                   else StopAfter(before, exits, stop))
  {
    assert snapshot[..k + 1][..k] == snapshot[..k];
  }

  // ----- The manager

  class QueueManager {
    const cfg: Config
    var pending: seq<ScanPoint>
    var running: seq<Worker>
    var finished: seq<Saved>
    var stopReason: Option<StopReason>

    function View(): State
      reads this
    {
      State(pending, running, finished, stopReason)
    }

    constructor (cfg: Config, pending: seq<ScanPoint>, adopted: seq<Worker>, finished: seq<Saved>)
      ensures this.cfg == cfg && View() == State(pending, adopted, finished, None)
    {
      this.cfg := cfg;
      this.pending, this.running, this.finished, this.stopReason := pending, adopted, finished, None;
    }

    method Launch(retryPhase: bool)
      modifies this
      ensures View() == Launched(cfg, retryPhase, old(View()))
    {
      while pending != [] && |running| < cfg.workers && !cfg.pauseAfterCurrent
        invariant Launched(cfg, retryPhase, View()) == Launched(cfg, retryPhase, old(View()))
        decreases |pending|
      {
        var index := FirstEligible(cfg, retryPhase, running, pending);
        if index.None? {
          break;
        }
        var point := pending[index.value];
        pending := pending[..index.value] + pending[index.value + 1..];
        running := running + [Worker(point, false)];
      }
    }

    method Collect(exits: map<Id, Option<Saved>>)
      modifies this
      ensures View() == Collected(old(View()), exits)
    {
      var snapshot := running;
      var k := 0;
      NoWorker(exits, stopReason);
      hide Survivors, Arrivals, Returned, StopAfter;
      assert snapshot[..0] == [] && snapshot[0..] == snapshot;
      while k < |snapshot|
        invariant k <= |snapshot|
        invariant running == Survivors(snapshot[..k], exits) + snapshot[k..]
        invariant finished == old(finished) + Arrivals(snapshot[..k], exits)
        invariant pending == Returned(snapshot[..k], exits) + old(pending)
        invariant stopReason == StopAfter(snapshot[..k], exits, old(stopReason))
      {
        var worker := snapshot[k];
        RestAfter(Survivors(snapshot[..k], exits), snapshot, k);
        NextWorker(snapshot, k, exits, old(stopReason));
        if worker.point.id in exits {
          var saved := if exits[worker.point.id].Some? then exits[worker.point.id].value.(id := worker.point.id)
                       else Saved(worker.point.id, Failed, false);
          var at := |running| - (|snapshot| - k);
          running := running[..at] + running[at + 1..];
          finished := finished + [saved];
          if saved.status.Failed? {
            stopReason := Some(PointFailed);
          } else if saved.status.Interrupted? {
            pending := [worker.point] + pending;
            stopReason := Some(WorkerInterrupted);
          }
        }
        k := k + 1;
      }
      assert snapshot[..k] == snapshot;
    }

    method Iterate(tick: Tick)
      modifies this
      ensures View() == Iterated(cfg, old(View()), tick)
    {
      if tick.stopRequested {
        stopReason := Some(StopRequested);
        return;
      }
      var retryPhase := RetryPhase(cfg, finished);
      Launch(retryPhase);
      Collect(tick.exits);
      if GroupRefused(cfg, finished) && stopReason.None? {
        stopReason := Some(RetryGroupNotAccepted);
      }
      if cfg.pauseAfterCurrent && running == [] && stopReason.None? {
        stopReason := Some(ConfigurationBoundary);
      }
    }

    // The ticks are the iterations' environment; the loop may still be live when they run out.
    method Run(ticks: seq<Tick>)
      modifies this
      ensures View() == Ran(cfg, old(View()), ticks)
    {
      var k := 0;
      assert ticks[0..] == ticks;
      while k < |ticks| && stopReason.None? && (pending != [] || running != [])
        invariant k <= |ticks|
        invariant Ran(cfg, View(), ticks[k..]) == Ran(cfg, old(View()), ticks)
      {
        assert ticks[k..][1..] == ticks[k + 1..];
        Iterate(ticks[k]);
        k := k + 1;
      }
    }

    method Drain(exits: map<Id, Option<Saved>>)
      modifies this
      ensures View() == Drained(old(View()), exits)
    {
      var stillRunning := [];
      var k := 0;
      while k < |running|
        invariant k <= |running| && running == old(running) && stopReason == old(stopReason)
        invariant stillRunning == Survivors(running[..k], exits)
        invariant finished == old(finished) + KeptRows(running[..k], exits)
        invariant pending == old(pending) + Dropped(running[..k], exits)
      {
        var worker := running[k];
        assert running[..k + 1][..k] == running[..k];
        if worker.point.id !in exits {
          stillRunning := stillRunning + [worker];
        } else {
          var saved := exits[worker.point.id];
          if saved.Some? && (Reusable(saved.value.status) || saved.value.status.Failed?) {
            finished := finished + [saved.value.(id := worker.point.id)];
          } else {
            pending := pending + [worker.point];
          }
        }
        k := k + 1;
      }
      assert running[..k] == running;
      running := stillRunning;
    }
  }
}
