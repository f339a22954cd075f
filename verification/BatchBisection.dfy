// The "largest accepted batch" searches of scripts/exploring_hbf_search.py
// and scripts/exploring_hbf_native_config.py, by bisection over batch quanta.
module BatchBisection {
  import opened Prelude
  import opened QuantumFacts

  // A batch predicate probed through a cache: each batch is evaluated once.
  class Probe {
    const accepts: int -> bool
    var checked: seq<int>

    constructor (accepts: int -> bool)
      ensures this.accepts == accepts && checked == []
    {
      this.accepts := accepts;
      checked := [];
    }

    method Check(batch: int) returns (accepted: bool)
      modifies this
      ensures accepted == accepts(batch)
      ensures checked == if batch in old(checked) then old(checked) else old(checked) + [batch]
    {
      if batch !in checked { checked := checked + [batch]; }
      accepted := accepts(batch);
    }
  }

  // A batch that is accepted (or zero), and whose next quantum is rejected or past the ceiling.
  predicate Adjacent(accepts: int -> bool, quantum: Pos, ceiling: nat, batch: int) {
    && 0 <= batch <= ceiling * quantum && batch % quantum == 0
    && (batch == 0 || accepts(batch))
    && (batch + quantum <= ceiling * quantum ==> !accepts(batch + quantum))
  }

  ghost predicate Monotone(accepts: int -> bool) {
    forall a, b :: 0 < a <= b && accepts(b) ==> accepts(a)
  }

  // The greatest accepted multiple of the quantum up to the ceiling, or zero.
  predicate Greatest(accepts: int -> bool, quantum: Pos, ceiling: nat, batch: int) {
    && (batch == 0 || accepts(batch))
    && forall k :: 0 < k <= ceiling && accepts(k * quantum) ==> k * quantum <= batch
  }

  lemma UnitBatch(units: int, quantum: Pos)
    ensures units * quantum % quantum == 0
    ensures (units + 1) * quantum == units * quantum + quantum
  {
    ProductIsMultiple(units, quantum);
  }

  // With a monotone predicate the adjacent batch is the global maximum.
  lemma AdjacentIsGreatest(accepts: int -> bool, quantum: Pos, ceiling: nat, batch: int)
    requires Monotone(accepts) && Adjacent(accepts, quantum, ceiling, batch)
    ensures Greatest(accepts, quantum, ceiling, batch)
  {
    var units := batch / quantum;
    assert batch == units * quantum;
    forall k | 0 < k <= ceiling && accepts(k * quantum)
      ensures k * quantum <= batch
    {
      Ordered(units, k, ceiling, quantum);
    }
  }

  lemma Ordered(units: int, k: int, ceiling: int, quantum: Pos)
    ensures k <= units ==> k * quantum <= units * quantum
    ensures units < k <= ceiling ==> units * quantum + quantum <= k * quantum <= ceiling * quantum
  {
    MultiplyOrdered(k, units, quantum);
    MultiplyOrdered(units, k, quantum);
    MultiplyOrdered(k, ceiling, quantum);
  }

  // Upper bisection from an accepted low end, or from an unprobed zero.
  method Bisect(probe: Probe, quantum: Pos, lowest: nat, ceiling: nat) returns (batch: int)
    requires lowest <= ceiling && (lowest == 0 || probe.accepts(lowest * quantum))
    modifies probe
    ensures Adjacent(probe.accepts, quantum, ceiling, batch) && lowest * quantum <= batch
    ensures Distinct(old(probe.checked)) ==> Distinct(probe.checked)
  {
    var low, high := lowest, ceiling;
    while low < high
      invariant lowest <= low <= high <= ceiling
      invariant low == 0 || probe.accepts(low * quantum)
      invariant high < ceiling ==> !probe.accepts((high + 1) * quantum)
      invariant Distinct(old(probe.checked)) ==> Distinct(probe.checked)
    {
      var middle := (low + high + 1) / 2;
      var accepted := probe.Check(middle * quantum);
      if accepted { low := middle; } else { high := middle - 1; }
    }
    batch := low * quantum;
    UnitBatch(low, quantum);
    Ordered(low, lowest, ceiling, quantum);
    Ordered(low, low + 1, ceiling, quantum);
    Ordered(ceiling, low, ceiling, quantum);
    Ordered(ceiling, low + 1, ceiling, quantum);
  }

  lemma NextUnit(batch: int, quantum: Pos, ceiling: int)
    requires batch % quantum == 0
    ensures var next := batch / quantum + 1;
            next * quantum == batch + quantum && (next <= ceiling <==> batch + quantum <= ceiling * quantum)
  {
    var next := batch / quantum + 1;
    UnitBatch(next - 1, quantum);
    MultiplyOrdered(next, ceiling, quantum);
    MultiplyOrdered(ceiling, next, quantum);
  }

  // Raised: the RuntimeError for an accepted next quantum.
  datatype CapacityResult = Raised | Found(batch: int, nextRejected: Option<int>)

  // maximum_capacity_batch: never raises, whatever the predicate.
  method MaximumCapacityBatch(probe: Probe, quantum: Pos, upper: Pos) returns (r: CapacityResult)
    modifies probe
    ensures r.Found? && Adjacent(probe.accepts, quantum, upper / quantum, r.batch)
    ensures r.nextRejected == (if r.batch + quantum <= upper / quantum * quantum then Some(r.batch + quantum) else None)
    ensures Distinct(old(probe.checked)) ==> Distinct(probe.checked)
  {
    var maximum := upper / quantum;
    var chosen := 0;
    UnitBatch(0, quantum);
    var minimum := false;
    if maximum > 0 { minimum := probe.Check(quantum); }
    if maximum > 0 && minimum {
      chosen := Bisect(probe, quantum, 1, maximum);
    }
    var next := chosen / quantum + 1;
    NextUnit(chosen, quantum, maximum);
    if maximum > 0 && next <= maximum {
      var accepted := probe.Check(next * quantum);
      if accepted { return Raised; }
      return Found(chosen, Some(next * quantum));
    }
    return Found(chosen, None);
  }

  // The refill slots of one step, each with a prepared request per step of depth.
  function RefillSlots(batch: nat, output: Pos, ep: Pos): nat { ep * CeilDiv(batch / ep, output) }

  // A batch under its EP degree frees no slot: the source divides by zero.
  lemma SlotsFreed(batch: nat, output: Pos, ep: Pos)
    ensures RefillSlots(batch, output, ep) > 0 <==> batch >= ep
  {
    var n := batch / ep;
    assert batch == n * ep + batch % ep;
    MultiplyOrdered(1, n, ep);
    MultiplyOrdered(n, 0, ep);
    assert n > 0 <==> CeilDiv(n, output) > 0 by { ShareFreed(n, output); }
    MultiplyOrdered(1, CeilDiv(n, output), ep);
  }

  lemma ShareFreed(n: nat, output: Pos)
    ensures n > 0 <==> CeilDiv(n, output) > 0
  {
    if n > 0 { MultiplyOrdered(CeilDiv(n, output), 0, output); }
  }

  function PoolDepth(batch: Pos, pool: nat, output: Pos, ep: Pos): int
    requires batch >= ep
  {
    SlotsFreed(batch, output, ep);
    pool / RefillSlots(batch, output, ep)
  }

  // The depth read off a pool sized for a batch is the depth it was sized with.
  lemma PoolDepthRecovered(batch: Pos, output: Pos, ep: Pos, depth: nat)
    requires batch >= ep
    ensures PoolDepth(batch, RefillSlots(batch, output, ep) * depth, output, ep) == depth
  {
    hide RefillSlots;
    SlotsFreed(batch, output, ep);
    var slots: Pos := RefillSlots(batch, output, ep);
    var product := slots * depth;
    var quotient := product / slots;
    assert product == quotient * slots + product % slots;
    MultiplyOrdered(depth, quotient, slots);
    MultiplyOrdered(quotient, depth, slots);
  }

  // Whether a batch's cycle peak fits with a pool that keeps this depth per freed slot.
  predicate FitsAt(fits: (int, int) -> bool, depth: int, output: Pos, ep: Pos, b: int) {
    b >= 0 && fits(b, RefillSlots(b, output, ep) * depth)
  }

  // The pool a batch is tried with holds that depth for every slot that its groups
  // free in one step: k of each of the ep groups, where k steps of output free a group.
  lemma FitsAtExactly(fits: (int, int) -> bool, depth: int, output: Pos, ep: Pos, b: nat, k: nat)
    requires (k - 1) * output < b / ep <= k * output
    ensures FitsAt(fits, depth, output, ep, b) <==> fits(b, ep * k * depth)
  {
    CeilDivIs(b / ep, output, k);
    hide CeilDiv;
  }

  lemma CeilDivIs(a: nat, b: Pos, k: nat)
    requires (k - 1) * b < a <= k * b
    ensures CeilDiv(a, b) == k
  {
    var n := CeilDiv(a, b);
    assert a + b - 1 == n * b + (a + b - 1) % b;
    MultiplyOrdered(n + 1, k, b);
    MultiplyOrdered(k + 1, n, b);
    MultiplyOrdered(k, n, b);
    MultiplyOrdered(n, k, b);
    KTimes(k, b);
  }

  lemma KTimes(k: int, b: int)
    ensures (k - 1) * b == k * b - b
  {}

  function FitsWith(fits: (int, int) -> bool, depth: int, output: Pos, ep: Pos): int -> bool {
    b => FitsAt(fits, depth, output, ep, b)
  }

  function UnitsBelow(batch: Pos, quantum: Pos): nat { (batch - 1) / quantum }

  // native_capacity_batch: the largest batch below a rejected one whose cycle peak fits the pools.
  // None: division by zero.
  method NativeCapacityBatch(fits: (int, int) -> bool, batch: Pos, pool: nat, output: Pos, ep: Pos, quantum: Pos)
    returns (largest: Option<int>)
    ensures largest.None? <==> batch < ep
    ensures largest.Some? ==> largest.value < batch
    ensures largest.Some? ==> Adjacent(FitsWith(fits, PoolDepth(batch, pool, output, ep), output, ep), quantum,
                                       UnitsBelow(batch, quantum), largest.value)
    ensures largest.Some? && largest.value + quantum < batch ==>
              !FitsAt(fits, PoolDepth(batch, pool, output, ep), output, ep, largest.value + quantum)
  {
    hide FitsAt, PoolDepth, RefillSlots, UnitsBelow;
    if batch < ep { return None; }
    var probe := new Probe(FitsWith(fits, PoolDepth(batch, pool, output, ep), output, ep));
    var ceiling := UnitsBelow(batch, quantum);
    var chosen := Bisect(probe, quantum, 0, ceiling);
    CeilingBelow(batch, quantum);
    NextMultiple(chosen, quantum);
    return Some(chosen);
  }

  lemma NextMultiple(m: int, quantum: Pos)
    requires m % quantum == 0
    ensures (m + quantum) % quantum == 0
  {
    UnitBatch(m / quantum + 1, quantum);
    UnitBatch(m / quantum, quantum);
  }

  lemma CeilingBelow(batch: Pos, quantum: Pos)
    ensures UnitsBelow(batch, quantum) * quantum < batch
    ensures forall m :: m % quantum == 0 && m < batch ==> m <= UnitsBelow(batch, quantum) * quantum
  {
    assert batch - 1 == UnitsBelow(batch, quantum) * quantum + (batch - 1) % quantum;
    forall m | m % quantum == 0 && m < batch ensures m <= UnitsBelow(batch, quantum) * quantum {
      MultipleBelow(m, UnitsBelow(batch, quantum), quantum);
    }
  }

  // ----- search_candidates: capacity first, then the SLO below it

  datatype Screen =
    | CapacityRejected
    | SloRejected(maximum: int)
    | Screened(maximum: int, candidate: int)

  method ScreenStrategy(capacity: Probe, slo: Probe, quantum: Pos, upper: int) returns (r: Screen)
    requires capacity != slo
    modifies capacity, slo
    ensures r.CapacityRejected? <==> !capacity.accepts(quantum) || upper < quantum
    ensures !r.CapacityRejected? ==>
              quantum <= r.maximum && Adjacent(capacity.accepts, quantum, upper / quantum, r.maximum)
    ensures !r.CapacityRejected? ==> (r.SloRejected? <==> !slo.accepts(quantum))
    ensures r.Screened? ==> quantum <= r.candidate && Adjacent(slo.accepts, quantum, r.maximum / quantum, r.candidate)
  {
    var minimum := capacity.Check(quantum);
    if !minimum || upper < quantum { return CapacityRejected; }
    var maximum := Bisect(capacity, quantum, 1, upper / quantum);
    var first := slo.Check(quantum);
    if !first { return SloRejected(maximum); }
    var candidate := Bisect(slo, quantum, 1, maximum / quantum);
    return Screened(maximum, candidate);
  }

  // With monotone predicates the candidate is the largest batch that fits and meets the SLO.
  lemma CandidateIsLargest(capacity: int -> bool, slo: int -> bool, quantum: Pos, upper: int, maximum: int,
                           candidate: int)
    requires Monotone(capacity) && Monotone(slo) && 0 < quantum <= upper && quantum <= maximum && quantum <= candidate
    requires Adjacent(capacity, quantum, upper / quantum, maximum)
    requires Adjacent(slo, quantum, maximum / quantum, candidate)
    ensures capacity(candidate) && slo(candidate)
    ensures forall k :: 0 < k <= upper / quantum && capacity(k * quantum) && slo(k * quantum) ==>
              k * quantum <= candidate
  {
    AdjacentIsGreatest(capacity, quantum, upper / quantum, maximum);
    AdjacentIsGreatest(slo, quantum, maximum / quantum, candidate);
    assert maximum == maximum / quantum * quantum;
    forall k | 0 < k <= upper / quantum && capacity(k * quantum) && slo(k * quantum)
      ensures k * quantum <= candidate
    {
      Ordered(maximum / quantum, k, k, quantum);
    }
  }
}
