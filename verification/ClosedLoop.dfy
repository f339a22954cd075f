// Seed ages and the import pool of a closed-loop run: scripts/exploring_hbf_native_config.py.
module ClosedLoop {
  import opened Prelude
  import opened RealFacts
  import opened QuantumFacts

  // ----- Seed ages

  // Age of a warmup seed: centered, so that the ages cover the output phases evenly.
  function Age(index: nat, batch: Pos, output: Pos): nat { (2 * index + 1) * output / (2 * batch) }

  // The seeds sit in the middle of equal parts of the output: with 2 * batch half
  // parts of it, seed k is at the (2k + 1)st, rounded down.
  lemma AgeIsCentered(index: nat, batch: Pos, output: Pos)
    requires index < batch
    ensures Age(index, batch, output) * (2 * batch) <= (2 * index + 1) * output
                                                    < (Age(index, batch, output) + 1) * (2 * batch)
    ensures Age(index, batch, output) < output
  {
    var n, d := (2 * index + 1) * output, 2 * batch;
    var q := n / d;
    assert n == q * d + n % d;
    assert (q + 1) * d == q * d + d;
    MultiplyOrdered(2 * index + 1, d, output);
    assert d * output == output * d;
    MultiplyOrdered(output, q, d);
  }

  // Ages of the seeds below n that serving places in one EP group.
  function GroupAges(batch: Pos, output: Pos, ep: Pos, group: nat, n: nat): seq<nat> {
    if n == 0 then []
    else
      var rest := GroupAges(batch, output, ep, group, n - 1);
      if (n - 1) % ep == group then rest + [Age(n - 1, batch, output)] else rest
  }

  method SeedAgesByGroup(batch: Pos, output: Pos, ep: Pos) returns (groups: seq<seq<nat>>)
    ensures |groups| == ep
    ensures forall g :: 0 <= g < ep ==> groups[g] == GroupAges(batch, output, ep, g, batch)
  {
    groups := seq(ep, _ => []);
    for index := 0 to batch
      invariant |groups| == ep
      invariant forall g :: 0 <= g < ep ==> groups[g] == GroupAges(batch, output, ep, g, index)
    {
      var g := index % ep;
      groups := groups[g := groups[g] + [Age(index, batch, output)]];
    }
  }

  function Count(s: seq<nat>, x: int): nat {
    if s == [] then 0 else Count(s[..|s| - 1], x) + (if s[|s| - 1] == x then 1 else 0)
  }

  lemma CountSnoc(s: seq<nat>, y: nat, x: int)
    ensures Count(s + [y], x) == Count(s, x) + (if y == x then 1 else 0)
  {
    assert (s + [y])[..|s|] == s;
  }

  // ----- Points of an arithmetic progression in a window

  function CeilQuotient(x: int, d: Pos): int { -((-x) / d) }

  // d * k < x holds exactly for the k below the rounded-up quotient.
  lemma BelowCeil(x: int, d: Pos, k: int)
    ensures d * k < x <==> k < CeilQuotient(x, d)
  {
    var c := CeilQuotient(x, d);
    var r := (-x) % d;
    assert -x == (-x) / d * d + r;
    assert x == c * d - r;
    MultiplyOrdered(k, c, d);
    MultiplyOrdered(c, k, d);
  }

  lemma DivisionOf(x: int, d: Pos, q: int, r: int)
    requires x == q * d + r && 0 <= r < d
    ensures x / d == q
  {
    assert x == x / d * d + x % d;
    MultiplyOrdered(q, x / d, d);
    MultiplyOrdered(x / d, q, d);
  }

  // Two rounded-up quotients a width apart differ by the width's quotient, rounded down or up.
  lemma CeilWindow(x: int, w: nat, d: Pos)
    ensures w / d <= CeilQuotient(x + w, d) - CeilQuotient(x, d) <= CeilDiv(w, d)
  {
    var c, r := CeilQuotient(x, d), (-x) % d;
    assert -x == -c * d + r;
    var q, s := w / d, w % d;
    assert w == q * d + s;
    assert -(x + w) == (-c - q) * d + (r - s);
    if s <= r {
      DivisionOf(-(x + w), d, -c - q, r - s);
    } else {
      assert -(x + w) == (-c - q - 1) * d + (r - s + d);
      DivisionOf(-(x + w), d, -c - q - 1, r - s + d);
      DivisionOf(w + d - 1, d, q + 1, s - 1);
    }
    if s == 0 { DivisionOf(w + d - 1, d, q, d - 1); } else { DivisionOf(w + d - 1, d, q + 1, s - 1); }
  }

  // ----- Every phase is hit the rounded-down or rounded-up average number of times

  // The scaled age of the k-th seed of a group: (2 * (group + ep * k) + 1) * output.
  function Scaled(group: nat, ep: Pos, output: Pos, k: int): int { (2 * group + 1) * output + 2 * ep * output * k }

  // How many leading seeds of a group have a scaled age below x.
  function SeedsBelow(group: nat, ep: Pos, output: Pos, x: int): int {
    CeilQuotient(x - (2 * group + 1) * output, 2 * ep * output)
  }

  lemma ScaledBelow(group: nat, ep: Pos, output: Pos, x: int, k: int)
    ensures Scaled(group, ep, output, k) < x <==> k < SeedsBelow(group, ep, output, x)
  {
    BelowCeil(x - (2 * group + 1) * output, 2 * ep * output, k);
  }

  lemma AgeWindow(group: nat, ep: Pos, output: Pos, n: Pos, k: nat, age: nat)
    requires group < ep
    ensures Age(group + ep * k, ep * n, output) == age <==>
              age * (2 * ep * n) <= Scaled(group, ep, output, k) < (age + 1) * (2 * ep * n)
  {
    var t, w: Pos := Scaled(group, ep, output, k), 2 * (ep * n);
    ScaledIndex(group, ep, output, k);
    assert t == (2 * (group + ep * k) + 1) * output;
    var a := t / w;
    assert t == a * w + t % w;
    MultiplyOrdered(a, age, w);
    MultiplyOrdered(age, a, w);
    assert (age + 1) * w == age * w + w;
  }

  lemma ScaledIndex(group: nat, ep: Pos, output: Pos, k: int)
    ensures Scaled(group, ep, output, k) == (2 * (group + ep * k) + 1) * output
  {}

  function Within(x: int, low: int, high: int): nat { if low <= x < high then 1 else 0 }

  function Clamp(x: int, m: nat): nat { if x < 0 then 0 else if x > m then m else x }

  // Ages of the first m seeds of a group, by position in the group.
  function LeadingAges(group: nat, ep: Pos, output: Pos, n: Pos, m: nat): seq<nat> {
    if m == 0 then []
    else LeadingAges(group, ep, output, n, m - 1) + [Age(group + ep * (m - 1), ep * n, output)]
  }

  lemma {:induction false} CountByPosition(group: nat, ep: Pos, output: Pos, n: Pos, m: nat, age: nat)
    requires group < ep
    ensures var low, high := SeedsBelow(group, ep, output, age * (2 * ep * n)),
              SeedsBelow(group, ep, output, (age + 1) * (2 * ep * n));
            low <= high && Count(LeadingAges(group, ep, output, n, m), age) == Clamp(high, m) - Clamp(low, m)
  {
    var x, y := age * (2 * ep * n), (age + 1) * (2 * ep * n);
    var low, high := SeedsBelow(group, ep, output, x), SeedsBelow(group, ep, output, y);
    assert x <= y;
    ScaledBelow(group, ep, output, x, high);
    ScaledBelow(group, ep, output, y, high);
    if m > 0 {
      CountByPosition(group, ep, output, n, m - 1, age);
      CountSnoc(LeadingAges(group, ep, output, n, m - 1), Age(group + ep * (m - 1), ep * n, output), age);
      AgeWindow(group, ep, output, n, m - 1, age);
      ScaledBelow(group, ep, output, x, m - 1);
      ScaledBelow(group, ep, output, y, m - 1);
    }
  }

  // How many of the first seeds a group has.
  function GroupRank(group: nat, ep: Pos, index: nat): int {
    if index <= group then 0 else (index - group - 1) / ep + 1
  }

  // Both ranks around a seed, from its distance to the group's first.
  lemma RankAround(group: nat, ep: Pos, last: nat, q: nat, r: nat, qep: int)
    requires group < ep && qep == q * ep && last == group + qep + r && r < ep
    ensures GroupRank(group, ep, last + 1) == q + 1
    ensures GroupRank(group, ep, last) == if r == 0 then q else q + 1
    ensures last % ep == group <==> r == 0
  {
    DivisionOf(last - group, ep, q, r);
    if r == 0 {
      Remainder(last, ep, q, group);
      if q > 0 { DivisionOf(last - group - 1, ep, q - 1, ep - 1); }
    } else {
      NotThisGroup(last, ep, q, r, group);
      DivisionOf(last - group - 1, ep, q, r - 1);
    }
  }

  lemma Remainder(x: int, d: Pos, q: int, r: int)
    requires x == q * d + r && 0 <= r < d
    ensures x % d == r
  {
    DivisionOf(x, d, q, r);
    assert x == x / d * d + x % d;
  }

  lemma NextRank(group: nat, ep: Pos, last: nat)
    requires group < ep
    ensures GroupRank(group, ep, last) >= 0
    ensures if last % ep == group
            then GroupRank(group, ep, last + 1) == GroupRank(group, ep, last) + 1
              && last == group + ep * GroupRank(group, ep, last)
            else GroupRank(group, ep, last + 1) == GroupRank(group, ep, last)
  {
    if last < group {
      Remainder(last, ep, 0, last);
    } else {
      hide GroupRank;
      var q, r := (last - group) / ep, (last - group) % ep;
      assert last - group == q * ep + r;
      RankAround(group, ep, last, q, r, q * ep);
    }
  }

  lemma {:induction false} GroupPositions(group: nat, ep: Pos, output: Pos, n: Pos, index: nat)
    requires group < ep
    ensures GroupRank(group, ep, index) >= 0
    ensures GroupAges(ep * n, output, ep, group, index) == LeadingAges(group, ep, output, n,
              GroupRank(group, ep, index))
  {
    NextRank(group, ep, index);
    if index > 0 {
      GroupPositions(group, ep, output, n, index - 1);
      NextRank(group, ep, index - 1);
      hide GroupRank, Age;
    }
  }

  lemma NotThisGroup(last: nat, ep: Pos, q: nat, r: nat, group: nat)
    requires last == q * ep + (r + group) && 0 < r < ep && group < ep
    ensures last % ep != group
  {
    if r + group < ep {
      Remainder(last, ep, q, r + group);
    } else {
      assert (q + 1) * ep == q * ep + ep;
      Remainder(last, ep, q + 1, r + group - ep);
    }
  }

  lemma ScaledQuotient(n: nat, output: Pos, f: Pos)
    ensures f * n / (f * output) == n / output
    ensures CeilDiv(f * n, f * output) == CeilDiv(n, output)
  {
    var q, r := n / output, n % output;
    assert n == q * output + r;
    assert f * n == q * (f * output) + f * r;
    MultiplyOrdered(r, output, f);
    assert 0 <= f * r < f * output;
    DivisionOf(f * n, f * output, q, f * r);
    if r == 0 {
      DivisionOf(f * n + f * output - 1, f * output, q, f * output - 1);
      DivisionOf(n + output - 1, output, q, output - 1);
    } else {
      MultiplyOrdered(1, r, f);
      DivisionOf(f * n + f * output - 1, f * output, q + 1, f * r - 1);
      DivisionOf(n + output - 1, output, q + 1, r - 1);
    }
  }

  // Each phase of each group's seeds is hit floor or ceil of (B/ep)/output times.
  lemma SeedPhases(ep: Pos, n: Pos, output: Pos, group: nat, age: nat)
    requires group < ep && age < output
    ensures n / output <= Count(GroupAges(ep * n, output, ep, group, ep * n), age) <= CeilDiv(n, output)
  {
    hide SeedsBelow, GroupAges, LeadingAges, GroupRank, Count, CeilDiv;
    GroupPositions(group, ep, output, n, ep * n);
    LastPosition(group, ep, n);
    CountByPosition(group, ep, output, n, n, age);
    AllInside(group, ep, output, n, age);
    WindowSeeds(group, ep, output, n, age * (2 * ep * n), (age + 1) * (2 * ep * n));
  }

  // A window of one phase's width holds the rounded-down or rounded-up share of seeds.
  lemma WindowSeeds(group: nat, ep: Pos, output: Pos, n: Pos, x: int, y: int)
    requires y == x + 2 * ep * n
    ensures n / output <= SeedsBelow(group, ep, output, y) - SeedsBelow(group, ep, output, x) <= CeilDiv(n, output)
  {
    hide CeilQuotient, CeilDiv;
    CeilWindow(x - (2 * group + 1) * output, 2 * ep * n, 2 * ep * output);
    ScaledQuotient(n, output, 2 * ep);
  }

  lemma LastPosition(group: nat, ep: Pos, n: Pos)
    requires group < ep
    ensures GroupRank(group, ep, ep * n) == n
  {
    MultiplyOrdered(1, n, ep);
    assert ep * n - group - 1 == (n - 1) * ep + (ep - group - 1);
    DivisionOf(ep * n - group - 1, ep, n - 1, ep - group - 1);
  }

  lemma FirstInside(group: nat, ep: Pos, output: Pos, x: nat)
    requires group < ep
    ensures 0 <= SeedsBelow(group, ep, output, x)
  {
    ScaledBelow(group, ep, output, x, -1);
    var c := (2 * group + 1) * output;
    MultiplyOrdered(2 * group + 1, 2 * ep, output);
    assert Scaled(group, ep, output, -1) == c - 2 * ep * output;
  }

  lemma LastInside(group: nat, ep: Pos, output: Pos, n: Pos, y: int)
    requires y <= output * (2 * ep * n)
    ensures SeedsBelow(group, ep, output, y) <= n
  {
    ScaledBelow(group, ep, output, y, n);
    assert 2 * ep * output * n == output * (2 * ep * n);
    assert (2 * group + 1) * output > 0;
  }

  // Every window of a phase below output lies within the group's seeds.
  lemma AllInside(group: nat, ep: Pos, output: Pos, n: Pos, age: nat)
    requires group < ep && age < output
    ensures 0 <= SeedsBelow(group, ep, output, age * (2 * ep * n))
    ensures SeedsBelow(group, ep, output, (age + 1) * (2 * ep * n)) <= n
  {
    hide SeedsBelow;
    var w: Pos := 2 * ep * n;
    FirstInside(group, ep, output, age * w);
    MultiplyOrdered(age + 1, output, w);
    LastInside(group, ep, output, n, (age + 1) * w);
  }

  // ----- Whole closed-loop runs

  // One decode step of a group: every slot emits a token; a slot that has
  // emitted all its outputs is free and refilled at the next step.
  function Advance(ages: seq<nat>, output: Pos): (r: seq<nat>)
    ensures |r| == |ages|
    ensures forall i :: 0 <= i < |r| ==> r[i] == if ages[i] + 1 >= output then 0 else ages[i] + 1
  {
    seq(|ages|, i requires 0 <= i < |ages| => if ages[i] + 1 >= output then 0 else ages[i] + 1)
  }

  function Loop(ages: seq<nat>, output: Pos, steps: nat): seq<nat> {
    if steps == 0 then ages else Advance(Loop(ages, output, steps - 1), output)
  }

  // The slots a group frees in a step.
  function Freed(ages: seq<nat>, output: Pos): nat { Count(ages, output - 1) }

  predicate Below(ages: seq<nat>, output: Pos) { forall i :: 0 <= i < |ages| ==> ages[i] < output }

  function Before(age: nat, output: Pos): nat
    requires age < output
  {
    if age == 0 then output - 1 else age - 1
  }

  lemma {:induction false} CountAdvanced(ages: seq<nat>, output: Pos, age: nat)
    requires Below(ages, output) && age < output
    ensures Below(Advance(ages, output), output)
    ensures Count(Advance(ages, output), age) == Count(ages, Before(age, output))
  {
    if ages != [] {
      var k := |ages| - 1;
      CountAdvanced(ages[..k], output, age);
      assert Advance(ages, output)[..k] == Advance(ages[..k], output);
    }
  }

  // After any number of steps, the slots at a phase are the seeds of one phase.
  lemma {:induction false} LoopPhase(ages: seq<nat>, output: Pos, steps: nat, age: nat) returns (seed: nat)
    requires Below(ages, output) && age < output
    ensures seed < output && Below(Loop(ages, output, steps), output)
    ensures Count(Loop(ages, output, steps), age) == Count(ages, seed)
  {
    if steps == 0 {
      seed := age;
    } else {
      seed := LoopPhase(ages, output, steps - 1, Before(age, output));
      CountAdvanced(Loop(ages, output, steps - 1), output, age);
    }
  }

  lemma AgeBelow(index: nat, batch: Pos, output: Pos)
    requires index < batch
    ensures Age(index, batch, output) < output
  {
    var t := (2 * index + 1) * output;
    MultiplyOrdered(2 * index + 1, 2 * batch, output);
    var a := t / (2 * batch);
    assert t == a * (2 * batch) + t % (2 * batch);
    MultiplyOrdered(output, a, 2 * batch);
  }

  lemma {:induction false} GroupBelow(batch: Pos, output: Pos, ep: Pos, group: nat, n: nat)
    requires n <= batch
    ensures Below(GroupAges(batch, output, ep, group, n), output)
  {
    if n > 0 {
      GroupBelow(batch, output, ep, group, n - 1);
      AgeBelow(n - 1, batch, output);
    }
  }

  // In every step of every run a group frees floor or ceil of (B/ep)/output slots.
  lemma RefillBound(ep: Pos, n: Pos, output: Pos, group: nat, step: nat)
    requires group < ep
    ensures var seeds := GroupAges(ep * n, output, ep, group, ep * n);
            n / output <= Freed(Loop(seeds, output, step), output) <= CeilDiv(n, output)
  {
    var seeds := GroupAges(ep * n, output, ep, group, ep * n);
    GroupBelow(ep * n, output, ep, group, ep * n);
    var seed := LoopPhase(seeds, output, step, output - 1);
    SeedPhases(ep, n, output, group, seed);
  }

  function FreedWithin(ages: seq<nat>, output: Pos, from: nat, steps: nat): nat {
    if steps == 0 then 0
    else FreedWithin(ages, output, from, steps - 1) + Freed(Loop(ages, output, from + steps - 1), output)
  }

  lemma {:induction false} WindowBound(ep: Pos, n: Pos, output: Pos, group: nat, from: nat, steps: nat)
    requires group < ep
    ensures FreedWithin(GroupAges(ep * n, output, ep, group, ep * n), output, from, steps) <= steps * CeilDiv(n, output)
  {
    hide GroupAges, Loop, CeilDiv, Freed;
    if steps > 0 {
      WindowBound(ep, n, output, group, from, steps - 1);
      RefillBound(ep, n, output, group, from + steps - 1);
      var share := CeilDiv(n, output);
      assert steps * share == (steps - 1) * share + share;
    }
  }

  // ----- The prepared-import pool

  // chunk 0: not chunked; kvHeads 0: no KV.
  datatype KvLayer = KvLayer(linearAttention: bool, kvHeads: nat, headDim: Option<nat>, hidden: nat, heads: Pos,
                             chunk: nat, dtypeBytes: nat)

  function LayerKv(l: KvLayer, prompt: Pos): nat {
    if l.linearAttention || l.kvHeads == 0 then 0
    else
      var dim := if l.headDim.Some? && l.headDim.value != 0 then l.headDim.value else l.hidden / l.heads;
      var tokens := if l.chunk != 0 && l.chunk < prompt - 1 then l.chunk else prompt - 1;
      Times(Times(2 * l.kvHeads, dim), Times(l.dtypeBytes, tokens))
  }

  function Times(a: nat, b: nat): nat { a * b }

  function KvBytes(layers: seq<KvLayer>, prompt: Pos): nat {
    if layers == [] then 0 else KvBytes(layers[..|layers| - 1], prompt) + LayerKv(layers[|layers| - 1], prompt)
  }

  const PD_LINK_BYTES_PER_SECOND := 100000000000.0

  function ImportSeconds(kv: nat, tp: Pos, pp: Pos, write: PosReal): real {
    kv as real / (tp * pp) as real / MinReal(PD_LINK_BYTES_PER_SECOND, write)
  }

  function CeilReal(x: real): int { -((-x).Floor) }

  // The steps an import may span, and the one in which the slot frees.
  function Depth(seconds: real, slo: PosReal): int { 1 + CeilReal(4.0 * seconds / slo) }

  // One more than the fewest quarter SLOs that the import fits in.
  lemma DepthExactly(seconds: real, slo: PosReal)
    ensures var steps := Depth(seconds, slo) - 1;
            4.0 * seconds <= steps as real * slo && (steps - 1) as real * slo < 4.0 * seconds
  {
    var x := 4.0 * seconds / slo;
    var k := CeilReal(x);
    QuotientAtMost(4.0 * seconds, slo, k as real, k as real * slo);
    QuotientAtLeast(4.0 * seconds, slo, (k - 1) as real, (k - 1) as real * slo);
  }

  // None: a batch its EP degree does not divide.
  method ImportPool(layers: seq<KvLayer>, prompt: Pos, output: Pos, batch: Pos, tp: Pos, pp: Pos, ep: Pos,
                    write: PosReal, slo: PosReal)
    returns (pool: Option<int>)
    ensures pool.None? <==> batch % ep != 0
    ensures pool.Some? ==> pool.value == ep * CeilDiv(batch / ep, output)
                                         * Depth(ImportSeconds(KvBytes(layers, prompt), tp, pp, write), slo)
  {
    hide Times, CeilDiv, Depth, ImportSeconds;
    if batch % ep != 0 { return None; }
    var kv := 0;
    for k := 0 to |layers|
      invariant kv == KvBytes(layers[..k], prompt)
    {
      var l := layers[k];
      assert layers[..k + 1][..k] == layers[..k];
      if !l.linearAttention && l.kvHeads != 0 {
        var dim := if l.headDim.Some? && l.headDim.value != 0 then l.headDim.value else l.hidden / l.heads;
        var tokens := if l.chunk != 0 && l.chunk < prompt - 1 then l.chunk else prompt - 1;
        kv := kv + Times(Times(2 * l.kvHeads, dim), Times(l.dtypeBytes, tokens));
      }
    }
    assert layers[..|layers|] == layers;
    var seconds := ImportSeconds(kv, tp, pp, write);
    return Some(ep * CeilDiv(batch / ep, output) * Depth(seconds, slo));
  }

  // What a request's KV holds in one layer: two rows of the head dimension per KV
  // head for every prompt token but the last, or for the last chunk of them.
  lemma LayerKvIs(l: KvLayer, prompt: Pos, dim: nat, tokens: nat)
    requires if l.headDim == Some(0) || l.headDim.None? then dim == l.hidden / l.heads else dim == l.headDim.value
    requires tokens <= prompt - 1 && (l.chunk == 0 ==> tokens == prompt - 1)
    requires l.chunk > 0 ==> tokens <= l.chunk && (tokens == l.chunk || tokens == prompt - 1)
    ensures LayerKv(l, prompt) == if l.linearAttention then 0 else 2 * l.kvHeads * dim * (l.dtypeBytes * tokens)
  {}

  // An import takes just as long as a rank's share of the KV does at the slower
  // of the link and the write rate.
  lemma ImportSecondsExactly(kv: nat, tp: Pos, pp: Pos, write: PosReal)
    ensures var time := ImportSeconds(kv, tp, pp, write) * (tp * pp) as real;
            && time * 100000000000.0 >= kv as real && time * write >= kv as real
            && (time * 100000000000.0 == kv as real || time * write == kv as real)
  {
    var ranks: PosReal, rate: PosReal := (tp * pp) as real, MinReal(PD_LINK_BYTES_PER_SECOND, write);
    var share := kv as real / ranks;
    QuotientTimes(kv as real, ranks);
    QuotientTimes(share, rate);
    var seconds := share / rate;
    QuotientAtLeast(kv as real, ranks, 0.0, 0.0);
    QuotientAtLeast(share, rate, 0.0, 0.0);
    var time := seconds * ranks;
    ImportTime(seconds, ranks, rate, share, kv as real);
    Faster(time, rate, 100000000000.0);
    Faster(time, rate, write);
  }

  lemma ImportTime(seconds: real, ranks: PosReal, rate: PosReal, share: real, kv: real)
    requires seconds * rate == share && share * ranks == kv && seconds >= 0.0
    ensures seconds * ranks * rate == kv && seconds * ranks >= 0.0
  {
    assert seconds * ranks * rate == seconds * rate * ranks;
  }

  lemma Faster(time: real, rate: real, other: real)
    requires time >= 0.0 && rate <= other
    ensures time * rate <= time * other
  {
    assert time * (other - rate) >= 0.0;
    assert time * (other - rate) == time * other - time * rate;
  }

  // While one import runs, at a TPOT of at least a quarter of the SLO, a group
  // frees no more slots than its share of the pool holds.
  lemma PoolCoversImport(ep: Pos, n: Pos, output: Pos, group: nat, from: nat, seconds: real, slo: PosReal, steps: nat)
    requires group < ep && seconds >= 0.0
    requires steps == 0 || (steps - 1) as real * (slo / 4.0) < seconds
    ensures Depth(seconds, slo) > steps
    ensures FreedWithin(GroupAges(ep * n, output, ep, group, ep * n), output, from, steps + 1)
         <= CeilDiv(n, output) * Depth(seconds, slo)
    ensures ep * CeilDiv(n, output) * Depth(seconds, slo) / ep == CeilDiv(n, output) * Depth(seconds, slo)
  {
    hide FreedWithin, GroupAges, Depth, CeilDiv;
    StepsSpanned(seconds, slo, steps);
    WindowBound(ep, n, output, group, from, steps + 1);
    ShareTimes(CeilDiv(n, output), steps + 1, Depth(seconds, slo), ep);
  }

  // So it covers the steps of an import over either medium: as long as they leave
  // KV to move at its rate, the import's pool share covers them and the next.
  lemma PoolCoversKv(ep: Pos, n: Pos, output: Pos, group: nat, from: nat, kv: nat, tp: Pos, pp: Pos, write: PosReal,
                     slo: PosReal, steps: nat, rate: PosReal)
    requires group < ep && (rate == 100000000000.0 || rate == write)
    requires steps == 0 || (steps - 1) as real * (slo / 4.0) * (tp * pp) as real * rate < kv as real
    ensures FreedWithin(GroupAges(ep * n, output, ep, group, ep * n), output, from, steps + 1)
         <= CeilDiv(n, output) * Depth(ImportSeconds(kv, tp, pp, write), slo)
  {
    hide ImportSeconds, FreedWithin, GroupAges, Depth, CeilDiv;
    var seconds := ImportSeconds(kv, tp, pp, write);
    ImportSecondsExactly(kv, tp, pp, write);
    ImportNonnegative(kv, tp, pp, write);
    if steps > 0 {
      StepsLeft((steps - 1) as real * (slo / 4.0), seconds, (tp * pp) as real, rate, kv as real);
    }
    PoolCoversImport(ep, n, output, group, from, seconds, slo, steps);
  }

  lemma ImportNonnegative(kv: nat, tp: Pos, pp: Pos, write: PosReal)
    ensures ImportSeconds(kv, tp, pp, write) >= 0.0
  {
    var ranks: PosReal, rate: PosReal := (tp * pp) as real, MinReal(PD_LINK_BYTES_PER_SECOND, write);
    QuotientAtLeast(kv as real, ranks, 0.0, 0.0);
    QuotientAtLeast(kv as real / ranks, rate, 0.0, 0.0);
  }

  lemma StepsLeft(spent: real, seconds: real, ranks: PosReal, rate: PosReal, kv: real)
    requires spent * ranks * rate < kv <= seconds * ranks * rate
    ensures spent < seconds
  {
    ProductsOrdered(spent * ranks, seconds * ranks, rate, spent * ranks * rate, seconds * ranks * rate);
    ProductsOrdered(spent, seconds, ranks, spent * ranks, seconds * ranks);
  }

  lemma ShareTimes(share: nat, steps: nat, depth: nat, ep: Pos)
    requires steps <= depth
    ensures steps * share <= share * depth
    ensures ep * share * depth / ep == share * depth
  {
    assert (depth - steps) * share >= 0;
    assert (depth - steps) * share == share * depth - steps * share;
    assert ep * share * depth == share * depth * ep;
    DivisionOf(ep * share * depth, ep, share * depth, 0);
  }

  lemma StepsSpanned(seconds: real, slo: PosReal, steps: nat)
    requires seconds >= 0.0
    requires steps == 0 || (steps - 1) as real * (slo / 4.0) < seconds
    ensures Depth(seconds, slo) > steps
  {
    QuotientAtLeast(4.0 * seconds, slo, 0.0, 0.0);
    if steps > 0 {
      var k := (steps - 1) as real;
      assert k * (slo / 4.0) == k * slo / 4.0;
      QuotientAtLeast(4.0 * seconds, slo, k, k * slo);
    }
  }
}
