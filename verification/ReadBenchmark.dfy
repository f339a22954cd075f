// run_read_benchmark in scripts/hbf_hbm_bandwidth_study.py: finite transport slots in front of a serial link.
module ReadBenchmark {
  import opened Prelude

  // One chunk: it holds a slot from its arrival until its link transfer ends.
  datatype Chunk = Chunk(arrival: real, nandDone: real, linkStart: real, linkEnd: real)

  // A chunk waits for the slot of the chunk buffer_slots before it.
  function ArrivalOf(chunks: seq<Chunk>, slots: Pos): real {
    if |chunks| < slots then 0.0 else chunks[|chunks| - slots].linkEnd
  }

  // The serial link takes transfers in order; delay is the NAND service time of the chunk.
  function NextChunk(chunks: seq<Chunk>, slots: Pos, delay: real, latency: real, transfer: real): Chunk {
    var arrival := ArrivalOf(chunks, slots);
    var ready := arrival + delay + latency;
    var start := if chunks == [] then MaxReal(ready, 0.0) else MaxReal(ready, chunks[|chunks| - 1].linkEnd);
    Chunk(arrival, arrival + delay, start, start + transfer)
  }

  function Timeline(slots: Pos, delays: seq<real>, latency: real, transfer: real): (chunks: seq<Chunk>)
    ensures |chunks| == |delays|
  {
    if delays == [] then []
    else
      var before := Timeline(slots, delays[..|delays| - 1], latency, transfer);
      before + [NextChunk(before, slots, delays[|delays| - 1], latency, transfer)]
  }

  // NAND never completes before arrival, and a transfer takes time.
  predicate ValidDelays(delays: seq<real>, latency: real, transfer: real) {
    (forall i :: 0 <= i < |delays| ==> delays[i] >= 0.0) && latency >= 0.0 && transfer > 0.0
  }

  // In order on the link, each chunk admitted when the slot before it frees.
  predicate InOrder(chunks: seq<Chunk>, slots: Pos, transfer: real) {
    && (forall i :: 0 <= i < |chunks| ==> 0.0 <= chunks[i].arrival <= chunks[i].linkStart)
    && (forall i :: 0 <= i < |chunks| ==> chunks[i].linkEnd == chunks[i].linkStart + transfer)
    && (forall i, j :: 0 <= i < j < |chunks| ==> chunks[i].linkEnd <= chunks[j].linkStart)
    && (forall j :: slots <= j < |chunks| ==> chunks[j].arrival == chunks[j - slots].linkEnd)
  }

  lemma InOrderSnoc(before: seq<Chunk>, c: Chunk, slots: Pos, transfer: real)
    requires InOrder(before, slots, transfer) && c.arrival == ArrivalOf(before, slots)
    requires 0.0 <= c.arrival <= c.linkStart && c.linkEnd == c.linkStart + transfer && transfer > 0.0
    requires before != [] ==> before[|before| - 1].linkEnd <= c.linkStart
    ensures InOrder(before + [c], slots, transfer)
  {
    forall i | 0 <= i < |before| ensures before[i].linkEnd <= c.linkStart {
      var last := |before| - 1;
      if i < last { assert before[i].linkEnd <= before[last].linkStart; }
    }
  }

  lemma {:induction false} TimelineInOrder(slots: Pos, delays: seq<real>, latency: real, transfer: real)
    requires ValidDelays(delays, latency, transfer)
    ensures InOrder(Timeline(slots, delays, latency, transfer), slots, transfer)
  {
    if delays != [] {
      var init := delays[..|delays| - 1];
      TimelineInOrder(slots, init, latency, transfer);
      var before := Timeline(slots, init, latency, transfer);
      ArrivalNonnegative(before, slots, transfer);
      hide InOrder, ArrivalOf;
      InOrderSnoc(before, NextChunk(before, slots, delays[|delays| - 1], latency, transfer), slots, transfer);
    }
  }

  lemma ArrivalNonnegative(chunks: seq<Chunk>, slots: Pos, transfer: real)
    requires InOrder(chunks, slots, transfer) && transfer > 0.0
    ensures ArrivalOf(chunks, slots) >= 0.0
  {}

  // Each chunk arrives when its slot frees, its NAND service ends its delay later,
  // and it takes the link at the earliest time after the latency and the chunk before.
  predicate Earliest(chunks: seq<Chunk>, i: nat, slots: Pos, delay: real, latency: real)
    requires i < |chunks|
  {
    var c := chunks[i];
    && c.arrival == (if i < slots then 0.0 else chunks[i - slots].linkEnd)
    && c.nandDone - c.arrival == delay
    && c.linkStart >= c.nandDone + latency && (i > 0 ==> c.linkStart >= chunks[i - 1].linkEnd)
    && (c.linkStart == c.nandDone + latency || (i > 0 && c.linkStart == chunks[i - 1].linkEnd))
  }

  lemma NextEarliest(before: seq<Chunk>, slots: Pos, delay: real, latency: real, transfer: real)
    requires ArrivalOf(before, slots) >= 0.0 && delay >= 0.0 && latency >= 0.0
    ensures Earliest(before + [NextChunk(before, slots, delay, latency, transfer)], |before|, slots, delay, latency)
  {}

  lemma StillEarliest(before: seq<Chunk>, c: Chunk, i: nat, slots: Pos, delay: real, latency: real)
    requires i < |before| && Earliest(before, i, slots, delay, latency)
    ensures Earliest(before + [c], i, slots, delay, latency)
  {}

  lemma {:induction false} StartsEarliest(slots: Pos, delays: seq<real>, latency: real, transfer: real, i: nat)
    requires ValidDelays(delays, latency, transfer) && i < |delays|
    ensures Earliest(Timeline(slots, delays, latency, transfer), i, slots, delays[i], latency)
  {
    hide InOrder, Earliest, NextChunk, ArrivalOf;
    var n := |delays| - 1;
    TimelineInOrder(slots, delays[..n], latency, transfer);
    var before := Timeline(slots, delays[..n], latency, transfer);
    ArrivalNonnegative(before, slots, transfer);
    if i < n {
      StartsEarliest(slots, delays[..n], latency, transfer, i);
      StillEarliest(before, NextChunk(before, slots, delays[n], latency, transfer), i, slots, delays[i], latency);
    } else {
      NextEarliest(before, slots, delays[n], latency, transfer);
    }
  }

  // ----- Occupancy

  predicate Holds(c: Chunk, t: real) { c.arrival <= t < c.linkEnd }

  function Occupancy(chunks: seq<Chunk>, t: real): nat {
    if chunks == [] then 0
    else Occupancy(chunks[..|chunks| - 1], t) + (if Holds(chunks[|chunks| - 1], t) then 1 else 0)
  }

  // The holders of slots lie within the last buffer_slots chunks admitted.
  lemma {:induction false} HoldersAreRecent(chunks: seq<Chunk>, slots: Pos, transfer: real, t: real, first: nat)
    requires InOrder(chunks, slots, transfer) && transfer > 0.0 && first <= |chunks|
    requires forall i :: 0 <= i < first ==> !Holds(chunks[i], t)
    ensures Occupancy(chunks, t) <= |chunks| - first
  {
    if |chunks| > first {
      HoldersAreRecent(chunks[..|chunks| - 1], slots, transfer, t, first);
    } else {
      NoHolder(chunks, t);
    }
  }

  lemma {:induction false} NoHolder(chunks: seq<Chunk>, t: real)
    requires forall i :: 0 <= i < |chunks| ==> !Holds(chunks[i], t)
    ensures Occupancy(chunks, t) == 0
  {
    if chunks != [] { NoHolder(chunks[..|chunks| - 1], t); }
  }

  // At most buffer_slots chunks hold a slot at any instant.
  lemma {:induction false} SlotsSuffice(chunks: seq<Chunk>, slots: Pos, transfer: real, t: real)
    requires InOrder(chunks, slots, transfer) && transfer > 0.0
    ensures Occupancy(chunks, t) <= slots
  {
    if chunks != [] {
      var last := |chunks| - 1;
      if Holds(chunks[last], t) && last >= slots {
        // Everything at or before last - slots has left the link when the last chunk arrives.
        var first := last - slots + 1;
        assert chunks[last].arrival == chunks[first - 1].linkEnd;
        forall i | 0 <= i < first ensures !Holds(chunks[i], t) {
          if i < first - 1 { assert chunks[i].linkEnd <= chunks[first - 1].linkStart; }
        }
        HoldersAreRecent(chunks, slots, transfer, t, first);
      } else if Holds(chunks[last], t) {
        HoldersAreRecent(chunks, slots, transfer, t, 0);
      } else {
        SlotsSuffice(chunks[..last], slots, transfer, t);
      }
    }
  }

  // ----- The occupancy sweep

  function Delta(chunks: seq<Chunk>, x: real): int {
    if chunks == [] then 0
    else
      var c := chunks[|chunks| - 1];
      Delta(chunks[..|chunks| - 1], x) + (if c.arrival == x then 1 else 0) - (if c.linkEnd == x then 1 else 0)
  }

  predicate IsEvent(chunks: seq<Chunk>, x: real) {
    exists i :: 0 <= i < |chunks| && (chunks[i].arrival == x || chunks[i].linkEnd == x)
  }

  predicate PositiveHolds(chunks: seq<Chunk>) {
    forall i :: 0 <= i < |chunks| ==> chunks[i].arrival < chunks[i].linkEnd
  }

  // Between two neighbouring event times the occupancy changes by the later one's delta.
  lemma {:induction false} OccupancyStep(chunks: seq<Chunk>, before: real, x: real)
    requires PositiveHolds(chunks) && before < x
    requires forall i :: 0 <= i < |chunks| ==>
               && (chunks[i].arrival <= before || x <= chunks[i].arrival)
               && (chunks[i].linkEnd <= before || x <= chunks[i].linkEnd)
    ensures Occupancy(chunks, x) == Occupancy(chunks, before) + Delta(chunks, x)
  {
    if chunks != [] { OccupancyStep(chunks[..|chunks| - 1], before, x); }
  }

  lemma {:induction false} OccupancyFirst(chunks: seq<Chunk>, x: real)
    requires PositiveHolds(chunks) && forall i :: 0 <= i < |chunks| ==> x <= chunks[i].arrival
    ensures Occupancy(chunks, x) == Delta(chunks, x)
  {
    if chunks != [] { OccupancyFirst(chunks[..|chunks| - 1], x); }
  }

  // With no event after one time, the occupancy stays as it was there.
  lemma {:induction false} OccupancyFlat(chunks: seq<Chunk>, x: real, t: real)
    requires PositiveHolds(chunks) && x <= t
    requires forall i :: 0 <= i < |chunks| ==>
               && (chunks[i].arrival <= x || t < chunks[i].arrival)
               && (chunks[i].linkEnd <= x || t < chunks[i].linkEnd)
    ensures Occupancy(chunks, t) == Occupancy(chunks, x)
  {
    if chunks != [] { OccupancyFlat(chunks[..|chunks| - 1], x, t); }
  }

  // The deltas by event time, with the times in the order they were first seen.
  method Changes(chunks: seq<Chunk>) returns (changes: map<real, int>, times: seq<real>)
    ensures forall x :: x in times <==> IsEvent(chunks, x)
    ensures forall x :: x in times <==> x in changes
    ensures forall x :: x in changes ==> changes[x] == Delta(chunks, x)
    ensures Distinct(times)
  {
    changes, times := map[], [];
    for k := 0 to |chunks|
      invariant forall x :: x in times <==> IsEvent(chunks[..k], x)
      invariant forall x :: x in times <==> x in changes
      invariant forall x :: Delta(chunks[..k], x) == if x in changes then changes[x] else 0
      invariant Distinct(times)
    {
      var c := chunks[k];
      EventsSnoc(chunks, k);
      if c.arrival !in changes { times := times + [c.arrival]; }
      changes := changes[c.arrival := (if c.arrival in changes then changes[c.arrival] else 0) + 1];
      if c.linkEnd !in changes { times := times + [c.linkEnd]; }
      changes := changes[c.linkEnd := (if c.linkEnd in changes then changes[c.linkEnd] else 0) - 1];
    }
    assert chunks[..|chunks|] == chunks;
  }

  predicate Ascending(times: seq<real>) { forall i, j :: 0 <= i < j < |times| ==> times[i] < times[j] }

  function Insert(x: real, times: seq<real>): seq<real> {
    if times == [] then [x]
    else if times[|times| - 1] <= x then times + [x]
    else Insert(x, times[..|times| - 1]) + [times[|times| - 1]]
  }

  function SortTimes(times: seq<real>): seq<real> {
    if times == [] then [] else Insert(times[|times| - 1], SortTimes(times[..|times| - 1]))
  }

  lemma {:induction false} InsertAscends(x: real, times: seq<real>, top: real)
    requires Ascending(times) && x !in times && x < top && forall i :: 0 <= i < |times| ==> times[i] < top
    ensures Ascending(Insert(x, times))
    ensures forall i :: 0 <= i < |Insert(x, times)| ==> Insert(x, times)[i] < top
  {
    if times != [] {
      var k := |times| - 1;
      assert times[k] in times;
      if x < times[k] { InsertAscends(x, times[..k], times[k]); }
    }
  }

  lemma {:induction false} InsertHolds(x: real, times: seq<real>)
    ensures forall y :: y in Insert(x, times) <==> y == x || y in times
  {
    if times != [] {
      var k := |times| - 1;
      assert times == times[..k] + [times[k]];
      if x < times[k] { InsertHolds(x, times[..k]); }
    }
  }

  lemma {:induction false} SortAscends(times: seq<real>)
    requires Distinct(times)
    ensures Ascending(SortTimes(times)) && forall y :: y in SortTimes(times) <==> y in times
  {
    if times != [] {
      var k := |times| - 1;
      SortAscends(times[..k]);
      assert times == times[..k] + [times[k]];
      var rest := SortTimes(times[..k]);
      var top := MaxReal(times[k], if rest == [] then times[k] else rest[|rest| - 1]) + 1.0;
      InsertAscends(times[k], rest, top);
      InsertHolds(times[k], rest);
    }
  }

  lemma EventsSnoc(chunks: seq<Chunk>, k: nat)
    requires k < |chunks|
    ensures forall x :: IsEvent(chunks[..k + 1], x) <==>
              IsEvent(chunks[..k], x) || chunks[k].arrival == x || chunks[k].linkEnd == x
    ensures chunks[..k + 1][..k] == chunks[..k]
  {
    var longer, shorter := chunks[..k + 1], chunks[..k];
    assert longer[k] == chunks[k];
    forall x ensures IsEvent(longer, x) <==> IsEvent(shorter, x) || chunks[k].arrival == x || chunks[k].linkEnd == x {
      if IsEvent(shorter, x) {
        var i :| 0 <= i < k && (shorter[i].arrival == x || shorter[i].linkEnd == x);
        assert longer[i] == shorter[i];
      }
    }
  }

  // The sweep over sorted event times finds exactly the greatest occupancy.
  method PeakOccupancy(chunks: seq<Chunk>) returns (peak: int)
    requires PositiveHolds(chunks)
    ensures forall t :: Occupancy(chunks, t) <= peak
    ensures peak == 0 || exists t :: Occupancy(chunks, t) == peak
    ensures chunks != [] ==> peak >= 1
  {
    var changes, times := Changes(chunks);
    SortAscends(times);
    var sorted := SortTimes(times);
    EventsListed(chunks, sorted);
    var population := 0;
    peak := 0;
    for k := 0 to |sorted|
      invariant population == if k == 0 then 0 else Occupancy(chunks, sorted[k - 1])
      invariant peak >= 0 && forall j :: 0 <= j < k ==> Occupancy(chunks, sorted[j]) <= peak
      invariant peak == 0 || exists t :: Occupancy(chunks, t) == peak
    {
      if k == 0 { OccupancyFirst(chunks, sorted[0]); } else { OccupancyStep(chunks, sorted[k - 1], sorted[k]); }
      assert sorted[k] in sorted;
      population := population + changes[sorted[k]];
      peak := if population > peak then population else peak;
    }
    forall t ensures Occupancy(chunks, t) <= peak {
      AtMostPeak(chunks, sorted, peak, t);
    }
    if chunks != [] {
      HolderCounts(chunks, 0);
    }
  }

  // Every arrival and departure is a listed time, so none lies between two neighbours.
  predicate Listed(chunks: seq<Chunk>, sorted: seq<real>) {
    forall i :: 0 <= i < |chunks| ==> chunks[i].arrival in sorted && chunks[i].linkEnd in sorted
  }

  lemma EventsListed(chunks: seq<Chunk>, sorted: seq<real>)
    requires Ascending(sorted) && forall x :: IsEvent(chunks, x) ==> x in sorted
    ensures Listed(chunks, sorted)
    ensures forall k, i :: 0 < k < |sorted| && 0 <= i < |chunks| ==>
              && (chunks[i].arrival <= sorted[k - 1] || sorted[k] <= chunks[i].arrival)
              && (chunks[i].linkEnd <= sorted[k - 1] || sorted[k] <= chunks[i].linkEnd)
    ensures forall i :: 0 <= i < |chunks| ==> sorted != [] && sorted[0] <= chunks[i].arrival
  {
    forall i | 0 <= i < |chunks| ensures chunks[i].arrival in sorted && chunks[i].linkEnd in sorted {
      assert IsEvent(chunks, chunks[i].arrival) && IsEvent(chunks, chunks[i].linkEnd);
    }
    forall i, k | 0 <= i < |chunks| && 0 < k < |sorted|
      ensures chunks[i].arrival <= sorted[k - 1] || sorted[k] <= chunks[i].arrival
      ensures chunks[i].linkEnd <= sorted[k - 1] || sorted[k] <= chunks[i].linkEnd
    {
      Neighbours(sorted, k, chunks[i].arrival);
      Neighbours(sorted, k, chunks[i].linkEnd);
    }
  }

  lemma Neighbours(sorted: seq<real>, k: nat, x: real)
    requires Ascending(sorted) && 0 < k < |sorted| && x in sorted
    ensures x <= sorted[k - 1] || sorted[k] <= x
  {
    var j :| 0 <= j < |sorted| && sorted[j] == x;
    assert j < k - 1 ==> sorted[j] < sorted[k - 1];
    assert k < j ==> sorted[k] < sorted[j];
  }

  lemma {:induction false} HolderCounts(chunks: seq<Chunk>, i: nat)
    requires i < |chunks| && PositiveHolds(chunks)
    ensures Occupancy(chunks, chunks[i].arrival) >= 1
  {
    if i < |chunks| - 1 {
      HolderCounts(chunks[..|chunks| - 1], i);
      assert chunks[..|chunks| - 1][i] == chunks[i];
    } else {
      assert Holds(chunks[i], chunks[i].arrival);
    }
  }

  // The latest listed time up to t is the last before the first one after it.
  lemma {:induction false} LatestTime(sorted: seq<real>, t: real) returns (n: nat)
    requires Ascending(sorted)
    ensures n <= |sorted| && forall j :: 0 <= j < |sorted| ==> (sorted[j] <= t <==> j < n)
  {
    n := |sorted|;
    while n > 0 && sorted[n - 1] > t
      invariant n <= |sorted| && forall j :: n <= j < |sorted| ==> sorted[j] > t
    {
      n := n - 1;
    }
  }

  lemma AtMostPeak(chunks: seq<Chunk>, sorted: seq<real>, peak: int, t: real)
    requires PositiveHolds(chunks) && peak >= 0 && Ascending(sorted) && Listed(chunks, sorted)
    requires forall j :: 0 <= j < |sorted| ==> Occupancy(chunks, sorted[j]) <= peak
    ensures Occupancy(chunks, t) <= peak
  {
    var n := LatestTime(sorted, t);
    if n == 0 {
      NoHolder(chunks, t);
    } else {
      var x := sorted[n - 1];
      forall y | y in sorted ensures y <= x || t < y {
        var j :| 0 <= j < |sorted| && sorted[j] == y;
        assert j < n - 1 ==> sorted[j] < sorted[n - 1];
      }
      OccupancyFlat(chunks, x, t);
    }
  }

  // ----- The benchmark

  datatype Report = Report(chunks: seq<Chunk>, duration: real, linkStart: real, peakSlots: int)

  method RunReadBenchmark(slots: Pos, delays: seq<real>, latency: real, transfer: real) returns (r: Report)
    requires delays != [] && ValidDelays(delays, latency, transfer)
    ensures r.chunks == Timeline(slots, delays, latency, transfer)
    ensures forall t :: Occupancy(r.chunks, t) <= r.peakSlots
    ensures exists t :: Occupancy(r.chunks, t) == r.peakSlots
    ensures 1 <= r.peakSlots <= slots
    ensures exists i :: 0 <= i < |r.chunks| && r.chunks[i].linkEnd == r.duration
    ensures exists i :: 0 <= i < |r.chunks| && r.chunks[i].linkStart == r.linkStart
    ensures forall i :: 0 <= i < |r.chunks| ==>
              r.linkStart <= r.chunks[i].linkStart && r.chunks[i].linkEnd <= r.duration
    ensures r.duration - r.linkStart >= LinkTime(|delays|, transfer) && r.linkStart >= 0.0
  {
    var chunks := IssueChunks(slots, delays, latency, transfer);
    TimelineInOrder(slots, delays, latency, transfer);
    hide Timeline, Occupancy, LinkTime;
    OrderedFacts(chunks, slots, transfer);
    hide InOrder, PositiveHolds;
    var peak := PeakOccupancy(chunks);
    var duration, linkStart := LinkWindow(chunks);
    PeakWithin(chunks, slots, transfer, peak);
    WindowBound(chunks, slots, transfer, duration, linkStart);
    r := Report(chunks, duration, linkStart, peak);
  }

  lemma OrderedFacts(chunks: seq<Chunk>, slots: Pos, transfer: real)
    requires InOrder(chunks, slots, transfer) && transfer > 0.0
    ensures PositiveHolds(chunks) && forall i :: 0 <= i < |chunks| ==> chunks[i].linkStart >= 0.0
  {}

  method IssueChunks(slots: Pos, delays: seq<real>, latency: real, transfer: real) returns (chunks: seq<Chunk>)
    ensures chunks == Timeline(slots, delays, latency, transfer)
  {
    chunks := [];
    var completions := [];
    for i := 0 to |delays|
      invariant chunks == Timeline(slots, delays[..i], latency, transfer)
      invariant |completions| == i && forall k :: 0 <= k < i ==> completions[k] == chunks[k].linkEnd
    {
      assert delays[..i + 1][..i] == delays[..i];
      var arrival := if i >= slots then completions[i - slots] else 0.0;
      var nandDone := arrival + delays[i];
      var ready := nandDone + latency;
      var start := if i == 0 then MaxReal(ready, 0.0) else MaxReal(ready, completions[i - 1]);
      completions := completions + [start + transfer];
      chunks := chunks + [Chunk(arrival, nandDone, start, start + transfer)];
    }
    assert delays[..|delays|] == delays;
  }

  lemma PeakWithin(chunks: seq<Chunk>, slots: Pos, transfer: real, peak: int)
    requires InOrder(chunks, slots, transfer) && transfer > 0.0 && exists t :: Occupancy(chunks, t) == peak
    ensures peak <= slots
  {
    var t :| Occupancy(chunks, t) == peak;
    SlotsSuffice(chunks, slots, transfer, t);
  }

  // The last completion and the first link transmission.
  method LinkWindow(chunks: seq<Chunk>) returns (duration: real, linkStart: real)
    requires chunks != []
    ensures exists i :: 0 <= i < |chunks| && chunks[i].linkEnd == duration
    ensures exists i :: 0 <= i < |chunks| && chunks[i].linkStart == linkStart
    ensures forall i :: 0 <= i < |chunks| ==> linkStart <= chunks[i].linkStart && chunks[i].linkEnd <= duration
  {
    duration, linkStart := chunks[0].linkEnd, chunks[0].linkStart;
    for k := 1 to |chunks|
      invariant exists i :: 0 <= i < |chunks| && chunks[i].linkEnd == duration
      invariant exists i :: 0 <= i < |chunks| && chunks[i].linkStart == linkStart
      invariant forall i :: 0 <= i < k ==> linkStart <= chunks[i].linkStart && chunks[i].linkEnd <= duration
    {
      if chunks[k].linkEnd > duration { duration := chunks[k].linkEnd; }
      if chunks[k].linkStart < linkStart { linkStart := chunks[k].linkStart; }
    }
  }

  // The payload over the link rate: one transfer time per chunk.
  function LinkTime(count: nat, transfer: real): real { count as real * transfer }

  lemma WindowBound(chunks: seq<Chunk>, slots: Pos, transfer: real, duration: real, linkStart: real)
    requires InOrder(chunks, slots, transfer) && chunks != []
    requires forall i :: 0 <= i < |chunks| ==> linkStart <= chunks[i].linkStart && chunks[i].linkEnd <= duration
    ensures duration - linkStart >= LinkTime(|chunks|, transfer)
  {
    LinkBusy(chunks, slots, transfer, |chunks| - 1);
  }

  // The serial link spends a transfer time on each chunk, one after another.
  lemma {:induction false} LinkBusy(chunks: seq<Chunk>, slots: Pos, transfer: real, last: nat)
    requires InOrder(chunks, slots, transfer) && last < |chunks|
    ensures chunks[last].linkEnd - chunks[0].linkStart >= (last + 1) as real * transfer
  {
    if last > 0 {
      LinkBusy(chunks, slots, transfer, last - 1);
      assert (last + 1) as real * transfer == last as real * transfer + transfer;
    }
  }
}
