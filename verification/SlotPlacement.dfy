// Page placement of _budget_row in scripts/hbf_hbm_budget.py over independent package slots.
module SlotPlacement {
  import opened Prelude

  const TOTAL_SLOTS := 4
  const PAGE := 16384

  datatype Tier = Hbm | Hbf

  datatype Slot = Slot(tier: Tier, capacityPages: nat)

  // HBM slots are declared before HBF slots, each tier with one profile.
  function Package(hbmSlots: nat, hbmPages: nat, hbfPages: nat): (slots: seq<Slot>)
    requires hbmSlots <= TOTAL_SLOTS
    ensures HbmFirst(slots) && |slots| == TOTAL_SLOTS
  {
    seq(TOTAL_SLOTS, i => if i < hbmSlots then Slot(Hbm, hbmPages) else Slot(Hbf, hbfPages))
  }

  predicate HbmFirst(slots: seq<Slot>) {
    forall i, j :: 0 <= i < j < |slots| && slots[i].tier.Hbf? ==> slots[j].tier.Hbf?
  }

  function Sum(s: seq<nat>): nat {
    if s == [] then 0 else Sum(s[..|s| - 1]) + s[|s| - 1]
  }

  function Capacities(slots: seq<Slot>): (r: seq<nat>)
    ensures |r| == |slots| && forall i :: 0 <= i < |r| ==> r[i] == slots[i].capacityPages
  {
    seq(|slots|, i requires 0 <= i < |slots| => slots[i].capacityPages)
  }

  // ----- Choosing a slot

  // A slot with a page left; used counts the pages each slot holds.
  predicate Available(slots: seq<Slot>, used: seq<nat>, i: nat)
    requires |used| == |slots|
  {
    i < |slots| && used[i] < slots[i].capacityPages
  }

  function FirstAvailable(slots: seq<Slot>, used: seq<nat>, from: nat): (r: Option<nat>)
    requires |used| == |slots| && from <= |slots|
    ensures r.Some? ==> from <= r.value && Available(slots, used, r.value)
                        && forall k :: from <= k < r.value ==> !Available(slots, used, k)
    ensures r.None? ==> forall k :: from <= k < |slots| ==> !Available(slots, used, k)
    decreases |slots| - from
  {
    if from == |slots| then None
    else if Available(slots, used, from) then Some(from)
    else FirstAvailable(slots, used, from + 1)
  }

  // Python's min by (pages used, index) over the available slots of a tier.
  function LeastUsed(slots: seq<Slot>, used: seq<nat>, tier: Tier, n: nat): (r: Option<nat>)
    requires |used| == |slots| && n <= |slots|
    ensures r.Some? ==> r.value < n && Available(slots, used, r.value) && slots[r.value].tier == tier
    ensures r.Some? ==> forall k :: 0 <= k < n && Available(slots, used, k) && slots[k].tier == tier ==>
                          used[r.value] < used[k] || (used[r.value] == used[k] && r.value <= k)
    ensures r.None? ==> forall k :: 0 <= k < n && Available(slots, used, k) ==> slots[k].tier != tier
  {
    if n == 0 then None
    else
      var rest := LeastUsed(slots, used, tier, n - 1);
      if Available(slots, used, n - 1) && slots[n - 1].tier == tier && (rest.None? || used[n - 1] < used[rest.value])
      then Some(n - 1) else rest
  }

  function ChooseSlot(slots: seq<Slot>, used: seq<nat>, striped: bool): (r: Option<nat>)
    requires |used| == |slots|
    ensures r.Some? ==> Available(slots, used, r.value)
    ensures r.None? <==> forall k :: 0 <= k < |slots| ==> !Available(slots, used, k)
  {
    var first := FirstAvailable(slots, used, 0);
    if first.Some? && striped then LeastUsed(slots, used, slots[first.value].tier, |slots|) else first
  }

  // ----- Placing pages

  datatype Placement = Placement(slot: nat, address: nat)

  datatype State = State(used: seq<nat>, assignment: seq<Placement>)

  // The state after n pages, or None once no slot was left.
  function Placed(slots: seq<Slot>, striped: bool, n: nat): (r: Option<State>)
    ensures r.Some? ==> |r.value.used| == |slots| && |r.value.assignment| == n
  {
    if n == 0 then Some(State(seq(|slots|, _ => 0), []))
    else
      var before := Placed(slots, striped, n - 1);
      if before.None? then None
      else
        var used := before.value.used;
        var slot := ChooseSlot(slots, used, striped);
        if slot.None? then None
        else Some(State(used[slot.value := used[slot.value] + 1],
                        before.value.assignment + [Placement(slot.value, used[slot.value] * PAGE)]))
  }

  datatype Outcome = NotRunnable | PlacementDisagrees | Runnable(assignment: seq<Placement>)

  // PlacementDisagrees is the assertion the source reaches when no slot is left.
  method PlacePages(slots: seq<Slot>, pages: nat, striped: bool) returns (r: Outcome)
    ensures r.NotRunnable? <==> Sum(Capacities(slots)) < pages
    ensures !r.PlacementDisagrees?
    ensures r.Runnable? ==>
              Placed(slots, striped, pages).Some? && r.assignment == Placed(slots, striped, pages).value.assignment
  {
    hide ChooseSlot, Sum;
    if Sum(Capacities(slots)) < pages { return NotRunnable; }
    var remaining := Capacities(slots);
    var used := seq(|slots|, _ => 0);
    var assignment := [];
    for page := 0 to pages
      invariant |remaining| == |used| == |slots|
      invariant forall i :: 0 <= i < |slots| ==> remaining[i] + used[i] == slots[i].capacityPages
      invariant Placed(slots, striped, page) == Some(State(used, assignment))
    {
      NeverFull(slots, striped, page, pages);
      var slot := ChooseSlot(slots, used, striped);
      if slot.None? { return PlacementDisagrees; }
      remaining := remaining[slot.value := remaining[slot.value] - 1];
      assignment := assignment + [Placement(slot.value, used[slot.value] * PAGE)];
      used := used[slot.value := used[slot.value] + 1];
    }
    return Runnable(assignment);
  }

  // ----- Invariants of every iteration

  predicate InCapacity(slots: seq<Slot>, used: seq<nat>)
    requires |used| == |slots|
  {
    forall i :: 0 <= i < |slots| ==> used[i] <= slots[i].capacityPages
  }

  // Each placed page has its own slot-local address, below the slot's used pages.
  predicate DistinctPages(s: State) {
    && (forall p :: 0 <= p < |s.assignment| ==>
          s.assignment[p].slot < |s.used| && s.assignment[p].address < s.used[s.assignment[p].slot] * PAGE
          && s.assignment[p].address % PAGE == 0)
    && (forall p, q :: 0 <= p < q < |s.assignment| ==> s.assignment[p] != s.assignment[q])
  }

  // HBF holds pages only once every HBM slot is full.
  predicate HbmBeforeHbf(slots: seq<Slot>, used: seq<nat>)
    requires |used| == |slots|
  {
    forall i, j :: 0 <= i < |slots| && 0 <= j < |slots| && slots[i].tier.Hbm? && slots[j].tier.Hbf? && used[j] > 0 ==>
      used[i] == slots[i].capacityPages
  }

  // Equal slots of a tier hold equal pages, or the earlier one holds one more.
  predicate Balanced(slots: seq<Slot>, used: seq<nat>)
    requires |used| == |slots|
  {
    forall i, j :: 0 <= i < j < |slots| && slots[i] == slots[j] ==> used[j] <= used[i] <= used[j] + 1
  }

  // Without striping a slot is used only once every earlier one is full.
  predicate Greedy(slots: seq<Slot>, used: seq<nat>)
    requires |used| == |slots|
  {
    forall i, j :: 0 <= i < j < |slots| && used[j] > 0 ==> used[i] == slots[i].capacityPages
  }

  predicate PlacementInvariant(slots: seq<Slot>, striped: bool, s: State, n: nat) {
    && |s.used| == |slots| && InCapacity(slots, s.used) && Sum(s.used) == n && DistinctPages(s)
    && HbmBeforeHbf(slots, s.used)
    && (if striped then Balanced(slots, s.used) else Greedy(slots, s.used))
  }

  lemma {:induction false} SumZeros(n: nat)
    ensures Sum(seq(n, _ => 0)) == 0
  {
    if n > 0 {
      SumZeros(n - 1);
      assert seq(n, _ => 0)[..n - 1] == seq(n - 1, _ => 0);
    }
  }

  lemma {:induction false} SumUpdate(s: seq<nat>, i: nat)
    requires i < |s|
    ensures Sum(s[i := s[i] + 1]) == Sum(s) + 1
  {
    var k := |s| - 1;
    var t := s[i := s[i] + 1];
    if i < k {
      SumUpdate(s[..k], i);
      assert t[..k] == s[..k][i := s[i] + 1];
    } else {
      assert t[..k] == s[..k];
    }
  }

  lemma {:induction false} SumAtMost(a: seq<nat>, b: seq<nat>)
    requires |a| == |b| && forall i :: 0 <= i < |a| ==> a[i] >= b[i]
    ensures Sum(a) >= Sum(b)
  {
    if a != [] { SumAtMost(a[..|a| - 1], b[..|b| - 1]); }
  }

  lemma PageAddress(n: nat)
    ensures n * PAGE % PAGE == 0
  {}

  lemma DistinctStep(s: State, i: nat)
    requires DistinctPages(s) && i < |s.used|
    ensures DistinctPages(State(s.used[i := s.used[i] + 1], s.assignment + [Placement(i, s.used[i] * PAGE)]))
  {
    PageAddress(s.used[i]);
    var next := State(s.used[i := s.used[i] + 1], s.assignment + [Placement(i, s.used[i] * PAGE)]);
    forall p | 0 <= p < |next.assignment|
      ensures next.assignment[p].slot < |next.used|
                && next.assignment[p].address < next.used[next.assignment[p].slot] * PAGE
    {
      if p < |s.assignment| { assert next.assignment[p] == s.assignment[p]; }
    }
  }

  // A striped choice is the least used of its tier, a greedy one the first with room.
  lemma UsedStep(slots: seq<Slot>, used: seq<nat>, striped: bool, i: nat)
    requires |used| == |slots| && HbmFirst(slots) && InCapacity(slots, used) && HbmBeforeHbf(slots, used)
    requires ChooseSlot(slots, used, striped) == Some(i)
    requires if striped then Balanced(slots, used) else Greedy(slots, used)
    ensures var next := used[i := used[i] + 1];
            && InCapacity(slots, next) && HbmBeforeHbf(slots, next)
            && (if striped then Balanced(slots, next) else Greedy(slots, next))
  {
    var next := used[i := used[i] + 1];
    var first := FirstAvailable(slots, used, 0).value;
    assert slots[i].tier == slots[first].tier;
    if slots[i].tier.Hbf? {
      forall k | 0 <= k < |slots| && slots[k].tier.Hbm? ensures used[k] == slots[k].capacityPages {
        assert k < first;
        assert !Available(slots, used, k);
      }
    }
    if striped {
      forall a, b | 0 <= a < b < |slots| && slots[a] == slots[b]
        ensures next[b] <= next[a] <= next[b] + 1
      {
        if b == i && !Available(slots, used, a) { assert used[a] == slots[a].capacityPages; }
      }
    } else {
      forall k | 0 <= k < i ensures used[k] == slots[k].capacityPages {
        assert !Available(slots, used, k);
      }
    }
  }

  // Every iteration keeps the invariant, for either policy.
  lemma {:induction false} PlacedInvariant(slots: seq<Slot>, striped: bool, n: nat)
    requires HbmFirst(slots) && Placed(slots, striped, n).Some?
    ensures PlacementInvariant(slots, striped, Placed(slots, striped, n).value, n)
  {
    if n == 0 {
      SumZeros(|slots|);
    } else {
      PlacedInvariant(slots, striped, n - 1);
      var before := Placed(slots, striped, n - 1).value;
      var i := ChooseSlot(slots, before.used, striped).value;
      SumUpdate(before.used, i);
      DistinctStep(before, i);
      UsedStep(slots, before.used, striped, i);
      hide ChooseSlot, Sum, DistinctPages, Balanced, Greedy, HbmBeforeHbf, InCapacity;
    }
  }

  lemma {:induction false} UsedSum(slots: seq<Slot>, striped: bool, n: nat)
    requires Placed(slots, striped, n).Some?
    ensures Sum(Placed(slots, striped, n).value.used) == n
  {
    if n == 0 {
      SumZeros(|slots|);
    } else {
      UsedSum(slots, striped, n - 1);
      var before := Placed(slots, striped, n - 1).value;
      SumUpdate(before.used, ChooseSlot(slots, before.used, striped).value);
    }
  }

  // Once the capacity preflight passed, some slot always has room.
  lemma NeverFull(slots: seq<Slot>, striped: bool, n: nat, pages: nat)
    requires Placed(slots, striped, n).Some? && n < pages <= Sum(Capacities(slots))
    ensures ChooseSlot(slots, Placed(slots, striped, n).value.used, striped).Some?
  {
    var used := Placed(slots, striped, n).value.used;
    UsedSum(slots, striped, n);
    if ChooseSlot(slots, used, striped).None? {
      assert forall k :: 0 <= k < |slots| ==> !Available(slots, used, k);
      forall k | 0 <= k < |slots| ensures used[k] >= slots[k].capacityPages {
        assert !Available(slots, used, k);
      }
      SumAtMost(used, Capacities(slots));
    }
  }

  // Every page gets its own in-capacity address; HBF fills only after HBM; striping stays within one page.
  lemma PlacementSound(hbmSlots: nat, hbmPages: nat, hbfPages: nat, striped: bool, pages: nat)
    requires hbmSlots <= TOTAL_SLOTS && pages <= Sum(Capacities(Package(hbmSlots, hbmPages, hbfPages)))
    ensures var slots := Package(hbmSlots, hbmPages, hbfPages);
            Placed(slots, striped, pages).Some?
              && PlacementInvariant(slots, striped, Placed(slots, striped, pages).value, pages)
  {
    var slots := Package(hbmSlots, hbmPages, hbfPages);
    AlwaysPlaced(slots, striped, pages, pages);
    PlacedInvariant(slots, striped, pages);
  }

  lemma {:induction false} AlwaysPlaced(slots: seq<Slot>, striped: bool, n: nat, pages: nat)
    requires n <= pages <= Sum(Capacities(slots))
    ensures Placed(slots, striped, n).Some?
  {
    hide ChooseSlot, Sum, Capacities;
    if n > 0 {
      AlwaysPlaced(slots, striped, n - 1, pages);
      NeverFull(slots, striped, n - 1, pages);
    }
  }
}
