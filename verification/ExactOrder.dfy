// Exactly which observed values exact_value encodes independently of mapping and set order.
module ExactOrder {
  import opened JsonText
  import opened TextOrder
  import opened Rearrangement
  import opened ExactValue
  import opened ExactFacts

  lemma {:induction false} SameReflexive(v: Value)
    ensures Same(v, v)
  {
    match v {
      case Enum(_, value) => SameReflexive(value);
      case Data(_, fields) => forall k | k in fields ensures Same(fields[k], fields[k]) { SameReflexive(fields[k]); }
      case Mapping(pairs) =>
        var p := Identity(|pairs|);
        forall i | 0 <= i < |pairs| ensures SamePair(pairs[i], pairs[p[i]]) {
          SameReflexive(pairs[i].0);
          SameReflexive(pairs[i].1);
        }
      case Listed(_, items) => forall i | 0 <= i < |items| ensures Same(items[i], items[i]) { SameReflexive(items[i]); }
      case Unordered(_, items) =>
        var p := Identity(|items|);
        forall i | 0 <= i < |items| ensures Same(items[i], items[p[i]]) { SameReflexive(items[i]); }
      case _ =>
    }
  }

  // The document stays the same however the mappings and sets inside are ordered.
  ghost predicate Canonical(v: Value) {
    forall w :: Same(v, w) ==> Encode(v) == Encode(w)
  }

  lemma CanonicalEnum(v: Value)
    requires v.Enum? && Canonical(v)
    ensures Canonical(v.value)
  {
    hide Encode, Settled;
    forall w | Same(v.value, w) ensures Encode(v.value) == Encode(w) {
      var u := Enum(v.name, w);
      assert Same(v, u);
      NestedParts(v, u);
    }
  }

  lemma CanonicalField(v: Value, k: string)
    requires v.Data? && Canonical(v) && k in v.fields
    ensures Canonical(v.fields[k])
  {
    hide Encode, Settled;
    forall w | Same(v.fields[k], w) ensures Encode(v.fields[k]) == Encode(w) {
      var u := Data(v.name, v.fields[k := w]);
      forall n | n in v.fields ensures Same(v.fields[n], u.fields[n]) {
        SameReflexive(v.fields[n]);
      }
      assert Same(v, u);
      NestedParts(v, u);
      assert Fields(v.fields)[k] == Fields(u.fields)[k];
    }
  }

  lemma CanonicalListed(v: Value, i: nat)
    requires v.Listed? && Canonical(v) && i < |v.items|
    ensures Canonical(v.items[i])
  {
    hide Encode, Settled;
    forall w | Same(v.items[i], w) ensures Encode(v.items[i]) == Encode(w) {
      var u := Listed(v.isTuple, v.items[i := w]);
      forall k | 0 <= k < |v.items| ensures Same(v.items[k], u.items[k]) {
        SameReflexive(v.items[k]);
      }
      assert Same(v, u);
      NestedParts(v, u);
      assert Items(v)[i] == Items(u)[i];
    }
  }

  lemma ReplacedSame(v: Value, i: nat, w: Value)
    requires v.Unordered? && i < |v.items| && Same(v.items[i], w)
    ensures Same(v, Unordered(v.isFrozen, v.items[i := w]))
  {
    hide Permutation;
    var u := Unordered(v.isFrozen, v.items[i := w]);
    var p := Identity(|v.items|);
    forall k | 0 <= k < |v.items| ensures Same(v.items[k], u.items[p[k]]) {
      SameReflexive(v.items[k]);
    }
  }

  lemma CanonicalUnordered(v: Value, i: nat)
    requires v.Unordered? && Canonical(v) && i < |v.items|
    ensures Canonical(v.items[i])
  {
    hide Encode, Settled, SortedBy, ItemText, Same;
    forall w | Same(v.items[i], w) ensures Encode(v.items[i]) == Encode(w) {
      var u := Unordered(v.isFrozen, v.items[i := w]);
      ReplacedSame(v, i, w);
      NestedParts(v, u);
      assert Items(u) == Items(v)[i := Encode(w)];
      SortedKeeps(Items(v), ItemText);
      SortedKeeps(Items(u), ItemText);
      if Encode(w) != Items(v)[i] { ReplacedMultiset(Items(v), i, Encode(w)); }
    }
  }

  lemma ReplacedPairSame(v: Value, i: nat, w: (Value, Value))
    requires v.Mapping? && i < |v.pairs| && SamePair(v.pairs[i], w)
    ensures Same(v, Mapping(v.pairs[i := w]))
  {
    hide SamePair, Permutation;
    var u := Mapping(v.pairs[i := w]);
    var p := Identity(|v.pairs|);
    forall k | 0 <= k < |v.pairs| ensures SamePair(v.pairs[k], u.pairs[p[k]]) {
      PairReflexive(v.pairs[k]);
    }
  }

  lemma CanonicalPair(v: Value, i: nat, w: (Value, Value))
    requires v.Mapping? && Canonical(v) && i < |v.pairs| && SamePair(v.pairs[i], w)
    ensures Encode(v.pairs[i].0) == Encode(w.0) && Encode(v.pairs[i].1) == Encode(w.1)
  {
    hide Encode, Settled, SortedBy, SamePair, PairKey, Same;
    var u := Mapping(v.pairs[i := w]);
    ReplacedPairSame(v, i, w);
    NestedParts(v, u);
    var e := Arr([Encode(w.0), Encode(w.1)]);
    assert Pairs(u) == Pairs(v)[i := e];
    SortedKeeps(Pairs(v), PairKey);
    SortedKeeps(Pairs(u), PairKey);
    if e != Pairs(v)[i] { ReplacedMultiset(Pairs(v), i, e); }
    assert e.items[0] == Pairs(v)[i].items[0] && e.items[1] == Pairs(v)[i].items[1];
  }

  lemma PairReflexive(p: (Value, Value))
    ensures SamePair(p, p)
  {
    SameReflexive(p.0);
    SameReflexive(p.1);
  }

  lemma CanonicalKeyAndItem(v: Value, i: nat)
    requires v.Mapping? && Canonical(v) && i < |v.pairs|
    ensures Canonical(v.pairs[i].0) && Canonical(v.pairs[i].1)
  {
    hide Encode, Settled, Same;
    var a, b := v.pairs[i].0, v.pairs[i].1;
    SameReflexive(a);
    SameReflexive(b);
    forall w | Same(a, w) ensures Encode(a) == Encode(w) {
      assert SamePair(v.pairs[i], (w, b));
      CanonicalPair(v, i, (w, b));
    }
    forall w | Same(b, w) ensures Encode(b) == Encode(w) {
      assert SamePair(v.pairs[i], (a, w));
      CanonicalPair(v, i, (a, w));
    }
  }

  function Swapped(v: Value, i: nat, j: nat): Value
    requires v.Mapping? && i < j < |v.pairs|
  {
    Mapping(v.pairs[i := v.pairs[j]][j := v.pairs[i]])
  }

  lemma SwappedSame(v: Value, i: nat, j: nat)
    requires v.Mapping? && i < j < |v.pairs|
    ensures Same(v, Swapped(v, i, j))
  {
    hide SamePair, Permutation;
    var u := Swapped(v, i, j);
    var p := Transposition(|v.pairs|, i, j);
    forall k | 0 <= k < |v.pairs| ensures SamePair(v.pairs[k], u.pairs[p[k]]) {
      PairReflexive(v.pairs[k]);
    }
  }

  lemma PairKeyOf(v: Value, i: nat)
    requires v.Mapping? && i < |v.pairs|
    ensures PairKey(Pairs(v)[i]) == JsonText.Text(Encode(v.pairs[i].0))
  {
    hide Encode, Pairs, JsonText.Text;
    assert Pairs(v)[i] == Arr([Encode(v.pairs[i].0), Encode(v.pairs[i].1)]);
  }

  // Swapping two pairs of one key changes the document unless their values agree.
  lemma SwappedDiffers(v: Value, i: nat, j: nat)
    requires v.Mapping? && i < j < |v.pairs| && Encode(v.pairs[i].0) == Encode(v.pairs[j].0)
    requires Encode(v) == Encode(Swapped(v, i, j))
    ensures Encode(v.pairs[i].1) == Encode(v.pairs[j].1)
  {
    hide Encode, SortedBy, PairKey, Pairs, WithKey;
    var u := Swapped(v, i, j);
    NestedParts(v, u);
    var s, t := Pairs(v), Pairs(u);
    assert s[..i] == t[..i];
    PairKeyOf(v, i);
    PairKeyOf(u, i);
    var key := PairKey(s[i]);
    SortIsStable(s, PairKey, key);
    SortIsStable(t, PairKey, key);
    if s[i] != t[i] { FirstDifferenceShows(s, t, i, PairKey, key); }
    assert s[i].items == t[i].items;
  }

  lemma CanonicalKeys(v: Value, i: nat, j: nat)
    requires v.Mapping? && Canonical(v) && i < j < |v.pairs| && Encode(v.pairs[i].0) == Encode(v.pairs[j].0)
    ensures Encode(v.pairs[i].1) == Encode(v.pairs[j].1)
  {
    hide Encode, Same, Swapped;
    SwappedSame(v, i, j);
    SwappedDiffers(v, i, j);
  }

  lemma {:induction false} CanonicalSettled(v: Value)
    requires Canonical(v)
    ensures Settled(v)
  {
    hide Encode, Canonical, Same;
    match v {
      case Enum(_, value) =>
        CanonicalEnum(v);
        CanonicalSettled(value);
      case Data(_, fields) =>
        forall k | k in fields ensures Settled(fields[k]) {
          CanonicalField(v, k);
          CanonicalSettled(fields[k]);
        }
      case Mapping(pairs) =>
        forall i | 0 <= i < |pairs| ensures Settled(pairs[i].0) && Settled(pairs[i].1) {
          CanonicalKeyAndItem(v, i);
          CanonicalSettled(pairs[i].0);
          CanonicalSettled(pairs[i].1);
        }
        forall i, j | 0 <= i < |pairs| && 0 <= j < |pairs| && Same(pairs[i].0, pairs[j].0)
          ensures Same(pairs[i].1, pairs[j].1)
        {
          SameDocuments(pairs[i].0, pairs[j].0);
          if i < j { CanonicalKeys(v, i, j); }
          if j < i { CanonicalKeys(v, j, i); }
          EqualDocumentsSame(pairs[i].1, pairs[j].1);
        }
      case Listed(_, items) =>
        forall i | 0 <= i < |items| ensures Settled(items[i]) {
          CanonicalListed(v, i);
          CanonicalSettled(items[i]);
        }
      case Unordered(_, items) =>
        forall i | 0 <= i < |items| ensures Settled(items[i]) {
          CanonicalUnordered(v, i);
          CanonicalSettled(items[i]);
        }
      case _ =>
    }
  }

  // Exactly the settled values have one document for every order.
  lemma CanonicalExactly(v: Value)
    ensures Canonical(v) <==> Settled(v)
  {
    if Canonical(v) { CanonicalSettled(v); }
    forall w | Settled(v) && Same(v, w) ensures Encode(v) == Encode(w) {
      SameDocuments(v, w);
    }
  }

  // Two NaN keys: reordering the mapping changes its document.
  lemma NanKeysKeepOrder()
    ensures var v := Mapping([(Float("nan"), Integral(1)), (Float("nan"), Integral(2))]);
            var w := Mapping([(Float("nan"), Integral(2)), (Float("nan"), Integral(1))]);
            Same(v, w) && Encode(v) != Encode(w)
  {
    hide Encode, Same;
    var v := Mapping([(Float("nan"), Integral(1)), (Float("nan"), Integral(2))]);
    SwappedSame(v, 0, 1);
    if Encode(v) == Encode(Swapped(v, 0, 1)) {
      SwappedDiffers(v, 0, 1);
      EqualDocumentsSame(Integral(1), Integral(2));
      DifferentIntegers();
    }
    assert Swapped(v, 0, 1) == Mapping([(Float("nan"), Integral(2)), (Float("nan"), Integral(1))]);
  }

  lemma DifferentIntegers()
    ensures !Same(Integral(1), Integral(2))
  {}
}
