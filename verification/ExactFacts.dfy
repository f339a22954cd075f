// exact_value is injective, and forgets exactly mapping and set order.
module ExactFacts {
  import opened JsonText
  import opened TextOrder
  import opened Rearrangement
  import opened ExactValue

  // ----- Tags

  function Has(j: Json, tag: string): bool { j.Obj? && tag in j.members }

  function KindOf(j: Json): nat {
    if !j.Obj? then (if j.Null? then 0 else if j.Num? then 2 else 3)
    else if Has(j, "bool") then 1
    else if Has(j, "float64") then 4
    else if Has(j, "array") then 5
    else if Has(j, "scalar") then 6
    else if Has(j, "enum") then 7
    else if Has(j, "type") then 8
    else if Has(j, "mapping") then 9
    else if Has(j, "tuple") then 10
    else if Has(j, "list") then 11
    else if Has(j, "frozenset") then 12
    else 13
  }

  function Kind(v: Value): nat {
    match v
    case None => 0
    case Boolean(_) => 1
    case Integral(_) => 2
    case Text(_) => 3
    case Float(_) => 4
    case Array(_, _, _) => 5
    case Scalar(_, _) => 6
    case Enum(_, _) => 7
    case Data(_, _) => 8
    case Mapping(_) => 9
    case Listed(isTuple, _) => if isTuple then 10 else 11
    case Unordered(isFrozen, _) => if isFrozen then 12 else 13
  }

  lemma KindOfEncode(v: Value)
    ensures KindOf(Encode(v)) == Kind(v)
  {
    hide SortedBy, Items, Pairs, BytesHex, Numbers, Same;
  }

  lemma {:induction false} BytesHexInjective(a: seq<Byte>, b: seq<Byte>)
    requires BytesHex(a) == BytesHex(b)
    ensures a == b
  {
    hide BytesHex, HexValue;
    assert 2 * |a| == |BytesHex(a)| == |BytesHex(b)| == 2 * |b|;
    forall i | 0 <= i < |a| ensures a[i] == b[i] {}
  }

  lemma NumbersInjective(a: seq<nat>, b: seq<nat>)
    requires Numbers(a) == Numbers(b)
    ensures a == b
  {
    assert |a| == |b|;
    forall i | 0 <= i < |a| ensures a[i] == b[i] {
      assert Numbers(a)[i] == Numbers(b)[i];
    }
  }

  // What equal documents say about the parts of two values of one kind.
  lemma PlainParts(v: Value, w: Value)
    requires Encode(v) == Encode(w) && Kind(v) == Kind(w) <= 6
    ensures v == w
  {
    hide SortedBy, Items, Pairs, BytesHex, Numbers, Same;
    var m := Encode(v);
    match v {
      case Boolean(_) => assert m.members["bool"] == Bool(v.b) && m.members["bool"] == Bool(w.b);
      case Float(_) => assert m.members["float64"] == Str(v.hex) && m.members["float64"] == Str(w.hex);
      case Array(_, _, _) =>
        assert m.members["array"] == Str(v.dtype) && m.members["array"] == Str(w.dtype);
        assert m.members["shape"] == Arr(Numbers(v.shape)) && m.members["shape"] == Arr(Numbers(w.shape));
        assert m.members["bytes"] == Str(BytesHex(v.bytes)) && m.members["bytes"] == Str(BytesHex(w.bytes));
        NumbersInjective(v.shape, w.shape);
        BytesHexInjective(v.bytes, w.bytes);
      case Scalar(_, _) =>
        assert m.members["scalar"] == Str(v.dtype) && m.members["scalar"] == Str(w.dtype);
        assert m.members["bytes"] == Str(BytesHex(v.bytes)) && m.members["bytes"] == Str(BytesHex(w.bytes));
        BytesHexInjective(v.bytes, w.bytes);
      case _ =>
    }
  }

  ghost function Fields(fields: map<string, Value>): map<string, Json> {
    map k | k in fields :: Encode(fields[k])
  }

  lemma NestedParts(v: Value, w: Value)
    requires Encode(v) == Encode(w) && Kind(v) == Kind(w) > 6
    ensures v.Enum? ==> w.Enum? && w.name == v.name && Encode(v.value) == Encode(w.value)
    ensures v.Data? ==> w.Data? && w.name == v.name && Fields(v.fields) == Fields(w.fields)
    ensures v.Mapping? ==> w.Mapping? && SortedBy(Pairs(v), PairKey) == SortedBy(Pairs(w), PairKey)
    ensures v.Listed? ==> w.Listed? && w.isTuple == v.isTuple && Items(v) == Items(w)
    ensures v.Unordered? ==>
              w.Unordered? && w.isFrozen == v.isFrozen && SortedBy(Items(v), ItemText) == SortedBy(Items(w), ItemText)
  {
    hide SortedBy, Items, Pairs, Same;
    var m := Encode(v);
    match v {
      case Enum(_, _) =>
        assert m.members["enum"] == Str(v.name) && m.members["enum"] == Str(w.name);
        assert m.members["value"] == Encode(v.value) && m.members["value"] == Encode(w.value);
      case Data(_, _) =>
        assert m.members["type"] == Str(v.name) && m.members["type"] == Str(w.name);
        assert m.members["fields"] == Obj(Fields(v.fields)) && m.members["fields"] == Obj(Fields(w.fields));
      case Mapping(_) =>
        assert m.members["mapping"] == Arr(SortedBy(Pairs(v), PairKey))
          && m.members["mapping"] == Arr(SortedBy(Pairs(w), PairKey));
      case Listed(_, _) =>
        var tag := if v.isTuple then "tuple" else "list";
        assert m.members[tag] == Arr(Items(v)) && m.members[tag] == Arr(Items(w));
      case Unordered(_, _) =>
        var tag := if v.isFrozen then "frozenset" else "set";
        assert m.members[tag] == Arr(SortedBy(Items(v), ItemText))
          && m.members[tag] == Arr(SortedBy(Items(w), ItemText));
      case _ =>
    }
  }

  // ----- Equal documents come from equal structures

  lemma {:induction false} EqualDocumentsSame(v: Value, w: Value)
    requires Encode(v) == Encode(w)
    ensures Same(v, w)
    decreases v
  {
    hide SortedBy, Encode, Items, Pairs, Fields;
    KindOfEncode(v);
    KindOfEncode(w);
    if Kind(v) <= 6 {
      PlainParts(v, w);
    } else {
      NestedParts(v, w);
      match v {
        case Enum(_, value) => EqualDocumentsSame(value, w.value);
        case Data(_, _) => EqualFieldsSame(v, w);
        case Mapping(_) => EqualPairsSame(v, w);
        case Listed(_, items) =>
          assert |items| == |Items(v)| == |Items(w)| == |w.items|;
          forall i | 0 <= i < |items| ensures Same(items[i], w.items[i]) {
            assert Items(v)[i] == Items(w)[i];
            EqualDocumentsSame(items[i], w.items[i]);
          }
        case Unordered(_, _) => EqualItemsSame(v, w);
        case _ =>
      }
    }
  }

  lemma {:induction false} EqualFieldsSame(v: Value, w: Value)
    requires v.Data? && w.Data? && w.name == v.name && Fields(v.fields) == Fields(w.fields)
    ensures Same(v, w)
    decreases v, 0
  {
    assert v.fields.Keys == Fields(v.fields).Keys == Fields(w.fields).Keys == w.fields.Keys;
    forall k | k in v.fields ensures Same(v.fields[k], w.fields[k]) {
      assert Fields(v.fields)[k] == Fields(w.fields)[k];
      EqualDocumentsSame(v.fields[k], w.fields[k]);
    }
  }

  lemma {:induction false} EqualItemsSame(v: Value, w: Value)
    requires v.Unordered? && w.Unordered? && w.isFrozen == v.isFrozen
    requires SortedBy(Items(v), ItemText) == SortedBy(Items(w), ItemText)
    ensures Same(v, w)
    decreases v, 0
  {
    hide SortedBy, Encode, Items;
    SortedKeeps(Items(v), ItemText);
    SortedKeeps(Items(w), ItemText);
    var p := MultisetRearranged(Items(v), Items(w));
    forall i | 0 <= i < |v.items| ensures Same(v.items[i], w.items[p[i]]) {
      assert Items(v)[i] == Items(w)[p[i]];
      EqualDocumentsSame(v.items[i], w.items[p[i]]);
    }
  }

  lemma {:induction false} EqualPairsSame(v: Value, w: Value)
    requires v.Mapping? && w.Mapping?
    requires SortedBy(Pairs(v), PairKey) == SortedBy(Pairs(w), PairKey)
    ensures Same(v, w)
    decreases v, 0
  {
    hide SortedBy, Encode, Pairs;
    SortedKeeps(Pairs(v), PairKey);
    SortedKeeps(Pairs(w), PairKey);
    var p := MultisetRearranged(Pairs(v), Pairs(w));
    forall i | 0 <= i < |v.pairs| ensures SamePair(v.pairs[i], w.pairs[p[i]]) {
      assert Pairs(v)[i] == Pairs(w)[p[i]];
      assert Pairs(v)[i].items == Pairs(w)[p[i]].items;
      EqualDocumentsSame(v.pairs[i].0, w.pairs[p[i]].0);
      EqualDocumentsSame(v.pairs[i].1, w.pairs[p[i]].1);
    }
  }

  // ----- Equal structures have equal documents, when mappings are settled

  lemma TextKeyed(s: seq<Json>)
    ensures Keyed(s, ItemText)
  {
    forall i, j | 0 <= i < |s| && 0 <= j < |s| && ItemText(s[i]) == ItemText(s[j]) ensures s[i] == s[j] {
      TextInjective(s[i], s[j]);
    }
  }

  lemma {:induction false} SameDocuments(v: Value, w: Value)
    requires Same(v, w) && Settled(v)
    ensures Encode(v) == Encode(w)
    decreases v, 1
  {
    hide SortedBy, Items, Pairs, PairKey, ItemText;
    match v {
      case Enum(_, value) => SameDocuments(value, w.value);
      case Data(_, fields) =>
        forall k | k in fields ensures Encode(fields[k]) == Encode(w.fields[k]) {
          SameDocuments(fields[k], w.fields[k]);
        }
        assert Fields(fields) == Fields(w.fields);
      case Mapping(_) => SamePairs(v, w);
      case Listed(_, items) =>
        forall i | 0 <= i < |items| ensures Encode(items[i]) == Encode(w.items[i]) {
          SameDocuments(items[i], w.items[i]);
        }
        assert Items(v) == Items(w);
      case Unordered(_, _) => SameItems(v, w);
      case _ =>
    }
  }

  lemma {:induction false} SameItems(v: Value, w: Value)
    requires Same(v, w) && Settled(v) && v.Unordered?
    ensures SortedBy(Items(v), ItemText) == SortedBy(Items(w), ItemText)
    decreases v, 0
  {
    hide SortedBy, Encode, Items, ItemText;
    var p: seq<nat> :| Permutation(p, |v.items|) && forall i :: 0 <= i < |v.items| ==> Same(v.items[i], w.items[p[i]]);
    forall i | 0 <= i < |v.items| ensures Items(v)[i] == Items(w)[p[i]] {
      SameDocuments(v.items[i], w.items[p[i]]);
    }
    RearrangedMultiset(Items(v), Items(w), p);
    TextKeyed(Items(v));
    SortForgetsOrder(Items(v), Items(w), ItemText);
  }

  lemma {:induction false} SamePairs(v: Value, w: Value)
    requires Same(v, w) && Settled(v) && v.Mapping?
    ensures SortedBy(Pairs(v), PairKey) == SortedBy(Pairs(w), PairKey)
    decreases v, 0
  {
    hide SortedBy, Encode, Pairs;
    var p: seq<nat> :| Permutation(p, |v.pairs|) && forall i :: 0 <= i < |v.pairs| ==>
      SamePair(v.pairs[i], w.pairs[p[i]]);
    forall i | 0 <= i < |v.pairs| ensures Pairs(v)[i] == Pairs(w)[p[i]] {
      SameDocuments(v.pairs[i].0, w.pairs[p[i]].0);
      SameDocuments(v.pairs[i].1, w.pairs[p[i]].1);
    }
    RearrangedMultiset(Pairs(v), Pairs(w), p);
    SettledKeyed(v);
    SortForgetsOrder(Pairs(v), Pairs(w), PairKey);
  }

  lemma {:induction false} SettledKeyed(v: Value)
    requires Settled(v) && v.Mapping?
    ensures Keyed(Pairs(v), PairKey)
    decreases v, 0, 0
  {
    hide Encode, Pairs, JsonText.Text;
    var s := Pairs(v);
    forall i, j | 0 <= i < |s| && 0 <= j < |s| && PairKey(s[i]) == PairKey(s[j]) ensures s[i] == s[j] {
      var a, b := v.pairs[i], v.pairs[j];
      TextInjective(Encode(a.0), Encode(b.0));
      EqualDocumentsSame(a.0, b.0);
      SameDocuments(a.1, b.1);
    }
  }
}
