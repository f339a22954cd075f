// exact_value in scripts/capture_physical_transactions.py: JSON documents of observed Python values.
module ExactValue {
  import opened JsonText
  import opened TextOrder
  import opened Rearrangement

  type Byte = b: int | 0 <= b < 256

  // Floats are named by float.hex, types by their qualified names.
  datatype Value =
    | None
    | Boolean(b: bool)
    | Integral(n: int)
    | Text(s: string)
    | Float(hex: string)
    | Array(dtype: string, shape: seq<nat>, bytes: seq<Byte>)
    | Scalar(dtype: string, bytes: seq<Byte>)
    | Enum(name: string, value: Value)
    | Data(name: string, fields: map<string, Value>)
    | Mapping(pairs: seq<(Value, Value)>)
    | Listed(isTuple: bool, items: seq<Value>)
    | Unordered(isFrozen: bool, items: seq<Value>)

  // ----- Encoding

  function BytesHex(bytes: seq<Byte>): (s: string)
    ensures |s| == 2 * |bytes|
    ensures forall i :: 0 <= i < |bytes| ==> bytes[i] == 16 * HexValue(s[2 * i]) + HexValue(s[2 * i + 1])
  {
    if bytes == [] then []
    else
      var last := |bytes| - 1;
      BytesHex(bytes[..last]) + [HexDigit(bytes[last] / 16), HexDigit(bytes[last] % 16)]
  }

  function Numbers(shape: seq<nat>): (r: seq<Json>)
    ensures |r| == |shape| && forall i :: 0 <= i < |r| ==> r[i] == Num(shape[i])
  {
    seq(|shape|, i requires 0 <= i < |shape| => Num(shape[i]))
  }

  // The sort key of a mapping's pair is the text of its key alone.
  ghost function PairKey(pair: Json): string {
    if pair.Arr? && pair.items != [] then JsonText.Text(pair.items[0]) else ""
  }

  ghost function ItemText(item: Json): string { JsonText.Text(item) }

  ghost function Items(v: Value): (r: seq<Json>)
    requires v.Listed? || v.Unordered?
    ensures |r| == |v.items| && forall i :: 0 <= i < |r| ==> r[i] == Encode(v.items[i])
    decreases v, 0
  {
    seq(|v.items|, i requires 0 <= i < |v.items| => Encode(v.items[i]))
  }

  ghost function Pairs(v: Value): (r: seq<Json>)
    requires v.Mapping?
    ensures |r| == |v.pairs|
    ensures forall i :: 0 <= i < |r| ==> r[i] == Arr([Encode(v.pairs[i].0), Encode(v.pairs[i].1)])
    decreases v, 0
  {
    seq(|v.pairs|, i requires 0 <= i < |v.pairs| => Arr([Encode(v.pairs[i].0), Encode(v.pairs[i].1)]))
  }

  ghost function Encode(v: Value): Json
    decreases v, 1
  {
    match v
    case None => Null
    case Boolean(b) => Obj(map["bool" := Bool(b)])
    case Integral(n) => Num(n)
    case Text(s) => Str(s)
    case Float(hex) => Obj(map["float64" := Str(hex)])
    case Array(dtype, shape, bytes) =>
      Obj(map["array" := Str(dtype), "shape" := Arr(Numbers(shape)), "bytes" := Str(BytesHex(bytes))])
    case Scalar(dtype, bytes) => Obj(map["scalar" := Str(dtype), "bytes" := Str(BytesHex(bytes))])
    case Enum(name, value) => Obj(map["enum" := Str(name), "value" := Encode(value)])
    case Data(name, fields) =>
      Obj(map["type" := Str(name), "fields" := Obj(map k | k in fields :: Encode(fields[k]))])
    case Mapping(_) => Obj(map["mapping" := Arr(SortedBy(Pairs(v), PairKey))])
    case Listed(isTuple, _) => Obj(map[if isTuple then "tuple" else "list" := Arr(Items(v))])
    case Unordered(isFrozen, _) => Obj(map[if isFrozen then "frozenset"
                                           else "set" := Arr(SortedBy(Items(v), ItemText))])
  }

  function TagsOf(v: Value): set<string> {
    match v
    case Array(_, _, _) => {"array", "shape", "bytes"}
    case Scalar(_, _) => {"scalar", "bytes"}
    case Enum(_, _) => {"enum", "value"}
    case Data(_, _) => {"type", "fields"}
    case Mapping(_) => {"mapping"}
    case Listed(isTuple, _) => if isTuple then {"tuple"} else {"list"}
    case Unordered(isFrozen, _) => if isFrozen then {"frozenset"} else {"set"}
    case Float(_) => {"float64"}
    case Boolean(_) => {"bool"}
    case _ => {}
  }

  // The tags of a document, by the type of the value it stands for.
  lemma DocumentTags(v: Value)
    ensures v.None? ==> Encode(v).Null?
    ensures v.Integral? ==> Encode(v) == Num(v.n)
    ensures v.Text? ==> Encode(v) == Str(v.s)
    ensures v.Boolean? ==> Encode(v) == Obj(map["bool" := Bool(v.b)])
    ensures v.Float? ==> Encode(v) == Obj(map["float64" := Str(v.hex)])
    ensures !v.None? && !v.Integral? && !v.Text? ==> Encode(v).Obj? && Encode(v).members.Keys == TagsOf(v)
    ensures v.Array? ==> Encode(v).members["array"] == Str(v.dtype)
    ensures v.Scalar? ==> Encode(v).members["scalar"] == Str(v.dtype)
    ensures v.Enum? ==> Encode(v).members["enum"] == Str(v.name)
    ensures v.Data? ==> Encode(v).members["type"] == Str(v.name)
  {
    hide BytesHex, Numbers, Items, Pairs, SortedBy;
  }

  // ----- Structural equality, with mapping and set order ignored

  ghost predicate SamePair(a: (Value, Value), b: (Value, Value))
    decreases a, 0
  {
    Same(a.0, b.0) && Same(a.1, b.1)
  }

  ghost predicate Same(v: Value, w: Value)
    decreases v, 0
  {
    match v
    case Enum(name, value) => w.Enum? && w.name == name && Same(value, w.value)
    case Data(name, fields) =>
      w.Data? && w.name == name && w.fields.Keys == fields.Keys && forall k :: k in fields ==>
        Same(fields[k], w.fields[k])
    case Mapping(pairs) =>
      w.Mapping? && |w.pairs| == |pairs|
      && exists p: seq<nat> :: Permutation(p, |pairs|) && forall i :: 0 <= i < |pairs| ==>
        SamePair(pairs[i], w.pairs[p[i]])
    case Listed(isTuple, items) =>
      w.Listed? && w.isTuple == isTuple && |w.items| == |items| && forall i :: 0 <= i < |items| ==>
        Same(items[i], w.items[i])
    case Unordered(isFrozen, items) =>
      w.Unordered? && w.isFrozen == isFrozen && |w.items| == |items|
      && exists p: seq<nat> :: Permutation(p, |items|) && forall i :: 0 <= i < |items| ==> Same(items[i], w.items[p[i]])
    case _ => v == w
  }

  // No mapping inside pairs one key, by structure, with two different values.
  ghost predicate Settled(v: Value) {
    match v
    case Enum(_, value) => Settled(value)
    case Data(_, fields) => forall k :: k in fields ==> Settled(fields[k])
    case Mapping(pairs) =>
      && (forall i :: 0 <= i < |pairs| ==> Settled(pairs[i].0) && Settled(pairs[i].1))
      && (forall i, j :: 0 <= i < |pairs| && 0 <= j < |pairs| && Same(pairs[i].0, pairs[j].0) ==>
          Same(pairs[i].1, pairs[j].1))
    case Listed(_, items) => forall i :: 0 <= i < |items| ==> Settled(items[i])
    case Unordered(_, items) => forall i :: 0 <= i < |items| ==> Settled(items[i])
    case _ => true
  }
}
