// compare_transaction_files in scripts/capture_physical_transactions.py, over parsed record lines.
module TraceComparison {
  import opened JsonText
  import opened TextOrder
  import opened ExactValue
  import opened ExactFacts
  import Prelude

  datatype Record = Record(kind: string, value: Value)

  ghost function Line(r: Record): Json {
    Obj(map["kind" := Str(r.kind), "value" := Encode(r.value)])
  }

  ghost function Lines(records: seq<Record>): (lines: seq<Json>)
    ensures |lines| == |records| && forall i :: 0 <= i < |lines| ==> lines[i] == Line(records[i])
    ensures Records(lines)
  {
    seq(|records|, i requires 0 <= i < |records| => Line(records[i]))
  }

  // ----- Python's equality of parsed documents

  function NumberOf(j: Json): int
    requires j.Bool? || j.Num?
  {
    if j.Num? then j.n else if j.b then 1 else 0
  }

  // True equals 1, False equals 0, and dictionaries ignore order.
  predicate PyEqual(a: Json, b: Json)
    decreases a
  {
    match a
    case Null => b.Null?
    case Bool(_) => (b.Bool? || b.Num?) && NumberOf(a) == NumberOf(b)
    case Num(_) => (b.Bool? || b.Num?) && NumberOf(a) == NumberOf(b)
    case Str(s) => b == Str(s)
    case Arr(items) => b.Arr? && |items| == |b.items| && forall i :: 0 <= i < |items| ==> PyEqual(items[i], b.items[i])
    case Obj(members) =>
      b.Obj? && members.Keys == b.members.Keys && forall k :: k in members ==> PyEqual(members[k], b.members[k])
  }

  // A document holds a truth value only under the tag "bool".
  ghost predicate Document(j: Json) {
    match j
    case Bool(_) => false
    case Arr(items) => forall i :: 0 <= i < |items| ==> Document(items[i])
    case Obj(members) =>
      if members.Keys == {"bool"} then members["bool"].Bool?
      else forall k :: k in members ==> if k == "fields" then FieldTable(members[k]) else Document(members[k])
    case _ => true
  }

  ghost predicate FieldTable(j: Json) {
    j.Obj? && forall k :: k in j.members ==> Document(j.members[k])
  }

  lemma {:induction false} DocumentEquality(a: Json, b: Json)
    requires Document(a) && Document(b) && PyEqual(a, b)
    ensures a == b
  {
    match a {
      case Arr(items) =>
        forall i | 0 <= i < |items| ensures items[i] == b.items[i] { DocumentEquality(items[i], b.items[i]); }
      case Obj(members) =>
        if members.Keys != {"bool"} {
          forall k | k in members ensures members[k] == b.members[k] {
            if k == "fields" { FieldEquality(members[k], b.members[k]); }
            else { DocumentEquality(members[k], b.members[k]); }
          }
        }
        assert members == b.members;
      case _ =>
    }
  }

  lemma {:induction false} FieldEquality(a: Json, b: Json)
    requires FieldTable(a) && FieldTable(b) && PyEqual(a, b)
    ensures a == b
  {
    forall k | k in a.members ensures a.members[k] == b.members[k] {
      DocumentEquality(a.members[k], b.members[k]);
    }
    assert a.members == b.members;
  }

  lemma {:induction false} PyEqualReflexive(j: Json)
    ensures PyEqual(j, j)
  {
    match j {
      case Arr(items) => forall i | 0 <= i < |items| ensures PyEqual(items[i], items[i]) { PyEqualReflexive(items[i]); }
      case Obj(members) => forall k | k in members
        ensures PyEqual(members[k], members[k]) { PyEqualReflexive(members[k]); }
      case _ =>
    }
  }

  lemma SortedFrom(s: seq<Json>, key: Json -> string)
    requires forall i :: 0 <= i < |s| ==> Document(s[i])
    ensures Document(Arr(SortedBy(s, key)))
  {
    hide Document, SortedBy;
    SortedKeeps(s, key);
    var sorted := SortedBy(s, key);
    forall i | 0 <= i < |sorted| ensures Document(sorted[i]) {
      assert sorted[i] in multiset(sorted);
      assert sorted[i] in s;
    }
    ListDocument(sorted);
  }

  lemma ListDocument(s: seq<Json>)
    requires forall i :: 0 <= i < |s| ==> Document(s[i])
    ensures Document(Arr(s))
  {}

  lemma PlainDocument(v: Value)
    requires Kind(v) <= 6
    ensures Document(Encode(v))
  {
    hide BytesHex, Numbers;
    if v.Array? {
      ListDocument(Numbers(v.shape));
      assert Document(Str(v.dtype)) && Document(Str(BytesHex(v.bytes)));
    }
  }

  lemma {:induction false} EncodeIsDocument(v: Value)
    ensures Document(Encode(v))
    decreases v
  {
    hide SortedBy, Items, Pairs, BytesHex, PairKey, ItemText, Numbers;
    match v {
      case Enum(_, value) => EncodeIsDocument(value);
      case Data(_, fields) =>
        forall k | k in fields ensures Document(Encode(fields[k])) { EncodeIsDocument(fields[k]); }
        assert FieldTable(Obj(Fields(fields)));
      case Mapping(pairs) =>
        forall i | 0 <= i < |pairs| ensures Document(Pairs(v)[i]) {
          EncodeIsDocument(pairs[i].0);
          EncodeIsDocument(pairs[i].1);
          ListDocument([Encode(pairs[i].0), Encode(pairs[i].1)]);
        }
        SortedFrom(Pairs(v), PairKey);
      case Listed(_, items) =>
        forall i | 0 <= i < |items| ensures Document(Items(v)[i]) { EncodeIsDocument(items[i]); }
        ListDocument(Items(v));
      case Unordered(_, items) =>
        forall i | 0 <= i < |items| ensures Document(Items(v)[i]) { EncodeIsDocument(items[i]); }
        SortedFrom(Items(v), ItemText);
      case _ => PlainDocument(v);
    }
  }

  // ----- Comparing two files

  datatype Verdict =
    | ExactlyEqual(records: nat)
    | FirstDifference(record: nat, baselineKind: Prelude.Option<Json>, candidateKind: Prelude.Option<Json>)

  predicate AgreeUpTo(before: seq<Json>, after: seq<Json>, n: nat)
    requires n <= |before| && n <= |after|
  {
    forall i :: 0 <= i < n ==> PyEqual(before[i], after[i])
  }

  predicate Records(lines: seq<Json>) {
    forall i :: 0 <= i < |lines| ==> lines[i].Obj? && "kind" in lines[i].members
  }

  function KindAt(lines: seq<Json>, i: nat): Prelude.Option<Json>
    requires Records(lines)
  {
    if i < |lines| then Prelude.Some(lines[i].members["kind"]) else Prelude.None
  }

  method CompareTraces(before: seq<Json>, after: seq<Json>) returns (r: Verdict)
    requires Records(before) && Records(after)
    ensures r.ExactlyEqual? ==> |before| == |after| == r.records && AgreeUpTo(before, after, r.records)
    ensures r.FirstDifference? ==>
              && 1 <= r.record && r.record - 1 <= |before| && r.record - 1 <= |after|
              && AgreeUpTo(before, after, r.record - 1)
              && (r.record - 1 < |before| || r.record - 1 < |after|)
              && !(r.record - 1 < |before| && r.record - 1 < |after|
                   && PyEqual(before[r.record - 1], after[r.record - 1]))
              && r.baselineKind == KindAt(before, r.record - 1) && r.candidateKind == KindAt(after, r.record - 1)
  {
    var count := 0;
    while count < |before| || count < |after|
      invariant count <= |before| && count <= |after| && AgreeUpTo(before, after, count)
      decreases |before| + |after| - count
    {
      if count == |before| || count == |after| || !PyEqual(before[count], after[count]) {
        return FirstDifference(count + 1, KindAt(before, count), KindAt(after, count));
      }
      count := count + 1;
    }
    return ExactlyEqual(count);
  }

  // ----- Equal files record the same observations

  ghost predicate SameTrace(a: seq<Record>, b: seq<Record>) {
    |a| == |b| && forall i :: 0 <= i < |a| ==> a[i].kind == b[i].kind && Same(a[i].value, b[i].value)
  }

  ghost predicate SettledTrace(records: seq<Record>) {
    forall i :: 0 <= i < |records| ==> Settled(records[i].value)
  }

  lemma EqualLineSame(a: Record, b: Record)
    ensures PyEqual(Line(a), Line(b)) ==> a.kind == b.kind && Same(a.value, b.value)
    ensures Settled(a.value) && a.kind == b.kind && Same(a.value, b.value) ==> PyEqual(Line(a), Line(b))
  {
    hide Encode, Same, Settled, Document;
    PyEqualReflexive(Encode(a.value));
    if PyEqual(Line(a), Line(b)) {
      assert PyEqual(Line(a).members["kind"], Line(b).members["kind"]);
      assert PyEqual(Line(a).members["value"], Line(b).members["value"]);
      EncodeIsDocument(a.value);
      EncodeIsDocument(b.value);
      DocumentEquality(Encode(a.value), Encode(b.value));
      EqualDocumentsSame(a.value, b.value);
    }
    if Settled(a.value) && Same(a.value, b.value) { SameDocuments(a.value, b.value); }
  }

  // Files compare equal only for one sequence of observations, and always for settled ones.
  lemma EqualTracesSame(a: seq<Record>, b: seq<Record>)
    ensures |a| == |b| && AgreeUpTo(Lines(a), Lines(b), |a|) ==> SameTrace(a, b)
    ensures SettledTrace(a) ==> (SameTrace(a, b) <==> |a| == |b| && AgreeUpTo(Lines(a), Lines(b), |a|))
  {
    hide Line, Same, PyEqual, Settled;
    forall i | 0 <= i < |a| && 0 <= i < |b|
      ensures PyEqual(Lines(a)[i], Lines(b)[i]) ==> a[i].kind == b[i].kind && Same(a[i].value, b[i].value)
      ensures Settled(a[i].value) && a[i].kind == b[i].kind && Same(a[i].value, b[i].value) ==>
                PyEqual(Lines(a)[i], Lines(b)[i])
    {
      EqualLineSame(a[i], b[i]);
    }
  }
}
