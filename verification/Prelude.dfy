// Small vocabulary shared by the models.
module Prelude {
  datatype Option<+T> = None | Some(value: T)

  type Pos = x: int | 0 < x witness 1

  // A duration or rate that the simulator reports as strictly positive.
  type PosReal = x: real | 0.0 < x witness 1.0

  function MinReal(a: real, b: real): real { if b < a then b else a }

  function MaxReal(a: real, b: real): real { if a < b then b else a }

  function MaxInt(a: int, b: int): int { if a < b then b else a }

  function AbsReal(x: real): real { if x < 0.0 then -x else x }

  function MinSeq(s: seq<int>): (m: int)
    requires s != []
    ensures m in s && forall x :: x in s ==> m <= x
  {
    if |s| == 1 then s[0]
    else
      assert s == s[..|s| - 1] + [s[|s| - 1]];
      var rest := MinSeq(s[..|s| - 1]);
      if s[|s| - 1] < rest then s[|s| - 1] else rest
  }

  function MaxSeq(s: seq<int>): (m: int)
    requires s != []
    ensures m in s && forall x :: x in s ==> x <= m
  {
    if |s| == 1 then s[0]
    else
      assert s == s[..|s| - 1] + [s[|s| - 1]];
      var rest := MaxSeq(s[..|s| - 1]);
      if rest < s[|s| - 1] then s[|s| - 1] else rest
  }

  function CeilDiv(a: nat, b: Pos): nat { (a + b - 1) / b }

  predicate Distinct<T(==)>(s: seq<T>) {
    forall i, j :: 0 <= i < j < |s| ==> s[i] != s[j]
  }
}
