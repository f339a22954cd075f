// Permutations as index sequences, and equality of multisets.
module Rearrangement {

  ghost predicate Permutation(p: seq<nat>, n: nat) {
    && |p| == n
    && (forall i :: 0 <= i < n ==> p[i] < n)
    && (forall i, j :: 0 <= i < j < n ==> p[i] != p[j])
  }

  function Identity(n: nat): (p: seq<nat>)
    ensures Permutation(p, n) && forall i :: 0 <= i < n ==> p[i] == i
  {
    seq(n, i => i)
  }

  function Transposition(n: nat, i: nat, j: nat): (p: seq<nat>)
    requires i < j < n
    ensures Permutation(p, n) && forall k :: 0 <= k < n ==> p[k] == if k == i then j else if k == j then i else k
  {
    Identity(n)[i := j][j := i]
  }

  ghost predicate Rearranges<T(!new)>(a: seq<T>, b: seq<T>, p: seq<nat>) {
    |a| == |b| && Permutation(p, |a|) && forall i :: 0 <= i < |a| ==> a[i] == b[p[i]]
  }

  function Without<T>(s: seq<T>, q: nat): (r: seq<T>)
    requires q < |s|
    ensures |r| == |s| - 1 && forall k :: 0 <= k < |r| ==> r[k] == if k < q then s[k] else s[k + 1]
  {
    s[..q] + s[q + 1..]
  }

  lemma MultisetWithout<T>(s: seq<T>, q: nat)
    requires q < |s|
    ensures multiset(Without(s, q)) == multiset(s) - multiset{s[q]}
  {
    assert s == s[..q] + [s[q]] + s[q + 1..];
  }

  lemma DropLast<T(!new)>(a: seq<T>, b: seq<T>, p: seq<nat>) returns (r: seq<nat>)
    requires a != [] && Rearranges(a, b, p)
    ensures Rearranges(a[..|a| - 1], Without(b, p[|a| - 1]), r)
  {
    var n := |a| - 1;
    var q := p[n];
    r := seq(n, i requires 0 <= i < n => if p[i] < q then p[i] else p[i] - 1);
    forall i | 0 <= i < n ensures p[i] != q {}
  }

  lemma AddLast<T(!new)>(a: seq<T>, b: seq<T>, q: nat, r: seq<nat>) returns (p: seq<nat>)
    requires a != [] && q < |b| && a[|a| - 1] == b[q] && Rearranges(a[..|a| - 1], Without(b, q), r)
    ensures Rearranges(a, b, p)
  {
    var n := |a| - 1;
    p := seq(n, i requires 0 <= i < n => if r[i] < q then r[i] else r[i] + 1) + [q];
    forall i | 0 <= i < n ensures a[i] == b[p[i]] {
      assert a[..n][i] == Without(b, q)[r[i]];
    }
  }

  lemma {:induction false} RearrangedMultiset<T(!new)>(a: seq<T>, b: seq<T>, p: seq<nat>)
    requires Rearranges(a, b, p)
    ensures multiset(a) == multiset(b)
  {
    if a != [] {
      var n := |a| - 1;
      var r := DropLast(a, b, p);
      RearrangedMultiset(a[..n], Without(b, p[n]), r);
      MultisetWithout(b, p[n]);
      assert a == a[..n] + [a[n]];
    }
  }

  lemma {:induction false} MultisetRearranged<T(!new)>(a: seq<T>, b: seq<T>) returns (p: seq<nat>)
    requires multiset(a) == multiset(b)
    ensures Rearranges(a, b, p)
  {
    assert |a| == |multiset(a)| == |multiset(b)| == |b|;
    if a == [] {
      p := [];
    } else {
      var n := |a| - 1;
      assert a[n] in multiset(b);
      var q :| 0 <= q < |b| && b[q] == a[n];
      MultisetWithout(b, q);
      assert a == a[..n] + [a[n]];
      assert multiset(a[..n]) == multiset(a) - multiset{a[n]};
      var r := MultisetRearranged(a[..n], Without(b, q));
      p := AddLast(a, b, q, r);
    }
  }

  lemma ReplacedMultiset<T>(s: seq<T>, i: nat, x: T)
    requires i < |s| && s[i] != x
    ensures multiset(s[i := x]) != multiset(s)
  {
    assert multiset(s[i := x]) == multiset(s) - multiset{s[i]} + multiset{x};
    assert multiset(s[i := x])[x] == multiset(s)[x] + 1;
  }
}
