// Code-point order of texts, and Python's stable list.sort under a text key.
module TextOrder {

  predicate Before(a: string, b: string) {
    a == [] || (b != [] && (a[0] < b[0] || (a[0] == b[0] && Before(a[1..], b[1..]))))
  }

  lemma {:induction false} BeforeTotal(a: string, b: string)
    ensures Before(a, b) || Before(b, a)
    ensures Before(a, b) && Before(b, a) ==> a == b
  {
    if a != [] && b != [] {
      BeforeTotal(a[1..], b[1..]);
      if a[0] == b[0] { assert a == [a[0]] + a[1..] && b == [b[0]] + b[1..]; }
    }
  }

  lemma {:induction false} BeforeTransitive(a: string, b: string, c: string)
    requires Before(a, b) && Before(b, c)
    ensures Before(a, c)
  {
    if a != [] && a[0] == b[0] == c[0] { BeforeTransitive(a[1..], b[1..], c[1..]); }
  }

  // ----- Sorting

  ghost predicate Ordered<T>(s: seq<T>, key: T -> string) {
    forall i, j :: 0 <= i < j < |s| ==> Before(key(s[i]), key(s[j]))
  }

  function Inserted<T>(x: T, s: seq<T>, key: T -> string): seq<T> {
    if s == [] || Before(key(x), key(s[0])) then [x] + s else [s[0]] + Inserted(x, s[1..], key)
  }

  function SortedBy<T>(s: seq<T>, key: T -> string): seq<T> {
    if s == [] then [] else Inserted(s[0], SortedBy(s[1..], key), key)
  }

  lemma {:induction false} InsertedKeeps<T>(x: T, s: seq<T>, key: T -> string)
    ensures multiset(Inserted(x, s, key)) == multiset(s) + multiset{x}
    ensures Ordered(s, key) ==> Ordered(Inserted(x, s, key), key)
  {
    hide Before;
    if s == [] {
    } else if Before(key(x), key(s[0])) {
      forall k | 0 <= k < |s| && Ordered(s, key) ensures Before(key(x), key(s[k])) {
        if k > 0 { BeforeTransitive(key(x), key(s[0]), key(s[k])); }
      }
    } else {
      InsertedKeeps(x, s[1..], key);
      BeforeTotal(key(x), key(s[0]));
      var rest := Inserted(x, s[1..], key);
      assert s == [s[0]] + s[1..];
      forall k | 0 <= k < |rest| && Ordered(s, key) ensures Before(key(s[0]), key(rest[k])) {
        assert rest[k] in multiset(rest);
        if rest[k] != x {
          assert rest[k] in s[1..];
          var i :| 0 <= i < |s[1..]| && s[1..][i] == rest[k];
          assert s[i + 1] == rest[k];
        }
      }
      assert Ordered(s, key) ==> Ordered(s[1..], key);
    }
  }

  lemma {:induction false} SortedKeeps<T>(s: seq<T>, key: T -> string)
    ensures multiset(SortedBy(s, key)) == multiset(s) && |SortedBy(s, key)| == |s|
    ensures Ordered(SortedBy(s, key), key)
  {
    if s != [] {
      SortedKeeps(s[1..], key);
      InsertedKeeps(s[0], SortedBy(s[1..], key), key);
      assert s == [s[0]] + s[1..];
      assert |SortedBy(s, key)| == |multiset(SortedBy(s, key))| == |multiset(s)|;
    }
  }

  // Elements with one key are one element.
  ghost predicate Keyed<T>(s: seq<T>, key: T -> string) {
    forall i, j :: 0 <= i < |s| && 0 <= j < |s| && key(s[i]) == key(s[j]) ==> s[i] == s[j]
  }

  lemma HeadsAgree<T>(a: seq<T>, b: seq<T>, key: T -> string)
    requires multiset(a) == multiset(b) && Ordered(a, key) && Ordered(b, key) && Keyed(a, key) && a != [] && b != []
    ensures a[0] == b[0]
  {
    hide Before;
    assert a[0] in multiset(b) && b[0] in multiset(a);
    var i :| 0 <= i < |a| && a[i] == b[0];
    var j :| 0 <= j < |b| && b[j] == a[0];
    if i > 0 && j > 0 { BeforeTotal(key(a[0]), key(b[0])); }
  }

  lemma {:induction false} OrderedUnique<T>(a: seq<T>, b: seq<T>, key: T -> string)
    requires multiset(a) == multiset(b) && Ordered(a, key) && Ordered(b, key) && Keyed(a, key)
    ensures a == b
  {
    hide Before;
    assert |a| == |multiset(a)| == |multiset(b)| == |b|;
    if a != [] {
      HeadsAgree(a, b, key);
      assert a == [a[0]] + a[1..] && b == [b[0]] + b[1..];
      assert multiset(a[1..]) == multiset(a) - multiset{a[0]};
      assert multiset(b[1..]) == multiset(b) - multiset{b[0]};
      OrderedUnique(a[1..], b[1..], key);
    }
  }

  // Sorting forgets the order exactly when equal keys mean equal elements.
  lemma SortForgetsOrder<T>(a: seq<T>, b: seq<T>, key: T -> string)
    requires Keyed(a, key)
    ensures SortedBy(a, key) == SortedBy(b, key) <==> multiset(a) == multiset(b)
  {
    SortedKeeps(a, key);
    SortedKeeps(b, key);
    var s := SortedBy(a, key);
    forall i, j | 0 <= i < |s| && 0 <= j < |s| && key(s[i]) == key(s[j]) ensures s[i] == s[j] {
      assert s[i] in multiset(s) && s[j] in multiset(s);
      assert s[i] in a && s[j] in a;
    }
    if multiset(a) == multiset(b) { OrderedUnique(s, SortedBy(b, key), key); }
  }

  // ----- Stability

  function WithKey<T>(s: seq<T>, key: T -> string, k: string): seq<T> {
    if s == [] then [] else (if key(s[0]) == k then [s[0]] else []) + WithKey(s[1..], key, k)
  }

  lemma {:induction false} InsertedIsStable<T>(x: T, s: seq<T>, key: T -> string, k: string)
    ensures WithKey(Inserted(x, s, key), key, k) == WithKey([x] + s, key, k)
  {
    hide Before;
    var n := Inserted(x, s, key);
    assert ([x] + s)[1..] == s;
    if s != [] && !Before(key(x), key(s[0])) {
      BeforeTotal(key(x), key(x));
      InsertedIsStable(x, s[1..], key, k);
      assert n == [s[0]] + Inserted(x, s[1..], key) && n[1..] == Inserted(x, s[1..], key);
      assert ([x] + s[1..])[1..] == s[1..];
    }
  }

  // Sorting keeps the order of the elements that share a key.
  lemma {:induction false} SortIsStable<T>(s: seq<T>, key: T -> string, k: string)
    ensures WithKey(SortedBy(s, key), key, k) == WithKey(s, key, k)
  {
    if s != [] {
      SortIsStable(s[1..], key, k);
      var rest := SortedBy(s[1..], key);
      InsertedIsStable(s[0], rest, key, k);
      assert ([s[0]] + rest)[1..] == rest;
    }
  }

  lemma {:induction false} FirstDifferenceShows<T>(s: seq<T>, t: seq<T>, i: nat, key: T -> string, k: string)
    requires i < |s| && i < |t| && s[..i] == t[..i] && s[i] != t[i] && key(s[i]) == key(t[i]) == k
    ensures WithKey(s, key, k) != WithKey(t, key, k)
  {
    if i > 0 {
      assert s[0] == s[..i][0] == t[..i][0] == t[0];
      assert s[1..][..i - 1] == s[..i][1..] == t[..i][1..] == t[1..][..i - 1];
      FirstDifferenceShows(s[1..], t[1..], i - 1, key, k);
      var head := if key(s[0]) == k then [s[0]] else [];
      assert WithKey(s, key, k)[|head|..] == WithKey(s[1..], key, k);
      assert WithKey(t, key, k)[|head|..] == WithKey(t[1..], key, k);
    } else {
      assert WithKey(s, key, k)[0] == s[0] && WithKey(t, key, k)[0] == t[0];
    }
  }

  // ----- Sorted names of a dictionary

  ghost function SortedNames(names: set<string>): (r: seq<string>)
    ensures |r| == |names| && forall x :: x in r <==> x in names
  {
    if names == {} then []
    else
      FirstExists(names);
      var first :| first in names && forall x :: x in names ==> Before(first, x);
      [first] + SortedNames(names - {first})
  }

  lemma {:induction false} FirstExists(names: set<string>)
    requires names != {}
    ensures exists first :: first in names && forall x :: x in names ==> Before(first, x)
  {
    hide Before;
    var some :| some in names;
    var rest := names - {some};
    BeforeTotal(some, some);
    if rest == {} {
      assert names == rest + {some};
    } else {
      FirstExists(rest);
      var first :| first in rest && forall x :: x in rest ==> Before(first, x);
      BeforeTotal(some, first);
      var least := if Before(some, first) then some else first;
      forall x | x in names ensures Before(least, x) {
        if x != some && least == some { BeforeTransitive(some, first, x); }
      }
    }
  }
}
