// Flooring to the batch quantum, and what one search step may ask for.
module QuantumFacts {
  import opened Prelude
  import opened NativeSearch
  import opened RealFacts

  lemma MultiplyOrdered(a: int, b: int, q: Pos)
    ensures a <= b ==> a * q <= b * q
    ensures a < b ==> a * q + q <= b * q
  {
    if a < b {
      var d := b - a - 1;
      assert b * q == (a + 1 + d) * q == a * q + q + d * q;
      ProductNonnegative(d, q);
    }
  }

  lemma ProductNonnegative(d: nat, q: Pos)
    ensures d * q >= 0
  {}

  lemma ProductIsMultiple(k: int, q: Pos)
    ensures k * q % q == 0
  {
    var d := k * q / q;
    assert k * q == d * q + k * q % q;
    MultiplyOrdered(k, d, q);
    MultiplyOrdered(d, k, q);
  }

  // The products are parameters, so that callers keep only linear facts about them.
  lemma ScaledBounds(r: real, f: real, q: PosReal, scaled: real, floored: real)
    requires f <= r < f + 1.0 && scaled == r * q && floored == f * q
    ensures floored <= scaled < floored + q
  {
    var next := f + 1.0;
    assert next * q == f * q + q;
    MulAtMost(f, r, q, floored, scaled);
    MulLess(r, next, q, scaled, floored + q);
  }

  lemma MultipleBelow(m: int, k: int, q: Pos)
    requires m % q == 0 && m < k * q + q
    ensures m <= k * q
  {
    assert m == m / q * q;
    MultiplyOrdered(m / q, k, q);
    MultiplyOrdered(k, m / q, q);
  }

  // FloorTo is the greatest multiple of the quantum at or below a batch.
  lemma FloorToIsGreatest(x: real, q: Pos)
    ensures FloorTo(x, q) % q == 0
    ensures FloorTo(x, q) as real <= x < (FloorTo(x, q) + q) as real
    ensures forall m :: m % q == 0 && m as real <= x ==> m <= FloorTo(x, q)
  {
    var f := (x / q as real).Floor;
    ProductIsMultiple(f, q);
    FlooredBounds(x, q);
    forall m | m % q == 0 && m as real <= x
      ensures m <= FloorTo(x, q)
    {
      MultipleBelow(m, f, q);
    }
  }

  lemma ProductAsReal(k: int, q: int)
    ensures (k * q) as real == k as real * q as real
  {}

  lemma QuotientScaled(x: real, d: PosReal)
    ensures x / d * d == x
  {}

  lemma FlooredBounds(x: real, q: Pos)
    ensures FloorTo(x, q) as real <= x < (FloorTo(x, q) + q) as real
  {
    var d: PosReal := q as real;
    var f := (x / d).Floor;
    ProductAsReal(f, q);
    QuotientScaled(x, d);
    ScaledBounds(x / d, f as real, d, x, FloorTo(x, q) as real);
  }

  // Rounded is a positive multiple of the quantum, and the greatest one at or below any x >= q.
  lemma RoundedFacts(x: real, q: Pos)
    ensures Rounded(x, q) >= q && Rounded(x, q) % q == 0
    ensures x >= q as real ==> Rounded(x, q) as real <= x
    ensures x < q as real ==> Rounded(x, q) == q
    ensures forall m :: m % q == 0 && m as real <= x ==> m <= Rounded(x, q)
  {
    FloorToIsGreatest(x, q);
    assert q % q == 0;
  }
}
