// Ordered-field facts. Products and quotients are parameters, so callers only meet linear facts about them.
module RealFacts {
  import opened Prelude

  lemma MulLess(a: real, b: real, q: PosReal, aq: real, bq: real)
    requires a < b && aq == a * q && bq == b * q
    ensures aq < bq
  {
    assert (b - a) * q > 0.0;
    assert (b - a) * q == b * q - a * q;
  }

  lemma MulAtMost(a: real, b: real, q: PosReal, aq: real, bq: real)
    requires a <= b && aq == a * q && bq == b * q
    ensures aq <= bq
  {
    if a < b { MulLess(a, b, q, aq, bq); }
  }

  lemma MulNonnegative(a: real, b: real)
    requires a >= 0.0 && b >= 0.0
    ensures a * b >= 0.0
  {}

  lemma QuotientTimes(n: real, d: PosReal)
    ensures n / d * d == n
  {}

  // n / d against a bound m, with m * d named.
  lemma QuotientAtMost(n: real, d: PosReal, m: real, md: real)
    requires md == m * d
    ensures n <= md <==> n / d <= m
    ensures n < md <==> n / d < m
  {
    var r := n / d;
    QuotientTimes(n, d);
    ProductsOrdered(r, m, d, n, md);
  }

  lemma QuotientAtLeast(n: real, d: PosReal, m: real, md: real)
    requires md == m * d
    ensures md <= n <==> m <= n / d
    ensures md < n <==> m < n / d
  {
    QuotientAtMost(n, d, m, md);
  }

  lemma ProductsOrdered(a: real, b: real, q: PosReal, aq: real, bq: real)
    requires aq == a * q && bq == b * q
    ensures a <= b <==> aq <= bq
    ensures a < b <==> aq < bq
  {
    if a < b { MulLess(a, b, q, aq, bq); }
    if b < a { MulLess(b, a, q, bq, aq); }
  }
}
