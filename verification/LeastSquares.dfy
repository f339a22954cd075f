// fit_line in scripts/exploring_hbf_native_search.py is the least-squares line.
module LeastSquares {
  import opened Prelude
  import opened RealFacts
  import opened NativeSearch

  type Sample = (real, real)

  function Square(x: real): (r: real)
    ensures r >= 0.0
  {
    MulNonnegative(AbsReal(x), AbsReal(x));
    x * x
  }

  // The sum of squared distances of the values from the line a + b * x.
  function SquaredError(points: seq<Sample>, a: real, b: real): real {
    if points == [] then 0.0
    else
      var p := points[|points| - 1];
      SquaredError(points[..|points| - 1], a, b) + Square(Residual(p, a, b))
  }

  function Residual(p: Sample, a: real, b: real): real { p.1 - (a + b * p.0) }

  // ----- The error over centred sums

  // Sums of the deviations from (mx, my), and of the squared deviations from my.
  function Offsets(points: seq<Sample>, mx: real): real {
    if points == [] then 0.0 else Offsets(points[..|points| - 1], mx) + (points[|points| - 1].0 - mx)
  }

  function OffsetsY(points: seq<Sample>, my: real): real {
    if points == [] then 0.0 else OffsetsY(points[..|points| - 1], my) + (points[|points| - 1].1 - my)
  }

  function SpreadY(points: seq<Sample>, my: real): real {
    if points == [] then 0.0 else SpreadY(points[..|points| - 1], my) + Square(points[|points| - 1].1 - my)
  }

  datatype Sums = Sums(yy: real, xy: real, xx: real, sx: real, sy: real, n: real)

  function SumsOf(points: seq<Sample>, mx: real, my: real): Sums {
    Sums(SpreadY(points, my), Cross(points, mx, my), Spread(points, mx), Offsets(points, mx), OffsetsY(points, my),
         |points| as real)
  }

  // The squared error of the line of slope b that passes e below the means.
  function Expanded(s: Sums, b: real, e: real): real {
    s.yy - 2.0 * (b * s.xy) + b * (b * s.xx) + 2.0 * (e * s.sy) - 2.0 * (e * (b * s.sx)) + s.n * (e * e)
  }

  function Added(s: Sums, dx: real, dy: real): Sums {
    Sums(s.yy + Square(dy), s.xy + dx * dy, s.xx + dx * dx, s.sx + dx, s.sy + dy, s.n + 1.0)
  }

  lemma SumsSnoc(points: seq<Sample>, mx: real, my: real)
    requires points != []
    ensures var p := points[|points| - 1];
            SumsOf(points, mx, my) == Added(SumsOf(points[..|points| - 1], mx, my), p.0 - mx, p.1 - my)
  {}

  lemma Distribute(k: real, x: real, y: real)
    ensures k * (x + y) == k * x + k * y
  {}

  lemma SquareOfThree(x: real, y: real, z: real)
    ensures Square(x - y + z) == Square(x) - 2.0 * (y * x) + y * y + 2.0 * (z * x) - 2.0 * (z * y) + z * z
  {}

  lemma Associate(x: real, y: real, z: real)
    ensures x * (y * z) == x * y * z
  {}

  lemma ExpandedStep(s: Sums, b: real, e: real, dx: real, dy: real, residual: real)
    requires residual == dy - b * dx + e
    ensures Expanded(Added(s, dx, dy), b, e) == Expanded(s, b, e) + Square(residual)
  {
    hide Square;
    var c := b * dx;
    SquareOfThree(dy, c, e);
    Distribute(b, s.xy, dx * dy);
    Associate(b, dx, dy);
    Distribute(b, s.xx, dx * dx);
    Associate(b, dx, dx);
    Distribute(b, b * s.xx, c * dx);
    BothScaled(b, dx, c);
    Distribute(e, s.sy, dy);
    Distribute(b, s.sx, dx);
    Distribute(e, b * s.sx, c);
    Distribute(e * e, s.n, 1.0);
  }

  lemma BothScaled(b: real, dx: real, c: real)
    requires c == b * dx
    ensures b * (c * dx) == c * c
  {}

  lemma ResidualIs(p: Sample, a: real, b: real, mx: real, my: real, e: real)
    requires e == my - (a + b * mx)
    ensures Residual(p, a, b) == (p.1 - my) - b * (p.0 - mx) + e
  {
    Distribute(b, p.0 - mx, mx);
  }

  lemma NoError(mx: real, my: real, b: real, e: real)
    ensures Expanded(SumsOf([], mx, my), b, e) == 0.0
  {}

  lemma {:induction false} ErrorExpands(points: seq<Sample>, a: real, b: real, mx: real, my: real, e: real)
    requires e == my - (a + b * mx)
    ensures SquaredError(points, a, b) == Expanded(SumsOf(points, mx, my), b, e)
  {
    hide Square, Expanded, SumsOf, Added, Residual;
    if points == [] {
      NoError(mx, my, b, e);
    } else {
      var init, p := points[..|points| - 1], points[|points| - 1];
      ErrorExpands(init, a, b, mx, my, e);
      SumsSnoc(points, mx, my);
      ResidualIs(p, a, b, mx, my, e);
      ExpandedStep(SumsOf(init, mx, my), b, e, p.0 - mx, p.1 - my, Residual(p, a, b));
    }
  }

  // ----- The minimum

  lemma {:induction false} SpreadFacts(points: seq<Sample>, mx: real, my: real)
    ensures Spread(points, mx) >= 0.0
    ensures Spread(points, mx) == 0.0 ==> Cross(points, mx, my) == 0.0
  {
    if points != [] {
      var init, p := points[..|points| - 1], points[|points| - 1];
      SpreadFacts(init, mx, my);
      SpreadStep(Spread(init, mx), Cross(init, mx, my), p.0 - mx, p.1 - my);
    }
  }

  lemma SpreadStep(xx: real, xy: real, d: real, y: real)
    requires xx >= 0.0 && (xx == 0.0 ==> xy == 0.0)
    ensures xx + d * d >= 0.0 && (xx + d * d == 0.0 ==> xy + d * y == 0.0)
  {
    SquareZero(d, y);
  }

  lemma SquareZero(d: real, y: real)
    ensures d * d >= 0.0 && (d * d == 0.0 ==> d * y == 0.0)
  {
    MulNonnegative(AbsReal(d), AbsReal(d));
    if d > 0.0 { MulLess(0.0, d, d, 0.0, d * d); }
    if d < 0.0 { MulLess(0.0, -d, -d, 0.0, d * d); }
  }

  lemma SquareGap(xx: real, fit: real, b: real)
    ensures b * (b * xx) - 2.0 * (b * (fit * xx)) + fit * (fit * xx) == xx * Square(b - fit)
  {}

  // The error is least at the fitted slope, through the means.
  lemma LeastAt(s: Sums, fit: real, b: real, e: real)
    requires s.n >= 0.0 && s.xx >= 0.0 && fit * s.xx == s.xy && s.sx == 0.0 && s.sy == 0.0
    ensures Expanded(s, fit, 0.0) <= Expanded(s, b, e)
  {
    MulNonnegative(s.xx, Square(b - fit));
    MulNonnegative(s.n, Square(e));
    SquareGap(s.xx, fit, b);
    AtMeans(s, fit, 0.0);
    AtMeans(s, b, e);
    hide Expanded;
    assert s.n * Square(0.0) == 0.0;
  }

  lemma AtMeans(s: Sums, b: real, e: real)
    requires s.sx == 0.0 && s.sy == 0.0
    ensures Expanded(s, b, e) == s.yy - 2.0 * (b * s.xy) + b * (b * s.xx) + s.n * Square(e)
  {}

  lemma {:induction false} OffsetsAre(points: seq<Sample>, mx: real, my: real, nx: real, ny: real)
    requires nx == mx * |points| as real && ny == my * |points| as real
    ensures Offsets(points, mx) == SumX(points) - nx && OffsetsY(points, my) == SumY(points) - ny
  {
    if points != [] {
      var k := (|points| - 1) as real;
      Distribute(mx, k, 1.0);
      Distribute(my, k, 1.0);
      OffsetsAre(points[..|points| - 1], mx, my, mx * k, my * k);
    }
  }

  // No line through the measured points has a smaller squared error, one point or all at one batch included.
  lemma FitLineIsLeastSquares(points: seq<Sample>, a: real, b: real)
    requires points != []
    ensures SquaredError(points, FitLine(points).0, FitLine(points).1) <= SquaredError(points, a, b)
  {
    hide Expanded, SquaredError, SumX, SumY, Spread, SpreadY, Cross, Offsets, OffsetsY;
    var n: PosReal := |points| as real;
    var mx, my := SumX(points) / n, SumY(points) / n;
    QuotientTimes(SumX(points), n);
    QuotientTimes(SumY(points), n);
    OffsetsAre(points, mx, my, SumX(points), SumY(points));
    SpreadFacts(points, mx, my);
    var (p, q) := FitLine(points);
    FitSlope(points, mx, my, n);
    ErrorExpands(points, a, b, mx, my, my - (a + b * mx));
    ErrorExpands(points, p, q, mx, my, 0.0);
    LeastAt(SumsOf(points, mx, my), q, b, my - (a + b * mx));
  }

  lemma FitSlope(points: seq<Sample>, mx: real, my: real, n: PosReal)
    requires points != [] && n == |points| as real && mx == SumX(points) / n && my == SumY(points) / n
    ensures FitLine(points).1 * Spread(points, mx) == Cross(points, mx, my)
    ensures FitLine(points).0 == my - FitLine(points).1 * mx
  {
    hide SumX, SumY, Spread, Cross;
    SpreadFacts(points, mx, my);
    if Spread(points, mx) != 0.0 {
      QuotientTimes(Cross(points, mx, my), Spread(points, mx));
    }
  }
}
