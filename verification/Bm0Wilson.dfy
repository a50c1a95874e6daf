/** The Wilson score interval of b2/bm0.py, in exact reals. The square root the
    source takes is any non-negative s whose square is the radicand. */
module Bm0Wilson {
  const Z: real := 1.959963984540054
  const W: real := Z * Z

  datatype Interval = Rejected | NotEvaluable | Bounds(lower: real, upper: real)

  function Proportion(failures: int, denominator: int): real
    requires denominator > 0
  {
    failures as real / denominator as real
  }

  function Radicand(p: real, n: real): real
    requires n > 0.0
  {
    (p * (1.0 - p) + W / (4.0 * n)) / n
  }

  predicate IsRoot(s: real, failures: int, denominator: int)
    requires denominator > 0
  {
    s >= 0.0 && s * s == Radicand(Proportion(failures, denominator), denominator as real)
  }

  function Center(p: real, n: real): real
    requires n > 0.0
  {
    assert W / n > 0.0;
    (p + W / (2.0 * n)) / (1.0 + W / n)
  }

  function Half(s: real, n: real): real
    requires n > 0.0
  {
    assert W / n > 0.0;
    Z * s / (1.0 + W / n)
  }

  function Max(a: real, b: real): real { if a < b then b else a }
  function Min(a: real, b: real): real { if b < a then b else a }

  /** `wilson_interval_v1`, with the square root handed in. */
  function WilsonInterval(failures: int, denominator: int, s: real): Interval {
    if failures < 0 || denominator < 0 || failures > denominator then Rejected
    else if denominator == 0 then NotEvaluable
    else
      var p, n := Proportion(failures, denominator), denominator as real;
      Bounds(Max(0.0, Center(p, n) - Half(s, n)), Min(1.0, Center(p, n) + Half(s, n)))
  }

  /** The defining quadratic n(p-x)^2 - z^2 x(1-x), which is <= 0 inside. */
  function Quadratic(p: real, n: real, x: real): real {
    n * ((p - x) * (p - x)) - W * (x * (1.0 - x))
  }

  // ---- algebra ------------------------------------------------------------

  lemma CenterScaled(p: real, n: real)
    requires n > 0.0
    ensures Center(p, n) * (n + W) == n * p + W / 2.0
  {
    var a := 1.0 + W / n;
    assert a * n == n + W;
    assert Center(p, n) * a == p + W / (2.0 * n);
    assert n * (W / (2.0 * n)) == W / 2.0;
    assert Center(p, n) * (n + W) == (Center(p, n) * a) * n;
  }

  lemma HalfScaled(s: real, n: real)
    requires n > 0.0
    ensures Half(s, n) * (n + W) == n * Z * s
  {
    var a := 1.0 + W / n;
    assert a * n == n + W;
    assert Half(s, n) * a == Z * s;
    assert Half(s, n) * (n + W) == (Half(s, n) * a) * n;
  }

  lemma RadicandScaled(p: real, n: real, s: real)
    requires n > 0.0 && s * s == Radicand(p, n)
    ensures n * n * (s * s) == n * (p * (1.0 - p)) + W / 4.0
  {
    var r := p * (1.0 - p) + W / (4.0 * n);
    assert n * (s * s) == r;
    assert n * (W / (4.0 * n)) == W / 4.0;
    assert n * n * (s * s) == n * (n * (s * s));
    assert n * r == n * (p * (1.0 - p)) + n * (W / (4.0 * n));
  }

  /** Completing the square. */
  lemma CompleteSquare(n: real, p: real, w: real, x: real)
    ensures (n + w) * (n * ((p - x) * (p - x)) - w * (x * (1.0 - x)))
         == ((n + w) * x - (n * p + w / 2.0)) * ((n + w) * x - (n * p + w / 2.0))
            - w * (n * (p * (1.0 - p)) + w / 4.0)
  {
    var d, b := n + w, n * p + w / 2.0;
    var q := n * ((p - x) * (p - x)) - w * (x * (1.0 - x));
    assert q == d * (x * x) - 2.0 * (b * x) + n * (p * p);
    assert d * q == d * (d * (x * x)) - d * (2.0 * (b * x)) + d * (n * (p * p));
    assert (d * x - b) * (d * x - b) == d * (d * (x * x)) - d * (2.0 * (b * x)) + b * b;
    assert b * b == n * p * (n * p) + w * (n * p) + w * w / 4.0;
    assert d * (n * (p * p)) == n * p * (n * p) + w * (n * (p * p));
    assert w * (n * (p * (1.0 - p)) + w / 4.0) == w * (n * p) - w * (n * (p * p)) + w * w / 4.0;
  }

  lemma ProductSign(u: real, v: real)
    ensures u * v > 0.0 <==> (u > 0.0 && v > 0.0) || (u < 0.0 && v < 0.0)
    ensures u * v == 0.0 <==> u == 0.0 || v == 0.0
  {}

  /** Squares order non-negative numbers. */
  lemma SquareOrder(a: real, b: real)
    requires b >= 0.0
    ensures a * a <= b * b <==> -b <= a <= b
    ensures a * a < b * b <==> -b < a < b
  {
    assert b * b - a * a == (b - a) * (b + a);
    ProductSign(b - a, b + a);
  }

  /** n + z^2 times the quadratic is a difference of squares around the centre. */
  lemma QuadraticScaled(p: real, n: real, s: real, x: real)
    requires n > 0.0 && s >= 0.0 && s * s == Radicand(p, n)
    ensures var d := n + W;
      d * Quadratic(p, n, x) == (d * (x - Center(p, n))) * (d * (x - Center(p, n))) - (d * Half(s, n)) * (d * Half(s, n))
  {
    var d := n + W;
    CenterScaled(p, n);
    HalfScaled(s, n);
    RadicandScaled(p, n, s);
    CompleteSquare(n, p, W, x);
    assert d * (x - Center(p, n)) == d * x - (n * p + W / 2.0);
    assert (n * Z * s) * (n * Z * s) == W * (n * n * (s * s));
  }

  lemma ScaleOrder(d: real, a: real, b: real)
    requires d > 0.0
    ensures d * a <= d * b <==> a <= b
    ensures d * a < d * b <==> a < b
  {
    assert d * b - d * a == d * (b - a);
    ProductSign(d, b - a);
  }

  lemma HalfNonNegative(s: real, n: real)
    requires n > 0.0 && s >= 0.0
    ensures Half(s, n) >= 0.0
  {
    HalfScaled(s, n);
    ProductSign(Half(s, n), n + W);
    ProductSign(n * Z, s);
  }

  /** The unclamped ends are the roots of the quadratic: it is at most zero
      exactly between them and below zero exactly strictly between them. */
  lemma InsideIff(p: real, n: real, s: real, x: real)
    requires n > 0.0 && s >= 0.0 && s * s == Radicand(p, n)
    ensures Center(p, n) - Half(s, n) <= x <= Center(p, n) + Half(s, n) <==> Quadratic(p, n, x) <= 0.0
    ensures Center(p, n) - Half(s, n) < x < Center(p, n) + Half(s, n) <==> Quadratic(p, n, x) < 0.0
  {
    hide Center, Half, Quadratic, Radicand;
    var d, t, h, q := n + W, x - Center(p, n), Half(s, n), Quadratic(p, n, x);
    HalfNonNegative(s, n);
    QuadraticScaled(p, n, s, x);
    ProductSign(d, h);
    SquareOrder(d * t, d * h);
    ScaleOrder(d, t, h);
    ScaleOrder(d, -h, t);
    assert d * -h == -(d * h);
    ScaleOrder(d, q, 0.0);
  }

  /** The unclamped ends are where the quadratic is zero, and nowhere else. */
  lemma EndsAreRoots(p: real, n: real, s: real, x: real)
    requires n > 0.0 && s >= 0.0 && s * s == Radicand(p, n)
    ensures Quadratic(p, n, x) == 0.0 <==> x == Center(p, n) - Half(s, n) || x == Center(p, n) + Half(s, n)
  {
    hide Center, Half, Quadratic, Radicand;
    HalfNonNegative(s, n);
    InsideIff(p, n, s, x);
  }

  // ---- main results -------------------------------------------------------

  /** The square root is never taken of a negative number, nor of zero. */
  lemma RadicandIsPositive(failures: int, denominator: int)
    requires 0 <= failures <= denominator && denominator > 0
    ensures Radicand(Proportion(failures, denominator), denominator as real) > 0.0
  {
    var p, n := Proportion(failures, denominator), denominator as real;
    ProportionInUnit(failures, denominator);
    ProductSign(p, 1.0 - p);
    var a := W / (4.0 * n);
    assert a * (4.0 * n) == W;
    ProductSign(a, 4.0 * n);
    assert Radicand(p, n) * n == p * (1.0 - p) + a;
    ProductSign(Radicand(p, n), n);
  }

  lemma ProportionInUnit(failures: int, denominator: int)
    requires 0 <= failures <= denominator && denominator > 0
    ensures 0.0 <= Proportion(failures, denominator) <= 1.0
  {
    var n := denominator as real;
    var p := Proportion(failures, denominator);
    assert p * n == failures as real;
    ScaleOrder(n, 0.0, p);
    ScaleOrder(n, p, 1.0);
  }

  /** Outside [0, 1] the quadratic is positive, at p it is at most zero. */
  lemma QuadraticSigns(p: real, n: real, x: real)
    requires n > 0.0 && 0.0 <= p <= 1.0
    ensures x < 0.0 || x > 1.0 ==> Quadratic(p, n, x) > 0.0
    ensures Quadratic(p, n, p) <= 0.0
  {
    ProductSign(x, 1.0 - x);
    ProductSign(W, x * (1.0 - x));
    ProductSign(p - x, p - x);
    ProductSign(n, (p - x) * (p - x));
    ProductSign(p, 1.0 - p);
    ProductSign(W, p * (1.0 - p));
  }

  /** The reported interval is exactly the set of proportions the quadratic
      accepts: neither clamp ever binds, and the observed proportion is inside. */
  lemma WilsonIsTheQuadratic(failures: int, denominator: int, s: real)
    requires 0 <= failures <= denominator && denominator > 0 && IsRoot(s, failures, denominator)
    ensures var p, n := Proportion(failures, denominator), denominator as real;
      var r := WilsonInterval(failures, denominator, s);
      && r == Bounds(Center(p, n) - Half(s, n), Center(p, n) + Half(s, n))
      && 0.0 <= r.lower <= p <= r.upper <= 1.0
      && forall x :: r.lower <= x <= r.upper <==> Quadratic(p, n, x) <= 0.0
  {
    var p, n := Proportion(failures, denominator), denominator as real;
    var lower, upper := Center(p, n) - Half(s, n), Center(p, n) + Half(s, n);
    ProportionInUnit(failures, denominator);
    HalfNonNegative(s, n);
    hide Center, Half, Quadratic, Proportion;
    forall x ensures lower <= x <= upper <==> Quadratic(p, n, x) <= 0.0 {
      InsideIff(p, n, s, x);
    }
    QuadraticSigns(p, n, p);
    QuadraticSigns(p, n, lower);
    QuadraticSigns(p, n, upper);
    assert Quadratic(p, n, lower) <= 0.0 && Quadratic(p, n, upper) <= 0.0;
  }

  /** The square root is determined by the counts. */
  lemma RootIsUnique(failures: int, denominator: int, s: real, t: real)
    requires denominator > 0 && IsRoot(s, failures, denominator) && IsRoot(t, failures, denominator)
    ensures s == t
  {
    SquareOrder(s, t);
    SquareOrder(t, s);
  }

  lemma ProportionTimes(failures: int, denominator: int)
    requires denominator > 0
    ensures Proportion(failures, denominator) * denominator as real == failures as real
  {}

  lemma ProportionIncreases(failures: int, more: int, denominator: int)
    requires denominator > 0 && failures < more
    ensures Proportion(failures, denominator) < Proportion(more, denominator)
  {
    var n := denominator as real;
    ProportionTimes(failures, denominator);
    ProportionTimes(more, denominator);
    var p, q := Proportion(failures, denominator), Proportion(more, denominator);
    hide Proportion;
    ScaleOrder(n, p, q);
  }

  lemma ComplementProportion(failures: int, denominator: int)
    requires denominator > 0
    ensures Proportion(denominator - failures, denominator) == 1.0 - Proportion(failures, denominator)
  {
    var n := denominator as real;
    var p, q := Proportion(failures, denominator), Proportion(denominator - failures, denominator);
    ProportionTimes(failures, denominator);
    ProportionTimes(denominator - failures, denominator);
    hide Proportion;
    assert (q - (1.0 - p)) * n == 0.0;
    ProductSign(q - (1.0 - p), n);
  }

  lemma ComplementCenter(p: real, n: real)
    requires n > 0.0
    ensures Center(1.0 - p, n) == 1.0 - Center(p, n)
    ensures Radicand(1.0 - p, n) == Radicand(p, n)
  {
    var d := n + W;
    CenterScaled(p, n);
    CenterScaled(1.0 - p, n);
    hide Center;
    assert (Center(p, n) + Center(1.0 - p, n) - 1.0) * d == 0.0;
    ProductSign(Center(p, n) + Center(1.0 - p, n) - 1.0, d);
  }

  /** Successes and failures swapped: the interval is reflected at one half. */
  lemma WilsonReflects(failures: int, denominator: int, s: real)
    requires 0 <= failures <= denominator && denominator > 0 && IsRoot(s, failures, denominator)
    ensures IsRoot(s, denominator - failures, denominator)
    ensures var r := WilsonInterval(failures, denominator, s);
      r.Bounds? && WilsonInterval(denominator - failures, denominator, s) == Bounds(1.0 - r.upper, 1.0 - r.lower)
  {
    ComplementProportion(failures, denominator);
    ComplementCenter(Proportion(failures, denominator), denominator as real);
    hide Proportion, Center, Half, Radicand;
    WilsonIsTheQuadratic(failures, denominator, s);
    WilsonIsTheQuadratic(denominator - failures, denominator, s);
    hide WilsonInterval;
  }

  /** Moving p moves the quadratic by n(p'-p)(p'+p-2x). */
  lemma QuadraticShift(p: real, q: real, n: real, x: real)
    requires n > 0.0 && p < q
    ensures p + q < 2.0 * x ==> Quadratic(q, n, x) < Quadratic(p, n, x)
    ensures p + q > 2.0 * x ==> Quadratic(p, n, x) < Quadratic(q, n, x)
  {
    var shift := (q - p) * (q + p - 2.0 * x);
    assert (q - x) * (q - x) == (p - x) * (p - x) + shift;
    assert Quadratic(q, n, x) == Quadratic(p, n, x) + n * shift;
    assert -(n * shift) == n * ((q - p) * -(q + p - 2.0 * x));
    ProductSign(q - p, q + p - 2.0 * x);
    ProductSign(q - p, -(q + p - 2.0 * x));
    ProductSign(n, shift);
    ProductSign(n, (q - p) * -(q + p - 2.0 * x));
  }

  lemma UpperMoves(p: real, q: real, n: real, t: real, u: real)
    requires n > 0.0 && p < q && t >= 0.0 && t * t == Radicand(q, n)
    requires Quadratic(p, n, u) <= 0.0 && q <= Center(q, n) + Half(t, n)
    ensures u < Center(q, n) + Half(t, n)
  {
    QuadraticShift(p, q, n, u);
    InsideIff(q, n, t, u);
  }

  lemma LowerMoves(p: real, q: real, n: real, s: real, l: real)
    requires n > 0.0 && p < q && s >= 0.0 && s * s == Radicand(p, n)
    requires Quadratic(q, n, l) <= 0.0 && Center(p, n) - Half(s, n) <= p
    ensures Center(p, n) - Half(s, n) < l
  {
    QuadraticShift(p, q, n, l);
    InsideIff(p, n, s, l);
  }

  /** More failures move both ends strictly up. */
  lemma WilsonIncreases(failures: int, more: int, denominator: int, s: real, t: real)
    requires 0 <= failures < more <= denominator
    requires IsRoot(s, failures, denominator) && IsRoot(t, more, denominator)
    ensures var a, b := WilsonInterval(failures, denominator, s), WilsonInterval(more, denominator, t);
      a.Bounds? && b.Bounds? && a.lower < b.lower && a.upper < b.upper
  {
    var n := denominator as real;
    var p, q := Proportion(failures, denominator), Proportion(more, denominator);
    ProportionIncreases(failures, more, denominator);
    hide Proportion;
    WilsonIsTheQuadratic(failures, denominator, s);
    WilsonIsTheQuadratic(more, denominator, t);
    hide Quadratic, Center, Half, WilsonInterval, Radicand;
    var a, b := WilsonInterval(failures, denominator, s), WilsonInterval(more, denominator, t);
    UpperMoves(p, q, n, t, a.upper);
    LowerMoves(p, q, n, s, b.lower);
  }
}
