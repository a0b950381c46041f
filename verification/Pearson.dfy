/** The Pearson correlation of examples/data_mining.py over exact reals. Square roots are
    inputs, given by the numbers they are roots of. */
module Pearson {
  import opened Prelude
  import opened Rounding

  // ----- Arithmetic -----

  lemma {:induction false} Positive(x: real, y: real)
    requires x > 0.0 && y > 0.0
    ensures x * y > 0.0
  {
  }

  lemma {:induction false} NegativeTimes(x: real, y: real)
    ensures (0.0 - x) * y == 0.0 - x * y
    ensures x * (0.0 - y) == 0.0 - x * y
  {
  }

  lemma {:induction false} BothNegative(x: real, y: real)
    requires x < 0.0 && y < 0.0
    ensures x * y > 0.0
  {
    NegativeTimes(x, y);
    NegativeTimes(x, 0.0 - y);
    Positive(0.0 - x, 0.0 - y);
  }

  lemma {:induction false} SameSign(x: real, y: real, p: real)
    requires (x > 0.0 <==> y > 0.0) && (x < 0.0 <==> y < 0.0) && p == x * y
    ensures if x == 0.0 then p == 0.0 else p > 0.0
  {
    if x > 0.0 {
      Positive(x, y);
    } else if x < 0.0 {
      BothNegative(x, y);
    }
  }

  lemma {:induction false} SquareSign(x: real) returns (s: real)
    ensures s == x * x
    ensures if x == 0.0 then s == 0.0 else s > 0.0
  {
    s := x * x;
    SameSign(x, x, s);
  }

  lemma {:induction false} Nonzero(x: real, y: real)
    requires x != 0.0 && y != 0.0
    ensures x * y != 0.0
  {
    if x > 0.0 && y > 0.0 {
      Positive(x, y);
    } else if x > 0.0 {
      Positive(x, 0.0 - y);
    } else if y > 0.0 {
      Positive(0.0 - x, y);
    } else {
      Positive(0.0 - x, 0.0 - y);
    }
  }

  lemma {:induction false} Quotient(n: real, x: real)
    requires n > 0.0
    ensures n * x / n == x
  {
    var q := n * x / n;
    assert q * n == n * x;
    assert n * (q - x) == q * n - n * x;
    if q != x {
      Nonzero(n, q - x);
    }
  }

  lemma {:induction false} OneMore(n: nat, x: real)
    ensures (n + 1) as real * x == n as real * x + x
  {
    assert (n + 1) as real == n as real + 1.0;
  }

  lemma {:induction false} OverZero(x: real, n: real)
    requires n > 0.0
    ensures x / n == 0.0 <==> x == 0.0
  {
    assert x / n * n == x;
  }

  lemma {:induction false} SquareOrder(p: real, q: real)
    requires q > 0.0 && p * p <= q * q
    ensures p <= q
  {
    assert (p - q) * (p + q) == p * p - q * q;
    if p > q {
      Positive(p - q, p + q);
    }
  }

  lemma {:induction false} SameSquare(p: real, q: real)
    ensures p * p == q * q <==> p == q || p == 0.0 - q
  {
    assert (p - q) * (p + q) == p * p - q * q;
    if p != q && p != 0.0 - q {
      Nonzero(p - q, p + q);
    }
  }

  lemma {:induction false} RatioAtMostOne(p: real, q: real)
    requires q > 0.0 && p <= q
    ensures p / q <= 1.0
  {
    var r := p / q;
    assert p == r * q;
    assert (r - 1.0) * q == r * q - q;
    if r > 1.0 {
      Positive(r - 1.0, q);
    }
  }

  lemma {:induction false} RatioNegated(p: real, q: real)
    requires q > 0.0
    ensures (0.0 - p) / q == 0.0 - p / q
  {
    var r := p / q;
    assert p == r * q;
    assert q * (0.0 - r) == 0.0 - p;
    Quotient(q, 0.0 - r);
  }

  lemma {:induction false} RatioOne(p: real, q: real)
    requires q > 0.0
    ensures p / q == 1.0 <==> p == q
    ensures p / q == -1.0 <==> p == 0.0 - q
  {
    var r := p / q;
    assert p == r * q;
  }

  /** A ratio of numbers with ordered squares lies between -1 and 1, at the ends just when
      the squares are equal. */
  lemma {:induction false} Ratio(p: real, q: real)
    requires q > 0.0 && p * p <= q * q
    ensures -1.0 <= p / q <= 1.0
    ensures p / q == 1.0 || p / q == -1.0 <==> p * p == q * q
  {
    SquareOrder(p, q);
    assert (0.0 - p) * (0.0 - p) == p * p;
    SquareOrder(0.0 - p, q);
    RatioAtMostOne(p, q);
    RatioAtMostOne(0.0 - p, q);
    RatioNegated(p, q);
    SameSquare(p, q);
    RatioOne(p, q);
  }

  // ----- The correlation as computed -----

  function Total(xs: seq<real>, n: nat): real
    requires n <= |xs|
  {
    if n == 0 then 0.0 else Total(xs, n - 1) + xs[n - 1]
  }

  function Mean(xs: seq<real>): real
    requires |xs| > 0
  {
    Total(xs, |xs|) / |xs| as real
  }

  function Deviations(xs: seq<real>): (a: seq<real>)
    requires |xs| > 0
    ensures |a| == |xs|
  {
    var m := Mean(xs);
    seq(|xs|, i requires 0 <= i < |xs| => xs[i] - m)
  }

  function Dot(a: seq<real>, b: seq<real>, n: nat): real
    requires n <= |a| && n <= |b|
  {
    if n == 0 then 0.0 else Dot(a, b, n - 1) + a[n - 1] * b[n - 1]
  }

  /** The sum of squared deviations. */
  function Variation(xs: seq<real>): real
    requires |xs| > 0
  {
    Dot(Deviations(xs), Deviations(xs), |xs|)
  }

  function Numerator(xs: seq<real>, ys: seq<real>): real
    requires |xs| == |ys| > 0
  {
    Dot(Deviations(xs), Deviations(ys), |xs|)
  }

  lemma {:induction false} Factors(n: real, x: real, y: real)
    requires n > 0.0
    ensures x * y != 0.0 ==> n * x * y != 0.0
    ensures x * y == 0.0 <==> x == 0.0 || y == 0.0
  {
    if x != 0.0 && y != 0.0 {
      Nonzero(x, y);
      Nonzero(n, x);
      Nonzero(n * x, y);
    }
  }

  predicate IsRoot(s: real, x: real) { s >= 0.0 && s * s == x }

  /** The correlation before rounding, for the standard deviations sx and sy. */
  function Correlation(xs: seq<real>, ys: seq<real>, sx: real, sy: real): Option<real>
    requires |xs| == |ys|
  {
    if |xs| < 2 then None
    else if sx * sy == 0.0 then None
    else
      Factors(|xs| as real, sx, sy);
      Some(Numerator(xs, ys) / (|xs| as real * sx * sy))
  }

  /** As returned, rounded to four decimals. */
  function Rounded(r: Option<real>): Option<real> {
    if r.Some? then Some(RoundInt(r.value * 10000.0) as real / 10000.0) else None
  }

  // ----- Cauchy and Schwarz -----

  lemma {:induction false} SquaresPositive(a: seq<real>, n: nat)
    requires n <= |a|
    ensures Dot(a, a, n) >= 0.0
    ensures Dot(a, a, n) == 0.0 ==> forall i :: 0 <= i < n ==> a[i] == 0.0
  {
    if n > 0 {
      SquaresPositive(a, n - 1);
      var x := a[n - 1];
      var s := SquareSign(x);
      assert Dot(a, a, n) == Dot(a, a, n - 1) + s;
    }
  }

  lemma {:induction false} DotZero(a: seq<real>, b: seq<real>, n: nat)
    requires n <= |a| && n <= |b| && forall i :: 0 <= i < n ==> b[i] == 0.0
    ensures Dot(a, b, n) == 0.0
  {
    if n > 0 {
      DotZero(a, b, n - 1);
    }
  }

  /** What is left of a beside t times b. */
  function Residual(a: seq<real>, b: seq<real>, t: real, n: nat): (c: seq<real>)
    requires n <= |a| && n <= |b|
    ensures |c| == n
  {
    seq(n, i requires 0 <= i < n => a[i] - t * b[i])
  }

  ghost predicate Proportional(a: seq<real>, b: seq<real>, t: real, n: nat)
    requires n <= |a| && n <= |b|
  {
    forall i :: 0 <= i < n ==> a[i] == t * b[i]
  }

  lemma {:induction false} Linear(x: real, y: real, z: real, t: real, p: real, q: real)
    ensures (p - t * q) + (x - t * y) * z == (p + x * z) - t * (q + y * z)
  {
    assert (x - t * y) * z == x * z - t * (y * z);
    assert t * (q + y * z) == t * q + t * (y * z);
  }

  lemma {:induction false} DotResidual(a: seq<real>, b: seq<real>, d: seq<real>, t: real, m: nat, n: nat)
    requires n <= m <= |a| && m <= |b| && n <= |d|
    ensures Dot(Residual(a, b, t, m), d, n) == Dot(a, d, n) - t * Dot(b, d, n)
  {
    if n > 0 {
      DotResidual(a, b, d, t, m, n - 1);
      Linear(a[n - 1], b[n - 1], d[n - 1], t, Dot(a, d, n - 1), Dot(b, d, n - 1));
    }
  }

  lemma {:induction false} DotSymmetric(a: seq<real>, b: seq<real>, n: nat)
    requires n <= |a| && n <= |b|
    ensures Dot(a, b, n) == Dot(b, a, n)
  {
    if n > 0 {
      DotSymmetric(a, b, n - 1);
    }
  }

  /** At t = P / B the residual is orthogonal to b, and its own square is A - t P. */
  lemma {:induction false} ResidualSquare(a: seq<real>, b: seq<real>, t: real, n: nat)
    requires n <= |a| && n <= |b| && t * Dot(b, b, n) == Dot(a, b, n)
    ensures Dot(Residual(a, b, t, n), Residual(a, b, t, n), n) == Dot(a, a, n) - t * Dot(a, b, n)
  {
    var c := Residual(a, b, t, n);
    DotResidual(a, b, b, t, n, n);
    DotSymmetric(b, c, n);
    DotResidual(a, b, c, t, n, n);
    DotSymmetric(a, c, n);
    DotResidual(a, b, a, t, n, n);
    DotSymmetric(a, b, n);
  }

  lemma {:induction false} Scaled(x: real, y: real)
    requires x >= 0.0 && y > 0.0
    ensures x * y >= 0.0 && (x * y == 0.0 <==> x == 0.0)
  {
    if x > 0.0 {
      Positive(x, y);
    }
  }

  lemma {:induction false} LeastGap(r: real, aa: real, ab: real, bb: real, t: real)
    requires r >= 0.0 && bb > 0.0 && t * bb == ab && r == aa - t * ab
    ensures ab * ab <= aa * bb
    ensures ab * ab == aa * bb <==> r == 0.0
  {
    assert (t * ab) * bb == (t * bb) * ab;
    assert r * bb == aa * bb - (t * ab) * bb;
    Scaled(r, bb);
  }

  lemma {:induction false} ResidualGap(a: seq<real>, b: seq<real>, t: real, n: nat) returns (r: real)
    requires n <= |a| && n <= |b| && t * Dot(b, b, n) == Dot(a, b, n)
    ensures r >= 0.0 && r == Dot(a, a, n) - t * Dot(a, b, n)
    ensures r == 0.0 <==> Proportional(a, b, t, n)
  {
    var c := Residual(a, b, t, n);
    r := Dot(c, c, n);
    ResidualSquare(a, b, t, n);
    SquaresPositive(c, n);
    if Proportional(a, b, t, n) {
      DotZero(c, c, n);
    } else {
      var i :| 0 <= i < n && a[i] != t * b[i];
      assert c[i] != 0.0;
    }
  }

  lemma {:induction false} CauchyGap(a: seq<real>, b: seq<real>, n: nat, aa: real, ab: real, bb: real)
    requires n <= |a| && n <= |b| && aa == Dot(a, a, n) && ab == Dot(a, b, n) && bb == Dot(b, b, n) > 0.0
    ensures ab * ab <= aa * bb
    ensures ab * ab == aa * bb <==> Proportional(a, b, ab / bb, n)
  {
    var t := Slope(ab, bb);
    var r := ResidualGap(a, b, t, n);
    LeastGap(r, aa, ab, bb, t);
  }

  /** The Cauchy-Schwarz inequality, with equality exactly for proportional sequences. */
  lemma {:induction false} CauchySchwarz(a: seq<real>, b: seq<real>, n: nat) returns (aa: real, ab: real, bb: real)
    requires n <= |a| && n <= |b|
    ensures aa == Dot(a, a, n) && ab == Dot(a, b, n) && bb == Dot(b, b, n)
    ensures ab * ab <= aa * bb
    ensures bb > 0.0 ==> (ab * ab == aa * bb <==> Proportional(a, b, ab / bb, n))
  {
    aa, ab, bb := Dot(a, a, n), Dot(a, b, n), Dot(b, b, n);
    SquaresPositive(b, n);
    if bb == 0.0 {
      DotZero(a, b, n);
    } else {
      CauchyGap(a, b, n, aa, ab, bb);
    }
  }

  lemma {:induction false} Slope(ab: real, bb: real) returns (t: real)
    requires bb > 0.0
    ensures t == ab / bb && t * bb == ab
  {
    t := ab / bb;
  }

  // ----- The correlation -----

  ghost predicate Constant(xs: seq<real>) {
    forall i :: 0 <= i < |xs| ==> xs[i] == xs[0]
  }

  lemma {:induction false} TotalConstant(xs: seq<real>, n: nat)
    requires n <= |xs| && Constant(xs) && |xs| > 0
    ensures Total(xs, n) == n as real * xs[0]
  {
    if n > 0 {
      TotalConstant(xs, n - 1);
      OneMore(n - 1, xs[0]);
    }
  }

  lemma {:induction false} ConstantDeviates(xs: seq<real>)
    requires |xs| > 0 && Constant(xs)
    ensures Variation(xs) == 0.0
  {
    TotalConstant(xs, |xs|);
    Quotient(|xs| as real, xs[0]);
    assert Mean(xs) == xs[0];
    var a := Deviations(xs);
    forall i | 0 <= i < |xs|
      ensures a[i] == 0.0
    {
      assert xs[i] == xs[0];
    }
    DotZero(a, a, |xs|);
  }

  /** A list does not vary if and only if it is constant. */
  lemma {:induction false} NoVariation(xs: seq<real>)
    requires |xs| > 0
    ensures Variation(xs) >= 0.0
    ensures Variation(xs) == 0.0 <==> Constant(xs)
  {
    var a := Deviations(xs);
    SquaresPositive(a, |xs|);
    if Variation(xs) == 0.0 {
      forall i | 0 <= i < |xs|
        ensures xs[i] == xs[0]
      {
        assert a[i] == 0.0 && a[0] == 0.0;
      }
    }
    if Constant(xs) {
      ConstantDeviates(xs);
    }
  }

  /** There is no correlation if and only if there are fewer than two points or one of the
      lists is constant. */
  lemma {:induction false} NoneExactly(xs: seq<real>, ys: seq<real>, sx: real, sy: real)
    requires |xs| == |ys|
    requires |xs| > 0 ==> IsRoot(sx, Variation(xs) / |xs| as real) && IsRoot(sy, Variation(ys) / |ys| as real)
    ensures Correlation(xs, ys, sx, sy).None? <==> |xs| < 2 || Constant(xs) || Constant(ys)
  {
    if |xs| >= 2 {
      NoVariation(xs);
      NoVariation(ys);
      var xx := SquareSign(sx);
      var yy := SquareSign(sy);
      OverZero(Variation(xs), |xs| as real);
      OverZero(Variation(ys), |ys| as real);
      Factors(|xs| as real, sx, sy);
    }
  }

  /** n sx sy is the root of the product of the variations. */
  lemma {:induction false} Denominator(n: real, sx: real, sy: real, vx: real, vy: real)
    requires n > 0.0 && IsRoot(sx, vx / n) && IsRoot(sy, vy / n)
    ensures (n * sx * sy) * (n * sx * sy) == vx * vy && n * sx * sy >= 0.0
  {
    assert n * (sx * sx) == vx && n * (sy * sy) == vy;
    assert (n * sx * sy) * (n * sx * sy) == (n * (sx * sx)) * (n * (sy * sy));
    if sx > 0.0 && sy > 0.0 {
      Positive(n, sx);
      Positive(n * sx, sy);
    }
  }

  /** The correlation lies between -1 and 1, also after rounding, and is -1 or 1 exactly when
      the deviations of the two lists are proportional. */
  lemma {:induction false} CorrelationBound(xs: seq<real>, ys: seq<real>, sx: real, sy: real)
    requires |xs| == |ys|
    requires |xs| > 0 ==> IsRoot(sx, Variation(xs) / |xs| as real) && IsRoot(sy, Variation(ys) / |ys| as real)
    requires Correlation(xs, ys, sx, sy).Some?
    ensures -1.0 <= Correlation(xs, ys, sx, sy).value <= 1.0
    ensures -1.0 <= Rounded(Correlation(xs, ys, sx, sy)).value <= 1.0
    ensures Correlation(xs, ys, sx, sy).value == 1.0 || Correlation(xs, ys, sx, sy).value == -1.0
            <==> Proportional(Deviations(xs), Deviations(ys), Numerator(xs, ys) / Variation(ys), |xs|)
  {
    var q := |xs| as real * sx * sy;
    NumeratorBound(xs, ys, sx, sy, q);
    RoundedBound(Correlation(xs, ys, sx, sy).value);
  }

  lemma {:induction false} NumeratorBound(xs: seq<real>, ys: seq<real>, sx: real, sy: real, q: real)
    requires |xs| == |ys| > 0 && q == |xs| as real * sx * sy && sx * sy != 0.0
    requires IsRoot(sx, Variation(xs) / |xs| as real) && IsRoot(sy, Variation(ys) / |ys| as real)
    ensures q != 0.0 && -1.0 <= Numerator(xs, ys) / q <= 1.0
    ensures Numerator(xs, ys) / q == 1.0 || Numerator(xs, ys) / q == -1.0
            <==> Proportional(Deviations(xs), Deviations(ys), Numerator(xs, ys) / Variation(ys), |xs|)
  {
    PositiveVariation(ys, sx, sy);
    var vx, p, vy := CauchySchwarz(Deviations(xs), Deviations(ys), |xs|);
    BoundedRatio(|xs| as real, sx, sy, vx, vy, p, q);
  }

  lemma {:induction false} PositiveVariation(ys: seq<real>, sx: real, sy: real)
    requires |ys| > 0 && sx * sy != 0.0 && IsRoot(sy, Variation(ys) / |ys| as real)
    ensures Variation(ys) > 0.0
  {
    NoVariation(ys);
    Factors(1.0, sx, sy);
    var yy := SquareSign(sy);
    OverZero(Variation(ys), |ys| as real);
  }

  lemma {:induction false} BoundedRatio(n: real, sx: real, sy: real, vx: real, vy: real, p: real, q: real)
    requires n > 0.0 && IsRoot(sx, vx / n) && IsRoot(sy, vy / n) && sx * sy != 0.0
    requires p * p <= vx * vy && q == n * sx * sy
    ensures q != 0.0
    ensures -1.0 <= p / q <= 1.0
    ensures p / q == 1.0 || p / q == -1.0 <==> p * p == vx * vy
  {
    Factors(n, sx, sy);
    Denominator(n, sx, sy, vx, vy);
    Ratio(p, q);
  }

  lemma {:induction false} RoundedBound(r: real)
    requires -1.0 <= r <= 1.0
    ensures -1.0 <= RoundInt(r * 10000.0) as real / 10000.0 <= 1.0
  {
    RoundIntMonotone(-10000.0, r * 10000.0);
    RoundIntMonotone(r * 10000.0, 10000.0);
  }
}
