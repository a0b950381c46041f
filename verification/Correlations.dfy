/** What the value of the correlation is: the covariance over the product of the standard
    deviations, and plus or minus one for lists that depend on each other linearly. */
module Correlations {
  import opened Prelude
  import opened Rounding
  import opened Pearson

  // ----- The covariance -----

  lemma {:induction false} TermExpands(x: real, y: real, mx: real, my: real, c: real, tx: real, ty: real, k: real)
    ensures (c - mx * ty - my * tx + k * (mx * my)) + (x - mx) * (y - my)
            == (c + x * y) - mx * (ty + y) - my * (tx + x) + (k + 1.0) * (mx * my)
  {
    assert (x - mx) * (y - my) == x * y - mx * y - my * x + mx * my;
    assert mx * (ty + y) == mx * ty + mx * y;
    assert my * (tx + x) == my * tx + my * x;
    assert (k + 1.0) * (mx * my) == k * (mx * my) + mx * my;
  }

  lemma {:induction false} OneTerm(u: seq<real>, v: seq<real>, n: nat, x: real, y: real)
    requires 0 < n <= |u| && n <= |v| && u[n - 1] == x && v[n - 1] == y
    ensures Dot(u, v, n) == Dot(u, v, n - 1) + x * y
  {
  }

  lemma {:induction false} ShiftedDot(
      xs: seq<real>, ys: seq<real>, u: seq<real>, v: seq<real>, mx: real, my: real, n: nat)
    requires n <= |xs| == |ys| == |u| == |v|
    requires forall i :: 0 <= i < |xs| ==> u[i] == xs[i] - mx && v[i] == ys[i] - my
    ensures Dot(u, v, n) == Dot(xs, ys, n) - mx * Total(ys, n) - my * Total(xs, n) + n as real * (mx * my)
  {
    if n > 0 {
      ShiftedDot(xs, ys, u, v, mx, my, n - 1);
      OneTerm(u, v, n, xs[n - 1] - mx, ys[n - 1] - my);
      OneTerm(xs, ys, n, xs[n - 1], ys[n - 1]);
      TermExpands(xs[n - 1], ys[n - 1], mx, my, Dot(xs, ys, n - 1), Total(xs, n - 1), Total(ys, n - 1),
          (n - 1) as real);
      assert (n - 1) as real + 1.0 == n as real;
    }
  }

  lemma {:induction false} MeanTotal(xs: seq<real>)
    requires |xs| > 0
    ensures Total(xs, |xs|) == |xs| as real * Mean(xs)
  {
  }

  lemma {:induction false} Collects(c: real, mx: real, my: real, n: real)
    ensures c - mx * (n * my) - my * (n * mx) + n * (mx * my) == c - n * (mx * my)
  {
    assert mx * (n * my) == n * (mx * my);
    assert my * (n * mx) == n * (mx * my);
  }

  /** The numerator is the sum of the products less n times the product of the means. */
  lemma {:induction false} NumeratorIs(xs: seq<real>, ys: seq<real>)
    requires |xs| == |ys| > 0
    ensures Numerator(xs, ys) == Dot(xs, ys, |xs|) - |xs| as real * (Mean(xs) * Mean(ys))
  {
    ShiftedDot(xs, ys, Deviations(xs), Deviations(ys), Mean(xs), Mean(ys), |xs|);
    MeanTotal(xs);
    MeanTotal(ys);
    Collects(Dot(xs, ys, |xs|), Mean(xs), Mean(ys), |xs| as real);
  }

  lemma {:induction false} QuotientTimes(p: real, n: real, x: real, y: real)
    requires n > 0.0 && x * y != 0.0
    ensures n * x * y != 0.0
    ensures (p / (n * x * y)) * (x * y) == p / n
  {
    Factors(n, x, y);
    var q := n * x * y;
    var w := x * y;
    assert q == n * w;
    Divides(p, n, w, q);
  }

  lemma {:induction false} Divides(p: real, n: real, w: real, q: real)
    requires n > 0.0 && w != 0.0 && q == n * w && q != 0.0
    ensures (p / q) * w == p / n
  {
    var r := p / q;
    assert r * q == p;
    assert r * q == n * (r * w);
    assert (r * w) * n == p;
    SameQuotient(r * w, n, p);
  }

  lemma {:induction false} SameQuotient(a: real, n: real, p: real)
    requires n > 0.0 && a * n == p
    ensures a == p / n
  {
  }

  lemma {:induction false} OverCount(c: real, m: real, n: real)
    requires n > 0.0
    ensures (c - n * m) / n == c / n - m
  {
    var q := c / n;
    assert q * n == c;
    assert (q - m) * n == c - n * m;
    SameQuotient(q - m, n, c - n * m);
  }

  lemma {:induction false} CorrelationValue(xs: seq<real>, ys: seq<real>, sx: real, sy: real, n: real)
    returns (r: real, p: real, w: real)
    requires |xs| == |ys| && Correlation(xs, ys, sx, sy).Some? && n == |xs| as real
    ensures n > 0.0 && p == Numerator(xs, ys) && r == Correlation(xs, ys, sx, sy).value
    ensures sx * sy != 0.0 && w == n * sx * sy && w != 0.0 && r == p / w
  {
    assert |xs| >= 2;
    p, r, w := Numerator(xs, ys), Correlation(xs, ys, sx, sy).value, n * sx * sy;
    Factors(n, sx, sy);
  }

  lemma {:induction false} CovarianceOf(
      r: real, p: real, w: real, n: real, sx: real, sy: real, c: real, m: real, nm: real)
    requires n > 0.0 && sx * sy != 0.0 && w == n * sx * sy && w != 0.0 && r == p / w && nm == n * m && p == c - nm
    ensures r * (sx * sy) == c / n - m
  {
    QuotientTimes(p, n, sx, sy);
    OverCount(c, m, n);
  }

  /** The mean of the products. */
  function MeanProduct(xs: seq<real>, ys: seq<real>): real
    requires |xs| == |ys| > 0
  {
    Dot(xs, ys, |xs|) / |xs| as real
  }

  lemma {:induction false} NumeratorParts(xs: seq<real>, ys: seq<real>, n: real)
    returns (p: real, c: real, m: real, nm: real)
    requires |xs| == |ys| > 0 && n == |xs| as real
    ensures p == Numerator(xs, ys) && nm == n * m && p == c - nm
    ensures c / n == MeanProduct(xs, ys) && m == Mean(xs) * Mean(ys)
  {
    NumeratorIs(xs, ys);
    p, c, m := Numerator(xs, ys), Dot(xs, ys, |xs|), Mean(xs) * Mean(ys);
    nm := n * m;
  }

  /** The correlation times the two standard deviations is the mean of the products less the
      product of the means. */
  lemma {:induction false} CorrelationIsCovariance(xs: seq<real>, ys: seq<real>, sx: real, sy: real) returns (r: real)
    requires |xs| == |ys| && Correlation(xs, ys, sx, sy).Some?
    ensures r == Correlation(xs, ys, sx, sy).value
    ensures r * (sx * sy) == MeanProduct(xs, ys) - Mean(xs) * Mean(ys)
  {
    var q, w;
    var n := |xs| as real;
    r, q, w := CorrelationValue(xs, ys, sx, sy, n);
    var p, c, m, nm := NumeratorParts(xs, ys, n);
    CovarianceOf(r, p, w, n, sx, sy, c, m, nm);
  }

  // ----- Linear dependence -----

  lemma {:induction false} TotalLinear(xs: seq<real>, ys: seq<real>, a: real, b: real, n: nat)
    requires |xs| == |ys| && n <= |xs| && forall i :: 0 <= i < |xs| ==> ys[i] == a * xs[i] + b
    ensures Total(ys, n) == a * Total(xs, n) + n as real * b
  {
    if n > 0 {
      TotalLinear(xs, ys, a, b, n - 1);
      OneMore(n - 1, b);
      assert a * (Total(xs, n - 1) + xs[n - 1]) == a * Total(xs, n - 1) + a * xs[n - 1];
    }
  }

  lemma {:induction false} MeanLinear(xs: seq<real>, ys: seq<real>, a: real, b: real)
    requires |xs| == |ys| > 0 && forall i :: 0 <= i < |xs| ==> ys[i] == a * xs[i] + b
    ensures Mean(ys) == a * Mean(xs) + b
  {
    TotalLinear(xs, ys, a, b, |xs|);
    MeanTotal(xs);
    var n, m := |xs| as real, Mean(xs);
    assert a * (n * m) + n * b == (a * m + b) * n;
    SameQuotient(a * m + b, n, Total(ys, |ys|));
  }

  lemma {:induction false} DeviationsLinear(xs: seq<real>, ys: seq<real>, a: real, b: real)
    requires |xs| == |ys| > 0 && forall i :: 0 <= i < |xs| ==> ys[i] == a * xs[i] + b
    ensures forall i :: 0 <= i < |xs| ==> Deviations(ys)[i] == a * Deviations(xs)[i]
  {
    MeanLinear(xs, ys, a, b);
    forall i | 0 <= i < |xs|
      ensures Deviations(ys)[i] == a * Deviations(xs)[i]
    {
      assert a * (xs[i] - Mean(xs)) == a * xs[i] - a * Mean(xs);
    }
  }

  lemma {:induction false} DotScaled(u: seq<real>, v: seq<real>, w: seq<real>, a: real, n: nat)
    requires n <= |u| && |v| == |w| == |u| && forall i :: 0 <= i < |v| ==> w[i] == a * v[i]
    ensures Dot(u, w, n) == a * Dot(u, v, n)
  {
    if n > 0 {
      DotScaled(u, v, w, a, n - 1);
      assert u[n - 1] * (a * v[n - 1]) == a * (u[n - 1] * v[n - 1]);
      assert a * (Dot(u, v, n - 1) + u[n - 1] * v[n - 1]) == a * Dot(u, v, n - 1) + a * (u[n - 1] * v[n - 1]);
    }
  }

  lemma {:induction false} SymmetricDot(u: seq<real>, v: seq<real>, n: nat)
    requires n <= |u| && n <= |v|
    ensures Dot(u, v, n) == Dot(v, u, n)
  {
    DotSymmetric(u, v, n);
  }

  /** The numerator and the other variation, by the slope. */
  lemma {:induction false} LinearNumbers(xs: seq<real>, ys: seq<real>, a: real, b: real)
    requires |xs| == |ys| > 0 && forall i :: 0 <= i < |xs| ==> ys[i] == a * xs[i] + b
    ensures Numerator(xs, ys) == a * Variation(xs)
    ensures Variation(ys) == a * Numerator(xs, ys)
  {
    var u, v := Deviations(xs), Deviations(ys);
    DeviationsLinear(xs, ys, a, b);
    DotScaled(u, u, v, a, |xs|);
    DotScaled(v, u, v, a, |xs|);
    SymmetricDot(u, v, |xs|);
  }

  /** |a| as a factor: sy is |a| times sx. */
  lemma {:induction false} RootsLinear(a: real, sx: real, sy: real, vx: real, n: real)
    requires n > 0.0 && a != 0.0 && IsRoot(sx, vx / n) && IsRoot(sy, (a * (a * vx)) / n)
    ensures sy == (if a > 0.0 then a else 0.0 - a) * sx
  {
    var b := if a > 0.0 then a else 0.0 - a;
    var x := vx / n;
    assert (a * (a * vx)) / n == a * (a * x) by {
      assert x * n == vx;
      assert (a * (a * x)) * n == a * (a * vx);
      SameQuotient(a * (a * x), n, a * (a * vx));
    }
    assert b * b == a * a;
    assert (b * sx) * (b * sx) == (b * b) * (sx * sx);
    assert a * (a * x) == (a * a) * x;
    Scaled(sx, b);
    assert b * sx >= 0.0;
    SameRoot(sy, b * sx);
  }

  lemma {:induction false} SameRoot(x: real, y: real)
    requires x >= 0.0 && y >= 0.0 && x * x == y * y
    ensures x == y
  {
    assert (x - y) * (x + y) == x * x - y * y;
    if x != y {
      Nonzero(x - y, x + y);
    }
  }

  lemma {:induction false} UnitQuotient(a: real, b: real, sx: real, sy: real, vx: real, n: real, q: real)
    requires n > 0.0 && a != 0.0 && IsRoot(sx, vx / n) && sx != 0.0
    requires b == (if a > 0.0 then a else 0.0 - a) && sy == b * sx && q == n * sx * sy && q != 0.0
    ensures (a * vx) / q == if a > 0.0 then 1.0 else -1.0
  {
    assert vx == n * (sx * sx);
    assert q == b * vx by {
      assert n * sx * (b * sx) == b * (n * (sx * sx));
    }
    if a > 0.0 {
      assert a * vx == 1.0 * q;
      assert q / q == 1.0;
    } else {
      assert a * vx == -1.0 * q;
      NegatedUnit(q);
    }
  }

  lemma {:induction false} NegatedUnit(q: real)
    requires q != 0.0
    ensures (-1.0 * q) / q == -1.0
  {
  }

  lemma {:induction false} LinearUnit(
      r: real, p: real, w: real, n: real, sx: real, sy: real, a: real, vx: real, vy: real)
    requires n > 0.0 && a != 0.0 && sx * sy != 0.0 && w == n * sx * sy && w != 0.0 && r == p / w
    requires IsRoot(sx, vx / n) && IsRoot(sy, vy / n) && p == a * vx && vy == a * p
    ensures r == if a > 0.0 then 1.0 else -1.0
  {
    Factors(n, sx, sy);
    RootsLinear(a, sx, sy, vx, n);
    UnitQuotient(a, if a > 0.0 then a else 0.0 - a, sx, sy, vx, n, w);
  }

  /** A list that is a linear function of the other correlates with it fully: 1 for a positive
      slope and -1 for a negative one, also after rounding. */
  lemma {:induction false} LinearCorrelates(xs: seq<real>, ys: seq<real>, sx: real, sy: real, a: real, b: real)
    requires |xs| == |ys| && a != 0.0 && forall i :: 0 <= i < |xs| ==> ys[i] == a * xs[i] + b
    requires |xs| > 0 ==> IsRoot(sx, Variation(xs) / |xs| as real) && IsRoot(sy, Variation(ys) / |ys| as real)
    requires Correlation(xs, ys, sx, sy).Some?
    ensures Correlation(xs, ys, sx, sy) == Some(if a > 0.0 then 1.0 else -1.0)
    ensures Rounded(Correlation(xs, ys, sx, sy)) == Correlation(xs, ys, sx, sy)
  {
    var n := |xs| as real;
    var r, p, w := CorrelationValue(xs, ys, sx, sy, n);
    LinearNumbers(xs, ys, a, b);
    LinearUnit(r, p, w, n, sx, sy, a, Variation(xs), Variation(ys));
    RoundsOnes();
  }

  lemma {:induction false} RoundsOnes()
    ensures Rounded(Some(1.0)) == Some(1.0) && Rounded(Some(-1.0)) == Some(-1.0)
  {
    var up, down := 1.0, -1.0;
    assert up * 10000.0 == 10000.0 && down * 10000.0 == -10000.0;
    assert RoundInt(10000.0) == 10000;
    assert RoundInt(-10000.0) == -10000;
    assert (10000 as real) / 10000.0 == 1.0 && (-10000 as real) / 10000.0 == -1.0;
  }

  lemma {:induction false} FactorsSwap(n: real, x: real, y: real)
    ensures n * x * y == n * y * x && x * y == y * x
  {
  }

  lemma {:induction false} NumeratorSymmetric(xs: seq<real>, ys: seq<real>)
    requires |xs| == |ys| > 0
    ensures Numerator(xs, ys) == Numerator(ys, xs)
  {
    SymmetricDot(Deviations(xs), Deviations(ys), |xs|);
  }

  /** The order of the lists does not matter. */
  lemma {:induction false} CorrelationSymmetric(xs: seq<real>, ys: seq<real>, sx: real, sy: real)
    requires |xs| == |ys|
    ensures Correlation(xs, ys, sx, sy).Some? <==> Correlation(ys, xs, sy, sx).Some?
    ensures Correlation(xs, ys, sx, sy).Some? ==>
              Correlation(xs, ys, sx, sy).value == Correlation(ys, xs, sy, sx).value
  {
    var n := |xs| as real;
    FactorsSwap(n, sx, sy);
    if Correlation(xs, ys, sx, sy).Some? {
      NumeratorSymmetric(xs, ys);
      var r, p, w := CorrelationValue(xs, ys, sx, sy, n);
      var t, q, v := CorrelationValue(ys, xs, sy, sx, n);
      assert w == v && p == q;
    }
  }
}
