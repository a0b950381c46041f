/** Lloyd's k-means as examples/data_mining.py runs it, over exact reals: points are vectors
    of one dimension, the sampled start is an input, ties go to the first centroid, and the
    centroid of an empty cluster stays where it is. */
module KMeans {
  import opened Prelude

  type Vector = seq<real>

  function Square(x: real): (s: real)
    ensures s >= 0.0
  {
    x * x
  }

  function Dist(u: Vector, v: Vector, dim: nat): (r: real)
    requires dim <= |u| && dim <= |v|
    ensures r >= 0.0
  {
    if dim == 0 then 0.0 else Dist(u, v, dim - 1) + Square(u[dim - 1] - v[dim - 1])
  }

  ghost predicate Shaped(vs: seq<Vector>, dim: nat) {
    forall i :: 0 <= i < |vs| ==> |vs[i]| == dim
  }

  ghost predicate Assigns(a: seq<nat>, n: nat, k: nat) {
    |a| == n && forall i :: 0 <= i < n ==> a[i] < k
  }

  // ----- One round -----

  /** The first of the first n centroids nearest to v. */
  function Nearest(v: Vector, cs: seq<Vector>, n: nat, dim: nat): (best: nat)
    requires 0 < n <= |cs| && Shaped(cs, dim) && |v| == dim
    ensures best < n
  {
    if n == 1 then 0
    else
      var best := Nearest(v, cs, n - 1, dim);
      if Dist(v, cs[n - 1], dim) < Dist(v, cs[best], dim) then n - 1 else best
  }

  function Assigned(vs: seq<Vector>, cs: seq<Vector>, n: nat, dim: nat): (a: seq<nat>)
    requires n <= |vs| && |cs| > 0 && Shaped(vs, dim) && Shaped(cs, dim)
    ensures Assigns(a, n, |cs|)
  {
    if n == 0 then [] else Assigned(vs, cs, n - 1, dim) + [Nearest(vs[n - 1], cs, |cs|, dim)]
  }

  function Count(a: seq<nat>, j: nat, n: nat): nat
    requires n <= |a|
  {
    if n == 0 then 0 else Count(a, j, n - 1) + if a[n - 1] == j then 1 else 0
  }

  /** The sum of coordinate d over the members of cluster j among the first n points. */
  function Sum(vs: seq<Vector>, a: seq<nat>, j: nat, d: nat, dim: nat, n: nat): real
    requires n <= |vs| && n <= |a| && Shaped(vs, dim) && d < dim
  {
    if n == 0 then 0.0 else Sum(vs, a, j, d, dim, n - 1) + if a[n - 1] == j then vs[n - 1][d] else 0.0
  }

  function Mean(vs: seq<Vector>, a: seq<nat>, j: nat, dim: nat): (m: Vector)
    requires |a| == |vs| && Shaped(vs, dim) && Count(a, j, |a|) > 0
    ensures |m| == dim
  {
    seq(dim, d requires 0 <= d < dim => Sum(vs, a, j, d, dim, |vs|) / Count(a, j, |a|) as real)
  }

  /** The first n centroids moved to the means of their members, the others in place. */
  function Recentred(vs: seq<Vector>, a: seq<nat>, cs: seq<Vector>, n: nat, dim: nat): (r: seq<Vector>)
    requires |a| == |vs| && n <= |cs| && Shaped(vs, dim) && Shaped(cs, dim)
    ensures |r| == |cs| && Shaped(r, dim)
    ensures forall j :: n <= j < |cs| ==> r[j] == cs[j]
  {
    if n == 0 then cs
    else
      var r := Recentred(vs, a, cs, n - 1, dim);
      if Count(a, n - 1, |a|) > 0 then r[n - 1 := Mean(vs, a, n - 1, dim)] else r
  }

  datatype Result = Result(assignments: seq<nat>, centroids: seq<Vector>, settled: bool)

  /** At most `rounds` rounds from the given assignment and centroids. */
  function Lloyd(vs: seq<Vector>, a: seq<nat>, cs: seq<Vector>, rounds: nat, dim: nat): (r: Result)
    requires |cs| > 0 && Shaped(vs, dim) && Shaped(cs, dim) && Assigns(a, |vs|, |cs|)
    ensures Assigns(r.assignments, |vs|, |cs|) && |r.centroids| == |cs| && Shaped(r.centroids, dim)
    decreases rounds
  {
    if rounds == 0 then Result(a, cs, false)
    else
      var next := Assigned(vs, cs, |vs|, dim);
      if next == a then Result(a, cs, true)
      else Lloyd(vs, next, Recentred(vs, next, cs, |cs|, dim), rounds - 1, dim)
  }

  // ----- The cost -----

  /** The total squared distance of the first n points to the centroids they are assigned to. */
  function Cost(vs: seq<Vector>, a: seq<nat>, cs: seq<Vector>, dim: nat, n: nat): real
    requires n <= |vs| && Shaped(vs, dim) && Shaped(cs, dim) && Assigns(a, |vs|, |cs|)
  {
    if n == 0 then 0.0 else Cost(vs, a, cs, dim, n - 1) + Dist(vs[n - 1], cs[a[n - 1]], dim)
  }

  ghost predicate FirstNearest(v: Vector, cs: seq<Vector>, j: nat, dim: nat)
    requires Shaped(cs, dim) && |v| == dim
  {
    && j < |cs|
    && (forall i :: 0 <= i < |cs| ==> Dist(v, cs[j], dim) <= Dist(v, cs[i], dim))
    && (forall i :: 0 <= i < j ==> Dist(v, cs[j], dim) < Dist(v, cs[i], dim))
  }

  lemma {:induction false} NearestIsFirst(v: Vector, cs: seq<Vector>, n: nat, dim: nat)
    requires 0 < n <= |cs| && Shaped(cs, dim) && |v| == dim
    ensures forall i :: 0 <= i < n ==> Dist(v, cs[Nearest(v, cs, n, dim)], dim) <= Dist(v, cs[i], dim)
    ensures forall i :: 0 <= i < Nearest(v, cs, n, dim) ==>
              Dist(v, cs[Nearest(v, cs, n, dim)], dim) < Dist(v, cs[i], dim)
  {
    if n > 1 {
      NearestIsFirst(v, cs, n - 1, dim);
    }
  }

  lemma {:induction false} AssignedAt(vs: seq<Vector>, cs: seq<Vector>, n: nat, dim: nat, i: nat)
    requires i < n <= |vs| && |cs| > 0 && Shaped(vs, dim) && Shaped(cs, dim)
    ensures FirstNearest(vs[i], cs, Assigned(vs, cs, n, dim)[i], dim)
  {
    if i < n - 1 {
      AssignedAt(vs, cs, n - 1, dim, i);
    } else {
      NearestIsFirst(vs[i], cs, |cs|, dim);
    }
  }

  /** Reassigning never costs more. */
  lemma {:induction false} ReassignDescends(vs: seq<Vector>, a: seq<nat>, cs: seq<Vector>, dim: nat, n: nat)
    requires n <= |vs| && |cs| > 0 && Shaped(vs, dim) && Shaped(cs, dim) && Assigns(a, |vs|, |cs|)
    ensures Cost(vs, Assigned(vs, cs, |vs|, dim), cs, dim, n) <= Cost(vs, a, cs, dim, n)
  {
    if n > 0 {
      ReassignDescends(vs, a, cs, dim, n - 1);
      AssignedAt(vs, cs, |vs|, dim, n - 1);
    }
  }

  // ----- Moving one centroid -----

  /** The cost of the points outside cluster j. */
  function Rest(vs: seq<Vector>, a: seq<nat>, cs: seq<Vector>, j: nat, dim: nat, n: nat): real
    requires n <= |vs| && Shaped(vs, dim) && Shaped(cs, dim) && Assigns(a, |vs|, |cs|)
  {
    if n == 0 then 0.0
    else Rest(vs, a, cs, j, dim, n - 1) + if a[n - 1] == j then 0.0 else Dist(vs[n - 1], cs[a[n - 1]], dim)
  }

  /** The cost of cluster j with its centroid at c. */
  function Own(vs: seq<Vector>, a: seq<nat>, j: nat, c: Vector, dim: nat, n: nat): real
    requires n <= |vs| && n <= |a| && Shaped(vs, dim) && |c| == dim
  {
    if n == 0 then 0.0 else Own(vs, a, j, c, dim, n - 1) + if a[n - 1] == j then Dist(vs[n - 1], c, dim) else 0.0
  }

  lemma {:induction false} CostSplits(vs: seq<Vector>, a: seq<nat>, cs: seq<Vector>, j: nat, dim: nat, n: nat)
    requires n <= |vs| && Shaped(vs, dim) && Shaped(cs, dim) && Assigns(a, |vs|, |cs|) && j < |cs|
    ensures Cost(vs, a, cs, dim, n) == Rest(vs, a, cs, j, dim, n) + Own(vs, a, j, cs[j], dim, n)
  {
    if n > 0 {
      CostSplits(vs, a, cs, j, dim, n - 1);
    }
  }

  lemma {:induction false} RestSame(vs: seq<Vector>, a: seq<nat>, cs: seq<Vector>, j: nat, c: Vector, dim: nat, n: nat)
    requires n <= |vs| && Shaped(vs, dim) && Shaped(cs, dim) && Assigns(a, |vs|, |cs|) && j < |cs| && |c| == dim
    ensures Rest(vs, a, cs[j := c], j, dim, n) == Rest(vs, a, cs, j, dim, n)
  {
    if n > 0 {
      RestSame(vs, a, cs, j, c, dim, n - 1);
    }
  }

  /** The squared distances of the members of cluster j to x in coordinate d. */
  function Spread(vs: seq<Vector>, a: seq<nat>, j: nat, d: nat, x: real, dim: nat, n: nat): real
    requires n <= |vs| && n <= |a| && Shaped(vs, dim) && d < dim
  {
    if n == 0 then 0.0 else Spread(vs, a, j, d, x, dim, n - 1) + if a[n - 1] == j then Square(vs[n - 1][d] - x) else 0.0
  }

  function Spreads(vs: seq<Vector>, a: seq<nat>, j: nat, c: Vector, dim: nat, n: nat, m: nat): real
    requires n <= |vs| && n <= |a| && Shaped(vs, dim) && |c| == dim && m <= dim
  {
    if m == 0 then 0.0 else Spreads(vs, a, j, c, dim, n, m - 1) + Spread(vs, a, j, m - 1, c[m - 1], dim, n)
  }

  lemma {:induction false} SpreadsNone(vs: seq<Vector>, a: seq<nat>, j: nat, c: Vector, dim: nat, m: nat)
    requires Shaped(vs, dim) && |c| == dim && m <= dim
    ensures Spreads(vs, a, j, c, dim, 0, m) == 0.0
  {
    if m > 0 {
      SpreadsNone(vs, a, j, c, dim, m - 1);
    }
  }

  lemma {:induction false} SpreadsOneMore(vs: seq<Vector>, a: seq<nat>, j: nat, c: Vector, dim: nat, n: nat, m: nat)
    requires 0 < n <= |vs| && n <= |a| && Shaped(vs, dim) && |c| == dim && m <= dim
    ensures Spreads(vs, a, j, c, dim, n, m)
            == Spreads(vs, a, j, c, dim, n - 1, m) + if a[n - 1] == j then Dist(vs[n - 1], c, m) else 0.0
  {
    if m > 0 {
      SpreadsOneMore(vs, a, j, c, dim, n, m - 1);
    }
  }

  /** The cost of a cluster, point by point or coordinate by coordinate. */
  lemma {:induction false} OwnBySpread(vs: seq<Vector>, a: seq<nat>, j: nat, c: Vector, dim: nat, n: nat)
    requires n <= |vs| && n <= |a| && Shaped(vs, dim) && |c| == dim
    ensures Own(vs, a, j, c, dim, n) == Spreads(vs, a, j, c, dim, n, dim)
  {
    if n == 0 {
      SpreadsNone(vs, a, j, c, dim, dim);
    } else {
      OwnBySpread(vs, a, j, c, dim, n - 1);
      SpreadsOneMore(vs, a, j, c, dim, n, dim);
    }
  }

  /** The deviations of the members of cluster j from m in coordinate d. */
  function Deviation(vs: seq<Vector>, a: seq<nat>, j: nat, d: nat, m: real, dim: nat, n: nat): real
    requires n <= |vs| && n <= |a| && Shaped(vs, dim) && d < dim
  {
    if n == 0 then 0.0 else Deviation(vs, a, j, d, m, dim, n - 1) + if a[n - 1] == j then vs[n - 1][d] - m else 0.0
  }

  lemma {:induction false} OneMore(m: real, count: real)
    ensures m * (count + 1.0) == m * count + m
  {
  }

  lemma {:induction false} DeviationFormula(vs: seq<Vector>, a: seq<nat>, j: nat, d: nat, m: real, dim: nat, n: nat)
    requires n <= |vs| && n <= |a| && Shaped(vs, dim) && d < dim
    ensures Deviation(vs, a, j, d, m, dim, n) == Sum(vs, a, j, d, dim, n) - m * Count(a, j, n) as real
  {
    if n > 0 {
      DeviationFormula(vs, a, j, d, m, dim, n - 1);
      OneMore(m, Count(a, j, n - 1) as real);
    }
  }

  /** The tangent of (v - x)^2 at m, with slope t, summed over the members. */
  function Lean(vs: seq<Vector>, a: seq<nat>, j: nat, d: nat, m: real, t: real, dim: nat, n: nat): real
    requires n <= |vs| && n <= |a| && Shaped(vs, dim) && d < dim
  {
    if n == 0 then 0.0 else Lean(vs, a, j, d, m, t, dim, n - 1) + if a[n - 1] == j then t * (vs[n - 1][d] - m) else 0.0
  }

  lemma {:induction false} LeanFormula(vs: seq<Vector>, a: seq<nat>, j: nat, d: nat, m: real, t: real, dim: nat, n: nat)
    requires n <= |vs| && n <= |a| && Shaped(vs, dim) && d < dim
    ensures Lean(vs, a, j, d, m, t, dim, n) == t * Deviation(vs, a, j, d, m, dim, n)
  {
    if n > 0 {
      LeanFormula(vs, a, j, d, m, t, dim, n - 1);
    }
  }

  lemma {:induction false} Tangent(v: real, x: real, m: real)
    ensures Square(v - x) >= Square(v - m) + 2.0 * (m - x) * (v - m)
  {
    assert Square(v - x) == Square(v - m) + 2.0 * (m - x) * (v - m) + Square(m - x);
  }

  lemma {:induction false} SpreadAboveTangent(
      vs: seq<Vector>, a: seq<nat>, j: nat, d: nat, x: real, m: real, dim: nat, n: nat)
    requires n <= |vs| && n <= |a| && Shaped(vs, dim) && d < dim
    ensures Spread(vs, a, j, d, x, dim, n) >= Spread(vs, a, j, d, m, dim, n)
        + Lean(vs, a, j, d, m, 2.0 * (m - x), dim, n)
  {
    if n > 0 {
      SpreadAboveTangent(vs, a, j, d, x, m, dim, n - 1);
      Tangent(vs[n - 1][d], x, m);
    }
  }

  lemma {:induction false} Quotient(sum: real, count: real)
    requires count > 0.0
    ensures sum - (sum / count) * count == 0.0
  {
  }

  /** The members deviate from their mean by nothing in total, so the mean spreads least. */
  lemma {:induction false} MeanSpread(vs: seq<Vector>, a: seq<nat>, j: nat, d: nat, x: real, dim: nat)
    requires |a| == |vs| && Shaped(vs, dim) && d < dim && Count(a, j, |a|) > 0
    ensures Spread(vs, a, j, d, Sum(vs, a, j, d, dim, |vs|) / Count(a, j, |a|) as real, dim, |vs|)
            <= Spread(vs, a, j, d, x, dim, |vs|)
  {
    var count := Count(a, j, |a|) as real;
    var m := Sum(vs, a, j, d, dim, |vs|) / count;
    Quotient(Sum(vs, a, j, d, dim, |vs|), count);
    DeviationFormula(vs, a, j, d, m, dim, |vs|);
    assert Deviation(vs, a, j, d, m, dim, |vs|) == 0.0;
    LeanFormula(vs, a, j, d, m, 2.0 * (m - x), dim, |vs|);
    SpreadAboveTangent(vs, a, j, d, x, m, dim, |vs|);
  }

  lemma {:induction false} MeanSpreads(vs: seq<Vector>, a: seq<nat>, j: nat, c: Vector, dim: nat, m: nat)
    requires |a| == |vs| && Shaped(vs, dim) && |c| == dim && m <= dim && Count(a, j, |a|) > 0
    ensures Spreads(vs, a, j, Mean(vs, a, j, dim), dim, |vs|, m) <= Spreads(vs, a, j, c, dim, |vs|, m)
  {
    if m > 0 {
      MeanSpreads(vs, a, j, c, dim, m - 1);
      MeanSpread(vs, a, j, m - 1, c[m - 1], dim);
    }
  }

  /** Moving one centroid to the mean of its members never costs more. */
  lemma {:induction false} MoveDescends(vs: seq<Vector>, a: seq<nat>, cs: seq<Vector>, j: nat, dim: nat)
    requires Shaped(vs, dim) && Shaped(cs, dim) && Assigns(a, |vs|, |cs|) && j < |cs| && Count(a, j, |a|) > 0
    ensures Cost(vs, a, cs[j := Mean(vs, a, j, dim)], dim, |vs|) <= Cost(vs, a, cs, dim, |vs|)
  {
    var m := Mean(vs, a, j, dim);
    CostSplits(vs, a, cs, j, dim, |vs|);
    CostSplits(vs, a, cs[j := m], j, dim, |vs|);
    RestSame(vs, a, cs, j, m, dim, |vs|);
    OwnBySpread(vs, a, j, m, dim, |vs|);
    OwnBySpread(vs, a, j, cs[j], dim, |vs|);
    MeanSpreads(vs, a, j, cs[j], dim, dim);
  }

  lemma {:induction false} RecentreDescends(vs: seq<Vector>, a: seq<nat>, cs: seq<Vector>, n: nat, dim: nat)
    requires Shaped(vs, dim) && Shaped(cs, dim) && Assigns(a, |vs|, |cs|) && n <= |cs|
    ensures Cost(vs, a, Recentred(vs, a, cs, n, dim), dim, |vs|) <= Cost(vs, a, cs, dim, |vs|)
  {
    if n > 0 {
      RecentreDescends(vs, a, cs, n - 1, dim);
      if Count(a, n - 1, |a|) > 0 {
        MoveDescends(vs, a, Recentred(vs, a, cs, n - 1, dim), n - 1, dim);
      }
    }
  }

  /** A full round, reassigning and then recentring, never costs more. */
  lemma {:induction false} RoundDescends(vs: seq<Vector>, a: seq<nat>, cs: seq<Vector>, dim: nat)
    requires |cs| > 0 && Shaped(vs, dim) && Shaped(cs, dim) && Assigns(a, |vs|, |cs|)
    ensures var next := Assigned(vs, cs, |vs|, dim);
            Cost(vs, next, Recentred(vs, next, cs, |cs|, dim), dim, |vs|) <= Cost(vs, a, cs, dim, |vs|)
  {
    var next := Assigned(vs, cs, |vs|, dim);
    ReassignDescends(vs, a, cs, dim, |vs|);
    RecentreDescends(vs, next, cs, |cs|, dim);
  }

  /** Over any number of rounds the cost never rises. */
  lemma {:induction false} LloydDescends(vs: seq<Vector>, a: seq<nat>, cs: seq<Vector>, rounds: nat, dim: nat)
    requires |cs| > 0 && Shaped(vs, dim) && Shaped(cs, dim) && Assigns(a, |vs|, |cs|)
    ensures var r := Lloyd(vs, a, cs, rounds, dim);
            Cost(vs, r.assignments, r.centroids, dim, |vs|) <= Cost(vs, a, cs, dim, |vs|)
    decreases rounds
  {
    var next := Assigned(vs, cs, |vs|, dim);
    if rounds > 0 && next != a {
      RoundDescends(vs, a, cs, dim);
      LloydDescends(vs, next, Recentred(vs, next, cs, |cs|, dim), rounds - 1, dim);
    }
  }

  /** The centroid of every cluster with members is their mean. */
  ghost predicate Centred(vs: seq<Vector>, a: seq<nat>, cs: seq<Vector>, dim: nat)
    requires |a| == |vs| && Shaped(vs, dim)
  {
    forall j :: 0 <= j < |cs| && Count(a, j, |a|) > 0 ==> cs[j] == Mean(vs, a, j, dim)
  }

  lemma {:induction false} RecentredAt(vs: seq<Vector>, a: seq<nat>, cs: seq<Vector>, n: nat, dim: nat, j: nat)
    requires |a| == |vs| && j < n <= |cs| && Shaped(vs, dim) && Shaped(cs, dim) && Count(a, j, |a|) > 0
    ensures Recentred(vs, a, cs, n, dim)[j] == Mean(vs, a, j, dim)
  {
    if j < n - 1 {
      RecentredAt(vs, a, cs, n - 1, dim, j);
    }
  }

  lemma {:induction false} RecentredIsCentred(vs: seq<Vector>, a: seq<nat>, cs: seq<Vector>, dim: nat)
    requires |a| == |vs| && Shaped(vs, dim) && Shaped(cs, dim)
    ensures Centred(vs, a, Recentred(vs, a, cs, |cs|, dim), dim)
  {
    forall j | 0 <= j < |cs| && Count(a, j, |a|) > 0
      ensures Recentred(vs, a, cs, |cs|, dim)[j] == Mean(vs, a, j, dim)
    {
      RecentredAt(vs, a, cs, |cs|, dim, j);
    }
  }

  /** The exit without a change is a fixed point: every point is assigned to its first
      nearest centroid, and unless the very first round changed nothing, every cluster with
      members is centred on their mean. */
  lemma {:induction false} SettledIsFixed(vs: seq<Vector>, a: seq<nat>, cs: seq<Vector>, rounds: nat, dim: nat)
    requires |cs| > 0 && Shaped(vs, dim) && Shaped(cs, dim) && Assigns(a, |vs|, |cs|)
    ensures var r := Lloyd(vs, a, cs, rounds, dim);
            r.settled ==>
              (forall i :: 0 <= i < |vs| ==> FirstNearest(vs[i], r.centroids, r.assignments[i], dim))
              && (Assigned(vs, cs, |vs|, dim) != a || Centred(vs, a, cs, dim)
                  ==> Centred(vs, r.assignments, r.centroids, dim))
    decreases rounds
  {
    var next := Assigned(vs, cs, |vs|, dim);
    if rounds > 0 {
      if next == a {
        forall i | 0 <= i < |vs|
          ensures FirstNearest(vs[i], cs, a[i], dim)
        {
          AssignedAt(vs, cs, |vs|, dim, i);
        }
      } else {
        var moved := Recentred(vs, next, cs, |cs|, dim);
        RecentredIsCentred(vs, next, cs, dim);
        SettledIsFixed(vs, next, moved, rounds - 1, dim);
      }
    }
  }

  // ----- The clusters partition the points -----

  function Counts(a: seq<nat>, k: nat): nat {
    if k == 0 then 0 else Counts(a, k - 1) + Count(a, k - 1, |a|)
  }

  function Below(a: seq<nat>, k: nat, n: nat): nat
    requires n <= |a|
  {
    if n == 0 then 0 else Below(a, k, n - 1) + if a[n - 1] < k then 1 else 0
  }

  lemma {:induction false} BelowOneMore(a: seq<nat>, k: nat, n: nat)
    requires n <= |a|
    ensures Below(a, k + 1, n) == Below(a, k, n) + Count(a, k, n)
  {
    if n > 0 {
      BelowOneMore(a, k, n - 1);
    }
  }

  lemma {:induction false} BelowAll(a: seq<nat>, k: nat, n: nat)
    requires n <= |a|
    ensures k == 0 ==> Below(a, k, n) == 0
    ensures (forall i :: 0 <= i < |a| ==> a[i] < k) ==> Below(a, k, n) == n
  {
    if n > 0 {
      BelowAll(a, k, n - 1);
    }
  }

  lemma {:induction false} CountsAreBelow(a: seq<nat>, k: nat)
    ensures Counts(a, k) == Below(a, k, |a|)
  {
    if k == 0 {
      BelowAll(a, 0, |a|);
    } else {
      CountsAreBelow(a, k - 1);
      BelowOneMore(a, k - 1, |a|);
    }
  }

  /** The cluster sizes add up to the number of points, also when the report asks for more
      clusters than there were points to sample. */
  lemma {:induction false} SizesAddUp(vs: seq<Vector>, a: seq<nat>, cs: seq<Vector>, rounds: nat, dim: nat, k: nat)
    requires 0 < |cs| <= k && Shaped(vs, dim) && Shaped(cs, dim) && Assigns(a, |vs|, |cs|)
    ensures Counts(Lloyd(vs, a, cs, rounds, dim).assignments, k) == |vs|
  {
    var r := Lloyd(vs, a, cs, rounds, dim).assignments;
    CountsAreBelow(r, k);
    BelowAll(r, k, |r|);
  }

  // ----- The algorithm as it runs -----

  method FirstNearestOf(v: Vector, cs: array<Vector>, ghost dim: nat) returns (best: nat)
    requires cs.Length > 0 && Shaped(cs[..], dim) && |v| == dim
    ensures best == Nearest(v, cs[..], cs.Length, dim)
  {
    best := 0;
    var least := SquaredDistance(v, cs[0]);
    var i := 1;
    while i < cs.Length
      invariant 1 <= i <= cs.Length && best < i
      invariant best == Nearest(v, cs[..], i, dim) && least == Dist(v, cs[best], dim)
    {
      var d := SquaredDistance(v, cs[i]);
      if d < least {
        best, least := i, d;
      }
      i := i + 1;
    }
  }

  method SquaredDistance(u: Vector, v: Vector) returns (r: real)
    requires |u| == |v|
    ensures r == Dist(u, v, |u|)
  {
    r := 0.0;
    var d := 0;
    while d < |u|
      invariant d <= |u| && r == Dist(u, v, d)
    {
      r := r + (u[d] - v[d]) * (u[d] - v[d]);
      d := d + 1;
    }
  }

  /** k cut to the number of points, but never below one. */
  function Clusters(n: nat, k: nat): nat { if n < k then Max(1, n) else k }

  function Zeros(n: nat): (a: seq<nat>)
    ensures |a| == n && forall i :: 0 <= i < n ==> a[i] == 0
  {
    if n == 0 then [] else Zeros(n - 1) + [0]
  }

  function Sampled(vs: seq<Vector>, sample: seq<nat>, n: nat): (cs: seq<Vector>)
    requires n <= |sample| && forall i :: 0 <= i < |sample| ==> sample[i] < |vs|
    ensures |cs| == n && forall i :: 0 <= i < n ==> cs[i] == vs[sample[i]]
  {
    if n == 0 then [] else Sampled(vs, sample, n - 1) + [vs[sample[n - 1]]]
  }

  /** One pass over the points, updating the assignments in place. */
  method Reassign(vs: seq<Vector>, assignments: array<nat>, cs: array<Vector>, ghost dim: nat) returns (changed: bool)
    requires assignments.Length == |vs| && cs.Length > 0 && Shaped(vs, dim) && Shaped(cs[..], dim)
    requires cs as object != assignments as object
    modifies assignments
    ensures assignments[..] == Assigned(vs, cs[..], |vs|, dim)
    ensures changed <==> assignments[..] != old(assignments[..])
  {
    changed := false;
    ghost var was := assignments[..];
    var i := 0;
    while i < |vs|
      invariant i <= |vs|
      invariant assignments[..i] == Assigned(vs, cs[..], i, dim)
      invariant assignments[i..] == was[i..]
      invariant changed <==> assignments[..i] != was[..i]
    {
      var best := FirstNearestOf(vs[i], cs, dim);
      ghost var done := assignments[..i];
      if best != assignments[i] {
        assignments[i] := best;
        changed := true;
      }
      assert assignments[..i] == done;
      assert assignments[..i + 1] == done + [best];
      assert was[..i + 1] == was[..i] + [was[i]];
      i := i + 1;
    }
    assert assignments[..] == assignments[..|vs|] && was == was[..|vs|];
  }

  /** The mean of the members of cluster j, if it has any. */
  method MeanOf(vs: seq<Vector>, assignments: array<nat>, j: nat, dim: nat) returns (members: nat, mean: Vector)
    requires assignments.Length == |vs| && Shaped(vs, dim)
    ensures members == Count(assignments[..], j, |vs|)
    ensures members > 0 ==> mean == Mean(vs, assignments[..], j, dim)
  {
    ghost var a := assignments[..];
    members := 0;
    var i := 0;
    while i < |vs|
      invariant i <= |vs| && members == Count(a, j, i)
    {
      if assignments[i] == j {
        members := members + 1;
      }
      i := i + 1;
    }
    mean := [];
    if members == 0 {
      return;
    }
    var d := 0;
    while d < dim
      invariant d <= dim && |mean| == d
      invariant forall e :: 0 <= e < d ==> mean[e] == Sum(vs, a, j, e, dim, |vs|) / members as real
    {
      var sum := 0.0;
      i := 0;
      while i < |vs|
        invariant i <= |vs| && sum == Sum(vs, a, j, d, dim, i)
      {
        if assignments[i] == j {
          sum := sum + vs[i][d];
        }
        i := i + 1;
      }
      mean := mean + [sum / members as real];
      d := d + 1;
    }
  }

  /** Moves the centroids of the clusters with members, in place. */
  method Recentre(vs: seq<Vector>, assignments: array<nat>, cs: array<Vector>, dim: nat)
    requires assignments.Length == |vs| && Shaped(vs, dim) && Shaped(cs[..], dim)
    requires cs as object != assignments as object
    modifies cs
    ensures cs[..] == Recentred(vs, assignments[..], old(cs[..]), cs.Length, dim)
  {
    ghost var was := cs[..];
    var j := 0;
    while j < cs.Length
      invariant j <= cs.Length
      invariant cs[..] == Recentred(vs, assignments[..], was, j, dim)
    {
      var members, mean := MeanOf(vs, assignments, j, dim);
      if members > 0 {
        cs[j] := mean;
      }
      j := j + 1;
    }
  }

  method Iterate(vs: seq<Vector>, dim: nat, maxIter: nat, assignments: array<nat>, cs: array<Vector>)
    requires Shaped(vs, dim) && cs.Length > 0 && Shaped(cs[..], dim) && Assigns(assignments[..], |vs|, cs.Length)
    requires cs as object != assignments as object
    modifies assignments, cs
    ensures var r := Lloyd(vs, old(assignments[..]), old(cs[..]), maxIter, dim);
            assignments[..] == r.assignments && cs[..] == r.centroids
  {
    var rounds := maxIter;
    while rounds > 0
      invariant 0 <= rounds <= maxIter
      invariant Shaped(cs[..], dim) && Assigns(assignments[..], |vs|, cs.Length)
      invariant Lloyd(vs, assignments[..], cs[..], rounds, dim)
          == Lloyd(vs, old(assignments[..]), old(cs[..]), maxIter, dim)
    {
      var changed := Reassign(vs, assignments, cs, dim);
      if !changed {
        return;
      }
      Recentre(vs, assignments, cs, dim);
      rounds := rounds - 1;
    }
  }

  method RunKMeans(vs: seq<Vector>, dim: nat, k: nat, maxIter: nat, sample: seq<nat>) returns (result: seq<nat>)
    requires |vs| > 0 && k > 0 && Shaped(vs, dim)
    requires |sample| == Clusters(|vs|, k) && forall i :: 0 <= i < |sample| ==> sample[i] < |vs|
    ensures result == Lloyd(vs, Zeros(|vs|), Sampled(vs, sample, |sample|), maxIter, dim).assignments
  {
    var start := Sampled(vs, sample, |sample|);
    var cs := new Vector[|sample|](j requires 0 <= j < |sample| => start[j]);
    var assignments := new nat[|vs|](_ => 0);
    assert cs[..] == start;
    assert assignments[..] == Zeros(|vs|);
    Iterate(vs, dim, maxIter, assignments, cs);
    result := assignments[..];
  }
}
