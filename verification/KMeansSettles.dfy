/** Lloyd's k-means stops: every round that changes an assignment lowers the cost, or keeps it
    and lowers the indices of the clusters, so no assignment comes back. */
module KMeansSettles {
  import opened Prelude
  import opened KMeans
  import P = Pearson

  function IndexSum(a: seq<nat>, n: nat): nat
    requires n <= |a|
  {
    if n == 0 then 0 else IndexSum(a, n - 1) + a[n - 1]
  }

  lemma {:induction false} SquareOfDifference(x: real, y: real)
    ensures Square(x - y) == x * x + y * y - 2.0 * (x * y)
  {
  }

  /** The distance is the square of Euclid's: by inner products, so that every coordinate
      counts alike. */
  lemma {:induction false} DistByProducts(u: Vector, v: Vector, dim: nat)
    requires dim <= |u| && dim <= |v|
    ensures Dist(u, v, dim) == P.Dot(u, u, dim) + P.Dot(v, v, dim) - 2.0 * P.Dot(u, v, dim)
  {
    if dim > 0 {
      DistByProducts(u, v, dim - 1);
      SquareOfDifference(u[dim - 1], v[dim - 1]);
    }
  }

  /** Reassigning lowers the cost, or keeps it and lowers the sum of the indices, or changes
      nothing: among nearest centroids the first is taken. */
  lemma {:induction false} ReassignImproves(
      vs: seq<Vector>, a: seq<nat>, next: seq<nat>, cs: seq<Vector>, dim: nat, n: nat)
    requires n <= |vs| && |cs| > 0 && Shaped(vs, dim) && Shaped(cs, dim) && Assigns(a, |vs|, |cs|)
    requires next == Assigned(vs, cs, |vs|, dim)
    ensures Cost(vs, next, cs, dim, n) <= Cost(vs, a, cs, dim, n)
    ensures Cost(vs, next, cs, dim, n) == Cost(vs, a, cs, dim, n) ==>
              IndexSum(next, n) < IndexSum(a, n) || next[..n] == a[..n]
  {
    if n > 0 {
      ReassignImproves(vs, a, next, cs, dim, n - 1);
      AssignedAt(vs, cs, |vs|, dim, n - 1);
      assert Dist(vs[n - 1], cs[next[n - 1]], dim) == Dist(vs[n - 1], cs[a[n - 1]], dim) ==> next[n - 1] <= a[n - 1];
      assert next[..n] == next[..n - 1] + [next[n - 1]] && a[..n] == a[..n - 1] + [a[n - 1]];
      assert next[..n - 1] == a[..n - 1] ==> IndexSum(next, n - 1) == IndexSum(a, n - 1) by {
        SameIndexSum(next, a, n - 1);
      }
    }
  }

  lemma {:induction false} SameIndexSum(a: seq<nat>, b: seq<nat>, n: nat)
    requires n <= |a| && n <= |b|
    ensures a[..n] == b[..n] ==> IndexSum(a, n) == IndexSum(b, n)
  {
    if n > 0 && a[..n] == b[..n] {
      assert a[..n][n - 1] == b[..n][n - 1] && a[..n][..n - 1] == a[..n - 1] && b[..n][..n - 1] == b[..n - 1];
      SameIndexSum(a, b, n - 1);
    }
  }

  // ----- The cost of a centred assignment is its own -----

  lemma {:induction false} Counted(a: seq<nat>, i: nat, n: nat)
    requires i < n <= |a|
    ensures Count(a, a[i], n) > 0
  {
    if i < n - 1 {
      Counted(a, i, n - 1);
    }
  }

  /** Only the centroids of clusters with members matter, and centring determines those. */
  lemma {:induction false} CentredCost(
      vs: seq<Vector>, a: seq<nat>, cs: seq<Vector>, other: seq<Vector>, dim: nat, n: nat)
    requires n <= |vs| && Shaped(vs, dim) && Shaped(cs, dim) && Shaped(other, dim) && |cs| == |other|
    requires Assigns(a, |vs|, |cs|) && Centred(vs, a, cs, dim) && Centred(vs, a, other, dim)
    ensures Cost(vs, a, cs, dim, n) == Cost(vs, a, other, dim, n)
  {
    if n > 0 {
      CentredCost(vs, a, cs, other, dim, n - 1);
      Counted(a, n - 1, |a|);
      assert cs[a[n - 1]] == other[a[n - 1]];
    }
  }

  /** The cost of an assignment with its clusters centred; which centroids stand in for the
      empty clusters does not matter. */
  ghost function Potential(vs: seq<Vector>, a: seq<nat>, any: seq<Vector>, dim: nat): real
    requires Shaped(vs, dim) && Shaped(any, dim) && Assigns(a, |vs|, |any|)
  {
    Cost(vs, a, Recentred(vs, a, any, |any|, dim), dim, |vs|)
  }

  lemma {:induction false} PotentialIsCost(vs: seq<Vector>, a: seq<nat>, cs: seq<Vector>, any: seq<Vector>, dim: nat)
    requires Shaped(vs, dim) && Shaped(cs, dim) && Shaped(any, dim) && |cs| == |any|
    requires Assigns(a, |vs|, |cs|) && Centred(vs, a, cs, dim)
    ensures Potential(vs, a, any, dim) == Cost(vs, a, cs, dim, |vs|)
  {
    RecentredIsCentred(vs, a, any, dim);
    CentredCost(vs, a, cs, Recentred(vs, a, any, |any|, dim), dim, |vs|);
  }

  /** a costs less than b, or the same with lower indices. */
  ghost predicate Better(vs: seq<Vector>, a: seq<nat>, b: seq<nat>, any: seq<Vector>, dim: nat)
    requires Shaped(vs, dim) && Shaped(any, dim) && Assigns(a, |vs|, |any|) && Assigns(b, |vs|, |any|)
  {
    || Potential(vs, a, any, dim) < Potential(vs, b, any, dim)
    || (Potential(vs, a, any, dim) == Potential(vs, b, any, dim) && IndexSum(a, |a|) < IndexSum(b, |b|))
  }

  /** Strict descent: from centred clusters, a round that changes the assignment improves it. */
  lemma {:induction false} RoundImproves(
      vs: seq<Vector>, a: seq<nat>, next: seq<nat>, cs: seq<Vector>, any: seq<Vector>, dim: nat)
    requires |cs| == |any| > 0 && Shaped(vs, dim) && Shaped(cs, dim) && Shaped(any, dim)
    requires Assigns(a, |vs|, |cs|) && Centred(vs, a, cs, dim)
    requires next == Assigned(vs, cs, |vs|, dim) && next != a
    ensures Better(vs, next, a, any, dim)
  {
    var moved := Recentred(vs, next, cs, |cs|, dim);
    ReassignImproves(vs, a, next, cs, dim, |vs|);
    assert next[..|vs|] == next && a[..|vs|] == a;
    RecentreDescends(vs, next, cs, |cs|, dim);
    RecentredIsCentred(vs, next, cs, dim);
    PotentialIsCost(vs, next, moved, any, dim);
    PotentialIsCost(vs, a, cs, any, dim);
  }

  // ----- There are only finitely many assignments -----

  function Power(k: nat, n: nat): nat { if n == 0 then 1 else Power(k, n - 1) * k }

  ghost function Each(s: set<seq<nat>>, j: nat): set<seq<nat>> { set x | x in s :: x + [j] }

  /** Every sequence of s with one of the first k numbers appended. */
  ghost function Extended(s: set<seq<nat>>, k: nat): set<seq<nat>> {
    if k == 0 then {} else Extended(s, k - 1) + Each(s, k - 1)
  }

  /** All assignments of n points to k clusters. */
  ghost function Assignments(n: nat, k: nat): set<seq<nat>> {
    if n == 0 then {[]} else Extended(Assignments(n - 1, k), k)
  }

  lemma {:induction false} ExtendedHas(s: set<seq<nat>>, k: nat, x: seq<nat>, j: nat)
    requires x in s && j < k
    ensures x + [j] in Extended(s, k)
  {
    assert x + [j] in Each(s, j);
    if j < k - 1 {
      ExtendedHas(s, k - 1, x, j);
    }
  }

  lemma {:induction false} AssignmentsHas(a: seq<nat>, n: nat, k: nat)
    requires Assigns(a, n, k)
    ensures a in Assignments(n, k)
  {
    if n > 0 {
      AssignmentsHas(a[..n - 1], n - 1, k);
      ExtendedHas(Assignments(n - 1, k), k, a[..n - 1], a[n - 1]);
      assert a == a[..n - 1] + [a[n - 1]];
    }
  }

  lemma {:induction false} EachSize(s: set<seq<nat>>, j: nat)
    ensures |Each(s, j)| <= |s|
    decreases |s|
  {
    if s == {} {
      assert Each(s, j) == {};
    } else {
      var x := Pick(s);
      EachSize(s - {x}, j);
      assert Each(s, j) == Each(s - {x}, j) + {x + [j]};
      assert |s - {x}| == |s| - 1;
    }
  }

  lemma {:induction false} Products(m: nat, n: nat, k: nat)
    ensures k > 0 ==> m * k == m * (k - 1) + m
    ensures m <= n ==> m * k <= n * k
  {
  }

  lemma {:induction false} ExtendedSize(s: set<seq<nat>>, size: nat, k: nat)
    requires size == |s|
    ensures |Extended(s, k)| <= size * k
  {
    if k > 0 {
      ExtendedSize(s, size, k - 1);
      EachSize(s, k - 1);
      Products(size, size, k);
    }
  }

  lemma {:induction false} AssignmentsSize(n: nat, k: nat)
    ensures |Assignments(n, k)| <= Power(k, n)
  {
    if n > 0 {
      AssignmentsSize(n - 1, k);
      var fewer := Assignments(n - 1, k);
      ExtendedSize(fewer, |fewer|, k);
      Products(|fewer|, Power(k, n - 1), k);
    }
  }

  // ----- Settling -----

  ghost function BetterOnes(vs: seq<Vector>, a: seq<nat>, any: seq<Vector>, dim: nat): set<seq<nat>>
    requires Shaped(vs, dim) && Shaped(any, dim) && Assigns(a, |vs|, |any|)
  {
    set b | b in Assignments(|vs|, |any|) && Assigns(b, |vs|, |any|) && Better(vs, b, a, any, dim)
  }

  lemma {:induction false} SubsetSize(s: set<seq<nat>>, t: set<seq<nat>>, x: seq<nat>)
    requires s <= t && x in t && x !in s
    ensures |s| < |t|
    decreases |s|
  {
    if s != {} {
      var y := Pick(s);
      SubsetSize(s - {y}, t - {y}, x);
    }
  }

  lemma {:induction false} FewerLeft(vs: seq<Vector>, a: seq<nat>, next: seq<nat>, any: seq<Vector>, dim: nat)
    requires Shaped(vs, dim) && Shaped(any, dim) && Assigns(a, |vs|, |any|) && Assigns(next, |vs|, |any|)
    requires Better(vs, next, a, any, dim)
    ensures |BetterOnes(vs, next, any, dim)| < |BetterOnes(vs, a, any, dim)|
  {
    AssignmentsHas(next, |vs|, |any|);
    SubsetSize(BetterOnes(vs, next, any, dim), BetterOnes(vs, a, any, dim), next);
  }

  lemma {:induction false} BetterBounded(vs: seq<Vector>, a: seq<nat>, any: seq<Vector>, dim: nat)
    requires Shaped(vs, dim) && Shaped(any, dim) && Assigns(a, |vs|, |any|)
    ensures |BetterOnes(vs, a, any, dim)| < Power(|any|, |vs|)
  {
    AssignmentsHas(a, |vs|, |any|);
    AssignmentsSize(|vs|, |any|);
    SubsetSize(BetterOnes(vs, a, any, dim), Assignments(|vs|, |any|), a);
  }

  lemma {:induction false} LloydStep(
      vs: seq<Vector>, a: seq<nat>, cs: seq<Vector>, rounds: nat, dim: nat, next: seq<nat>, moved: seq<Vector>)
    requires rounds > 0 && |cs| > 0 && Shaped(vs, dim) && Shaped(cs, dim) && Assigns(a, |vs|, |cs|)
    requires next == Assigned(vs, cs, |vs|, dim) && moved == Recentred(vs, next, cs, |cs|, dim)
    ensures Lloyd(vs, a, cs, rounds, dim) ==
            if next == a then Result(a, cs, true) else Lloyd(vs, next, moved, rounds - 1, dim)
  {
  }

  /** From centred clusters, more rounds than there are better assignments are enough. */
  lemma {:induction false} SettlesFrom(
      vs: seq<Vector>, a: seq<nat>, cs: seq<Vector>, rounds: nat, dim: nat, any: seq<Vector>)
    requires |cs| == |any| > 0 && Shaped(vs, dim) && Shaped(cs, dim) && Shaped(any, dim)
    requires Assigns(a, |vs|, |cs|) && Centred(vs, a, cs, dim)
    requires rounds > |BetterOnes(vs, a, any, dim)|
    ensures Lloyd(vs, a, cs, rounds, dim).settled
    decreases rounds
  {
    var next := Assigned(vs, cs, |vs|, dim);
    var moved := Recentred(vs, next, cs, |cs|, dim);
    LloydStep(vs, a, cs, rounds, dim, next, moved);
    if next != a {
      RoundImproves(vs, a, next, cs, any, dim);
      FewerLeft(vs, a, next, any, dim);
      RecentredIsCentred(vs, next, cs, dim);
      SettlesFrom(vs, next, moved, rounds - 1, dim, any);
    }
  }

  lemma {:induction false} CentredSettles(vs: seq<Vector>, a: seq<nat>, cs: seq<Vector>, rounds: nat, dim: nat)
    requires |cs| > 0 && Shaped(vs, dim) && Shaped(cs, dim) && Assigns(a, |vs|, |cs|) && Centred(vs, a, cs, dim)
    requires rounds >= Power(|cs|, |vs|)
    ensures Lloyd(vs, a, cs, rounds, dim).settled
  {
    BetterBounded(vs, a, cs, dim);
    SettlesFrom(vs, a, cs, rounds, dim, cs);
  }

  /** From any start the iteration settles within one round more than there are ways to
      assign the points to the clusters. */
  lemma {:induction false} Settles(vs: seq<Vector>, a: seq<nat>, cs: seq<Vector>, rounds: nat, dim: nat)
    requires |cs| > 0 && Shaped(vs, dim) && Shaped(cs, dim) && Assigns(a, |vs|, |cs|)
    requires rounds > Power(|cs|, |vs|)
    ensures Lloyd(vs, a, cs, rounds, dim).settled
  {
    var next := Assigned(vs, cs, |vs|, dim);
    var moved := Recentred(vs, next, cs, |cs|, dim);
    LloydStep(vs, a, cs, rounds, dim, next, moved);
    if next != a {
      RecentredIsCentred(vs, next, cs, dim);
      CentredSettles(vs, next, moved, rounds - 1, dim);
    }
  }

  /** A settled result does not depend on how many more rounds were allowed. */
  lemma {:induction false} SettledStays(vs: seq<Vector>, a: seq<nat>, cs: seq<Vector>, rounds: nat, more: nat, dim: nat)
    requires |cs| > 0 && Shaped(vs, dim) && Shaped(cs, dim) && Assigns(a, |vs|, |cs|)
    requires rounds <= more && Lloyd(vs, a, cs, rounds, dim).settled
    ensures Lloyd(vs, a, cs, more, dim) == Lloyd(vs, a, cs, rounds, dim)
    decreases rounds
  {
    if rounds > 0 {
      var next := Assigned(vs, cs, |vs|, dim);
      var moved := Recentred(vs, next, cs, |cs|, dim);
      LloydStep(vs, a, cs, rounds, dim, next, moved);
      LloydStep(vs, a, cs, more, dim, next, moved);
      if next != a {
        SettledStays(vs, next, moved, rounds - 1, more - 1, dim);
      }
    }
  }
}
