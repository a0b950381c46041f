/** Vocabulary shared by the models: options, results of an operation that may be
    refused, and the few facts about sequences and sorted key lists they all use. */
module Prelude {

  datatype Option<+T> = None | Some(value: T)

  function Min(a: int, b: int): int { if a <= b then a else b }

  function Max(a: int, b: int): int { if a >= b then a else b }

  ghost predicate NoDup<T>(s: seq<T>) {
    forall i, j :: 0 <= i < j < |s| ==> s[i] != s[j]
  }

  method Choose<T>(s: set<T>) returns (x: T)
    requires s != {}
    ensures x in s
  {
    x :| x in s;
  }

  lemma {:induction false} Pick<T>(s: set<T>) returns (x: T)
    requires s != {}
    ensures x in s
  {
    x :| x in s;
  }

  predicate IsLeast(s: set<int>, m: int) {
    m in s && forall x :: x in s ==> m <= x
  }

  lemma {:induction false} LeastExists(s: set<int>)
    requires |s| > 0
    ensures exists m :: IsLeast(s, m)
    decreases |s|
  {
    var y := Pick(s);
    var rest := s - {y};
    assert s == rest + {y};
    if |rest| > 0 {
      LeastExists(rest);
      var m :| IsLeast(rest, m);
      assert IsLeast(s, Min(m, y));
    } else {
      assert IsLeast(s, y);
    }
  }

  /** The elements of a set of integers in ascending order, as `sorted` lists them. */
  function Ascending(s: set<int>): (r: seq<int>)
    ensures forall x :: x in r <==> x in s
    ensures forall i, j :: 0 <= i < j < |r| ==> r[i] < r[j]
    decreases |s|
  {
    if s == {} then []
    else
      LeastExists(s);
      var m :| IsLeast(s, m);
      [m] + Ascending(s - {m})
  }

  lemma {:induction false} SameMap<V>(m: map<int, V>, n: map<int, V>)
    requires forall k :: k in m <==> k in n
    requires forall k :: k in m ==> m[k] == n[k]
    ensures m == n
  {
    forall k
      ensures k in m <==> k in n
      ensures k in m ==> m[k] == n[k]
    {
    }
  }

  /** Some hit has no fall behind it. */
  ghost predicate HitLast(hit: seq<bool>, fall: seq<bool>, n: nat)
    requires n <= |hit| == |fall|
  {
    exists i :: 0 <= i < n && hit[i] && forall j :: i < j < n ==> !fall[j]
  }

  /** A flag that hits set and falls clear is on if and only if some hit has no fall behind it. */
  lemma {:induction false} Latched(on: seq<bool>, hit: seq<bool>, fall: seq<bool>, n: nat)
    requires n <= |hit| == |fall| == |on| - 1 && !on[0]
    requires forall i :: 0 <= i < |hit| ==> on[i + 1] == (hit[i] || (on[i] && !fall[i]))
    ensures on[n] <==> HitLast(hit, fall, n)
  {
    if n > 0 {
      Latched(on, hit, fall, n - 1);
      assert on[n - 1 + 1] == (hit[n - 1] || (on[n - 1] && !fall[n - 1]));
      if on[n] && !hit[n - 1] {
        var i :| 0 <= i < n - 1 && hit[i] && forall j :: i < j < n - 1 ==> !fall[j];
        assert forall j :: i < j < n ==> !fall[j];
      }
    }
  }
}
