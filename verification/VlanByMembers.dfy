/** The exact condition for a conflict-free VLAN policy, over members, ports, addresses and
    links. */
module VlanByMembers {
  import opened Prelude
  import opened OpenFlow
  import opened VlanPolicy
  import opened VlanCompiler
  import opened VlanMeaning
  import opened VlanConflicts
  import opened VlanSeats

  // ----- Targets are first seats -----

  function TargetsFrom(vm: VlanMembers, links: seq<Link>, v: int, port: int): seq<Member> {
    Targets(port, PeersOf(vm, links, v))
  }

  lemma {:induction false} SeatOfTarget(vm: VlanMembers, links: seq<Link>, v: int, port: int, ks: seq<nat>, a: nat)
    returns (u: int, i: int)
    requires var cs := PeersOf(vm, links, v); Places(port, cs, |cs|, ks, TargetsFrom(vm, links, v, port))
    requires a < |ks|
    ensures FirstSeat(vm, links, v, u, i) && IndexOf(vm, links, v, u, i) == ks[a]
    ensures vm[u][i] == TargetsFrom(vm, links, v, port)[a]
  {
    assert IsPlace(port, PeersOf(vm, links, v), |PeersOf(vm, links, v)|, ks[a], TargetsFrom(vm, links, v, port)[a]);
    u, i := SeatAt(vm, links, v, ks[a]);
    FirstMeaning(vm, links, v, u, i);
  }

  lemma {:induction false} TargetOfSeat(
      vm: VlanMembers, links: seq<Link>, v: int, port: int, ks: seq<nat>, u: int, i: int) returns (a: nat)
    requires var cs := PeersOf(vm, links, v); Places(port, cs, |cs|, ks, TargetsFrom(vm, links, v, port))
    requires FirstSeat(vm, links, v, u, i) && vm[u][i].port != port
    ensures a < |ks| && ks[a] == IndexOf(vm, links, v, u, i) && TargetsFrom(vm, links, v, port)[a] == vm[u][i]
  {
    FirstMeaning(vm, links, v, u, i);
    IndexMeaning(vm, links, v, u, i);
    var k := IndexOf(vm, links, v, u, i);
    assert k in ks;
    a :| 0 <= a < |ks| && ks[a] == k;
    assert IsPlace(port, PeersOf(vm, links, v), |PeersOf(vm, links, v)|, k, TargetsFrom(vm, links, v, port)[a]);
  }

  lemma {:induction false} TargetIsFirst(vm: VlanMembers, links: seq<Link>, v: int, port: int, d: Member)
    ensures d in TargetsFrom(vm, links, v, port) <==>
            d.port != port && exists u, i :: FirstSeat(vm, links, v, u, i) && vm[u][i] == d
  {
    var cs, targets := PeersOf(vm, links, v), TargetsFrom(vm, links, v, port);
    var ks := TargetPlaces(port, cs, |cs|);
    if d in targets {
      var a :| 0 <= a < |targets| && targets[a] == d;
      var u, i := SeatOfTarget(vm, links, v, port, ks, a);
    }
    if d.port != port && exists u, i :: FirstSeat(vm, links, v, u, i) && vm[u][i] == d {
      var u, i :| FirstSeat(vm, links, v, u, i) && vm[u][i] == d;
      var a := TargetOfSeat(vm, links, v, port, ks, u, i);
    }
  }

  lemma {:induction false} OffersIsThrough(vm: VlanMembers, links: seq<Link>, port: int, d: Member)
    ensures Offers(vm, links, port, d) <==> Through(vm, links, port, d)
  {
    if Offers(vm, links, port, d) {
      var v, s :| InVlan(vm, v, s) && s.port == port && d in TargetsOf(vm, links, v, s);
      assert OnPort(vm, v, port);
      TargetIsFirst(vm, links, v, port, d);
    }
    if Through(vm, links, port, d) {
      var v, u, i :| OnPort(vm, v, port) && FirstSeat(vm, links, v, u, i) && vm[u][i] == d;
      TargetIsFirst(vm, links, v, port, d);
      var s :| InVlan(vm, v, s) && s.port == port;
      assert d in TargetsOf(vm, links, v, s);
    }
  }

  lemma {:induction false} AddressesByMembers(vm: VlanMembers, links: seq<Link>)
    ensures OnePortPerAddress(vm, links) <==> OneAddress(vm, links)
  {
    forall port, d
      ensures Offers(vm, links, port, d) <==> Through(vm, links, port, d)
    {
      OffersIsThrough(vm, links, port, d);
    }
  }

  // ----- Fan-outs are the ports reached, in order -----

  function PortSeq(ms: seq<Member>): (ps: seq<int>)
    ensures |ps| == |ms| && forall a :: 0 <= a < |ms| ==> ps[a] == ms[a].port
  {
    seq(|ms|, a requires 0 <= a < |ms| => ms[a].port)
  }

  lemma {:induction false} SameOutputs(ms: seq<Member>, ns: seq<Member>)
    ensures Outputs(ms) == Outputs(ns) <==> PortSeq(ms) == PortSeq(ns)
  {
    if Outputs(ms) == Outputs(ns) {
      forall a | 0 <= a < |ms|
        ensures ms[a].port == ns[a].port
      {
        assert Outputs(ms)[a] == Outputs(ns)[a];
      }
    }
    if PortSeq(ms) == PortSeq(ns) {
      assert |ms| == |ns|;
      forall a | 0 <= a < |ms|
        ensures Outputs(ms)[a] == Outputs(ns)[a]
      {
        assert PortSeq(ms)[a] == PortSeq(ns)[a];
      }
    }
  }

  ghost predicate Earlier(ps: seq<int>, q: int, r: int) { exists a, b :: 0 <= a < b < |ps| && ps[a] == q && ps[b] == r }

  /** Two lists without repetition are equal if they have the same elements in the same order. */
  lemma {:induction false} SameList(ps: seq<int>, qs: seq<int>)
    requires NoDup(ps) && NoDup(qs) && (forall q :: q in ps ==> q in qs) && (forall q :: q in qs ==> q in ps)
    requires forall q, r :: Earlier(ps, q, r) ==> Earlier(qs, q, r)
    ensures ps == qs
    decreases |ps|
  {
    if ps == [] {
      HasSome(qs);
    } else {
      SameHead(ps, qs);
      var rest, others := ps[1..], qs[1..];
      forall q
        ensures q in rest <==> q in others
      {
        InTail(ps, q);
        InTail(qs, q);
      }
      forall q, r | Earlier(rest, q, r)
        ensures Earlier(others, q, r)
      {
        EarlierTail(ps, qs, q, r);
      }
      SameList(rest, others);
      assert ps == [ps[0]] + rest && qs == [qs[0]] + others;
    }
  }

  lemma {:induction false} HasSome(qs: seq<int>)
    ensures qs == [] || exists q :: q in qs
  {
    if qs != [] {
      var head := qs[0];
      assert head in qs;
    }
  }

  lemma {:induction false} InTail(ps: seq<int>, q: int)
    requires ps != [] && NoDup(ps)
    ensures q in ps[1..] <==> q in ps && q != ps[0]
  {
    assert ps == [ps[0]] + ps[1..];
    if q in ps[1..] {
      var a :| 0 <= a < |ps[1..]| && ps[1..][a] == q;
      assert ps[a + 1] == q;
    }
  }

  lemma {:induction false} SameHead(ps: seq<int>, qs: seq<int>)
    requires ps != [] && NoDup(ps) && NoDup(qs)
    requires (forall q :: q in ps ==> q in qs) && (forall q :: q in qs ==> q in ps)
    requires forall q, r :: Earlier(ps, q, r) ==> Earlier(qs, q, r)
    ensures qs != [] && ps[0] == qs[0]
  {
    var first := ps[0];
    assert first in ps;
    assert first in qs;
    var head := qs[0];
    assert head in qs;
    assert head in ps;
    var a :| 0 <= a < |ps| && ps[a] == head;
    NothingEarlier(qs, first);
    assert a > 0 ==> Earlier(ps, first, head);
  }

  lemma {:induction false} NothingEarlier(qs: seq<int>, q: int)
    requires qs != [] && NoDup(qs)
    ensures !Earlier(qs, q, qs[0])
  {
  }

  lemma {:induction false} EarlierTail(ps: seq<int>, qs: seq<int>, q: int, r: int)
    requires ps != [] && qs != [] && ps[0] == qs[0] && NoDup(ps) && NoDup(qs) && Earlier(ps[1..], q, r)
    requires forall q, r :: Earlier(ps, q, r) ==> Earlier(qs, q, r)
    ensures Earlier(qs[1..], q, r)
  {
    var a, b :| 0 <= a < b < |ps[1..]| && ps[1..][a] == q && ps[1..][b] == r;
    assert ps[a + 1] == q && ps[b + 1] == r;
    assert Earlier(ps, q, r);
    var c, d :| 0 <= c < d < |qs| && qs[c] == q && qs[d] == r;
    assert c > 0;
    assert qs[1..][c - 1] == q && qs[1..][d - 1] == r;
  }

  lemma {:induction false} FanPorts(vm: VlanMembers, links: seq<Link>, v: int, port: int)
    ensures NoDup(PortSeq(TargetsFrom(vm, links, v, port)))
    ensures forall q :: q in PortSeq(TargetsFrom(vm, links, v, port)) <==> Reached(vm, links, v, port, q)
  {
    var cs, targets := PeersOf(vm, links, v), TargetsFrom(vm, links, v, port);
    TargetsCover(port, cs, |cs|);
    forall q
      ensures q in PortSeq(targets) <==> Reached(vm, links, v, port, q)
    {
      if q in PortSeq(targets) {
        var a :| 0 <= a < |targets| && PortSeq(targets)[a] == q;
        TargetIsFirst(vm, links, v, port, targets[a]);
      }
      if Reached(vm, links, v, port, q) {
        var u, i :| FirstSeat(vm, links, v, u, i) && vm[u][i].port == q;
        TargetIsFirst(vm, links, v, port, vm[u][i]);
        var a :| 0 <= a < |targets| && targets[a] == vm[u][i];
        assert PortSeq(targets)[a] == q;
      }
    }
  }

  lemma {:induction false} FanOrder(vm: VlanMembers, links: seq<Link>, v: int, port: int, q: int, r: int)
    requires Reached(vm, links, v, port, q) && Reached(vm, links, v, port, r)
    ensures Earlier(PortSeq(TargetsFrom(vm, links, v, port)), q, r) <==> Precedes(vm, links, v, q, r)
  {
    var cs, targets := PeersOf(vm, links, v), TargetsFrom(vm, links, v, port);
    var ks := TargetPlaces(port, cs, |cs|);
    if Earlier(PortSeq(targets), q, r) {
      var a, b :| 0 <= a < b < |targets| && PortSeq(targets)[a] == q && PortSeq(targets)[b] == r;
      var u, i := SeatOfTarget(vm, links, v, port, ks, a);
      var x, j := SeatOfTarget(vm, links, v, port, ks, b);
      IndexOrder(vm, links, v, u, i, x, j);
    }
    if Precedes(vm, links, v, q, r) {
      var u, i, x, j :| FirstSeat(vm, links, v, u, i) && FirstSeat(vm, links, v, x, j) && Ahead(u, i, x, j)
                        && vm[u][i].port == q && vm[x][j].port == r;
      var a := TargetOfSeat(vm, links, v, port, ks, u, i);
      var b := TargetOfSeat(vm, links, v, port, ks, x, j);
      IndexOrder(vm, links, v, u, i, x, j);
      assert PortSeq(targets)[a] == q && PortSeq(targets)[b] == r;
      assert !(b < a) && b != a;
    }
  }

  lemma {:induction false} FanByMembers(vm: VlanMembers, links: seq<Link>, port: int, v: int, w: int)
    ensures Outputs(TargetsFrom(vm, links, v, port)) == Outputs(TargetsFrom(vm, links, w, port))
            <==> SameFan(vm, links, port, v, w)
  {
    var ps, qs := PortSeq(TargetsFrom(vm, links, v, port)), PortSeq(TargetsFrom(vm, links, w, port));
    SameOutputs(TargetsFrom(vm, links, v, port), TargetsFrom(vm, links, w, port));
    FanPorts(vm, links, v, port);
    FanPorts(vm, links, w, port);
    if ps == qs {
      forall q, r | Reached(vm, links, v, port, q) && Reached(vm, links, v, port, r) && Precedes(vm, links, v, q, r)
        ensures Precedes(vm, links, w, q, r)
      {
        FanOrder(vm, links, v, port, q, r);
        FanOrder(vm, links, w, port, q, r);
      }
    }
    if SameFan(vm, links, port, v, w) {
      forall q, r | Earlier(ps, q, r)
        ensures Earlier(qs, q, r)
      {
        assert q in ps && r in ps;
        FanOrder(vm, links, v, port, q, r);
        FanOrder(vm, links, w, port, q, r);
      }
      SameList(ps, qs);
    }
  }

  lemma {:induction false} FansByMembers(vm: VlanMembers, links: seq<Link>)
    ensures OneFanOut(vm, links) <==> OneFan(vm, links)
  {
    if OneFanOut(vm, links) {
      forall port, v, w | OnPort(vm, v, port) && OnPort(vm, w, port)
                          && (exists q :: Reached(vm, links, v, port, q))
                              && (exists q :: Reached(vm, links, w, port, q))
        ensures SameFan(vm, links, port, v, w)
      {
        FanIsOut(vm, links, port, v);
        FanIsOut(vm, links, port, w);
        FanByMembers(vm, links, port, v, w);
      }
    }
    if OneFan(vm, links) {
      forall port, x, y | FansOut(vm, links, port, x) && FansOut(vm, links, port, y)
        ensures x == y
      {
        var v := OutIsFan(vm, links, port, x);
        var w := OutIsFan(vm, links, port, y);
        FanByMembers(vm, links, port, v, w);
      }
    }
  }

  lemma {:induction false} FanIsOut(vm: VlanMembers, links: seq<Link>, port: int, v: int)
    requires OnPort(vm, v, port) && exists q :: Reached(vm, links, v, port, q)
    ensures FansOut(vm, links, port, Outputs(TargetsFrom(vm, links, v, port)))
  {
    var s :| InVlan(vm, v, s) && s.port == port;
    var q :| Reached(vm, links, v, port, q);
    FanPorts(vm, links, v, port);
    assert q in PortSeq(TargetsFrom(vm, links, v, port));
    assert TargetsOf(vm, links, v, s) == TargetsFrom(vm, links, v, port) != [];
  }

  lemma {:induction false} OutIsFan(vm: VlanMembers, links: seq<Link>, port: int, x: seq<Action>) returns (v: int)
    requires FansOut(vm, links, port, x)
    ensures OnPort(vm, v, port) && (exists q :: Reached(vm, links, v, port, q))
    ensures x == Outputs(TargetsFrom(vm, links, v, port))
  {
    var w, s :| InVlan(vm, w, s) && s.port == port && TargetsOf(vm, links, w, s) != []
                && x == Outputs(TargetsOf(vm, links, w, s));
    v := w;
    FanPorts(vm, links, v, port);
    var targets := TargetsFrom(vm, links, v, port);
    assert PortSeq(targets)[0] in PortSeq(targets);
  }

  /** A policy compiles without conflicts if and only if VLANs that share a port reach the same
      ports from it in the same order, and of the members that a port reaches others through,
      those with one address are on one port. */
  lemma {:induction false} ConflictFreeByMembers(vm: VlanMembers, links: seq<Link>, ports: set<int>)
    ensures NoConflicts(CompileVlans(vm, links, ports)) <==> OneFan(vm, links) && OneAddress(vm, links)
  {
    ConflictFreeExactly(vm, links, ports);
    FansByMembers(vm, links);
    AddressesByMembers(vm, links);
  }
}
