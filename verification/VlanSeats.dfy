/** When a VLAN policy compiles without conflicts, said of its members, ports, addresses and
    links alone: which member each port is reached through, and in which order. */
module VlanSeats {
  import opened Prelude
  import opened VlanPolicy
  import opened VlanCompiler
  import opened VlanMeaning

  // ----- Seats -----

  /** Place i of VLAN u, as seen from VLAN v: u is v itself or linked to it. */
  ghost predicate Seat(vm: VlanMembers, links: seq<Link>, v: int, u: int, i: int) {
    u in vm && (u == v || Link(u, v) in links || Link(v, u) in links) && 0 <= i < |vm[u]|
  }

  predicate Ahead(u: int, i: int, x: int, j: int) { u < x || (u == x && i < j) }

  /** No seat of a lower VLAN or a lower place of the same VLAN is on this member's port. */
  ghost predicate FirstSeat(vm: VlanMembers, links: seq<Link>, v: int, u: int, i: int) {
    && Seat(vm, links, v, u, i)
    && (forall x, j :: Seat(vm, links, v, x, j) && Ahead(x, j, u, i) ==> vm[x][j].port != vm[u][i].port)
  }

  /** From a member of VLAN v on the port, the other port is reached. */
  ghost predicate Reached(vm: VlanMembers, links: seq<Link>, v: int, port: int, q: int) {
    q != port && exists u, i :: FirstSeat(vm, links, v, u, i) && vm[u][i].port == q
  }

  ghost predicate Precedes(vm: VlanMembers, links: seq<Link>, v: int, q: int, r: int) {
    exists u, i, x, j ::
      FirstSeat(vm, links, v, u, i) && FirstSeat(vm, links, v, x, j) && Ahead(u, i, x, j)
      && vm[u][i].port == q && vm[x][j].port == r
  }

  /** The two VLANs reach the same ports from this one, in the same order. */
  ghost predicate SameFan(vm: VlanMembers, links: seq<Link>, port: int, v: int, w: int) {
    && (forall q :: Reached(vm, links, v, port, q) <==> Reached(vm, links, w, port, q))
    && (forall q, r ::
          Reached(vm, links, v, port, q) && Reached(vm, links, v, port, r) && Precedes(vm, links, v, q, r) ==>
            Precedes(vm, links, w, q, r))
  }

  ghost predicate OnPort(vm: VlanMembers, v: int, port: int) { exists s :: InVlan(vm, v, s) && s.port == port }

  /** VLANs that share a port reach the same ports from it in the same order, as far as they
      reach any. */
  ghost predicate OneFan(vm: VlanMembers, links: seq<Link>) {
    forall port, v, w ::
      (OnPort(vm, v, port) && OnPort(vm, w, port)
       && (exists q :: Reached(vm, links, v, port, q)) && (exists q :: Reached(vm, links, w, port, q)))
      ==> SameFan(vm, links, port, v, w)
  }

  /** From the port, other ports are reached through this member among others. */
  ghost predicate Through(vm: VlanMembers, links: seq<Link>, port: int, d: Member) {
    d.port != port
    && exists v, u, i :: OnPort(vm, v, port) && FirstSeat(vm, links, v, u, i) && vm[u][i] == d
  }

  /** Of the members that other ports are reached through, those with one address are on one port. */
  ghost predicate OneAddress(vm: VlanMembers, links: seq<Link>) {
    forall port, d, e :: Through(vm, links, port, d) && Through(vm, links, port, e) && d.mac == e.mac
        ==> d.port == e.port
  }

  // ----- Seats are places in the list of candidates -----

  ghost function IndexOf(vm: VlanMembers, links: seq<Link>, v: int, u: int, i: int): nat
    requires Seat(vm, links, v, u, i)
  {
    var peers := Ascending(Adjacent(vm, links, v));
    assert u in peers;
    var a :| 0 <= a < |peers| && peers[a] == u;
    |Candidates(vm, peers, a)| + i
  }

  lemma {:induction false} CandidateAt(vm: VlanMembers, peers: seq<int>, n: nat, a: nat, i: nat)
    requires a < n <= |peers| && peers[a] in vm && i < |vm[peers[a]]|
    ensures |Candidates(vm, peers, a)| + i < |Candidates(vm, peers, n)|
    ensures Candidates(vm, peers, n)[|Candidates(vm, peers, a)| + i] == vm[peers[a]][i]
  {
    if a < n - 1 {
      CandidateAt(vm, peers, n - 1, a, i);
    }
  }

  lemma {:induction false} CandidateFrom(vm: VlanMembers, peers: seq<int>, n: nat, k: nat) returns (a: nat, i: nat)
    requires n <= |peers| && k < |Candidates(vm, peers, n)|
    ensures a < n && peers[a] in vm && i < |vm[peers[a]]| && k == |Candidates(vm, peers, a)| + i
  {
    if k < |Candidates(vm, peers, n - 1)| {
      a, i := CandidateFrom(vm, peers, n - 1, k);
    } else {
      a, i := n - 1, k - |Candidates(vm, peers, n - 1)|;
    }
  }

  lemma {:induction false} LaterStart(vm: VlanMembers, peers: seq<int>, a: nat, b: nat)
    requires a < b <= |peers| && peers[a] in vm
    ensures |Candidates(vm, peers, a)| + |vm[peers[a]]| <= |Candidates(vm, peers, b)|
  {
    if a < b - 1 {
      LaterStart(vm, peers, a, b - 1);
    }
  }

  lemma {:induction false} IndexIs(vm: VlanMembers, links: seq<Link>, v: int, a: nat, i: nat)
    requires var peers := Ascending(Adjacent(vm, links, v)); a < |peers| && Seat(vm, links, v, peers[a], i)
    ensures var peers := Ascending(Adjacent(vm, links, v));
            IndexOf(vm, links, v, peers[a], i) == |Candidates(vm, peers, a)| + i
  {
    var peers := Ascending(Adjacent(vm, links, v));
    assert peers[a] in peers;
    var b :| 0 <= b < |peers| && peers[b] == peers[a]
             && IndexOf(vm, links, v, peers[a], i) == |Candidates(vm, peers, b)| + i;
    assert !(a < b) && !(b < a);
  }

  lemma {:induction false} PeerIndex(vm: VlanMembers, links: seq<Link>, v: int, u: int, i: nat) returns (a: nat)
    requires Seat(vm, links, v, u, i)
    ensures var peers := Ascending(Adjacent(vm, links, v));
            && a < |peers| && peers[a] == u && IndexOf(vm, links, v, u, i) == |Candidates(vm, peers, a)| + i
  {
    var peers := Ascending(Adjacent(vm, links, v));
    assert u in peers;
    a :| 0 <= a < |peers| && peers[a] == u;
    IndexIs(vm, links, v, a, i);
  }

  lemma {:induction false} IndexMeaning(vm: VlanMembers, links: seq<Link>, v: int, u: int, i: nat)
    requires Seat(vm, links, v, u, i)
    ensures var k := IndexOf(vm, links, v, u, i);
            k < |PeersOf(vm, links, v)| && PeersOf(vm, links, v)[k] == vm[u][i]
  {
    var peers := Ascending(Adjacent(vm, links, v));
    var a := PeerIndex(vm, links, v, u, i);
    CandidateAt(vm, peers, |peers|, a, i);
  }

  lemma {:induction false} IndexAhead(vm: VlanMembers, links: seq<Link>, v: int, u: int, i: nat, x: int, j: nat)
    requires Seat(vm, links, v, u, i) && Seat(vm, links, v, x, j) && Ahead(u, i, x, j)
    ensures IndexOf(vm, links, v, u, i) < IndexOf(vm, links, v, x, j)
  {
    var peers := Ascending(Adjacent(vm, links, v));
    var a := PeerIndex(vm, links, v, u, i);
    var b := PeerIndex(vm, links, v, x, j);
    if u < x {
      assert a < b;
      LaterStart(vm, peers, a, b);
    } else {
      assert a == b;
    }
  }

  lemma {:induction false} IndexOrder(vm: VlanMembers, links: seq<Link>, v: int, u: int, i: nat, x: int, j: nat)
    requires Seat(vm, links, v, u, i) && Seat(vm, links, v, x, j)
    ensures IndexOf(vm, links, v, u, i) < IndexOf(vm, links, v, x, j) <==> Ahead(u, i, x, j)
  {
    if Ahead(u, i, x, j) {
      IndexAhead(vm, links, v, u, i, x, j);
    } else if Ahead(x, j, u, i) {
      IndexAhead(vm, links, v, x, j, u, i);
    }
  }

  lemma {:induction false} SeatAt(vm: VlanMembers, links: seq<Link>, v: int, k: nat) returns (u: int, i: nat)
    requires k < |PeersOf(vm, links, v)|
    ensures Seat(vm, links, v, u, i) && IndexOf(vm, links, v, u, i) == k && PeersOf(vm, links, v)[k] == vm[u][i]
  {
    var peers := Ascending(Adjacent(vm, links, v));
    var a;
    a, i := CandidateFrom(vm, peers, |peers|, k);
    u := peers[a];
    assert u in peers;
    IndexIs(vm, links, v, a, i);
    IndexMeaning(vm, links, v, u, i);
  }

  // ----- First candidates -----

  ghost predicate FirstIn(cs: seq<Member>, k: nat) {
    k < |cs| && forall j :: 0 <= j < k ==> cs[j].port != cs[k].port
  }

  lemma {:induction false} FirstMeaning(vm: VlanMembers, links: seq<Link>, v: int, u: int, i: nat)
    requires Seat(vm, links, v, u, i)
    ensures FirstSeat(vm, links, v, u, i) <==> FirstIn(PeersOf(vm, links, v), IndexOf(vm, links, v, u, i))
  {
    var cs, k := PeersOf(vm, links, v), IndexOf(vm, links, v, u, i);
    IndexMeaning(vm, links, v, u, i);
    if FirstSeat(vm, links, v, u, i) {
      forall j | 0 <= j < k
        ensures cs[j].port != cs[k].port
      {
        var x, y := SeatAt(vm, links, v, j);
        IndexOrder(vm, links, v, x, y, u, i);
      }
    }
    if FirstIn(cs, k) {
      forall x, j | Seat(vm, links, v, x, j) && Ahead(x, j, u, i)
        ensures vm[x][j].port != vm[u][i].port
      {
        IndexMeaning(vm, links, v, x, j);
        IndexOrder(vm, links, v, x, j, u, i);
      }
    }
  }

  ghost predicate IsPlace(port: int, cs: seq<Member>, n: nat, k: nat, d: Member) {
    k < n <= |cs| && FirstIn(cs, k) && d == cs[k] && d.port != port
  }

  /** Where the targets come from: strictly later first candidates, all that are not on the
      sender's own port. */
  ghost predicate Places(port: int, cs: seq<Member>, n: nat, ks: seq<nat>, targets: seq<Member>) {
    && n <= |cs| && |ks| == |targets|
    && (forall a :: 0 <= a < |ks| ==> IsPlace(port, cs, n, ks[a], targets[a]))
    && (forall a, b :: 0 <= a < b < |ks| ==> ks[a] < ks[b])
    && (forall k :: 0 <= k < n && FirstIn(cs, k) && cs[k].port != port ==> k in ks)
  }

  lemma {:induction false} TargetPlaces(port: int, cs: seq<Member>, n: nat) returns (ks: seq<nat>)
    requires n <= |cs|
    ensures Places(port, cs, n, ks, FirstTargets(port, cs, n))
  {
    if n == 0 {
      ks := [];
    } else {
      var before := FirstTargets(port, cs, n - 1);
      ks := TargetPlaces(port, cs, n - 1);
      if cs[n - 1].port != port {
        NewTarget(port, cs, n, before);
      }
      ks := MorePlaces(port, cs, n, ks, before);
    }
  }

  lemma {:induction false} MorePlaces(port: int, cs: seq<Member>, n: nat, ks: seq<nat>, before: seq<Member>)
    returns (more: seq<nat>)
    requires 0 < n <= |cs| && before == FirstTargets(port, cs, n - 1) && Places(port, cs, n - 1, ks, before)
    requires cs[n - 1].port != port ==> (cs[n - 1].port in PortsOf(before) <==> !FirstIn(cs, n - 1))
    ensures Places(port, cs, n, more, FirstTargets(port, cs, n))
  {
    if cs[n - 1].port != port && FirstIn(cs, n - 1) {
      more := ks + [n - 1];
      assert FirstTargets(port, cs, n) == before + [cs[n - 1]];
      OnePlaceMore(port, cs, n, ks, before);
    } else {
      more := ks;
      assert FirstTargets(port, cs, n) == before;
      NoPlaceMore(port, cs, n, ks, before);
    }
  }

  lemma {:induction false} NoPlaceMore(port: int, cs: seq<Member>, n: nat, ks: seq<nat>, targets: seq<Member>)
    requires 0 < n <= |cs| && Places(port, cs, n - 1, ks, targets)
    requires cs[n - 1].port == port || !FirstIn(cs, n - 1)
    ensures Places(port, cs, n, ks, targets)
  {
    forall a | 0 <= a < |ks|
      ensures IsPlace(port, cs, n, ks[a], targets[a])
    {
      assert IsPlace(port, cs, n - 1, ks[a], targets[a]);
    }
  }

  lemma {:induction false} OnePlaceMore(port: int, cs: seq<Member>, n: nat, ks: seq<nat>, targets: seq<Member>)
    requires 0 < n <= |cs| && Places(port, cs, n - 1, ks, targets)
    requires cs[n - 1].port != port && FirstIn(cs, n - 1)
    ensures Places(port, cs, n, ks + [n - 1], targets + [cs[n - 1]])
  {
    var more, all := ks + [n - 1], targets + [cs[n - 1]];
    forall a | 0 <= a < |more|
      ensures IsPlace(port, cs, n, more[a], all[a])
    {
      assert a < |ks| ==> IsPlace(port, cs, n - 1, ks[a], targets[a]);
    }
    forall a, b | 0 <= a < b < |more|
      ensures more[a] < more[b]
    {
      assert IsPlace(port, cs, n - 1, ks[a], targets[a]);
    }
    forall k | 0 <= k < n && FirstIn(cs, k) && cs[k].port != port
      ensures k in more
    {
      if k == n - 1 {
        assert more[|ks|] == k;
      } else {
        assert k in ks && ks <= more;
      }
    }
  }

  /** The last candidate becomes a target exactly when it is the first on its port. */
  lemma {:induction false} NewTarget(port: int, cs: seq<Member>, n: nat, before: seq<Member>)
    requires 0 < n <= |cs| && before == FirstTargets(port, cs, n - 1) && cs[n - 1].port != port
    ensures cs[n - 1].port in PortsOf(before) <==> !FirstIn(cs, n - 1)
  {
    TargetsCover(port, cs, n - 1);
    if cs[n - 1].port in PortsOf(before) {
      var m :| m in before && m.port == cs[n - 1].port;
      FromBefore(port, cs, n - 1, m);
    }
  }

  lemma {:induction false} FromBefore(port: int, cs: seq<Member>, n: nat, m: Member)
    requires n <= |cs| && m in FirstTargets(port, cs, n)
    ensures exists j :: 0 <= j < n && cs[j] == m
  {
    if m !in FirstTargets(port, cs, n - 1) {
      assert cs[n - 1] == m;
    } else {
      FromBefore(port, cs, n - 1, m);
    }
  }
}
