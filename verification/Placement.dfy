/** Placement of nodes on cluster servers (examples/cluster.py): even bins for switches and
    controllers, hosts beside their switches, and round robin. */
module Placement {
  import opened Prelude

  type Node = string
  type Server = string

  // ----- Bins -----

  /** How often a server is among the first n of the list. */
  function Occurs(servers: seq<Server>, s: Server, n: nat): nat
    requires n <= |servers|
  {
    if n == 0 then 0 else Occurs(servers, s, n - 1) + if servers[n - 1] == s then 1 else 0
  }

  function Copies(s: Server, n: nat): seq<Server> {
    if n == 0 then [] else Copies(s, n - 1) + [s]
  }

  /** The bin of a server: the quotient, and one more for each place in the remainder. */
  function BinSize(count: nat, servers: seq<Server>, s: Server): nat
    requires |servers| > 0
  {
    count / |servers| + Occurs(servers, s, count % |servers|)
  }

  function Tickets(count: nat, servers: seq<Server>, n: nat): seq<Server>
    requires |servers| > 0 && n <= |servers|
  {
    if n == 0 then []
    else Tickets(count, servers, n - 1) + Copies(servers[n - 1], BinSize(count, servers, servers[n - 1]))
  }

  /** `dict(zip(nodes, tickets))`: the first n pairs, a later one replacing an earlier. */
  function Dealt(nodes: seq<Node>, tickets: seq<Server>, n: nat): map<Node, Server>
    requires n <= |nodes| && n <= |tickets|
  {
    if n == 0 then map[] else Dealt(nodes, tickets, n - 1)[nodes[n - 1] := tickets[n - 1]]
  }

  function Bin(nodes: seq<Node>, servers: seq<Server>): map<Node, Server>
    requires |servers| > 0
  {
    var tickets := Tickets(|nodes|, servers, |servers|);
    Dealt(nodes, tickets, Min(|nodes|, |tickets|))
  }

  lemma {:induction false} CopiesSize(s: Server, n: nat)
    ensures |Copies(s, n)| == n && forall i :: 0 <= i < n ==> Copies(s, n)[i] == s
  {
    if n > 0 {
      CopiesSize(s, n - 1);
    }
  }

  lemma {:induction false} OccursAt(servers: seq<Server>, i: nat, n: nat)
    requires n <= |servers| && i < |servers|
    ensures i < n ==> Occurs(servers, servers[i], n) >= 1
    ensures NoDup(servers) ==> Occurs(servers, servers[i], n) == if i < n then 1 else 0
  {
    if n > 0 {
      OccursAt(servers, i, n - 1);
    }
  }

  /** How many tickets the first n servers need at least, and have when the servers are distinct. */
  function Needed(count: nat, m: nat, n: nat): nat
    requires m > 0
  {
    Times(n, count / m) + Min(n, count % m)
  }

  function Times(n: nat, q: nat): nat { if n == 0 then 0 else Times(n - 1, q) + q }

  lemma {:induction false} TimesIsProduct(n: nat, q: nat)
    ensures Times(n, q) == n * q
  {
    if n > 0 {
      TimesIsProduct(n - 1, q);
    }
  }

  lemma {:induction false} TicketsSize(count: nat, servers: seq<Server>, n: nat)
    requires |servers| > 0 && n <= |servers|
    ensures |Tickets(count, servers, n)| >= Needed(count, |servers|, n)
    ensures NoDup(servers) ==> |Tickets(count, servers, n)| == Needed(count, |servers|, n)
  {
    if n > 0 {
      TicketsSize(count, servers, n - 1);
      CopiesSize(servers[n - 1], BinSize(count, servers, servers[n - 1]));
      OccursAt(servers, n - 1, count % |servers|);
    }
  }

  lemma {:induction false} NeededAll(count: nat, m: nat)
    requires m > 0
    ensures Needed(count, m, m) == count
  {
    TimesIsProduct(m, count / m);
  }

  lemma {:induction false} DealtMeaning(nodes: seq<Node>, tickets: seq<Server>, n: nat)
    requires n <= |nodes| && n <= |tickets|
    ensures forall x :: x in Dealt(nodes, tickets, n) <==> x in nodes[..n]
    ensures forall x :: x in Dealt(nodes, tickets, n) ==> Dealt(nodes, tickets, n)[x] in tickets
  {
    if n > 0 {
      DealtMeaning(nodes, tickets, n - 1);
      assert nodes[..n] == nodes[..n - 1] + [nodes[n - 1]];
    }
  }

  lemma {:induction false} DealtAt(nodes: seq<Node>, tickets: seq<Server>, n: nat, i: nat)
    requires i < n <= |nodes| && n <= |tickets| && NoDup(nodes)
    ensures nodes[i] in Dealt(nodes, tickets, n) && Dealt(nodes, tickets, n)[nodes[i]] == tickets[i]
  {
    if i < n - 1 {
      DealtAt(nodes, tickets, n - 1, i);
      assert nodes[i] != nodes[n - 1];
    }
  }

  lemma {:induction false} TicketsAreServers(count: nat, servers: seq<Server>, n: nat)
    requires |servers| > 0 && n <= |servers|
    ensures forall i :: 0 <= i < |Tickets(count, servers, n)| ==> Tickets(count, servers, n)[i] in servers
  {
    if n > 0 {
      TicketsAreServers(count, servers, n - 1);
      CopiesSize(servers[n - 1], BinSize(count, servers, servers[n - 1]));
    }
  }

  /** Every node gets a server and nothing else does, even when servers are listed twice. */
  lemma {:induction false} BinPlacesAll(nodes: seq<Node>, servers: seq<Server>)
    requires |servers| > 0
    ensures forall x :: x in Bin(nodes, servers) <==> x in nodes
    ensures forall x :: x in Bin(nodes, servers) ==> Bin(nodes, servers)[x] in servers
  {
    var tickets := Tickets(|nodes|, servers, |servers|);
    TicketsSize(|nodes|, servers, |servers|);
    NeededAll(|nodes|, |servers|);
    TicketsAreServers(|nodes|, servers, |servers|);
    DealtMeaning(nodes, tickets, |nodes|);
    assert nodes[..|nodes|] == nodes;
  }

  // ----- The bins are even -----

  /** How many of the nodes are placed on a server. */
  function Load(p: map<Node, Server>, nodes: seq<Node>, s: Server, n: nat): nat
    requires n <= |nodes| && forall i :: 0 <= i < |nodes| ==> nodes[i] in p
  {
    if n == 0 then 0 else Load(p, nodes, s, n - 1) + if p[nodes[n - 1]] == s then 1 else 0
  }

  lemma {:induction false} OccursAppend(a: seq<Server>, b: seq<Server>, s: Server, n: nat)
    requires n <= |b|
    ensures Occurs(a + b, s, |a| + n) == Occurs(a, s, |a|) + Occurs(b, s, n)
  {
    if n > 0 {
      OccursAppend(a, b, s, n - 1);
    } else {
      OccursPrefix(a, b, s, |a|);
    }
  }

  lemma {:induction false} OccursPrefix(a: seq<Server>, b: seq<Server>, s: Server, n: nat)
    requires n <= |a|
    ensures Occurs(a + b, s, n) == Occurs(a, s, n)
  {
    if n > 0 {
      OccursPrefix(a, b, s, n - 1);
    }
  }

  lemma {:induction false} OccursCopies(s: Server, t: Server, n: nat, k: nat)
    requires k <= n
    ensures |Copies(t, n)| == n
    ensures Occurs(Copies(t, n), s, k) == if s == t then k else 0
  {
    CopiesSize(t, n);
    if k > 0 {
      OccursCopies(s, t, n, k - 1);
    }
  }

  lemma {:induction false} OccursTickets(count: nat, servers: seq<Server>, n: nat, s: Server)
    requires |servers| > 0 && n <= |servers| && NoDup(servers)
    ensures var t := Tickets(count, servers, n);
            Occurs(t, s, |t|) == if s in servers[..n] then BinSize(count, servers, s) else 0
  {
    if n > 0 {
      OccursTickets(count, servers, n - 1, s);
      var size := BinSize(count, servers, servers[n - 1]);
      OccursCopies(s, servers[n - 1], size, size);
      OccursAppend(Tickets(count, servers, n - 1), Copies(servers[n - 1], size), s, size);
      assert servers[..n] == servers[..n - 1] + [servers[n - 1]];
      assert servers[n - 1] !in servers[..n - 1];
    }
  }

  lemma {:induction false} LoadIsOccurs(p: map<Node, Server>, nodes: seq<Node>, tickets: seq<Server>, s: Server, n: nat)
    requires n <= |nodes| <= |tickets|
    requires forall i :: 0 <= i < |nodes| ==> nodes[i] in p && p[nodes[i]] == tickets[i]
    ensures Load(p, nodes, s, n) == Occurs(tickets, s, n)
  {
    if n > 0 {
      LoadIsOccurs(p, nodes, tickets, s, n - 1);
    }
  }

  /** Distinct nodes on distinct servers: the server at place j gets one node more than the
      quotient if j is in the remainder and the quotient otherwise. So loads differ by at
      most one, and they add up to the number of nodes. */
  lemma {:induction false} BinIsEven(nodes: seq<Node>, servers: seq<Server>, j: nat)
    requires |servers| > 0 && NoDup(nodes) && NoDup(servers) && j < |servers|
    ensures forall i :: 0 <= i < |nodes| ==> nodes[i] in Bin(nodes, servers)
    ensures Load(Bin(nodes, servers), nodes, servers[j], |nodes|)
            == |nodes| / |servers| + if j < |nodes| % |servers| then 1 else 0
  {
    var tickets := Tickets(|nodes|, servers, |servers|);
    BinPlacesAll(nodes, servers);
    TicketsSize(|nodes|, servers, |servers|);
    NeededAll(|nodes|, |servers|);
    forall i | 0 <= i < |nodes|
      ensures nodes[i] in Bin(nodes, servers) && Bin(nodes, servers)[nodes[i]] == tickets[i]
    {
      DealtAt(nodes, tickets, |nodes|, i);
    }
    LoadIsOccurs(Bin(nodes, servers), nodes, tickets, servers[j], |nodes|);
    OccursTickets(|nodes|, servers, |servers|, servers[j]);
    assert servers[..|servers|] == servers;
    OccursAt(servers, j, |nodes| % |servers|);
  }

  function Loads(p: map<Node, Server>, nodes: seq<Node>, servers: seq<Server>, n: nat): nat
    requires n <= |servers| && forall i :: 0 <= i < |nodes| ==> nodes[i] in p
  {
    if n == 0 then 0 else Loads(p, nodes, servers, n - 1) + Load(p, nodes, servers[n - 1], |nodes|)
  }

  lemma {:induction false} LoadsNeeded(nodes: seq<Node>, servers: seq<Server>, n: nat)
    requires |servers| > 0 && NoDup(nodes) && NoDup(servers) && n <= |servers|
    ensures forall i :: 0 <= i < |nodes| ==> nodes[i] in Bin(nodes, servers)
    ensures Loads(Bin(nodes, servers), nodes, servers, n) == Needed(|nodes|, |servers|, n)
  {
    BinPlacesAll(nodes, servers);
    if n > 0 {
      LoadsNeeded(nodes, servers, n - 1);
      BinIsEven(nodes, servers, n - 1);
    }
  }

  lemma {:induction false} LoadsAddUp(nodes: seq<Node>, servers: seq<Server>)
    requires |servers| > 0 && NoDup(nodes) && NoDup(servers)
    ensures forall i :: 0 <= i < |nodes| ==> nodes[i] in Bin(nodes, servers)
    ensures Loads(Bin(nodes, servers), nodes, servers, |servers|) == |nodes|
  {
    LoadsNeeded(nodes, servers, |servers|);
    NeededAll(|nodes|, |servers|);
  }

  // ----- Hosts beside their switches -----

  datatype Network = Network(hosts: seq<Node>, switches: seq<Node>, controllers: seq<Node>, links: seq<(Node, Node)>)

  datatype Outcome = Placed(placement: map<Node, Server>) | NoServers | Isolated(host: Node)

  /** The switch a host is linked to by the last such link among the first n. */
  function LastSwitch(net: Network, h: Node, n: nat): Option<Node>
    requires n <= |net.links|
  {
    if n == 0 then None
    else
      var link := net.links[n - 1];
      if link.1 == h && h in net.hosts && link.0 in net.switches then Some(link.0)
      else if link.0 == h && h in net.hosts && link.1 in net.switches then Some(link.1)
      else LastSwitch(net, h, n - 1)
  }

  function SwitchOf(net: Network, h: Node): Option<Node> { LastSwitch(net, h, |net.links|) }

  /** Switches and controllers, a controller's bin replacing a switch's of the same name. */
  function Fixed(net: Network, servers: seq<Server>): map<Node, Server>
    requires |servers| > 0
  {
    Bin(net.switches, servers) + Bin(net.controllers, servers)
  }

  /** The placement of a node, if it has one. */
  function ServerOf(net: Network, servers: seq<Server>, x: Node): Option<Server>
    requires |servers| > 0
  {
    var fixed := Fixed(net, servers);
    if x in fixed then Some(fixed[x])
    else if x in net.hosts && SwitchOf(net, x).Some? && SwitchOf(net, x).value in fixed then
      Some(fixed[SwitchOf(net, x).value])
    else None
  }

  /** The node is a host without a switch of its own and is not itself a switch or controller. */
  predicate IsIsolated(net: Network, h: Node) {
    h !in net.switches && h !in net.controllers && SwitchOf(net, h).None?
  }

  predicate NoneIsolated(net: Network, n: nat)
    requires n <= |net.hosts|
  {
    forall j :: 0 <= j < n ==> !IsIsolated(net, net.hosts[j])
  }

  lemma {:induction false} LastSwitchIsSwitch(net: Network, h: Node, n: nat)
    requires n <= |net.links|
    ensures LastSwitch(net, h, n).Some? ==> LastSwitch(net, h, n).value in net.switches
    ensures LastSwitch(net, h, n).Some? ==> h in net.hosts
  {
    if n > 0 {
      LastSwitchIsSwitch(net, h, n - 1);
    }
  }

  class SwitchBinPlacer {
    const servers: seq<Server>
    const net: Network

    /** The map from hosts to their last linked switches. */
    method ConnectSwitches() returns (switchFor: map<Node, Node>)
      ensures IsSwitchMap(switchFor)
    {
      switchFor := map[];
      var i := 0;
      while i < |net.links|
        invariant i <= |net.links|
        invariant forall h :: h in switchFor <==> LastSwitch(net, h, i).Some?
        invariant forall h :: h in switchFor ==> switchFor[h] == LastSwitch(net, h, i).value
      {
        var src, dst := net.links[i].0, net.links[i].1;
        if src in net.hosts && dst in net.switches {
          switchFor := switchFor[src := dst];
        }
        if dst in net.hosts && src in net.switches {
          switchFor := switchFor[dst := src];
        }
        i := i + 1;
      }
    }

    method BinSizes(count: nat) returns (sizes: map<Server, nat>)
      requires |servers| > 0
      ensures forall s :: s in sizes <==> s in servers
      ensures forall s :: s in sizes ==> sizes[s] == BinSize(count, servers, s)
    {
      var quotient := count / |servers|;
      sizes := map s | s in servers :: quotient;
      var i := 0;
      while i < count % |servers|
        invariant i <= count % |servers|
        invariant forall s :: s in sizes <==> s in servers
        invariant forall s :: s in sizes ==> sizes[s] == quotient + Occurs(servers, s, i)
      {
        sizes := sizes[servers[i] := sizes[servers[i]] + 1];
        i := i + 1;
      }
    }

    method BinNodes(nodes: seq<Node>) returns (placement: map<Node, Server>)
      requires |servers| > 0
      ensures placement == Bin(nodes, servers)
    {
      var sizes := BinSizes(|nodes|);
      var tickets := [];
      var i := 0;
      while i < |servers|
        invariant i <= |servers| && tickets == Tickets(|nodes|, servers, i)
      {
        tickets := tickets + Copies(servers[i], sizes[servers[i]]);
        i := i + 1;
      }
      placement := map[];
      i := 0;
      while i < |nodes| && i < |tickets|
        invariant i <= |nodes| && i <= |tickets| && placement == Dealt(nodes, tickets, i)
      {
        placement := placement[nodes[i] := tickets[i]];
        i := i + 1;
      }
    }

    ghost predicate IsPlacement(p: map<Node, Server>, hosts: seq<Node>)
      requires |servers| > 0
    {
      && (forall x :: x in p <==> x in net.switches || x in net.controllers || x in hosts)
      && (forall x :: x in p ==> ServerOf(net, servers, x) == Some(p[x]))
    }

    method PlaceFixed() returns (placement: map<Node, Server>)
      requires |servers| > 0
      ensures IsPlacement(placement, net.hosts[..0])
    {
      placement := BinNodes(net.switches);
      var controllers := BinNodes(net.controllers);
      BinPlacesAll(net.switches, servers);
      BinPlacesAll(net.controllers, servers);
      placement := placement + controllers;
    }

    ghost predicate IsSwitchMap(switchFor: map<Node, Node>) {
      && (forall h :: h in switchFor <==> SwitchOf(net, h).Some?)
      && (forall h :: h in switchFor ==> switchFor[h] == SwitchOf(net, h).value)
    }

    method PlaceHost(placement: map<Node, Server>, switchFor: map<Node, Node>, i: nat)
      returns (next: map<Node, Server>, isolated: bool)
      requires |servers| > 0 && i < |net.hosts| && IsPlacement(placement, net.hosts[..i]) && IsSwitchMap(switchFor)
      ensures isolated <==> IsIsolated(net, net.hosts[i])
      ensures !isolated ==> IsPlacement(next, net.hosts[..i + 1])
      ensures !isolated && NoneIsolated(net, i) ==> NoneIsolated(net, i + 1)
    {
      var h := net.hosts[i];
      assert net.hosts[..i + 1] == net.hosts[..i] + [h];
      if h in placement {
        HostPlaced(net, servers, h);
        return placement, false;
      }
      if h in switchFor {
        HostBeside(net, servers, h);
        return placement[h := placement[switchFor[h]]], false;
      }
      return placement, true;
    }

    /** Fails exactly when there is no server or some host is isolated, naming the first such
        host; otherwise every node is placed, a host that is no switch or controller on the
        server of the switch it was linked to last. */
    method CalculatePlacement() returns (out: Outcome)
      ensures out.NoServers? <==> |servers| == 0
      ensures out.Isolated? ==>
                exists i :: 0 <= i < |net.hosts| && out.host == net.hosts[i] && IsIsolated(net, out.host)
                    && NoneIsolated(net, i)
      ensures out.Placed? ==> |servers| > 0 && NoneIsolated(net, |net.hosts|)
      ensures out.Placed? ==> IsPlacement(out.placement, net.hosts)
    {
      if |servers| == 0 {
        return NoServers;
      }
      var switchFor := ConnectSwitches();
      var placement := PlaceFixed();
      var i := 0;
      while i < |net.hosts|
        invariant i <= |net.hosts|
        invariant NoneIsolated(net, i)
        invariant IsPlacement(placement, net.hosts[..i])
      {
        var isolated;
        placement, isolated := PlaceHost(placement, switchFor, i);
        if isolated {
          return Isolated(net.hosts[i]);
        }
        i := i + 1;
      }
      assert net.hosts[..i] == net.hosts;
      return Placed(placement);
    }
  }

  /** A host beside its switch: the switch has a fixed place, which is the host's. */
  lemma {:induction false} HostBeside(net: Network, servers: seq<Server>, h: Node)
    requires |servers| > 0 && h !in net.switches && h !in net.controllers && SwitchOf(net, h).Some?
    ensures SwitchOf(net, h).value in net.switches
    ensures ServerOf(net, servers, h).Some?
        && ServerOf(net, servers, h) == ServerOf(net, servers, SwitchOf(net, h).value)
    ensures !IsIsolated(net, h)
  {
    LastSwitchIsSwitch(net, h, |net.links|);
    BinPlacesAll(net.switches, servers);
    BinPlacesAll(net.controllers, servers);
  }

  lemma {:induction false} HostPlaced(net: Network, servers: seq<Server>, h: Node)
    requires |servers| > 0 && ServerOf(net, servers, h).Some?
    ensures !IsIsolated(net, h)
  {
    BinPlacesAll(net.switches, servers);
    BinPlacesAll(net.controllers, servers);
  }

  // ----- Round robin -----

  class RoundRobinPlacer {
    const servers: seq<Server>
    var next: nat
    ghost var calls: nat

    ghost predicate Valid()
      reads this
    {
      |servers| > 0 && next == calls % |servers|
    }

    constructor (servers: seq<Server>)
      requires |servers| > 0
      ensures Valid() && this.servers == servers && calls == 0
    {
      this.servers := servers;
      next, calls := 0, 0;
    }

    /** The call after k others is answered with the server at place k modulo their number. */
    method Place() returns (server: Server)
      requires Valid()
      modifies this
      ensures Valid() && calls == old(calls) + 1 && server == servers[old(calls) % |servers|]
    {
      server := servers[next];
      Wrap(calls, |servers|);
      NextPlace(next, |servers|);
      next := (next + 1) % |servers|;
      calls := calls + 1;
    }
  }

  lemma {:induction false} Wrap(n: nat, m: nat)
    requires m > 0
    ensures (n + 1) % m == if n % m + 1 == m then 0 else n % m + 1
    ensures (n + 1) / m == n / m + if n % m + 1 == m then 1 else 0
  {
    var q, r := n / m, n % m;
    assert (q + 1) * m == q * m + m;
    if r + 1 == m {
      Divided(n + 1, q + 1, 0, m);
    } else {
      Divided(n + 1, q, r + 1, m);
    }
  }

  lemma {:induction false} NextPlace(r: nat, m: nat)
    requires r < m
    ensures (r + 1) % m == if r + 1 == m then 0 else r + 1
  {
  }

  lemma {:induction false} Divided(n: nat, q: nat, r: nat, m: nat)
    requires m > 0 && r < m && n == q * m + r
    ensures n / m == q && n % m == r
  {
    var d := n / m - q;
    assert n == n / m * m + n % m;
    assert n / m * m == q * m + d * m;
    if d > 0 {
      AtLeast(d, m);
    } else if d < 0 {
      AtLeast(-d, m);
    }
  }

  lemma {:induction false} AtLeast(d: int, m: int)
    requires d >= 1 && m >= 0
    ensures d * m >= m
  {
  }

  /** How many of the first n calls go to the server at place j. */
  function Turns(j: nat, m: nat, n: nat): nat
    requires m > 0
  {
    if n == 0 then 0 else Turns(j, m, n - 1) + if (n - 1) % m == j then 1 else 0
  }

  /** After any number of calls the turns are even: the quotient, and one more for the places
      in the remainder. */
  lemma {:induction false} TurnsEven(j: nat, m: nat, n: nat)
    requires j < m
    ensures Turns(j, m, n) == n / m + if j < n % m then 1 else 0
  {
    if n > 0 {
      TurnsEven(j, m, n - 1);
      Wrap(n - 1, m);
    }
  }
}
