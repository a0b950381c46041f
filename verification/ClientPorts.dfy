/** The two tables by which the controller (examples/campus_controller.py) finds the hosts of
    a switch: the queue flows go to the clients of one, the flood detector blames the hosts
    of the other. Where they agree, and which hosts the second can find at all. */
module ClientPorts {
  import opened Prelude
  import opened OpenFlow
  import opened QueuePolicy

  /** A client dictionary: addresses with their ports, in order. */
  type Clients = seq<(Ip, int)>

  /** The hosts the detector looks through on an access switch. */
  function Listed(u: Setup, dpid: int): Clients {
    if dpid == 4 || dpid == 5 || dpid == 6 || dpid == 9 || dpid == 10 then u.it
    else if dpid == 7 || dpid == 8 || dpid == 11 then u.net
    else if dpid == 12 || dpid == 13 then u.wifi
    else if dpid == 14 then u.staff
    else []
  }

  /** The first host of the dictionary on the port. */
  ghost predicate FirstOn(cs: Clients, port: int, ip: Ip) {
    exists i :: 0 <= i < |cs| && cs[i] == (ip, port) && forall j :: 0 <= j < i ==> cs[j].1 != port
  }

  ghost predicate NobodyOn(cs: Clients, port: int) { forall i :: 0 <= i < |cs| ==> cs[i].1 != port }

  method FindOn(cs: Clients, port: int) returns (ip: Option<Ip>)
    ensures ip.Some? ==> FirstOn(cs, port, ip.value)
    ensures ip.None? ==> NobodyOn(cs, port)
  {
    for i := 0 to |cs|
      invariant forall j :: 0 <= j < i ==> cs[j].1 != port
    {
      if cs[i].1 == port {
        return Some(cs[i].0);
      }
    }
    return None;
  }

  /** The host on a port of a switch, if known: the first of the switch's dictionary. */
  method HostIpForPort(u: Setup, dpid: int, port: int) returns (ip: Option<Ip>)
    ensures ip.Some? ==> FirstOn(Listed(u, dpid), port, ip.value)
    ensures ip.None? ==> NobodyOn(Listed(u, dpid), port)
  {
    var maps := [(4, u.it), (5, u.it), (6, u.it), (9, u.it), (10, u.it), (7, u.net), (8, u.net), (11, u.net),
                 (14, u.staff), (13, u.wifi), (12, u.wifi)];
    var i := 0;
    while i < |maps|
      invariant i <= |maps|
      invariant NobodyOn(Listed(u, dpid), port) || forall j :: 0 <= j < i ==> maps[j].0 != dpid
    {
      if maps[i].0 == dpid {
        ip := FindOn(maps[i].1, port);
        if ip.Some? {
          return;
        }
      }
      i := i + 1;
    }
    assert forall j :: 0 <= j < 11 ==> maps[j].0 != dpid || NobodyOn(Listed(u, dpid), port);
    assert maps[0].0 == 4 && maps[1].0 == 5 && maps[2].0 == 6 && maps[3].0 == 9 && maps[4].0 == 10 && maps[5].0 == 7;
    assert maps[6].0 == 8 && maps[7].0 == 11 && maps[8].0 == 14 && maps[9].0 == 13 && maps[10].0 == 12;
    return None;
  }

  // ----- Whom the detector finds -----

  /** Each address is in one dictionary, once. */
  ghost predicate Distinct(u: Setup) {
    var all := u.it + u.net + u.staff + u.wifi;
    forall i, j :: 0 <= i < j < |all| ==> all[i].0 != all[j].0
  }

  ghost predicate FoundSomewhere(u: Setup, ip: Ip) { exists dpid, port :: FirstOn(Listed(u, dpid), port, ip) }

  /** A switch that looks through this dictionary. */
  function SwitchOf(zone: nat): int { if zone == 0 then 4 else if zone == 1 then 7 else if zone == 2 then 14 else 13 }

  function Zone(u: Setup, zone: nat): Clients {
    if zone == 0 then u.it else if zone == 1 then u.net else if zone == 2 then u.staff else u.wifi
  }

  lemma {:induction false} InOneZone(u: Setup, zone: nat, other: nat, i: nat, j: nat)
    requires Distinct(u) && zone < 4 && other < 4 && i < |Zone(u, zone)| && j < |Zone(u, other)|
    requires Zone(u, zone)[i].0 == Zone(u, other)[j].0
    ensures zone == other && i == j
  {
    var all := u.it + u.net + u.staff + u.wifi;
    var a, b, c := |u.it|, |u.it| + |u.net|, |u.it| + |u.net| + |u.staff|;
    var p := i + (if zone == 0 then 0 else if zone == 1 then a else if zone == 2 then b else c);
    var q := j + (if other == 0 then 0 else if other == 1 then a else if other == 2 then b else c);
    assert all[p] == Zone(u, zone)[i];
    assert all[q] == Zone(u, other)[j];
  }

  lemma {:induction false} ListedZone(u: Setup, dpid: int) returns (zone: nat)
    requires Listed(u, dpid) != []
    ensures zone < 4 && Listed(u, dpid) == Zone(u, zone)
  {
    zone := if dpid in {4, 5, 6, 9, 10} then 0 else if dpid in {7, 8, 11} then 1 else if dpid == 14 then 2 else 3;
  }

  /** A known host is blamed for a flood on some port of some switch if and only if no host
      before it in its dictionary has the same port number: hosts of different switches
      share a dictionary, and then only the first is ever found. */
  lemma {:induction false} FoundExactly(u: Setup, zone: nat, i: nat)
    requires Distinct(u) && zone < 4 && i < |Zone(u, zone)|
    ensures FoundSomewhere(u, Zone(u, zone)[i].0) <==>
            forall j :: 0 <= j < i ==> Zone(u, zone)[j].1 != Zone(u, zone)[i].1
  {
    var cs := Zone(u, zone);
    var ip, at := cs[i].0, cs[i].1;
    if forall j :: 0 <= j < i ==> cs[j].1 != at {
      assert Listed(u, SwitchOf(zone)) == cs;
      assert cs[i] == (ip, at);
      assert FirstOn(Listed(u, SwitchOf(zone)), at, ip);
    }
    if FoundSomewhere(u, ip) {
      var dpid, port :| FirstOn(Listed(u, dpid), port, ip);
      var ds := Listed(u, dpid);
      var k :| 0 <= k < |ds| && ds[k] == (ip, port) && forall j :: 0 <= j < k ==> ds[j].1 != port;
      var other := ListedZone(u, dpid);
      InOneZone(u, zone, other, i, k);
    }
  }

  // ----- Whom the queue flows reach -----

  function ServerPort(header: Option<L4>, up: bool): Option<int> {
    if header.None? then None else Some(if up then header.value.dst else header.value.src)
  }

  /** Academic over TCP, realtime or authentication over UDP. */
  predicate Urgent(t: Tables, f: Frame, up: bool) {
    || (f.ipProto == 6 && f.tcp.Some? && ServerPort(f.tcp, up).value in t.academic)
    || (f.ipProto == 17 && f.udp.Some?
        && (ServerPort(f.udp, up).value in t.realtime || ServerPort(f.udp, up).value in t.auth))
  }

  predicate Bulky(t: Tables, f: Frame, up: bool) {
    f.ipProto == 6 && f.tcp.Some? && ServerPort(f.tcp, up).value in t.bulk
  }

  /** Queue 0 for urgent frames, 2 for other bulk transfers and 1 for the rest. */
  lemma {:induction false} QueueNumbers(t: Tables, f: Frame, up: bool)
    ensures var q := QueueOf(t, ServerTcp(f, up), ServerUdp(f, up));
            && (q == 0 <==> Urgent(t, f, up))
            && (q == 2 <==> Bulky(t, f, up) && !Urgent(t, f, up))
            && (q == 0 || q == 1 || q == 2)
  {
  }

  ghost predicate Valid(u: Setup) {
    Distinct(u) && forall zone: nat, i | zone < 4 && 0 <= i < |Zone(u, zone)| :: Zone(u, zone)[i].0 != u.primary
  }

  /** The clients the queue flows of a switch go to. */
  function Reached(u: Setup, dpid: int): Clients {
    if dpid == 2 then u.it else if dpid == 3 || dpid == 12 then u.net else Listed(u, dpid)
  }

  lemma {:induction false} ReachedMapped(u: Setup, dpid: int)
    ensures SiteOf(u, dpid) ==
            if 2 <= dpid <= 14 then Some(Site(u.tables, u.primary, Mapping(1, Reached(u, dpid)))) else None
  {
  }

  lemma {:induction false} ReachedZone(u: Setup, dpid: int) returns (zone: nat)
    requires 2 <= dpid <= 14
    ensures zone < 4 && Reached(u, dpid) == Zone(u, zone)
  {
    zone := if Reached(u, dpid) == u.it then 0 else if Reached(u, dpid) == u.net then 1
            else if Reached(u, dpid) == u.staff then 2 else 3;
  }

  lemma {:induction false} SiteIsValid(u: Setup, dpid: int)
    requires Valid(u) && 2 <= dpid <= 14
    ensures ValidSite(SiteOf(u, dpid).value)
  {
    ReachedMapped(u, dpid);
    var zone := ReachedZone(u, dpid);
    forall i, j | 0 <= i < j < |Zone(u, zone)|
      ensures Zone(u, zone)[i].0 != Zone(u, zone)[j].0
    {
      if Zone(u, zone)[i].0 == Zone(u, zone)[j].0 {
        InOneZone(u, zone, zone, i, j);
      }
    }
  }

  /** The server's frames for a host, as they enter a switch by its uplink. */
  predicate FromServer(u: Setup, ip: Ip, f: Frame) {
    f.ethType == 0x0800 && f.inPort == 1 && f.ipSrc == u.primary && f.ipDst == ip
  }

  /** A switch that has the queue flows and no others sends every frame of the server for the
      host out of the port, in some queue. */
  ghost predicate Delivers(u: Setup, dpid: int, ip: Ip, port: int) {
    forall f :: FromServer(u, ip, f) ==>
      exists q :: Treats(Programmed(u, dpid, map[]), f, [SetQueue(q), Output(port)])
  }

  /** The queue flows of a switch serve exactly these hosts: on a distribution switch the
      dictionary of its side, on every access switch but s12 the hosts the detector looks
      through, on s12 the dictionary of the right side, and elsewhere nobody. */
  lemma {:induction false} DeliversExactly(u: Setup, dpid: int, ip: Ip, port: int)
    requires Valid(u) && ip != u.primary
    ensures Delivers(u, dpid, ip, port) <==> (ip, port) in Reached(u, dpid) && 2 <= dpid <= 14
  {
    var probe := Frame(1, 0x0800, BROADCAST, u.primary, ip, 1, None, None);
    assert FromServer(u, ip, probe);
    ReachedMapped(u, dpid);
    if 2 <= dpid <= 14 {
      if (ip, port) in Reached(u, dpid) {
        forall f | FromServer(u, ip, f)
          ensures exists q :: Treats(Programmed(u, dpid, map[]), f, [SetQueue(q), Output(port)])
        {
          Served(u, dpid, map[], ip, port, f);
        }
      } else if Delivers(u, dpid, ip, port) {
        var q :| Treats(Programmed(u, dpid, map[]), probe, [SetQueue(q), Output(port)]);
        NotServed(u, dpid, ip, port, probe, q);
      }
    } else if Delivers(u, dpid, ip, port) {
      var q :| Treats(Programmed(u, dpid, map[]), probe, [SetQueue(q), Output(port)]);
      assert false;
    }
  }

  /** On any of the thirteen switches, over flows of lower priority: the server's frame for a
      client enters its queue and leaves by the client's port. */
  lemma {:induction false} Served(u: Setup, dpid: int, base: Table, ip: Ip, port: int, f: Frame)
    requires Valid(u) && 2 <= dpid <= 14 && (ip, port) in Reached(u, dpid) && FromServer(u, ip, f)
    requires forall k :: k in base && Covers(k.pattern, f) ==> k.priority < 250
    ensures Treats(Programmed(u, dpid, base), f,
                   [SetQueue(QueueOf(u.tables, ServerTcp(f, false), ServerUdp(f, false))), Output(port)])
  {
    SiteIsValid(u, dpid);
    ReachedMapped(u, dpid);
    var s := SiteOf(u, dpid).value;
    var i :| 0 <= i < |s.ports.clients| && s.ports.clients[i] == (ip, port);
    assert GoesDown(s, f, i);
    QueueMeaning(base, s, f);
  }

  /** On any of them: a frame for the server enters its queue and leaves by port 1. */
  lemma {:induction false} ServerReached(u: Setup, dpid: int, base: Table, f: Frame)
    requires Valid(u) && 2 <= dpid <= 14 && f.ethType == 0x0800 && f.ipDst == u.primary
    requires forall k :: k in base && Covers(k.pattern, f) ==> k.priority < 250
    ensures Treats(Programmed(u, dpid, base), f,
                   [SetQueue(QueueOf(u.tables, ServerTcp(f, true), ServerUdp(f, true))), Output(1)])
  {
    SiteIsValid(u, dpid);
    ReachedMapped(u, dpid);
    QueueMeaning(base, SiteOf(u, dpid).value, f);
  }

  lemma {:induction false} OneTreatment(t: Table, f: Frame, actions: seq<Action>, others: seq<Action>)
    requires Treats(t, f, actions) && Treats(t, f, others)
    ensures actions == others
  {
  }

  lemma {:induction false} NotServed(u: Setup, dpid: int, ip: Ip, port: int, f: Frame, q: int)
    requires Valid(u) && 2 <= dpid <= 14 && FromServer(u, ip, f) && ip != u.primary
    requires Treats(Programmed(u, dpid, map[]), f, [SetQueue(q), Output(port)])
    ensures (ip, port) in Reached(u, dpid)
  {
    SiteIsValid(u, dpid);
    ReachedMapped(u, dpid);
    var s := SiteOf(u, dpid).value;
    QueueMeaning(map[], s, f);
    if Concerns(s, f) {
      var i :| 0 <= i < |s.ports.clients| && GoesDown(s, f, i);
      var at := s.ports.clients[i].1;
      var other := QueueOf(u.tables, ServerTcp(f, false), ServerUdp(f, false));
      OneTreatment(Programmed(u, dpid, map[]), f, [SetQueue(q), Output(port)], [SetQueue(other), Output(at)]);
      assert [SetQueue(q), Output(port)][1] == [SetQueue(other), Output(at)][1];
      assert s.ports.clients[i] == (ip, port);
    } else {
      assert false;
    }
  }

  // ----- Where the two tables agree -----

  /** Every host the detector would blame on a port of the switch is served there. */
  ghost predicate Agree(u: Setup, dpid: int) {
    forall ip, port :: FirstOn(Listed(u, dpid), port, ip) ==> Delivers(u, dpid, ip, port)
  }

  /** The two tables agree on every access switch but s12; there they agree if and only if
      the dictionary that the detector looks through is empty. */
  lemma {:induction false} AgreeExactly(u: Setup, dpid: int)
    requires Valid(u) && 4 <= dpid <= 14
    ensures Agree(u, dpid) <==> dpid != 12 || u.wifi == []
  {
    forall ip: Ip, port | FirstOn(Listed(u, dpid), port, ip)
      ensures dpid != 12 ==> Delivers(u, dpid, ip, port)
    {
      Blameable(u, dpid, ip, port);
      DeliversExactly(u, dpid, ip, port);
    }
    if dpid == 12 && u.wifi != [] {
      var ip, port := u.wifi[0].0, u.wifi[0].1;
      assert u.wifi[0] == (ip, port);
      assert FirstOn(Listed(u, 12), port, ip);
      Blameable(u, 12, ip, port);
      DeliversExactly(u, 12, ip, port);
      if (ip, port) in u.net {
        var i :| 0 <= i < |u.net| && u.net[i] == (ip, port);
        InOneZone(u, 1, 3, i, 0);
      }
    }
  }

  lemma {:induction false} Blameable(u: Setup, dpid: int, ip: Ip, port: int)
    requires Valid(u) && FirstOn(Listed(u, dpid), port, ip)
    ensures ip != u.primary && (ip, port) in Listed(u, dpid)
  {
    var cs := Listed(u, dpid);
    var i :| 0 <= i < |cs| && cs[i] == (ip, port);
    var zone := ListedZone(u, dpid);
    assert Zone(u, zone)[i].0 != u.primary;
  }

  /** As in the campus: s4 and s5 share a dictionary, whose first hosts of the two both have
      port 2. A flood from that port of s5 is blamed on the host of s4 and on no other. */
  lemma {:induction false} NeighbourBlamed(u: Setup, ip: Ip)
    requires |u.it| > 3 && u.it[0] == (0x0A01_0701, 2) && u.it[3] == (0x0A01_0601, 2)
    ensures FirstOn(Listed(u, 5), 2, ip) <==> ip == 0x0A01_0701
  {
    var cs := Listed(u, 5);
    if FirstOn(cs, 2, ip) {
      var i :| 0 <= i < |cs| && cs[i] == (ip, 2) && forall j :: 0 <= j < i ==> cs[j].1 != 2;
      if i > 0 {
        assert false;
      }
    }
    if ip == 0x0A01_0701 {
      assert cs[0] == (ip, 2);
    }
  }
}
