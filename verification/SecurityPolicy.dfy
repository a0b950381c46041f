/** Enforcement of the security policy (examples/campus_controller.py): the verdict on a
    packet handed to the controller, and the drop rule that caches it on the switch. */
module SecurityPolicy {
  import opened Prelude
  import opened OpenFlow
  import opened Text

  const SECURITY_COOKIE := 0xCAFE5001

  datatype ZonePair = ZonePair(src: string, dst: string, reason: string)

  datatype Policy = Policy(
    enabled: bool,
    source: string,
    staff: seq<string>,
    servers: seq<string>,
    restricted: seq<string>,
    blocked: seq<ZonePair>,
    tcpPorts: seq<int>,
    udpPorts: seq<int>,
    allowIcmp: bool,
    priority: int,
    idle: int,
    hard: int)

  function Zone(zones: map<Ip, string>, ip: Ip): string {
    if ip in zones then zones[ip] else "unknown"
  }

  /** An address as a packet's text form: four decimal numerals without leading zeros. */
  function IpText(ip: Ip): string {
    Decimal(ip / 0x100_0000) + "." + Decimal(ip / 0x1_0000 % 0x100) + "." + Decimal(ip / 0x100 % 0x100) + "."
    + Decimal(ip % 0x100)
  }

  predicate Blocked(p: Policy, zones: map<Ip, string>, f: Frame) {
    exists i :: 0 <= i < |p.blocked|
                && p.blocked[i].src == Zone(zones, f.ipSrc) && p.blocked[i].dst == Zone(zones, f.ipDst)
  }

  /** The packet reaches the port lists: a restricted zone calls a protected server, by
      something else than permitted ICMP. */
  predicate Restricted(p: Policy, zones: map<Ip, string>, f: Frame) {
    && Zone(zones, f.ipSrc) in p.restricted && IpText(f.ipDst) in p.servers
    && !(f.ipProto == PROTO_ICMP && p.allowIcmp)
  }

  predicate Listed(p: Policy, f: Frame) {
    || (f.tcp.Some? && f.tcp.value.dst in p.tcpPorts)
    || (f.udp.Some? && f.udp.value.dst in p.udpPorts)
  }

  /** The verdict: is the packet dropped? */
  predicate Drops(p: Policy, zones: map<Ip, string>, f: Frame) {
    p.enabled && f.ethType == ETH_TYPE_IP
    && (Blocked(p, zones, f) || (Restricted(p, zones, f) && !Listed(p, f)))
  }

  function PairMatch(f: Frame): Match {
    ANY.(inPort := Some(f.inPort), ethType := Some(ETH_TYPE_IP), ipSrc := Some(f.ipSrc), ipDst := Some(f.ipDst))
  }

  function AccessMatch(f: Frame): Match {
    if f.tcp.Some? then PairMatch(f).(ipProto := Some(PROTO_TCP), tcpDst := Some(f.tcp.value.dst))
    else if f.udp.Some? then PairMatch(f).(ipProto := Some(PROTO_UDP), udpDst := Some(f.udp.value.dst))
    else PairMatch(f).(ipProto := Some(f.ipProto))
  }

  /** The drop rule installed for a dropped packet. */
  function CachedRule(p: Policy, zones: map<Ip, string>, f: Frame): Rule {
    Rule(Key(p.priority, if Blocked(p, zones, f) then PairMatch(f) else AccessMatch(f)), Entry([], SECURITY_COOKIE))
  }

  /** A transport header is only found in a packet of its protocol. */
  predicate Parsed(f: Frame) {
    (f.tcp.Some? ==> f.ipProto == PROTO_TCP) && (f.udp.Some? ==> f.ipProto == PROTO_UDP)
  }

  /** And a packet of the protocol has the header: no fragment, nothing truncated. */
  predicate WellFormed(f: Frame) {
    (f.tcp.Some? <==> f.ipProto == PROTO_TCP) && (f.udp.Some? <==> f.ipProto == PROTO_UDP)
  }

  /** Whatever the rule would drop on the switch, the policy drops too. */
  ghost predicate SoundRule(p: Policy, zones: map<Ip, string>, pattern: Match) {
    forall g: Frame :: Parsed(g) && Covers(pattern, g) ==> Drops(p, zones, g)
  }

  /** A TCP or UDP packet without its header, while the policy lists ports of that protocol. */
  predicate Headerless(p: Policy, f: Frame) {
    || (f.ipProto == PROTO_TCP && f.tcp.None? && p.tcpPorts != [])
    || (f.ipProto == PROTO_UDP && f.udp.None? && p.udpPorts != [])
  }

  lemma {:induction false} PairSound(p: Policy, zones: map<Ip, string>, f: Frame)
    requires Drops(p, zones, f) && Blocked(p, zones, f)
    ensures SoundRule(p, zones, PairMatch(f))
  {
    var i :| 0 <= i < |p.blocked| && p.blocked[i].src == Zone(zones, f.ipSrc)
        && p.blocked[i].dst == Zone(zones, f.ipDst);
    forall g: Frame | Parsed(g) && Covers(PairMatch(f), g)
      ensures Drops(p, zones, g)
    {
      assert p.blocked[i].src == Zone(zones, g.ipSrc) && p.blocked[i].dst == Zone(zones, g.ipDst);
    }
  }

  lemma {:induction false} AccessSound(p: Policy, zones: map<Ip, string>, f: Frame)
    requires Drops(p, zones, f) && !Blocked(p, zones, f) && Parsed(f) && !Headerless(p, f)
    ensures SoundRule(p, zones, AccessMatch(f))
  {
    forall g: Frame | Parsed(g) && Covers(AccessMatch(f), g)
      ensures Drops(p, zones, g)
    {
      assert Restricted(p, zones, g);
      assert !Listed(p, g);
    }
  }

  /** The caching is sound for one packet if and only if the packet is blocked by its zones
      or is not a headerless TCP or UDP packet: such a packet installs a rule for its whole
      protocol, which also drops packets to ports the policy allows. */
  lemma {:induction false} CachedSoundExactly(p: Policy, zones: map<Ip, string>, f: Frame)
    requires Parsed(f) && Drops(p, zones, f)
    ensures SoundRule(p, zones, CachedRule(p, zones, f).key.pattern) <==> Blocked(p, zones, f) || !Headerless(p, f)
  {
    if Blocked(p, zones, f) {
      PairSound(p, zones, f);
    } else if !Headerless(p, f) {
      AccessSound(p, zones, f);
    } else {
      var g :=
        if f.ipProto == PROTO_TCP then f.(tcp := Some(L4(0, p.tcpPorts[0])))
        else f.(udp := Some(L4(0, p.udpPorts[0])));
      assert Parsed(g) && Covers(AccessMatch(f), g) && Listed(p, g) && !Blocked(p, zones, g);
    }
  }

  /** The same port of the switch and the same two addresses. */
  predicate SamePair(f: Frame, g: Frame) {
    g.inPort == f.inPort && g.ethType == 0x0800 && g.ipSrc == f.ipSrc && g.ipDst == f.ipDst
  }

  /** The same service: the destination port of TCP or UDP, or else the protocol. */
  predicate SameService(f: Frame, g: Frame) {
    if f.tcp.Some? then g.ipProto == 6 && g.tcp.Some? && g.tcp.value.dst == f.tcp.value.dst
    else if f.udp.Some? then g.ipProto == 17 && g.udp.Some? && g.udp.value.dst == f.udp.value.dst
    else g.ipProto == f.ipProto
  }

  /** From the moment a packet was dropped the switch drops by itself the packets from its port
      between its addresses, all of them if their zones are blocked and those of its service
      otherwise, over any flows below the drop priority; it treats others as before. */
  lemma {:induction false} DroppedOnSwitch(
      p: Policy, zones: map<Ip, string>, flows: map<int, Table>, dpid: int, f: Frame, g: Frame)
    requires dpid in flows && Drops(p, zones, f)
    requires forall k :: k in flows[dpid] && Covers(k.pattern, g) ==> k.priority < p.priority
    ensures var t := Enforced(p, zones, flows, dpid, f)[dpid];
            if SamePair(f, g) && (Blocked(p, zones, f) || SameService(f, g)) then Treats(t, g, [])
            else forall k :: Wins(t, g, k) <==> Wins(flows[dpid], g, k)
  {
    var base, r := flows[dpid], CachedRule(p, zones, f);
    var t := AddFlow(base, r);
    assert Covers(r.key.pattern, g) <==> SamePair(f, g) && (Blocked(p, zones, f) || SameService(f, g));
    OverLower(base, r, g);
  }

  lemma {:induction false} OverLower(base: Table, r: Rule, g: Frame)
    requires forall k :: k in base && Covers(k.pattern, g) ==> k.priority < r.key.priority
    ensures Covers(r.key.pattern, g) ==> Treats(AddFlow(base, r), g, r.entry.actions)
    ensures !Covers(r.key.pattern, g) ==> forall k :: Wins(AddFlow(base, r), g, k) <==> Wins(base, g, k)
  {
    var t := AddFlow(base, r);
    if Covers(r.key.pattern, g) {
      assert Wins(t, g, r.key);
    }
  }

  /** Zones are blocked in one direction: with no protected server reached, a packet is dropped
      if and only if the policy lists its source's zone with its destination's, in that order. */
  lemma {:induction false} PairsDropExactly(p: Policy, zones: map<Ip, string>, f: Frame, src: string, dst: string)
    requires p.enabled && f.ethType == 0x0800 && IpText(f.ipDst) !in p.servers
    requires f.ipSrc in zones && zones[f.ipSrc] == src && f.ipDst in zones && zones[f.ipDst] == dst
    ensures Drops(p, zones, f) <==> exists reason :: ZonePair(src, dst, reason) in p.blocked
  {
    if Blocked(p, zones, f) {
      var i :| 0 <= i < |p.blocked| && p.blocked[i].src == src && p.blocked[i].dst == dst;
      assert ZonePair(src, dst, p.blocked[i].reason) in p.blocked;
    }
  }

  /** A protected server without blocked pairs: a restricted zone reaches it by the listed
      ports and, if allowed, by ICMP only; the others reach it freely. */
  lemma {:induction false} ServersDropExactly(p: Policy, zones: map<Ip, string>, f: Frame)
    requires p.enabled && f.ethType == 0x0800 && IpText(f.ipDst) in p.servers && p.blocked == []
    requires f.ipSrc in zones
    ensures Drops(p, zones, f) <==>
            && zones[f.ipSrc] in p.restricted
            && !(f.ipProto == 1 && p.allowIcmp)
            && !(f.tcp.Some? && f.tcp.value.dst in p.tcpPorts)
            && !(f.udp.Some? && f.udp.value.dst in p.udpPorts)
  {
  }

  /** An address of no known zone counts as "unknown", and a policy that is off drops nothing. */
  lemma {:induction false} UnknownZone(p: Policy, zones: map<Ip, string>, f: Frame)
    requires f.ipSrc !in zones && f.ipDst !in zones && "unknown" !in p.restricted
    ensures Drops(p, zones, f) ==> exists reason :: ZonePair("unknown", "unknown", reason) in p.blocked
    ensures Drops(p, zones, f) ==> p.enabled && f.ethType == 0x0800
  {
    if Blocked(p, zones, f) {
      var i :| 0 <= i < |p.blocked| && p.blocked[i].src == "unknown" && p.blocked[i].dst == "unknown";
      assert ZonePair("unknown", "unknown", p.blocked[i].reason) in p.blocked;
    }
  }

  const FRAGMENT := Frame(1, ETH_TYPE_IP, 1, 0x0A03_0101, 0x0A00_010A, PROTO_TCP, None, None)

  /** The rule cached for a dropped TCP fragment drops a packet to a permitted port. */
  lemma {:induction false} FragmentShutsPort() returns (p: Policy, zones: map<Ip, string>, allowed: Frame)
    ensures Parsed(FRAGMENT) && Drops(p, zones, FRAGMENT)
    ensures Parsed(allowed) && !Drops(p, zones, allowed)
    ensures Covers(CachedRule(p, zones, FRAGMENT).key.pattern, allowed)
  {
    p := Policy(true, "campus", [], [IpText(FRAGMENT.ipDst)], ["student_lab"], [], [443], [], true, 360, 120, 300);
    zones := map[FRAGMENT.ipSrc := "student_lab"];
    allowed := FRAGMENT.(tcp := Some(L4(50_000, 443)));
    assert p.restricted[0] == "student_lab" && p.servers[0] == IpText(FRAGMENT.ipDst) && p.tcpPorts[0] == 443;
  }

  // ----- Runs under a fixed policy -----

  datatype Step = PacketIn(dpid: int, frame: Frame) | Expiry(dpid: int, flow: Key)

  function Enforced(p: Policy, zones: map<Ip, string>, flows: map<int, Table>, dpid: int, f: Frame): map<int, Table> {
    if dpid in flows && Drops(p, zones, f) then flows[dpid := AddFlow(flows[dpid], CachedRule(p, zones, f))] else flows
  }

  function Next(p: Policy, zones: map<Ip, string>, flows: map<int, Table>, step: Step): map<int, Table> {
    match step
    case PacketIn(dpid, f) => Enforced(p, zones, flows, dpid, f)
    case Expiry(dpid, k) => if dpid in flows then flows[dpid := flows[dpid] - {k}] else flows
  }

  function At(p: Policy, zones: map<Ip, string>, flows: map<int, Table>, steps: seq<Step>, n: nat): map<int, Table>
    requires n <= |steps|
  {
    if n == 0 then flows else Next(p, zones, At(p, zones, flows, steps, n - 1), steps[n - 1])
  }

  ghost predicate SoundTable(p: Policy, zones: map<Ip, string>, t: Table) {
    forall k :: k in t && t[k].cookie == SECURITY_COOKIE ==> SoundRule(p, zones, k.pattern)
  }

  ghost predicate SoundFlows(p: Policy, zones: map<Ip, string>, flows: map<int, Table>) {
    forall d :: d in flows ==> SoundTable(p, zones, flows[d])
  }

  lemma {:induction false} StepSound(p: Policy, zones: map<Ip, string>, flows: map<int, Table>, step: Step)
    requires SoundFlows(p, zones, flows) && (step.PacketIn? ==> WellFormed(step.frame))
    ensures SoundFlows(p, zones, Next(p, zones, flows, step))
  {
    match step
    case PacketIn(dpid, f) =>
      if dpid in flows && Drops(p, zones, f) {
        CachedSoundExactly(p, zones, f);
        var t := flows[dpid];
        assert SoundTable(p, zones, t);
        assert SoundTable(p, zones, AddFlow(t, CachedRule(p, zones, f)));
      }
    case Expiry(dpid, k) =>
      if dpid in flows {
        assert SoundTable(p, zones, flows[dpid]);
        assert SoundTable(p, zones, flows[dpid] - {k});
      }
  }

  /** In every reachable state every cached drop matches only packets that a fresh
      evaluation of the policy drops as well. */
  lemma {:induction false} CachedDropsSound(
      p: Policy, zones: map<Ip, string>, flows: map<int, Table>, steps: seq<Step>, n: nat)
    requires n <= |steps| && SoundFlows(p, zones, flows)
    requires forall k :: 0 <= k < n && steps[k].PacketIn? ==> WellFormed(steps[k].frame)
    ensures SoundFlows(p, zones, At(p, zones, flows, steps, n))
  {
    if n > 0 {
      CachedDropsSound(p, zones, flows, steps, n - 1);
      StepSound(p, zones, At(p, zones, flows, steps, n - 1), steps[n - 1]);
    }
  }

  // ----- The handler -----

  class Enforcer {
    const zones: map<Ip, string>
    var policy: Policy
    var flows: map<int, Table>
    var attempted: nat
    var blocked: nat

    method DropFlow(dpid: int, pattern: Match)
      requires dpid in flows
      modifies `flows, `blocked
      ensures flows == old(flows)[dpid := AddFlow(old(flows)[dpid],
          Rule(Key(policy.priority, pattern), Entry([], SECURITY_COOKIE)))]
      ensures blocked == old(blocked) + 1
    {
      flows := flows[dpid := flows[dpid][Key(policy.priority, pattern) := Entry([], SECURITY_COOKIE)]];
      blocked := blocked + 1;
    }

    method Enforce(dpid: int, f: Frame) returns (dropped: bool)
      requires dpid in flows
      modifies `flows, `attempted, `blocked
      ensures dropped == Drops(policy, zones, f)
      ensures flows == Enforced(policy, zones, old(flows), dpid, f)
      ensures blocked == old(blocked) + (if dropped then 1 else 0)
      ensures attempted == old(attempted) + (if policy.enabled && f.ethType == ETH_TYPE_IP then 1 else 0)
    {
      if f.ethType != ETH_TYPE_IP || !policy.enabled {
        return false;
      }
      attempted := attempted + 1;
      var srcZone, dstZone := Zone(zones, f.ipSrc), Zone(zones, f.ipDst);
      var i := 0;
      while i < |policy.blocked|
        invariant i <= |policy.blocked|
        invariant forall j :: 0 <= j < i ==> !(policy.blocked[j].src == srcZone && policy.blocked[j].dst == dstZone)
      {
        if policy.blocked[i].src == srcZone && policy.blocked[i].dst == dstZone {
          DropFlow(dpid, PairMatch(f));
          return true;
        }
        i := i + 1;
      }
      if srcZone !in policy.restricted || IpText(f.ipDst) !in policy.servers {
        return false;
      }
      if f.ipProto == PROTO_ICMP && policy.allowIcmp {
        return false;
      }
      if f.tcp.Some? && f.tcp.value.dst in policy.tcpPorts {
        return false;
      }
      if f.udp.Some? && f.udp.value.dst in policy.udpPorts {
        return false;
      }
      var pattern := PairMatch(f);
      if f.tcp.Some? {
        pattern := pattern.(ipProto := Some(PROTO_TCP), tcpDst := Some(f.tcp.value.dst));
      } else if f.udp.Some? {
        pattern := pattern.(ipProto := Some(PROTO_UDP), udpDst := Some(f.udp.value.dst));
      } else {
        pattern := pattern.(ipProto := Some(f.ipProto));
      }
      DropFlow(dpid, pattern);
      return true;
    }
  }
}
