/** From the dashboard to the data plane: after any run of dashboard operations, what the
    controller reads back and compiles treats every frame between two attached devices as
    the edited policy says. */
module EndToEnd {
  import opened Prelude
  import opened OpenFlow
  import opened VlanPolicy
  import opened VlanNormalizer
  import opened VlanCompiler
  import opened VlanMeaning
  import opened VlanKnown
  import opened VlanHistory
  import opened Dashboard
  import opened DashboardInvariant

  ghost predicate Linked(s: PolicyState, sw: string, v: int, w: int) {
    sw in s && Ordered(v, w) in s[sw].links
  }

  ghost predicate Managed(s: PolicyState, sw: string, device: string) {
    exists v :: Placed(s, sw, v, device)
  }

  /** The two devices share a VLAN, or their VLANs are linked. */
  ghost predicate MayTalk(s: PolicyState, sw: string, a: string, b: string) {
    exists v, w :: Placed(s, sw, v, a) && Placed(s, sw, w, b) && (v == w || Linked(s, sw, v, w))
  }

  /** The device counts as managed on the switch: it has a VLAN there, and its port is one
      that the controller takes into account. */
  ghost predicate ManagedOn(s: PolicyState, dpid: nat, d: Device) {
    Managed(s, SwitchName(dpid), d.name) && InSight(dpid, d.port)
  }

  ghost predicate TalksOn(s: PolicyState, dpid: nat, a: Device, b: Device) {
    InSight(dpid, a.port) && InSight(dpid, b.port) && MayTalk(s, SwitchName(dpid), a.name, b.name)
  }

  lemma {:induction false} MayTalkSymmetric(s: PolicyState, sw: string, a: string, b: string)
    ensures MayTalk(s, sw, a, b) <==> MayTalk(s, sw, b, a)
  {
    if MayTalk(s, sw, a, b) {
      var v, w :| Placed(s, sw, v, a) && Placed(s, sw, w, b) && (v == w || Linked(s, sw, v, w));
      assert Ordered(v, w) == Ordered(w, v);
    }
    if MayTalk(s, sw, b, a) {
      var v, w :| Placed(s, sw, v, b) && Placed(s, sw, w, a) && (v == w || Linked(s, sw, v, w));
      assert Ordered(v, w) == Ordered(w, v);
    }
  }

  // ----- The stored policy survives normalising -----

  lemma {:induction false} DeviceAt(devices: seq<Device>, d: Device, e: Device)
    requires SoundDevices(devices) && d in devices && e in devices
    ensures d.name == e.name || d.port == e.port || d.mac == e.mac ==> d == e
  {
    var i :| 0 <= i < |devices| && devices[i] == d;
    var j :| 0 <= j < |devices| && devices[j] == e;
  }

  lemma {:induction false} SoundMembersNormal(devices: seq<Device>, ms: seq<Member>)
    requires SoundDevices(devices) && SoundMembers(devices, ms)
    ensures NormalMembers(ms)
  {
    forall i, j | 0 <= i < |ms| && i <= j < |ms|
      ensures ms[i].port > 0 && (i < j ==> ms[i].port != ms[j].port)
    {
      assert ms[i] in ms && ms[j] in ms;
      var d :| d in devices && ms[i] == MemberOf(d);
      var e :| e in devices && ms[j] == MemberOf(e);
      DeviceAt(devices, d, e);
    }
  }

  lemma {:induction false} SoundIsNormal(topo: Topology, s: PolicyState)
    requires SoundTopology(topo) && SoundPolicy(topo, s)
    ensures NormalState(s)
  {
    forall sw | sw in s
      ensures NormalCfg(s[sw])
    {
      var devices := AttachedTo(topo, sw);
      AttachedSound(topo, sw);
      forall v | v in s[sw].vlans
        ensures ValidVlan(v) && NormalMembers(s[sw].vlans[v])
      {
        SoundMembersNormal(devices, s[sw].vlans[v]);
      }
      LinksOfValidVlans(s[sw].links, s[sw].vlans);
    }
  }

  lemma {:induction false} LinksOfValidVlans(links: seq<Link>, vlans: map<int, seq<Member>>)
    requires SoundLinks(links, vlans.Keys) && forall v :: v in vlans ==> ValidVlan(v)
    ensures NormalLinks(links)
  {
    forall i | 0 <= i < |links|
      ensures 0 < links[i].src < links[i].dst <= MAX_VLAN
    {
      assert links[i].src in vlans && links[i].dst in vlans;
    }
  }

  // ----- The compiled members are the stored members in sight -----

  lemma {:induction false} MemberDevice(
      devices: seq<Device>, vlans: map<int, seq<Member>>, v: int, m: Member) returns (d: Device)
    requires SoundVlans(devices, vlans) && InVlan(vlans, v, m)
    ensures d in devices && m == MemberOf(d)
  {
    assert SoundMembers(devices, vlans[v]) && OfDevice(devices, m);
    d :| d in devices && m == MemberOf(d);
  }

  lemma {:induction false} SameMember(
      devices: seq<Device>, vlans: map<int, seq<Member>>, u: int, m: Member, v: int, n: Member)
    requires SoundDevices(devices) && SoundVlans(devices, vlans)
    requires InVlan(vlans, u, m) && InVlan(vlans, v, n) && (m.port == n.port || m.mac == n.mac)
    ensures u == v && m == n
  {
    var d := MemberDevice(devices, vlans, u, m);
    var e := MemberDevice(devices, vlans, v, n);
    DeviceAt(devices, d, e);
  }

  lemma {:induction false} SoundIsDistinct(devices: seq<Device>, vlans: map<int, seq<Member>>)
    requires SoundDevices(devices) && SoundVlans(devices, vlans)
    ensures Distinct(vlans)
  {
    forall u, v, m, n | InVlan(vlans, u, m) && InVlan(vlans, v, n) && (m.port == n.port || m.mac == n.mac)
      ensures u == v && m == n
    {
      SameMember(devices, vlans, u, m, v, n);
    }
    forall v, m | InVlan(vlans, v, m)
      ensures m.mac != BROADCAST
    {
      var d := MemberDevice(devices, vlans, v, m);
    }
  }

  /** The VLANs as the controller compiles them. */
  ghost function Seen(s: PolicyState, dpid: nat): VlanMembers
    requires SwitchName(dpid) in s
  {
    ManagedVlans(s[SwitchName(dpid)], KnownPorts(dpid))
  }

  ghost predicate SoundOn(topo: Topology, s: PolicyState, dpid: nat) {
    var sw := SwitchName(dpid);
    SoundDevices(AttachedTo(topo, sw)) && sw in s && SoundCfg(AttachedTo(topo, sw), s[sw])
  }

  lemma {:induction false} KnownDistinct(ms: seq<Member>, known: set<int>)
    requires DistinctDevices(ms)
    ensures DistinctDevices(KnownMembers(ms, known))
  {
    if ms != [] && known != {} {
      var n := |ms| - 1;
      KnownDistinct(ms[..n], known);
      forall i | 0 <= i < |KnownMembers(ms[..n], known)|
        ensures KnownMembers(ms[..n], known)[i].device != ms[n].device
      {
        var m := KnownMembers(ms[..n], known)[i];
        KnownExactly(ms[..n], known, m);
        var j :| 0 <= j < n && ms[..n][j] == m;
      }
    }
  }

  lemma {:induction false} SeenSound(topo: Topology, s: PolicyState, dpid: nat)
    requires SoundOn(topo, s, dpid)
    ensures SoundVlans(AttachedTo(topo, SwitchName(dpid)), Seen(s, dpid))
  {
    var devices, vlans := AttachedTo(topo, SwitchName(dpid)), s[SwitchName(dpid)].vlans;
    var vm, known := Seen(s, dpid), KnownPorts(dpid);
    forall v | v in vm
      ensures v in vlans && SoundMembers(devices, vm[v]) && forall m :: m in vm[v] ==> m in vlans[v]
    {
      ManagedAt(s[SwitchName(dpid)], known, v);
      assert SoundMembers(devices, vlans[v]);
      KnownDistinct(vlans[v], known);
      forall m | m in vm[v]
        ensures m in vlans[v] && OfDevice(devices, m)
      {
        KnownExactly(vlans[v], known, m);
      }
    }
  }

  // ----- Reaching is talking -----

  lemma {:induction false} PlacedMember(topo: Topology, s: PolicyState, dpid: nat, v: int, d: Device)
    requires SoundOn(topo, s, dpid) && d in AttachedTo(topo, SwitchName(dpid))
    ensures Placed(s, SwitchName(dpid), v, d.name) && InSight(dpid, d.port) <==> InVlan(Seen(s, dpid), v, MemberOf(d))
  {
    var sw := SwitchName(dpid);
    ManagedExactly(s[sw], dpid, v, MemberOf(d));
    if Placed(s, sw, v, d.name) {
      var m :| m in s[sw].vlans[v] && m.device == d.name;
      var e := MemberDevice(AttachedTo(topo, sw), s[sw].vlans, v, m);
      DeviceAt(AttachedTo(topo, sw), d, e);
    }
  }

  lemma {:induction false} SeenDevice(topo: Topology, s: PolicyState, dpid: nat, v: int, m: Member) returns (d: Device)
    requires SoundOn(topo, s, dpid) && InVlan(Seen(s, dpid), v, m)
    ensures d in AttachedTo(topo, SwitchName(dpid)) && m == MemberOf(d)
    ensures Placed(s, SwitchName(dpid), v, d.name) && InSight(dpid, d.port)
  {
    SeenSound(topo, s, dpid);
    d := MemberDevice(AttachedTo(topo, SwitchName(dpid)), Seen(s, dpid), v, m);
    PlacedMember(topo, s, dpid, v, d);
  }

  lemma {:induction false} AdjacentIsLinked(topo: Topology, s: PolicyState, dpid: nat, v: int, u: int)
    requires SoundOn(topo, s, dpid) && v in Seen(s, dpid) && u in Seen(s, dpid)
    ensures u in Adjacent(Seen(s, dpid), s[SwitchName(dpid)].links, v) <==> u == v || Linked(s, SwitchName(dpid), v, u)
  {
    var links := s[SwitchName(dpid)].links;
    assert forall l :: l in links ==> l.src < l.dst;
  }

  lemma {:induction false} ReachIsTalk(topo: Topology, s: PolicyState, dpid: nat, a: Device, b: Device)
    requires SoundOn(topo, s, dpid)
    requires a in AttachedTo(topo, SwitchName(dpid)) && b in AttachedTo(topo, SwitchName(dpid))
    ensures MayReach(Seen(s, dpid), s[SwitchName(dpid)].links, a.port, MemberOf(b))
        <==> a != b && TalksOn(s, dpid, a, b)
  {
    if MayReach(Seen(s, dpid), s[SwitchName(dpid)].links, a.port, MemberOf(b)) {
      ReachersTalk(topo, s, dpid, a, b);
    }
    if a != b && TalksOn(s, dpid, a, b) {
      TalkersReach(topo, s, dpid, a, b);
    }
  }

  lemma {:induction false} ReachWitness(
      vm: VlanMembers, links: seq<Link>, port: int, d: Member) returns (v: int, m: Member, u: int)
    requires MayReach(vm, links, port, d)
    ensures InVlan(vm, v, m) && m.port == port && u in Adjacent(vm, links, v) && InVlan(vm, u, d) && d.port != port
  {
    v, m, u :| InVlan(vm, v, m) && m.port == port && u in Adjacent(vm, links, v) && InVlan(vm, u, d) && d.port != port;
  }

  lemma {:induction false} ReachersTalk(topo: Topology, s: PolicyState, dpid: nat, a: Device, b: Device)
    requires SoundOn(topo, s, dpid)
    requires a in AttachedTo(topo, SwitchName(dpid)) && b in AttachedTo(topo, SwitchName(dpid))
    requires MayReach(Seen(s, dpid), s[SwitchName(dpid)].links, a.port, MemberOf(b))
    ensures a != b && TalksOn(s, dpid, a, b)
  {
    var v, m, u := ReachWitness(Seen(s, dpid), s[SwitchName(dpid)].links, a.port, MemberOf(b));
    OwnMember(topo, s, dpid, a, v, m);
    PlacedMember(topo, s, dpid, u, b);
    AdjacentIsLinked(topo, s, dpid, v, u);
    TalkBy(s, SwitchName(dpid), a.name, v, b.name, u);
  }

  lemma {:induction false} TalkBy(s: PolicyState, sw: string, a: string, v: int, b: string, w: int)
    requires Placed(s, sw, v, a) && Placed(s, sw, w, b) && (v == w || Linked(s, sw, v, w))
    ensures MayTalk(s, sw, a, b)
  {
  }

  lemma {:induction false} OwnMember(topo: Topology, s: PolicyState, dpid: nat, a: Device, v: int, m: Member)
    requires SoundOn(topo, s, dpid) && a in AttachedTo(topo, SwitchName(dpid))
    requires InVlan(Seen(s, dpid), v, m) && m.port == a.port
    ensures Placed(s, SwitchName(dpid), v, a.name) && InSight(dpid, a.port)
  {
    var e := SeenDevice(topo, s, dpid, v, m);
    DeviceAt(AttachedTo(topo, SwitchName(dpid)), a, e);
  }

  lemma {:induction false} TalkersReach(topo: Topology, s: PolicyState, dpid: nat, a: Device, b: Device)
    requires SoundOn(topo, s, dpid)
    requires a in AttachedTo(topo, SwitchName(dpid)) && b in AttachedTo(topo, SwitchName(dpid))
    requires a != b && TalksOn(s, dpid, a, b)
    ensures MayReach(Seen(s, dpid), s[SwitchName(dpid)].links, a.port, MemberOf(b))
  {
    var sw := SwitchName(dpid);
    var v, w :| Placed(s, sw, v, a.name) && Placed(s, sw, w, b.name) && (v == w || Linked(s, sw, v, w));
    DeviceAt(AttachedTo(topo, sw), a, b);
    PlacedMember(topo, s, dpid, v, a);
    PlacedMember(topo, s, dpid, w, b);
    AdjacentIsLinked(topo, s, dpid, v, w);
    assert InVlan(Seen(s, dpid), v, MemberOf(a)) && w in Adjacent(Seen(s, dpid), s[sw].links, v);
  }

  /** Where the policy lets a frame from device a go. */
  ghost function TalkPorts(topo: Topology, s: PolicyState, dpid: nat, a: Device, f: Frame): iset<int> {
    iset b | b in AttachedTo(topo, SwitchName(dpid)) && b != a && TalksOn(s, dpid, a, b)
        && (IsArpBroadcast(f) || b.mac == f.ethDst) :: b.port
  }

  lemma {:induction false} DestinationsAreTalkPorts(topo: Topology, s: PolicyState, dpid: nat, a: Device, f: Frame)
    requires SoundOn(topo, s, dpid) && a in AttachedTo(topo, SwitchName(dpid)) && f.inPort == a.port
    ensures Destinations(Seen(s, dpid), s[SwitchName(dpid)].links, f) == TalkPorts(topo, s, dpid, a, f)
  {
    var devices, vlans, links := AttachedTo(topo, SwitchName(dpid)), Seen(s, dpid), s[SwitchName(dpid)].links;
    forall p | p in Destinations(vlans, links, f)
      ensures p in TalkPorts(topo, s, dpid, a, f)
    {
      var m :| MayReach(vlans, links, f.inPort, m) && (IsArpBroadcast(f) || m.mac == f.ethDst) && m.port == p;
      var u :| InVlan(vlans, u, m);
      var b := SeenDevice(topo, s, dpid, u, m);
      ReachIsTalk(topo, s, dpid, a, b);
    }
    forall p | p in TalkPorts(topo, s, dpid, a, f)
      ensures p in Destinations(vlans, links, f)
    {
      var b :| b in devices && b != a && TalksOn(s, dpid, a, b) && (IsArpBroadcast(f) || b.mac == f.ethDst)
               && b.port == p;
      ReachIsTalk(topo, s, dpid, a, b);
      assert MayReach(vlans, links, f.inPort, MemberOf(b));
    }
  }

  // ----- The theorem -----

  /** No other flow matches the frame at the priorities of VLAN rules or above. */
  ghost predicate LowerFlows(base: Table, f: Frame) {
    forall k :: k in base && Covers(k.pattern, f) ==> k.priority < CLOSED_PRIORITY
  }

  /** The frame concerns a managed device: as its sender or, on a switch whose ports the
      controller knows, as its receiver or a possible receiver of an ARP broadcast. A frame
      from a port that the controller does not know concerns nobody. */
  ghost predicate Decided(topo: Topology, s: PolicyState, dpid: nat, a: Device, f: Frame) {
    InSight(dpid, a.port)
    && (|| ManagedOn(s, dpid, a)
        || (KnownPorts(dpid) != {} && exists b :: b in AttachedTo(topo, SwitchName(dpid)) && ManagedOn(s, dpid, b)
                                                  && (IsArpBroadcast(f) || b.mac == f.ethDst)))
  }

  ghost function Wanted(topo: Topology, s: PolicyState, dpid: nat, a: Device, f: Frame): Verdict {
    if Decided(topo, s, dpid, a, f) then Deliver(TalkPorts(topo, s, dpid, a, f)) else Untouched
  }

  /** The table comes about in any way in which the switch is programmed last with what the
      controller read from this file. */
  ghost predicate ProgrammedFrom(start: Table, dpid: nat, steps: seq<Step>, p: Payload) {
    && VlanFree(start) && AllApart(steps, |steps|)
    && LastCfg(steps, |steps|) == CfgOf(Normalized(p), dpid)
  }

  /** Any run of dashboard operations, stored in any order and read back, on a switch with any
      history of policies and other flows: a frame from an attached device that concerns a
      managed device goes exactly to the devices the sender may talk to; other frames are
      left to the other flows. */
  lemma {:induction false} DashboardToDataPlane(
      topo: Topology, ops: seq<Op>, p: Payload, dpid: nat, start: Table, steps: seq<Step>, a: Device, f: Frame)
    requires SoundTopology(topo) && Stores(p, Run(topo, map[], ops))
    requires ProgrammedFrom(start, dpid, steps, p) && LowerFlows(OthersAt(start, steps, |steps|), f)
    requires a in AttachedTo(topo, SwitchName(dpid)) && f.inPort == a.port
    ensures Realises(TableAt(start, dpid, steps, |steps|), OthersAt(start, steps, |steps|), f,
                     Wanted(topo, Run(topo, map[], ops), dpid, a, f))
  {
    HistoryForgotten(start, dpid, steps, |steps|);
    ProgrammedMeaning(topo, ops, p, dpid, OthersAt(start, steps, |steps|), a, f);
  }

  lemma {:induction false} ProgrammedMeaning(
      topo: Topology, ops: seq<Op>, p: Payload, dpid: nat, base: Table, a: Device, f: Frame)
    requires SoundTopology(topo) && Stores(p, Run(topo, map[], ops))
    requires LowerFlows(base, f)
    requires a in AttachedTo(topo, SwitchName(dpid)) && f.inPort == a.port
    ensures Realises(AddAll(base, Compile(CfgOf(Normalized(p), dpid), dpid)), base, f,
                     Wanted(topo, Run(topo, map[], ops), dpid, a, f))
  {
    var s := Run(topo, map[], ops);
    RunSound(topo, ops);
    SoundIsNormal(topo, s);
    ReadBack(p, s);
    StoredMeaning(topo, s, dpid, base, a, f);
  }

  /** The compilation of a sound policy, on top of lower flows, treats f as the policy says. */
  lemma {:induction false} StoredMeaning(
      topo: Topology, s: PolicyState, dpid: nat, base: Table, a: Device, f: Frame)
    requires SoundTopology(topo) && SoundPolicy(topo, s)
    requires LowerFlows(base, f)
    requires a in AttachedTo(topo, SwitchName(dpid)) && f.inPort == a.port
    ensures Realises(AddAll(base, Compile(CfgOf(s, dpid), dpid)), base, f, Wanted(topo, s, dpid, a, f))
  {
    var sw := SwitchName(dpid);
    AttachedSound(topo, sw);
    if sw in s {
      SoundSwitchMeaning(topo, s, dpid, base, a, f);
    } else {
      NothingCompiled(dpid);
      assert CfgOf(s, dpid) == EMPTY_CFG && !Decided(topo, s, dpid, a, f);
    }
  }

  lemma {:induction false} SoundSwitchMeaning(
      topo: Topology, s: PolicyState, dpid: nat, base: Table, a: Device, f: Frame)
    requires SoundOn(topo, s, dpid) && LowerFlows(base, f)
    requires a in AttachedTo(topo, SwitchName(dpid)) && f.inPort == a.port
    ensures Realises(AddAll(base, Compile(CfgOf(s, dpid), dpid)), base, f, Wanted(topo, s, dpid, a, f))
  {
    var sw, vm := SwitchName(dpid), Seen(s, dpid);
    if vm == map[] {
      NobodySeen(topo, s, dpid, a, f);
    } else {
      var ports := GuardedPorts(vm, KnownPorts(dpid));
      SeenSound(topo, s, dpid);
      SoundIsDistinct(AttachedTo(topo, sw), vm);
      SeenPortsKnown(topo, s, dpid);
      CompiledMeaning(base, vm, s[sw].links, ports, f);
      DestinationsAreTalkPorts(topo, s, dpid, a, f);
      DecidedByPolicy(topo, s, dpid, a, f);
    }
  }

  lemma {:induction false} NobodySeen(topo: Topology, s: PolicyState, dpid: nat, a: Device, f: Frame)
    requires SoundOn(topo, s, dpid) && Seen(s, dpid) == map[] && a in AttachedTo(topo, SwitchName(dpid))
    ensures !Decided(topo, s, dpid, a, f)
  {
    forall b | b in AttachedTo(topo, SwitchName(dpid))
      ensures !ManagedOn(s, dpid, b)
    {
      ManagedSeen(topo, s, dpid, b);
    }
  }

  lemma {:induction false} ManagedSeen(topo: Topology, s: PolicyState, dpid: nat, b: Device)
    requires SoundOn(topo, s, dpid) && b in AttachedTo(topo, SwitchName(dpid))
    ensures ManagedOn(s, dpid, b) ==> Seen(s, dpid) != map[]
  {
    if ManagedOn(s, dpid, b) {
      var v := ManagedWitness(topo, s, dpid, b);
      assert v in Seen(s, dpid);
    }
  }

  lemma {:induction false} ManagedWitness(topo: Topology, s: PolicyState, dpid: nat, b: Device) returns (v: int)
    requires SoundOn(topo, s, dpid) && b in AttachedTo(topo, SwitchName(dpid)) && ManagedOn(s, dpid, b)
    ensures InVlan(Seen(s, dpid), v, MemberOf(b))
  {
    v :| Placed(s, SwitchName(dpid), v, b.name);
    PlacedMember(topo, s, dpid, v, b);
  }

  lemma {:induction false} SeenPortsKnown(topo: Topology, s: PolicyState, dpid: nat)
    requires SoundOn(topo, s, dpid)
    ensures ManagedPorts(Seen(s, dpid)) <= GuardedPorts(Seen(s, dpid), KnownPorts(dpid))
  {
    if KnownPorts(dpid) != {} {
      forall v, m | v in Seen(s, dpid) && m in Seen(s, dpid)[v]
        ensures m.port in KnownPorts(dpid)
      {
        ManagedExactly(s[SwitchName(dpid)], dpid, v, m);
      }
    }
  }

  lemma {:induction false} DecidedByPolicy(topo: Topology, s: PolicyState, dpid: nat, a: Device, f: Frame)
    requires SoundOn(topo, s, dpid) && Seen(s, dpid) != map[]
    requires a in AttachedTo(topo, SwitchName(dpid)) && f.inPort == a.port
    ensures var vm, links := Seen(s, dpid), s[SwitchName(dpid)].links;
            PolicyVerdict(vm, links, GuardedPorts(vm, KnownPorts(dpid)), f) ==
            if Decided(topo, s, dpid, a, f) then Deliver(Destinations(vm, links, f)) else Untouched
  {
    var vm, links := Seen(s, dpid), s[SwitchName(dpid)].links;
    var ports := GuardedPorts(vm, KnownPorts(dpid));
    DecidedIsGuarded(topo, s, dpid, a, f);
    if PolicyVerdict(vm, links, ports, f).Deliver? {
      DecidedDestinations(vm, links, ports, f);
    }
  }

  /** The frame is from a managed port, or from another guarded one and concerns an endpoint. */
  ghost predicate Guarded(vm: VlanMembers, ports: set<int>, f: Frame) {
    || f.inPort in ManagedPorts(vm)
    || (f.inPort in ports && (IsArpBroadcast(f) || exists v, m :: InVlan(vm, v, m) && m.mac == f.ethDst))
  }

  lemma {:induction false} DecidedIsGuarded(topo: Topology, s: PolicyState, dpid: nat, a: Device, f: Frame)
    requires SoundOn(topo, s, dpid) && Seen(s, dpid) != map[]
    requires a in AttachedTo(topo, SwitchName(dpid)) && f.inPort == a.port
    ensures Guarded(Seen(s, dpid), GuardedPorts(Seen(s, dpid), KnownPorts(dpid)), f) <==> Decided(topo, s, dpid, a, f)
  {
    ManagedIsManagedPort(topo, s, dpid, a);
    if KnownPorts(dpid) != {} {
      ReceiverManaged(topo, s, dpid, f);
      SomebodySeen(topo, s, dpid);
    }
  }

  lemma {:induction false} SomebodySeen(topo: Topology, s: PolicyState, dpid: nat)
    requires SoundOn(topo, s, dpid) && Seen(s, dpid) != map[]
    ensures exists b :: b in AttachedTo(topo, SwitchName(dpid)) && ManagedOn(s, dpid, b)
  {
    SeenSound(topo, s, dpid);
    var v := Pick(Seen(s, dpid).Keys);
    assert SoundMembers(AttachedTo(topo, SwitchName(dpid)), Seen(s, dpid)[v]);
    var m: Member := Seen(s, dpid)[v][0];
    assert InVlan(Seen(s, dpid), v, m);
    var b := SeenDevice(topo, s, dpid, v, m);
    assert ManagedOn(s, dpid, b);
  }

  lemma {:induction false} ReceiverManaged(topo: Topology, s: PolicyState, dpid: nat, f: Frame)
    requires SoundOn(topo, s, dpid)
    ensures (exists v, m :: InVlan(Seen(s, dpid), v, m) && m.mac == f.ethDst) <==>
            exists b :: b in AttachedTo(topo, SwitchName(dpid)) && ManagedOn(s, dpid, b) && b.mac == f.ethDst
  {
    if exists v, m :: InVlan(Seen(s, dpid), v, m) && m.mac == f.ethDst {
      var v, m :| InVlan(Seen(s, dpid), v, m) && m.mac == f.ethDst;
      var b := SeenDevice(topo, s, dpid, v, m);
      assert ManagedOn(s, dpid, b);
    }
    if exists b :: b in AttachedTo(topo, SwitchName(dpid)) && ManagedOn(s, dpid, b) && b.mac == f.ethDst {
      var b :| b in AttachedTo(topo, SwitchName(dpid)) && ManagedOn(s, dpid, b) && b.mac == f.ethDst;
      var v := ManagedWitness(topo, s, dpid, b);
    }
  }

  lemma {:induction false} ManagedIsManagedPort(topo: Topology, s: PolicyState, dpid: nat, a: Device)
    requires SoundOn(topo, s, dpid) && a in AttachedTo(topo, SwitchName(dpid))
    ensures ManagedOn(s, dpid, a) <==> a.port in ManagedPorts(Seen(s, dpid))
  {
    var vm := Seen(s, dpid);
    if ManagedOn(s, dpid, a) {
      var v := ManagedWitness(topo, s, dpid, a);
      assert MemberOf(a) in vm[v];
    }
    if a.port in ManagedPorts(vm) {
      var v: int, m: Member :| v in vm && m in vm[v] && m.port == a.port;
      OwnMember(topo, s, dpid, a, v, m);
    }
  }

  /** In particular, a unicast frame between two devices of a switch that concerns a managed
      one leaves on the receiver's port and no other if the two may talk, and is dropped if
      they may not. */
  lemma {:induction false} UnicastBetweenDevices(
      topo: Topology, ops: seq<Op>, p: Payload, dpid: nat, start: Table, steps: seq<Step>, a: Device, b: Device,
      f: Frame)
    requires SoundTopology(topo) && Stores(p, Run(topo, map[], ops))
    requires ProgrammedFrom(start, dpid, steps, p) && LowerFlows(OthersAt(start, steps, |steps|), f)
    requires a in AttachedTo(topo, SwitchName(dpid)) && b in AttachedTo(topo, SwitchName(dpid)) && a != b
    requires f.inPort == a.port && f.ethDst == b.mac && InSight(dpid, a.port)
    requires var s := Run(topo, map[], ops);
             ManagedOn(s, dpid, a) || (KnownPorts(dpid) != {} && ManagedOn(s, dpid, b))
    ensures Treats(TableAt(start, dpid, steps, |steps|), f,
                   if TalksOn(Run(topo, map[], ops), dpid, a, b) then [Output(b.port)] else [])
  {
    DashboardToDataPlane(topo, ops, p, dpid, start, steps, a, f);
    AttachedSound(topo, SwitchName(dpid));
    UnicastWanted(topo, Run(topo, map[], ops), dpid, TableAt(start, dpid, steps, |steps|),
                  OthersAt(start, steps, |steps|), a, b, f);
  }

  lemma {:induction false} UnicastWanted(
      topo: Topology, s: PolicyState, dpid: nat, t: Table, base: Table, a: Device, b: Device, f: Frame)
    requires SoundDevices(AttachedTo(topo, SwitchName(dpid))) && Realises(t, base, f, Wanted(topo, s, dpid, a, f))
    requires a in AttachedTo(topo, SwitchName(dpid)) && b in AttachedTo(topo, SwitchName(dpid)) && a != b
    requires f.ethDst == b.mac && InSight(dpid, a.port)
    requires ManagedOn(s, dpid, a) || (KnownPorts(dpid) != {} && ManagedOn(s, dpid, b))
    ensures Treats(t, f, if TalksOn(s, dpid, a, b) then [Output(b.port)] else [])
  {
    assert Decided(topo, s, dpid, a, f);
    OneTalkPort(topo, s, dpid, a, b, f);
    DeliversOne(t, base, f, TalkPorts(topo, s, dpid, a, f), b.port);
  }

  lemma {:induction false} DeliversOne(t: Table, base: Table, f: Frame, ports: iset<int>, port: int)
    requires Realises(t, base, f, Deliver(ports)) && (ports == iset{port} || ports == iset{})
    ensures Treats(t, f, if port in ports then [Output(port)] else [])
  {
    forall k | Wins(t, f, k)
      ensures t[k].actions == if port in ports then [Output(port)] else []
    {
      SendsOne(t[k].actions, ports, port);
    }
  }

  lemma {:induction false} OneTalkPort(topo: Topology, s: PolicyState, dpid: nat, a: Device, b: Device, f: Frame)
    requires SoundDevices(AttachedTo(topo, SwitchName(dpid)))
    requires a in AttachedTo(topo, SwitchName(dpid)) && b in AttachedTo(topo, SwitchName(dpid)) && a != b
    requires f.ethDst == b.mac
    ensures TalkPorts(topo, s, dpid, a, f) == if TalksOn(s, dpid, a, b) then iset{b.port} else iset{}
  {
    forall d | d in AttachedTo(topo, SwitchName(dpid)) && (IsArpBroadcast(f) || d.mac == f.ethDst)
      ensures d == b
    {
      DeviceAt(AttachedTo(topo, SwitchName(dpid)), d, b);
    }
  }

  lemma {:induction false} SendsOne(actions: seq<Action>, ports: iset<int>, port: int)
    requires Sends(actions, ports) && (ports == iset{port} || ports == iset{})
    ensures actions == if port in ports then [Output(port)] else []
  {
    assert 1 < |actions| ==> actions[0] != actions[1] && actions[1] in actions;
    assert 0 < |actions| ==> actions[0] in actions;
    forall x | x in actions
      ensures x == Output(port) && port in ports
    {
      assert x == Output(x.port);
    }
    if port in ports {
      assert Output(port) in actions;
    }
  }
}
