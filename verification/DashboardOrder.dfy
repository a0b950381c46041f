/** How the dashboard stores members: with the attached device's own data, and in every
    reachable policy by ascending port. */
module DashboardOrder {
  import opened Prelude
  import opened VlanPolicy
  import VlanNormalizer
  import opened Dashboard
  import opened DashboardInvariant
  import opened DashboardMeaning

  ghost predicate CfgByPort(vlans: map<int, seq<Member>>) {
    forall v :: v in vlans ==> ByPort(vlans[v])
  }

  ghost predicate PolicyByPort(s: PolicyState) {
    forall sw :: sw in s ==> CfgByPort(s[sw].vlans)
  }

  lemma {:induction false} WithoutByPort(ms: seq<Member>, device: string)
    requires ByPort(ms)
    ensures ByPort(WithoutDevice(ms, device))
  {
    if ms != [] {
      var n := |ms| - 1;
      WithoutByPort(ms[..n], device);
      var rest := WithoutDevice(ms[..n], device);
      forall i | 0 <= i < |rest|
        ensures rest[i].port <= ms[n].port
      {
        assert rest[i] in rest;
        var j :| 0 <= j < n && ms[..n][j] == rest[i];
      }
    }
  }

  lemma {:induction false} VlansWithoutByPort(vlans: map<int, seq<Member>>, device: string)
    requires CfgByPort(vlans)
    ensures CfgByPort(VlansWithout(vlans, device))
  {
    forall v | v in VlansWithout(vlans, device)
      ensures ByPort(VlansWithout(vlans, device)[v])
    {
      WithoutByPort(vlans[v], device);
    }
  }

  lemma {:induction false} KeptByPort(devices: seq<Device>, cfg: SwitchCfg)
    requires SoundDevices(devices) && SoundVlans(devices, cfg.vlans) && CfgByPort(cfg.vlans)
    ensures Kept(cfg).Some? ==> CfgByPort(Kept(cfg).value.vlans)
  {
    CleanedSound(devices, cfg);
  }

  lemma {:induction false} EditedByPort(devices: seq<Device>, cfg: SwitchCfg, e: Edit)
    requires SoundDevices(devices) && SoundCfg(devices, cfg) && CfgByPort(cfg.vlans)
    ensures Edited(cfg, e).Some? ==> CfgByPort(Edited(cfg, e).value.vlans)
  {
    match e
    case DropDevice(device) =>
      VlansWithoutByPort(cfg.vlans, device);
      VlansWithoutSound(devices, cfg.vlans, device);
      KeptByPort(devices, SwitchCfg(VlansWithout(cfg.vlans, device), cfg.links));
    case DropVlan(v) =>
      KeptByPort(devices, SwitchCfg(cfg.vlans - {v}, LinksWithout(cfg.links, v)));
    case SetLink(a, b, enabled) =>
      KeptByPort(devices, cfg.(links := Relinked(cfg.links, a, b, enabled)));
  }

  lemma {:induction false} EditedAllByPort(topo: Topology, s: PolicyState, e: Edit)
    requires SoundTopology(topo) && SoundPolicy(topo, s) && PolicyByPort(s)
    ensures PolicyByPort(EditedAll(s, e))
  {
    forall sw | sw in EditedAll(s, e)
      ensures CfgByPort(EditedAll(s, e)[sw].vlans)
    {
      AttachedSound(topo, sw);
      EditedByPort(AttachedTo(topo, sw), s[sw], e);
    }
  }

  lemma {:induction false} AssignByPort(topo: Topology, s: PolicyState, sw: string, device: string, vlan: int)
    requires SoundTopology(topo) && SoundPolicy(topo, s) && PolicyByPort(s)
    requires Assigned(topo, s, sw, device, vlan).Some?
    ensures PolicyByPort(Assigned(topo, s, sw, device, vlan).value)
  {
    EditedAllByPort(topo, s, DropDevice(device));
    var d := AssignShape(topo, s, sw, device, vlan);
    PlacementByPort(EditedAll(s, DropDevice(device)), sw, vlan, MemberOf(d));
  }

  lemma {:induction false} PlacementByPort(s: PolicyState, sw: string, vlan: int, m: Member)
    requires PolicyByPort(s)
    ensures PolicyByPort(Placement(s, sw, vlan, m))
  {
    var cfg := CfgIn(s, sw);
    SortedIsByPort(VlanIn(cfg.vlans, vlan) + [m]);
    assert CfgByPort(cfg.vlans);
  }

  /** After an assignment the VLAN has the device with the port, address and text it is
      attached with. */
  lemma {:induction false} AssignRecords(
      topo: Topology, s: PolicyState, sw: string, vlan: int, d: Device) returns (t: PolicyState)
    requires SoundTopology(topo) && SoundPolicy(topo, s) && d in AttachedTo(topo, sw)
    requires Assigned(topo, s, sw, d.name, vlan).Some?
    ensures t == Assigned(topo, s, sw, d.name, vlan).value
    ensures sw in t && vlan in t[sw].vlans && Member(d.name, d.text, d.port, d.mac) in t[sw].vlans[vlan]
  {
    t := Assigned(topo, s, sw, d.name, vlan).value;
    var e := AssignShape(topo, s, sw, d.name, vlan);
    AttachedSound(topo, sw);
    OneName(AttachedTo(topo, sw), d, e);
    var others := VlanIn(CfgIn(Dropped(s, d.name), sw).vlans, vlan);
    SortedMembersContents(others + [MemberOf(d)]);
    assert (others + [MemberOf(d)])[|others|] == MemberOf(d);
  }

  lemma {:induction false} OneName(devices: seq<Device>, d: Device, e: Device)
    requires SoundDevices(devices) && d in devices && e in devices && d.name == e.name
    ensures d == e
  {
    var i :| 0 <= i < |devices| && devices[i] == d;
    var j :| 0 <= j < |devices| && devices[j] == e;
  }

  lemma {:induction false} AutoByPort(devices: seq<Device>, vlans: seq<int>, allow: seq<VlanNormalizer.RawLink>)
    requires SoundDevices(devices) && |devices| <= |vlans|
    requires NoDup(vlans) && forall i :: 0 <= i < |vlans| ==> ValidVlan(vlans[i])
    ensures CfgByPort(AutoCfg(devices, vlans, allow).vlans)
  {
    var members := OneVlanEach(devices, vlans, |devices|);
    OneVlanEachSound(devices, vlans);
    CleanVlansKeeps(devices, members);
    forall v | v in members
      ensures ByPort(members[v])
    {
      var i := OwnIndex(devices, vlans, v);
    }
  }

  lemma {:induction false} AutoOpByPort(topo: Topology, s: PolicyState, op: Op)
    requires SoundTopology(topo) && PolicyByPort(s) && (op.AutoSwitch? || op.AutoAll?) && Applied(topo, s, op).Some?
    ensures PolicyByPort(Applied(topo, s, op).value)
  {
    var vlans := UsableVlans(op.vlanIds, |op.vlanIds|);
    UsableVlansSound(op.vlanIds, |op.vlanIds|);
    if op.AutoSwitch? {
      AttachedSound(topo, op.sw);
      AutoByPort(AttachedTo(topo, op.sw), vlans, op.allow);
    } else {
      forall sw | sw in topo && topo[sw] != []
        ensures CfgByPort(AutoCfg(topo[sw], vlans, op.allow).vlans)
      {
        AutoByPort(topo[sw], vlans, op.allow);
      }
    }
  }

  lemma {:induction false} RemoveByPort(
      topo: Topology, s: PolicyState, sw: string, vlan: int, device: Option<string>)
    requires SoundTopology(topo) && SoundPolicy(topo, s) && PolicyByPort(s)
    requires RemovedAssignment(s, sw, vlan, device).Some?
    ensures PolicyByPort(RemovedAssignment(s, sw, vlan, device).value)
  {
    var devices, cfg := AttachedTo(topo, sw), s[sw];
    AttachedSound(topo, sw);
    assert SoundMembers(devices, cfg.vlans[vlan]);
    var vlans := LessByPort(devices, cfg.vlans, vlan, device);
    CleanedSound(devices, SwitchCfg(vlans, LinksWithout(cfg.links, vlan)));
  }

  lemma {:induction false} LessByPort(
      devices: seq<Device>, vlans: map<int, seq<Member>>, vlan: int, device: Option<string>)
    returns (less: map<int, seq<Member>>)
    requires SoundVlans(devices, vlans) && CfgByPort(vlans) && vlan in vlans
    ensures var rest := if device.Some? then WithoutDevice(vlans[vlan], device.value) else [];
            less == if rest != [] then vlans[vlan := rest] else vlans - {vlan}
    ensures SoundVlans(devices, less) && CfgByPort(less)
  {
    var rest := if device.Some? then WithoutDevice(vlans[vlan], device.value) else [];
    less := if rest != [] then vlans[vlan := rest] else vlans - {vlan};
    assert SoundMembers(devices, vlans[vlan]);
    if rest != [] {
      WithoutByPort(vlans[vlan], device.value);
      WithoutDeviceDistinct(vlans[vlan], device.value);
      assert SoundMembers(devices, rest);
    }
  }

  lemma {:induction false} LinkByPort(topo: Topology, s: PolicyState, sw: string, a: int, b: int, enabled: bool)
    requires SoundTopology(topo) && SoundPolicy(topo, s) && PolicyByPort(s)
    requires Interconnected(s, sw, a, b, enabled).Some?
    ensures PolicyByPort(Interconnected(s, sw, a, b, enabled).value)
  {
    AttachedSound(topo, sw);
    EditedByPort(AttachedTo(topo, sw), s[sw], SetLink(a, b, enabled));
  }

  lemma {:induction false} AppliedByPort(topo: Topology, s: PolicyState, op: Op)
    requires SoundTopology(topo) && SoundPolicy(topo, s) && PolicyByPort(s) && Applied(topo, s, op).Some?
    ensures PolicyByPort(Applied(topo, s, op).value)
  {
    match op
    case Assign(sw, device, vlan) => AssignByPort(topo, s, sw, device, vlan);
    case AutoSwitch(_, _, _) => AutoOpByPort(topo, s, op);
    case AutoAll(_, _) => AutoOpByPort(topo, s, op);
    case RemoveEverywhere(vlan) => EditedAllByPort(topo, s, DropVlan(vlan));
    case RemoveAssignment(sw, vlan, device) =>
      RemoveByPort(topo, s, sw, vlan, if device == Some("") then None else device);
    case Interconnect(sw, a, b, enabled) => LinkByPort(topo, s, sw, a, b, enabled);
    case InterconnectScope(a, b, enabled, only) =>
      if only.Some? && only.value != "" {
        LinkByPort(topo, s, only.value, a, b, enabled);
      } else {
        EditedAllByPort(topo, s, SetLink(a, b, enabled));
      }
    case _ =>
  }

  /** In every policy that operations reach from the empty one, each VLAN's members are in
      the order of their ports. */
  lemma {:induction false} RunByPort(topo: Topology, ops: seq<Op>)
    requires SoundTopology(topo)
    ensures PolicyByPort(Run(topo, map[], ops))
  {
    if ops != [] {
      var before := Run(topo, map[], ops[..|ops| - 1]);
      RunSound(topo, ops[..|ops| - 1]);
      RunByPort(topo, ops[..|ops| - 1]);
      if Applied(topo, before, ops[|ops| - 1]).Some? {
        AppliedByPort(topo, before, ops[|ops| - 1]);
      }
    }
  }

  // ----- Links by number -----

  /** The smaller number decides, then the greater. */
  predicate NotAfter(l: Link, k: Link) { l.src < k.src || (l.src == k.src && l.dst <= k.dst) }

  ghost predicate Sorted(links: seq<Link>) {
    forall i, j :: 0 <= i < j < |links| ==> NotAfter(links[i], links[j])
  }

  lemma {:induction false} InsertSorted(links: seq<Link>, l: Link)
    requires Sorted(links)
    ensures Sorted(InsertLink(links, l))
    ensures forall k :: k in InsertLink(links, l) ==> k in links || k == l
  {
    if links != [] {
      var n := |links| - 1;
      assert links == links[..n] + [links[n]];
      if !NotAfter(links[n], l) {
        InsertSorted(links[..n], l);
        var front := InsertLink(links[..n], l);
        forall i | 0 <= i < |front|
          ensures NotAfter(front[i], links[n])
        {
          assert front[i] in front;
        }
      }
    }
  }

  lemma {:induction false} SortedLinksSorted(links: seq<Link>)
    ensures Sorted(SortedLinks(links))
    ensures forall k :: k in SortedLinks(links) ==> k in links
  {
    if links != [] {
      var n := |links| - 1;
      SortedLinksSorted(links[..n]);
      InsertSorted(SortedLinks(links[..n]), links[n]);
    }
  }

  lemma {:induction false} CleanSorted(links: seq<Link>, vlans: set<int>, n: nat)
    requires n <= |links| && Sorted(links) && forall k :: k in links ==> k.src < k.dst
    ensures Sorted(CleanLinks(links, vlans, n))
    ensures forall k :: k in CleanLinks(links, vlans, n) ==> k in links[..n]
  {
    if n > 0 {
      CleanSorted(links, vlans, n - 1);
      var before, l := CleanLinks(links, vlans, n - 1), links[n - 1];
      assert links[..n] == links[..n - 1] + [l];
      assert l in links && VlanNormalizer.Ordered(l.src, l.dst) == l;
      forall i | 0 <= i < |before|
        ensures NotAfter(before[i], l)
      {
        assert before[i] in before;
        var j :| 0 <= j < n - 1 && links[j] == before[i];
      }
    }
  }

  lemma {:induction false} RelinkedSorted(links: seq<Link>, a: int, b: int)
    requires a != b && forall k :: k in links ==> k.src < k.dst
    ensures Sorted(Relinked(links, a, b, true)) && forall k :: k in Relinked(links, a, b, true) ==> k.src < k.dst
  {
    var all := LinksExcept(links, VlanNormalizer.Ordered(a, b)) + [VlanNormalizer.Ordered(a, b)];
    SortedLinksSorted(all);
    assert forall k :: k in all ==> k.src < k.dst;
  }

  lemma {:induction false} KeptSorted(cfg: SwitchCfg)
    requires Sorted(cfg.links) && forall k :: k in cfg.links ==> k.src < k.dst
    ensures Sorted(Cleaned(cfg).links)
  {
    CleanSorted(cfg.links, CleanVlans(cfg.vlans).Keys, |cfg.links|);
  }

  /** Setting a link leaves the links of the switch in ascending order. */
  lemma {:induction false} InterconnectSorts(topo: Topology, s: PolicyState, sw: string, a: int, b: int)
    requires SoundPolicy(topo, s) && Interconnected(s, sw, a, b, true).Some?
    ensures var t := Interconnected(s, sw, a, b, true).value;
            sw in t ==> Sorted(t[sw].links)
  {
    var cfg := s[sw];
    assert SoundCfg(AttachedTo(topo, sw), cfg);
    RelinkedSorted(cfg.links, a, b);
    KeptSorted(cfg.(links := Relinked(cfg.links, a, b, true)));
  }

  // ----- Cleaning and sorting, for any list -----

  lemma {:induction false} CleanDevices(ms: seq<Member>, n: nat, d: string)
    requires n <= |ms|
    ensures d in Devices(CleanMembers(ms, n)) <==> d != "" && exists i :: 0 <= i < n && ms[i].device == d
  {
    if n > 0 {
      CleanDevices(ms, n - 1, d);
      var before := CleanMembers(ms, n - 1);
      assert Devices(before + [ms[n - 1]]) == Devices(before) + {ms[n - 1].device};
    }
  }

  ghost predicate FirstOfDevice(ms: seq<Member>, n: nat, m: Member)
    requires n <= |ms|
  {
    m.device != "" && exists i :: 0 <= i < n && ms[i] == m && forall j :: 0 <= j < i ==> ms[j].device != m.device
  }

  /** Of each named device the first member is kept, whatever the list. */
  lemma {:induction false} CleanFirst(ms: seq<Member>, n: nat, m: Member)
    requires n <= |ms|
    ensures m in CleanMembers(ms, n) <==> FirstOfDevice(ms, n, m)
  {
    if n > 0 {
      CleanFirst(ms, n - 1, m);
      CleanDevices(ms, n - 1, ms[n - 1].device);
      if FirstOfDevice(ms, n, m) && !FirstOfDevice(ms, n - 1, m) {
        assert ms[n - 1] == m;
      }
    }
  }
}
