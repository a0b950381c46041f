/** What every dashboard operation keeps, on a fixed topology, over every run. */
module DashboardInvariant {
  import opened Prelude
  import opened OpenFlow
  import opened VlanPolicy
  import opened VlanNormalizer
  import opened Dashboard

  // ----- The topology and the invariant -----

  /** Device names are unique in the network, ports and addresses on a switch. */
  ghost predicate SoundTopology(topo: Topology) {
    && (forall sw :: sw in topo ==> IsSwitchName(sw) && SoundDevices(topo[sw]))
    && (forall sw, other, d, e ::
          sw in topo && other in topo && d in topo[sw] && e in topo[other] && d.name == e.name ==> sw == other)
  }

  ghost predicate SoundDevices(devices: seq<Device>) {
    && (forall d :: d in devices ==> d.name != "" && d.port > 0 && d.mac != BROADCAST)
    && (forall i, j :: 0 <= i < j < |devices| ==>
          devices[i].name != devices[j].name && devices[i].port != devices[j].port && devices[i].mac != devices[j].mac)
  }

  ghost predicate DistinctDevices(ms: seq<Member>) {
    forall i, j :: 0 <= i < j < |ms| ==> ms[i].device != ms[j].device
  }

  ghost predicate OfDevice(devices: seq<Device>, m: Member) {
    exists d :: d in devices && m == MemberOf(d)
  }

  ghost predicate SoundMembers(devices: seq<Device>, ms: seq<Member>) {
    ms != [] && DistinctDevices(ms) && forall m :: m in ms ==> OfDevice(devices, m)
  }

  /** Valid numbers, no empty VLAN, every member an attached device, no device twice. */
  ghost predicate SoundVlans(devices: seq<Device>, vlans: map<int, seq<Member>>) {
    && (forall v :: v in vlans ==> ValidVlan(v))
    && (forall v :: v in vlans ==> SoundMembers(devices, vlans[v]))
    && (forall v, w, m, n ::
          v in vlans && w in vlans && m in vlans[v] && n in vlans[w] && m.device == n.device ==> v == w)
  }

  /** Links join two VLANs of the switch, smaller first, each pair once. */
  ghost predicate SoundLinks(links: seq<Link>, vlans: set<int>) {
    && (forall i :: 0 <= i < |links| ==> links[i].src < links[i].dst && links[i].src in vlans && links[i].dst in vlans)
    && NoDup(links)
  }

  ghost predicate SoundCfg(devices: seq<Device>, cfg: SwitchCfg) {
    cfg.vlans != map[] && SoundVlans(devices, cfg.vlans) && SoundLinks(cfg.links, cfg.vlans.Keys)
  }

  ghost predicate SoundPolicy(topo: Topology, s: PolicyState) {
    forall sw :: sw in s ==> IsSwitchName(sw) && SoundCfg(AttachedTo(topo, sw), s[sw])
  }

  /** The device is a member of the VLAN on the switch. */
  ghost predicate Placed(s: PolicyState, sw: string, v: int, device: string) {
    sw in s && v in s[sw].vlans && exists m :: m in s[sw].vlans[v] && m.device == device
  }

  /** In a sound policy a device is in at most one VLAN of one switch. */
  lemma {:induction false} PlacedOnce(
      topo: Topology, s: PolicyState, sw: string, v: int, other: string, w: int, device: string)
    requires SoundTopology(topo) && SoundPolicy(topo, s)
    requires Placed(s, sw, v, device) && Placed(s, other, w, device)
    ensures sw == other && v == w
  {
    var d := OwnerOf(topo, s, sw, v, device);
    var e := OwnerOf(topo, s, other, w, device);
    assert sw == other;
    var m :| m in s[sw].vlans[v] && m.device == device;
    var n :| n in s[sw].vlans[w] && n.device == device;
    assert SoundVlans(AttachedTo(topo, sw), s[sw].vlans);
  }

  lemma {:induction false} OwnerOf(
      topo: Topology, s: PolicyState, sw: string, v: int, device: string) returns (d: Device)
    requires SoundPolicy(topo, s) && Placed(s, sw, v, device)
    ensures sw in topo && d in topo[sw] && d.name == device
  {
    var m :| m in s[sw].vlans[v] && m.device == device;
    assert SoundMembers(AttachedTo(topo, sw), s[sw].vlans[v]);
    d :| d in AttachedTo(topo, sw) && m == MemberOf(d);
  }

  // ----- Cleaning -----

  lemma {:induction false} DistinctSnoc(ms: seq<Member>, m: Member)
    ensures DistinctDevices(ms + [m]) <==> DistinctDevices(ms) && m.device !in Devices(ms)
  {
    if DistinctDevices(ms + [m]) {
      forall x | x in ms
        ensures x.device != m.device
      {
        var i :| 0 <= i < |ms| && ms[i] == x;
        assert (ms + [m])[i] == x && (ms + [m])[|ms|] == m;
      }
      assert forall i :: 0 <= i < |ms| ==> (ms + [m])[i] == ms[i];
    }
    if DistinctDevices(ms) && m.device !in Devices(ms) {
      assert forall i :: 0 <= i < |ms| ==> ms[i] in ms && ms[i].device in Devices(ms);
    }
  }

  lemma {:induction false} CleanMembersKeepsDistinct(ms: seq<Member>, n: nat)
    requires n <= |ms| && DistinctDevices(ms) && forall m :: m in ms ==> m.device != ""
    ensures CleanMembers(ms, n) == ms[..n]
  {
    if n > 0 {
      CleanMembersKeepsDistinct(ms, n - 1);
      assert ms[..n] == ms[..n - 1] + [ms[n - 1]];
      assert ms[n - 1].device !in Devices(ms[..n - 1]);
    }
  }

  lemma {:induction false} CleanLinksSound(links: seq<Link>, vlans: set<int>, n: nat)
    requires n <= |links|
    ensures SoundLinks(CleanLinks(links, vlans, n), vlans)
  {
    if n > 0 {
      CleanLinksSound(links, vlans, n - 1);
      var before, l := CleanLinks(links, vlans, n - 1), links[n - 1];
      if KeepsLink(l, vlans) && Ordered(l.src, l.dst) !in before {
        var after := CleanLinks(links, vlans, n);
        assert after == before + [Ordered(l.src, l.dst)];
        assert NoDup(after);
        assert Ordered(l.src, l.dst).src in vlans && Ordered(l.src, l.dst).dst in vlans;
      }
    }
  }

  lemma {:induction false} NamedMembers(devices: seq<Device>, ms: seq<Member>)
    requires SoundDevices(devices) && SoundMembers(devices, ms)
    ensures CleanMembers(ms, |ms|) == ms
  {
    forall m | m in ms
      ensures m.device != ""
    {
      assert OfDevice(devices, m);
    }
    CleanMembersKeepsDistinct(ms, |ms|);
    assert ms[..|ms|] == ms;
  }

  lemma {:induction false} CleanVlansKeeps(devices: seq<Device>, vlans: map<int, seq<Member>>)
    requires SoundDevices(devices) && SoundVlans(devices, vlans)
    ensures CleanVlans(vlans) == vlans
  {
    forall v | v in vlans
      ensures CleanMembers(vlans[v], |vlans[v]|) == vlans[v] != []
    {
      NamedMembers(devices, vlans[v]);
    }
  }

  /** Cleaning sound VLANs only drops links; what is kept is sound. */
  lemma {:induction false} CleanedSound(devices: seq<Device>, cfg: SwitchCfg)
    requires SoundDevices(devices) && SoundVlans(devices, cfg.vlans)
    ensures Cleaned(cfg).vlans == cfg.vlans
    ensures Kept(cfg).Some? <==> cfg.vlans != map[]
    ensures cfg.vlans != map[] ==> SoundCfg(devices, Cleaned(cfg))
  {
    CleanVlansKeeps(devices, cfg.vlans);
    CleanLinksSound(cfg.links, cfg.vlans.Keys, |cfg.links|);
    var links := Cleaned(cfg).links;
    if links != [] {
      assert links[0].src in Cleaned(cfg).vlans;
    }
  }

  // ----- Edits -----

  lemma {:induction false} WithoutDeviceDistinct(ms: seq<Member>, device: string)
    requires DistinctDevices(ms)
    ensures DistinctDevices(WithoutDevice(ms, device))
  {
    if ms != [] {
      var n := |ms| - 1;
      assert ms == ms[..n] + [ms[n]];
      DistinctSnoc(ms[..n], ms[n]);
      WithoutDeviceDistinct(ms[..n], device);
      DistinctSnoc(WithoutDevice(ms[..n], device), ms[n]);
    }
  }

  lemma {:induction false} VlansWithoutSound(devices: seq<Device>, vlans: map<int, seq<Member>>, device: string)
    requires SoundVlans(devices, vlans)
    ensures SoundVlans(devices, VlansWithout(vlans, device))
  {
    var rest := VlansWithout(vlans, device);
    forall v | v in rest
      ensures SoundMembers(devices, rest[v])
    {
      assert SoundMembers(devices, vlans[v]);
      WithoutDeviceDistinct(vlans[v], device);
    }
  }

  lemma {:induction false} EditedSound(devices: seq<Device>, cfg: SwitchCfg, e: Edit)
    requires SoundDevices(devices) && SoundCfg(devices, cfg)
    ensures Edited(cfg, e).Some? ==> SoundCfg(devices, Edited(cfg, e).value)
  {
    match e
    case DropDevice(device) =>
      VlansWithoutSound(devices, cfg.vlans, device);
      CleanedSound(devices, SwitchCfg(VlansWithout(cfg.vlans, device), cfg.links));
    case DropVlan(v) =>
      CleanedSound(devices, SwitchCfg(cfg.vlans - {v}, LinksWithout(cfg.links, v)));
    case SetLink(a, b, enabled) =>
      CleanedSound(devices, cfg.(links := Relinked(cfg.links, a, b, enabled)));
  }

  lemma {:induction false} AttachedSound(topo: Topology, sw: string)
    requires SoundTopology(topo)
    ensures SoundDevices(AttachedTo(topo, sw))
  {
  }

  lemma {:induction false} EditedAllSound(topo: Topology, s: PolicyState, e: Edit)
    requires SoundTopology(topo) && SoundPolicy(topo, s)
    ensures SoundPolicy(topo, EditedAll(s, e))
  {
    forall sw | sw in EditedAll(s, e)
      ensures IsSwitchName(sw) && SoundCfg(AttachedTo(topo, sw), EditedAll(s, e)[sw])
    {
      AttachedSound(topo, sw);
      EditedSound(AttachedTo(topo, sw), s[sw], e);
    }
  }

  // ----- Assigning a device -----

  lemma {:induction false} FoundDevice(devices: seq<Device>, name: string)
    ensures FindDevice(devices, name).Some?
        ==> FindDevice(devices, name).value in devices && FindDevice(devices, name).value.name == name
    ensures FindDevice(devices, name).None? ==> forall d :: d in devices ==> d.name != name
  {
    if devices != [] {
      FoundDevice(devices[1..], name);
    }
  }

  lemma {:induction false} InsertMemberContents(ms: seq<Member>, m: Member)
    ensures forall x :: x in InsertMember(ms, m) <==> x in ms || x == m
  {
    if ms != [] && ms[|ms| - 1].port > m.port {
      var n := |ms| - 1;
      InsertMemberContents(ms[..n], m);
      assert ms == ms[..n] + [ms[n]];
    }
  }

  lemma {:induction false} InsertMemberDistinct(ms: seq<Member>, m: Member)
    requires DistinctDevices(ms + [m])
    ensures DistinctDevices(InsertMember(ms, m))
  {
    if ms != [] && ms[|ms| - 1].port > m.port {
      var n := |ms| - 1;
      DistinctSnoc(ms, m);
      assert ms == ms[..n] + [ms[n]];
      DistinctSnoc(ms[..n], ms[n]);
      DistinctSnoc(ms[..n], m);
      InsertMemberDistinct(ms[..n], m);
      InsertMemberContents(ms[..n], m);
      DistinctSnoc(InsertMember(ms[..n], m), ms[n]);
    }
  }

  lemma {:induction false} SortedMembersContents(ms: seq<Member>)
    ensures forall x :: x in SortedMembers(ms) <==> x in ms
    ensures DistinctDevices(ms) ==> DistinctDevices(SortedMembers(ms))
  {
    if ms != [] {
      var n := |ms| - 1;
      var before := SortedMembers(ms[..n]);
      SortedMembersContents(ms[..n]);
      InsertMemberContents(before, ms[n]);
      assert ms == ms[..n] + [ms[n]];
      DistinctSnoc(ms[..n], ms[n]);
      DistinctSnoc(before, ms[n]);
      if DistinctDevices(ms) {
        assert Devices(before) == Devices(ms[..n]);
        InsertMemberDistinct(before, ms[n]);
      }
    }
  }

  ghost predicate Avoids(vlans: map<int, seq<Member>>, device: string) {
    forall v, m :: v in vlans && m in vlans[v] ==> m.device != device
  }

  lemma {:induction false} ReplacedVlanSound(
      devices: seq<Device>, vlans: map<int, seq<Member>>, vlan: int, ms: seq<Member>)
    requires SoundVlans(devices, vlans) && ValidVlan(vlan) && SoundMembers(devices, ms)
    requires forall v, m, n :: v in vlans && v != vlan && m in ms && n in vlans[v] ==> m.device != n.device
    ensures SoundVlans(devices, vlans[vlan := ms])
  {
  }

  lemma {:induction false} AppendedSound(devices: seq<Device>, others: seq<Member>, m: Member)
    requires others != [] ==> SoundMembers(devices, others)
    requires OfDevice(devices, m) && m.device !in Devices(others)
    ensures SoundMembers(devices, SortedMembers(others + [m]))
  {
    var ms := SortedMembers(others + [m]);
    SortedMembersContents(others + [m]);
    DistinctSnoc(others, m);
    assert m in ms;
    assert forall x :: x in ms ==> x in others || x == m;
  }

  lemma {:induction false} AddedSound(devices: seq<Device>, cfg: SwitchCfg, vlan: int, m: Member)
    requires SoundDevices(devices) && SoundVlans(devices, cfg.vlans) && Avoids(cfg.vlans, m.device)
    requires OfDevice(devices, m) && ValidVlan(vlan)
    ensures WithMember(cfg, vlan, m).vlans == cfg.vlans[vlan := SortedMembers(VlanIn(cfg.vlans, vlan) + [m])]
    ensures SoundCfg(devices, WithMember(cfg, vlan, m))
  {
    var others := VlanIn(cfg.vlans, vlan);
    var ms := SortedMembers(others + [m]);
    AppendedSound(devices, others, m);
    forall v, x, n | v in cfg.vlans && v != vlan && x in ms && n in cfg.vlans[v]
      ensures x.device != n.device
    {
      SortedMembersContents(others + [m]);
      assert x in others || x == m;
    }
    ReplacedVlanSound(devices, cfg.vlans, vlan, ms);
    assert vlan in cfg.vlans[vlan := ms];
    CleanedSound(devices, cfg.(vlans := cfg.vlans[vlan := ms]));
  }

  lemma {:induction false} DroppedAvoids(cfg: SwitchCfg, device: string)
    ensures Avoids(VlansWithout(cfg.vlans, device), device)
  {
  }

  lemma {:induction false} AssignSound(topo: Topology, s: PolicyState, sw: string, device: string, vlan: int)
    requires SoundTopology(topo) && SoundPolicy(topo, s)
    requires Assigned(topo, s, sw, device, vlan).Some?
    ensures SoundPolicy(topo, Assigned(topo, s, sw, device, vlan).value)
  {
    var devices := AttachedTo(topo, sw);
    AttachedSound(topo, sw);
    FoundDevice(devices, device);
    var d := FindDevice(devices, device).value;
    var s1 := EditedAll(s, DropDevice(device));
    EditedAllSound(topo, s, DropDevice(device));
    var cfg := CfgIn(s1, sw);
    assert SoundVlans(devices, cfg.vlans);
    VlansWithoutSound(devices, cfg.vlans, device);
    DroppedAvoids(cfg, device);
    assert OfDevice(devices, MemberOf(d));
    AddedSound(devices, cfg.(vlans := VlansWithout(cfg.vlans, device)), vlan, MemberOf(d));
  }

  // ----- Automatic configuration -----

  lemma {:induction false} UsableVlansSound(raw: seq<Option<int>>, n: nat)
    requires n <= |raw|
    ensures NoDup(UsableVlans(raw, n))
    ensures forall i :: 0 <= i < |UsableVlans(raw, n)| ==> ValidVlan(UsableVlans(raw, n)[i])
  {
    if n > 0 {
      UsableVlansSound(raw, n - 1);
    }
  }

  lemma {:induction false} OneVlanEachMeaning(devices: seq<Device>, vlans: seq<int>, n: nat)
    requires n <= |devices| && n <= |vlans| && NoDup(vlans)
    ensures forall v :: v in OneVlanEach(devices, vlans, n) <==> v in vlans[..n]
    ensures forall i :: 0 <= i < n ==> vlans[i] in OneVlanEach(devices, vlans, n) &&
                                       OneVlanEach(devices, vlans, n)[vlans[i]] == [MemberOf(devices[i])]
  {
    if n > 0 {
      OneVlanEachMeaning(devices, vlans, n - 1);
      assert vlans[..n] == vlans[..n - 1] + [vlans[n - 1]];
      assert vlans[n - 1] !in vlans[..n - 1];
    }
  }

  lemma {:induction false} OneVlanEachSound(devices: seq<Device>, vlans: seq<int>)
    requires SoundDevices(devices) && |devices| <= |vlans|
    requires NoDup(vlans) && forall i :: 0 <= i < |vlans| ==> ValidVlan(vlans[i])
    ensures SoundVlans(devices, OneVlanEach(devices, vlans, |devices|))
  {
    var members := OneVlanEach(devices, vlans, |devices|);
    OneVlanEachMeaning(devices, vlans, |devices|);
    forall v | v in members
      ensures ValidVlan(v) && SoundMembers(devices, members[v])
    {
      var i := OwnIndex(devices, vlans, v);
      assert OfDevice(devices, MemberOf(devices[i]));
    }
    forall v: int, w: int, m: Member, n: Member | v in members && w in members && m in members[v] && n in members[w]
        && m.device == n.device
      ensures v == w
    {
      SameOwner(devices, vlans, v, m, w, n);
    }
  }

  lemma {:induction false} OwnIndex(devices: seq<Device>, vlans: seq<int>, v: int) returns (i: int)
    requires |devices| <= |vlans| && NoDup(vlans) && v in OneVlanEach(devices, vlans, |devices|)
    ensures 0 <= i < |devices| && vlans[i] == v && devices[i] in devices
    ensures OneVlanEach(devices, vlans, |devices|)[v] == [MemberOf(devices[i])]
  {
    OneVlanEachMeaning(devices, vlans, |devices|);
    assert v in vlans[..|devices|];
    i :| 0 <= i < |devices| && vlans[i] == v;
  }

  lemma {:induction false} SameOwner(devices: seq<Device>, vlans: seq<int>, v: int, m: Member, w: int, n: Member)
    requires SoundDevices(devices) && |devices| <= |vlans| && NoDup(vlans)
    requires v in OneVlanEach(devices, vlans, |devices|) && m in OneVlanEach(devices, vlans, |devices|)[v]
    requires w in OneVlanEach(devices, vlans, |devices|) && n in OneVlanEach(devices, vlans, |devices|)[w]
    requires m.device == n.device
    ensures v == w
  {
    var i := OwnIndex(devices, vlans, v);
    var j := OwnIndex(devices, vlans, w);
    assert devices[i].name == devices[j].name;
  }

  lemma {:induction false} AutoCfgSound(devices: seq<Device>, vlans: seq<int>, allow: seq<RawLink>)
    requires SoundDevices(devices) && devices != [] && |devices| <= |vlans|
    requires NoDup(vlans) && forall i :: 0 <= i < |vlans| ==> ValidVlan(vlans[i])
    ensures SoundCfg(devices, AutoCfg(devices, vlans, allow))
  {
    var members := OneVlanEach(devices, vlans, |devices|);
    OneVlanEachSound(devices, vlans);
    assert members != map[] by {
      OneVlanEachMeaning(devices, vlans, |devices|);
      assert vlans[0] in members;
    }
    var links := ParsedLinks(allow, |allow|);
    CleanedSound(devices, SwitchCfg(members, CleanLinks(links, members.Keys, |links|)));
  }

  lemma {:induction false} AutoSound(topo: Topology, s: PolicyState, op: Op)
    requires SoundTopology(topo) && SoundPolicy(topo, s)
    requires op.AutoSwitch? || op.AutoAll?
    requires Applied(topo, s, op).Some?
    ensures SoundPolicy(topo, Applied(topo, s, op).value)
  {
    var vlans := UsableVlans(op.vlanIds, |op.vlanIds|);
    UsableVlansSound(op.vlanIds, |op.vlanIds|);
    if op.AutoSwitch? {
      AttachedSound(topo, op.sw);
      AutoCfgSound(AttachedTo(topo, op.sw), vlans, op.allow);
    } else {
      forall sw | sw in topo && topo[sw] != []
        ensures SoundCfg(topo[sw], AutoCfg(topo[sw], vlans, op.allow))
      {
        AutoCfgSound(topo[sw], vlans, op.allow);
      }
    }
  }

  // ----- Removing one assignment -----

  lemma {:induction false} RemoveAssignmentSound(
      topo: Topology, s: PolicyState, sw: string, vlan: int, device: Option<string>)
    requires SoundTopology(topo) && SoundPolicy(topo, s)
    requires RemovedAssignment(s, sw, vlan, device).Some?
    ensures SoundPolicy(topo, RemovedAssignment(s, sw, vlan, device).value)
  {
    var devices, cfg := AttachedTo(topo, sw), s[sw];
    AttachedSound(topo, sw);
    assert SoundMembers(devices, cfg.vlans[vlan]);
    var rest := if device.Some? then WithoutDevice(cfg.vlans[vlan], device.value) else [];
    var vlans := if rest != [] then cfg.vlans[vlan := rest] else cfg.vlans - {vlan};
    if rest != [] {
      WithoutDeviceDistinct(cfg.vlans[vlan], device.value);
      assert SoundMembers(devices, rest);
    }
    assert SoundVlans(devices, vlans);
    CleanedSound(devices, SwitchCfg(vlans, LinksWithout(cfg.links, vlan)));
  }

  // ----- Every operation, every run -----

  /** Every operation keeps the policy sound. */
  lemma {:induction false} AppliedSound(topo: Topology, s: PolicyState, op: Op)
    requires SoundTopology(topo) && SoundPolicy(topo, s)
    requires Applied(topo, s, op).Some?
    ensures SoundPolicy(topo, Applied(topo, s, op).value)
  {
    match op
    case Assign(sw, device, vlan) => AssignSound(topo, s, sw, device, vlan);
    case AutoSwitch(_, _, _) => AutoSound(topo, s, op);
    case AutoAll(_, _) => AutoSound(topo, s, op);
    case ClearSwitch(_) =>
    case ClearAll =>
    case Restore(_) =>
    case RemoveEverywhere(vlan) => EditedAllSound(topo, s, DropVlan(vlan));
    case RemoveAssignment(sw, vlan, device) =>
      RemoveAssignmentSound(topo, s, sw, vlan, if device == Some("") then None else device);
    case Interconnect(_, _, _, _) => InterconnectSound(topo, s, op);
    case InterconnectScope(_, _, _, _) => InterconnectSound(topo, s, op);
  }

  lemma {:induction false} InterconnectSound(topo: Topology, s: PolicyState, op: Op)
    requires SoundTopology(topo) && SoundPolicy(topo, s)
    requires op.Interconnect? || op.InterconnectScope?
    requires Applied(topo, s, op).Some?
    ensures SoundPolicy(topo, Applied(topo, s, op).value)
  {
    match op
    case Interconnect(sw, a, b, enabled) =>
      AttachedSound(topo, sw);
      EditedSound(AttachedTo(topo, sw), s[sw], SetLink(a, b, enabled));
    case InterconnectScope(a, b, enabled, only) =>
      if only.Some? && only.value != "" {
        AttachedSound(topo, only.value);
        EditedSound(AttachedTo(topo, only.value), s[only.value], SetLink(a, b, enabled));
      } else {
        EditedAllSound(topo, s, SetLink(a, b, enabled));
      }
  }

  /** Safety over runs: from the empty policy, any operations in any order leave it sound. */
  lemma {:induction false} RunSound(topo: Topology, ops: seq<Op>)
    requires SoundTopology(topo)
    ensures SoundPolicy(topo, Run(topo, map[], ops))
  {
    if ops != [] {
      RunSound(topo, ops[..|ops| - 1]);
      var s, op := Run(topo, map[], ops[..|ops| - 1]), ops[|ops| - 1];
      if Applied(topo, s, op).Some? {
        AppliedSound(topo, s, op);
      }
    }
  }
}
