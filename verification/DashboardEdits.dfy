/** What the remaining dashboard operations do to the policy: which devices each places where
    and which VLANs it links, for every sound stored policy. */
module DashboardEdits {
  import opened Prelude
  import opened VlanPolicy
  import opened VlanNormalizer
  import opened Dashboard
  import opened DashboardInvariant
  import opened DashboardMeaning
  import opened EndToEnd

  // ----- One switch -----

  ghost predicate Holds(cfg: Option<SwitchCfg>, v: int, device: string) {
    cfg.Some? && v in cfg.value.vlans && exists m :: m in cfg.value.vlans[v] && m.device == device
  }

  ghost predicate Joined(cfg: Option<SwitchCfg>, v: int, w: int) {
    cfg.Some? && Ordered(v, w) in cfg.value.links
  }

  function Lookup(s: PolicyState, sw: string): Option<SwitchCfg> { if sw in s then Some(s[sw]) else None }

  lemma {:induction false} LookupPlaced(s: PolicyState, sw: string, v: int, w: int, device: string)
    ensures Placed(s, sw, v, device) <==> Holds(Lookup(s, sw), v, device)
    ensures Linked(s, sw, v, w) <==> Joined(Lookup(s, sw), v, w)
  {
  }

  ghost predicate ValidLinks(links: seq<Link>) {
    forall l :: l in links ==> 0 < l.src < l.dst <= MAX_VLAN
  }

  /** What is kept of sound VLANs with valid links: all members, and the links between VLANs
      that are there. */
  lemma {:induction false} KeptMeaning(devices: seq<Device>, cfg: SwitchCfg, v: int, w: int, device: string)
    requires SoundDevices(devices) && SoundVlans(devices, cfg.vlans) && ValidLinks(cfg.links) && v != w
    ensures Holds(Kept(cfg), v, device) <==> Holds(Some(cfg), v, device)
    ensures Joined(Kept(cfg), v, w) <==> Joined(Some(cfg), v, w) && v in cfg.vlans && w in cfg.vlans
  {
    CleanedSound(devices, cfg);
    CleanLinksContents(cfg.links, cfg.vlans.Keys, |cfg.links|, Ordered(v, w));
    assert cfg.links[..|cfg.links|] == cfg.links;
    assert forall k :: k in cfg.links ==> Ordered(k.src, k.dst) == k;
  }

  lemma {:induction false} SoundLinksValid(devices: seq<Device>, cfg: SwitchCfg)
    requires SoundCfg(devices, cfg)
    ensures ValidLinks(cfg.links)
    ensures forall v, w :: v != w && Ordered(v, w) in cfg.links ==> v in cfg.vlans && w in cfg.vlans
  {
    forall l | l in cfg.links
      ensures 0 < l.src < l.dst <= MAX_VLAN && l.src in cfg.vlans && l.dst in cfg.vlans
    {
      assert l.src in cfg.vlans && l.dst in cfg.vlans;
    }
  }

  lemma {:induction false} InsertLinkContents(links: seq<Link>, l: Link, k: Link)
    ensures k in InsertLink(links, l) <==> k in links || k == l
  {
    if links != [] {
      var n := |links| - 1;
      assert links == links[..n] + [links[n]];
      InsertLinkContents(links[..n], l, k);
    }
  }

  lemma {:induction false} SortedLinksContents(links: seq<Link>, k: Link)
    ensures k in SortedLinks(links) <==> k in links
  {
    if links != [] {
      var n := |links| - 1;
      assert links == links[..n] + [links[n]];
      SortedLinksContents(links[..n], k);
      InsertLinkContents(SortedLinks(links[..n]), links[n], k);
    }
  }

  lemma {:induction false} RelinkedContents(links: seq<Link>, a: int, b: int, enabled: bool, k: Link)
    ensures k in Relinked(links, a, b, enabled) <==> if k == Ordered(a, b) then enabled else k in links
  {
    SortedLinksContents(LinksExcept(links, Ordered(a, b)) + [Ordered(a, b)], k);
  }

  lemma {:induction false} VlanDropped(devices: seq<Device>, cfg: SwitchCfg, vlan: int, v: int, w: int, device: string)
    requires SoundDevices(devices) && SoundCfg(devices, cfg) && v != w
    ensures Holds(Edited(cfg, DropVlan(vlan)), v, device) <==> v != vlan && Holds(Some(cfg), v, device)
    ensures Joined(Edited(cfg, DropVlan(vlan)), v, w) <==> v != vlan && w != vlan && Joined(Some(cfg), v, w)
  {
    SoundLinksValid(devices, cfg);
    if vlan in cfg.vlans {
      KeptMeaning(devices, SwitchCfg(cfg.vlans - {vlan}, LinksWithout(cfg.links, vlan)), v, w, device);
    }
  }

  lemma {:induction false} LinkSet(
      devices: seq<Device>, cfg: SwitchCfg, a: int, b: int, enabled: bool, v: int, w: int, device: string)
    requires SoundDevices(devices) && SoundCfg(devices, cfg) && v != w && a != b
    ensures Holds(Edited(cfg, SetLink(a, b, enabled)), v, device) <==> Holds(Some(cfg), v, device)
    ensures Joined(Edited(cfg, SetLink(a, b, enabled)), v, w) <==>
            if a in cfg.vlans && b in cfg.vlans && Ordered(v, w) == Ordered(a, b) then enabled
            else Joined(Some(cfg), v, w)
  {
    SoundLinksValid(devices, cfg);
    if a in cfg.vlans && b in cfg.vlans {
      var links := Relinked(cfg.links, a, b, enabled);
      forall l | l in links
        ensures 0 < l.src < l.dst <= MAX_VLAN
      {
        RelinkedContents(cfg.links, a, b, enabled, l);
      }
      RelinkedContents(cfg.links, a, b, enabled, Ordered(v, w));
      KeptMeaning(devices, cfg.(links := links), v, w, device);
    }
  }

  // ----- The operations -----

  lemma {:induction false} EditedAllAt(s: PolicyState, e: Edit, sw: string)
    ensures Lookup(EditedAll(s, e), sw) == if sw in s then Edited(s[sw], e) else None
  {
  }

  lemma {:induction false} ReplacedAt(s: PolicyState, sw: string, cfg: Option<SwitchCfg>, at: string)
    ensures Lookup(Replaced(s, sw, cfg), at) == if at == sw then cfg else Lookup(s, at)
  {
  }

  /** Removing a VLAN everywhere takes its members and its links, on every switch, and
      nothing else. */
  lemma {:induction false} RemoveEverywhereMeaning(
      topo: Topology, s: PolicyState, vlan: int, at: string, v: int, w: int, device: string)
    requires SoundTopology(topo) && SoundPolicy(topo, s) && RemovedEverywhere(s, vlan).Some? && v != w
    ensures var t := RemovedEverywhere(s, vlan).value;
            && (Placed(t, at, v, device) <==> v != vlan && Placed(s, at, v, device))
            && (Linked(t, at, v, w) <==> v != vlan && w != vlan && Linked(s, at, v, w))
  {
    EditedAllAt(s, DropVlan(vlan), at);
    LookupPlaced(s, at, v, w, device);
    LookupPlaced(EditedAll(s, DropVlan(vlan)), at, v, w, device);
    if at in s {
      AttachedSound(topo, at);
      VlanDropped(AttachedTo(topo, at), s[at], vlan, v, w, device);
    }
  }

  /** Removing an assignment, of one device or of the whole VLAN, takes the VLAN's links on
      that switch with it, even when the VLAN keeps other members. */
  lemma {:induction false} RemoveAssignmentMeaning(
      topo: Topology, s: PolicyState, sw: string, vlan: int, member: Option<string>, at: string, v: int, w: int,
      device: string)
    requires SoundTopology(topo) && SoundPolicy(topo, s) && RemovedAssignment(s, sw, vlan, member).Some? && v != w
    ensures var t := RemovedAssignment(s, sw, vlan, member).value;
            && (Placed(t, at, v, device) <==>
                  Placed(s, at, v, device) && !(at == sw && v == vlan && (member.None? || member.value == device)))
            && (Linked(t, at, v, w) <==> Linked(s, at, v, w) && !(at == sw && (v == vlan || w == vlan)))
  {
    var devices, cfg := AttachedTo(topo, sw), s[sw];
    AttachedSound(topo, sw);
    var changed := Unassigned(cfg, vlan, member);
    UnassignedSound(devices, cfg, vlan, member);
    KeptMeaning(devices, changed, v, w, device);
    RestHolds(cfg, vlan, member, v, device);
    ReplacedAt(s, sw, Kept(changed), at);
    LookupPlaced(s, at, v, w, device);
    LookupPlaced(Replaced(s, sw, Kept(changed)), at, v, w, device);
  }

  /** A switch's configuration without the assignment, before it is cleaned. */
  ghost function Unassigned(cfg: SwitchCfg, vlan: int, member: Option<string>): SwitchCfg
    requires vlan in cfg.vlans
  {
    var rest := if member.Some? then WithoutDevice(cfg.vlans[vlan], member.value) else [];
    SwitchCfg(if rest != [] then cfg.vlans[vlan := rest] else cfg.vlans - {vlan}, LinksWithout(cfg.links, vlan))
  }

  lemma {:induction false} UnassignedSound(devices: seq<Device>, cfg: SwitchCfg, vlan: int, member: Option<string>)
    requires SoundCfg(devices, cfg) && vlan in cfg.vlans
    ensures SoundVlans(devices, Unassigned(cfg, vlan, member).vlans) && ValidLinks(Unassigned(cfg, vlan, member).links)
    ensures forall v, w :: v != w && Ordered(v, w) in Unassigned(cfg, vlan, member).links ==>
              v in Unassigned(cfg, vlan, member).vlans && w in Unassigned(cfg, vlan, member).vlans
  {
    SoundLinksValid(devices, cfg);
    assert SoundMembers(devices, cfg.vlans[vlan]);
    if member.Some? && WithoutDevice(cfg.vlans[vlan], member.value) != [] {
      WithoutDeviceDistinct(cfg.vlans[vlan], member.value);
      assert SoundMembers(devices, WithoutDevice(cfg.vlans[vlan], member.value));
    }
  }

  lemma {:induction false} RestHolds(cfg: SwitchCfg, vlan: int, member: Option<string>, v: int, device: string)
    requires vlan in cfg.vlans
    ensures Holds(Some(Unassigned(cfg, vlan, member)), v, device) <==>
            Holds(Some(cfg), v, device) && !(v == vlan && (member.None? || member.value == device))
  {
    if v == vlan && Holds(Some(cfg), v, device) && member.Some? && member.value != device {
      var m :| m in cfg.vlans[v] && m.device == device;
      assert m in WithoutDevice(cfg.vlans[vlan], member.value);
    }
  }

  /** Setting the link between two VLANs changes that one link of that switch, and no device. */
  lemma {:induction false} InterconnectMeaning(
      topo: Topology, s: PolicyState, sw: string, a: int, b: int, enabled: bool, at: string, v: int, w: int,
      device: string)
    requires SoundTopology(topo) && SoundPolicy(topo, s) && Interconnected(s, sw, a, b, enabled).Some? && v != w
    ensures var t := Interconnected(s, sw, a, b, enabled).value;
            && (Placed(t, at, v, device) <==> Placed(s, at, v, device))
            && (Linked(t, at, v, w) <==>
                  if at == sw && Ordered(v, w) == Ordered(a, b) then enabled else Linked(s, at, v, w))
  {
    AttachedSound(topo, sw);
    LinkSet(AttachedTo(topo, sw), s[sw], a, b, enabled, v, w, device);
    ReplacedAt(s, sw, Edited(s[sw], SetLink(a, b, enabled)), at);
    LookupPlaced(s, at, v, w, device);
    LookupPlaced(Replaced(s, sw, Edited(s[sw], SetLink(a, b, enabled))), at, v, w, device);
  }

  /** Without a switch the link is set on every switch that has both VLANs. */
  lemma {:induction false} InterconnectScopeMeaning(
      topo: Topology, s: PolicyState, a: int, b: int, enabled: bool, at: string, v: int, w: int, device: string)
    requires SoundTopology(topo) && SoundPolicy(topo, s) && a != b && v != w
    requires InterconnectedScope(s, a, b, enabled, None).Some?
    ensures var t := InterconnectedScope(s, a, b, enabled, None).value;
            && (Placed(t, at, v, device) <==> Placed(s, at, v, device))
            && (Linked(t, at, v, w) <==>
                  if at in s && a in s[at].vlans && b in s[at].vlans && Ordered(v, w) == Ordered(a, b) then enabled
                  else Linked(s, at, v, w))
  {
    EditedAllAt(s, SetLink(a, b, enabled), at);
    LookupPlaced(s, at, v, w, device);
    LookupPlaced(EditedAll(s, SetLink(a, b, enabled)), at, v, w, device);
    if at in s {
      AttachedSound(topo, at);
      LinkSet(AttachedTo(topo, at), s[at], a, b, enabled, v, w, device);
    }
  }

  // ----- Automatic configuration -----

  ghost predicate Requested(allow: seq<RawLink>, v: int, w: int) {
    exists l :: l in allow && l.RawLink? && l.a.Some? && l.b.Some? && Ordered(l.a.value, l.b.value) == Ordered(v, w)
  }

  /** The device is the one at the VLAN's place in the list of numbers. */
  ghost predicate OwnVlan(devices: seq<Device>, vlans: seq<int>, v: int, device: string) {
    exists i :: 0 <= i < |devices| && i < |vlans| && vlans[i] == v && devices[i].name == device
  }

  lemma {:induction false} ParsedContents(raw: seq<RawLink>, n: nat, l: Link)
    requires n <= |raw|
    ensures l in ParsedLinks(raw, n) <==>
            exists r :: r in raw[..n] && r.RawLink? && r.a.Some? && r.b.Some? && Link(r.a.value, r.b.value) == l
  {
    if n > 0 {
      ParsedContents(raw, n - 1, l);
      assert raw[..n] == raw[..n - 1] + [raw[n - 1]];
    }
  }

  lemma {:induction false} RequestedContents(
      devices: seq<Device>, vlans: map<int, seq<Member>>, allow: seq<RawLink>, v: int, w: int)
    requires SoundVlans(devices, vlans) && v != w
    ensures Ordered(v, w) in CleanLinks(ParsedLinks(allow, |allow|), vlans.Keys, |ParsedLinks(allow, |allow|)|) <==>
            v in vlans && w in vlans && Requested(allow, v, w)
  {
    var links := ParsedLinks(allow, |allow|);
    assert links[..|links|] == links && allow[..|allow|] == allow;
    CleanLinksContents(links, vlans.Keys, |links|, Ordered(v, w));
    if v in vlans && w in vlans && Requested(allow, v, w) {
      var l :| l in allow && l.RawLink? && l.a.Some? && l.b.Some? && Ordered(l.a.value, l.b.value) == Ordered(v, w);
      ParsedContents(allow, |allow|, Link(l.a.value, l.b.value));
      assert KeepsLink(Link(l.a.value, l.b.value), vlans.Keys);
    }
    if k: Link :| k in links && KeepsLink(k, vlans.Keys) && Ordered(k.src, k.dst) == Ordered(v, w) {
      ParsedContents(allow, |allow|, k);
    }
  }

  lemma {:induction false} AutoCfgShape(devices: seq<Device>, vlans: seq<int>, allow: seq<RawLink>)
    requires SoundDevices(devices) && |devices| <= |vlans|
    requires NoDup(vlans) && forall i :: 0 <= i < |vlans| ==> ValidVlan(vlans[i])
    ensures var members := OneVlanEach(devices, vlans, |devices|);
            SoundVlans(devices, members)
            && AutoCfg(devices, vlans, allow)
               == SwitchCfg(
                    members, CleanLinks(ParsedLinks(allow, |allow|), members.Keys, |ParsedLinks(allow, |allow|)|))
  {
    var members := OneVlanEach(devices, vlans, |devices|);
    OneVlanEachSound(devices, vlans);
    var parsed := ParsedLinks(allow, |allow|);
    var links := CleanLinks(parsed, members.Keys, |parsed|);
    CleanLinksUsable(parsed, members.Keys, |parsed|);
    CleanedSound(devices, SwitchCfg(members, links));
    UsableLinksKept(links, members.Keys, |links|);
    assert links[..|links|] == links;
  }

  lemma {:induction false} OwnVlanHolds(devices: seq<Device>, vlans: seq<int>, v: int, device: string)
    requires |devices| <= |vlans| && NoDup(vlans)
    ensures var members := OneVlanEach(devices, vlans, |devices|);
            (v in members && exists m :: m in members[v] && m.device == device) <==> OwnVlan(devices, vlans, v, device)
  {
    var members := OneVlanEach(devices, vlans, |devices|);
    OneVlanEachMeaning(devices, vlans, |devices|);
    if v in members {
      var i := OwnIndex(devices, vlans, v);
      assert members[v] == [MemberOf(devices[i])];
      assert MemberOf(devices[i]) in members[v];
    }
  }

  /** One device for each VLAN number, in the order of the ports, and the requested links
      between the numbers used. */
  lemma {:induction false} AutoCfgMeaning(
      devices: seq<Device>, vlans: seq<int>, allow: seq<RawLink>, v: int, w: int, device: string)
    requires SoundDevices(devices) && |devices| <= |vlans| && v != w
    requires NoDup(vlans) && forall i :: 0 <= i < |vlans| ==> ValidVlan(vlans[i])
    ensures Holds(Some(AutoCfg(devices, vlans, allow)), v, device) <==> OwnVlan(devices, vlans, v, device)
    ensures Joined(Some(AutoCfg(devices, vlans, allow)), v, w) <==>
            v in vlans[..|devices|] && w in vlans[..|devices|] && Requested(allow, v, w)
  {
    AutoCfgShape(devices, vlans, allow);
    OwnVlanHolds(devices, vlans, v, device);
    RequestsJoined(devices, vlans, allow, v, w);
  }

  lemma {:induction false} RequestsJoined(devices: seq<Device>, vlans: seq<int>, allow: seq<RawLink>, v: int, w: int)
    requires |devices| <= |vlans| && NoDup(vlans) && v != w
    requires SoundVlans(devices, OneVlanEach(devices, vlans, |devices|))
    ensures var members := OneVlanEach(devices, vlans, |devices|);
            Ordered(v, w) in CleanLinks(ParsedLinks(allow, |allow|), members.Keys, |ParsedLinks(allow, |allow|)|) <==>
            v in vlans[..|devices|] && w in vlans[..|devices|] && Requested(allow, v, w)
  {
    var members := OneVlanEach(devices, vlans, |devices|);
    assert (v in members <==> v in vlans[..|devices|]) && (w in members <==> w in vlans[..|devices|]) by {
      OneVlanEachMeaning(devices, vlans, |devices|);
    }
    RequestedContents(devices, members, allow, v, w);
  }

  /** Configuring one switch automatically gives its devices one VLAN each, links what was
      requested, and leaves the other switches alone. */
  lemma {:induction false} AutoSwitchMeaning(
      topo: Topology, s: PolicyState, sw: string, raw: seq<Option<int>>, allow: seq<RawLink>, at: string, v: int,
      w: int, device: string)
    requires SoundTopology(topo) && AutoSwitched(topo, s, sw, raw, allow).Some? && v != w
    ensures var t, vlans := AutoSwitched(topo, s, sw, raw, allow).value, UsableVlans(raw, |raw|);
            var devices := AttachedTo(topo, sw);
            && (Placed(t, at, v, device) <==>
                  if at == sw then OwnVlan(devices, vlans, v, device) else Placed(s, at, v, device))
            && (Linked(t, at, v, w) <==>
                  if at == sw then v in vlans[..|devices|] && w in vlans[..|devices|] && Requested(allow, v, w)
                  else Linked(s, at, v, w))
  {
    var vlans := UsableVlans(raw, |raw|);
    UsableVlansSound(raw, |raw|);
    AttachedSound(topo, sw);
    AutoCfgMeaning(AttachedTo(topo, sw), vlans, allow, v, w, device);
  }

  /** Configuring the whole network does this on every switch with devices, and no switch
      keeps anything else. */
  lemma {:induction false} AutoAllMeaning(
      topo: Topology, raw: seq<Option<int>>, allow: seq<RawLink>, at: string, v: int, w: int, device: string)
    requires SoundTopology(topo) && AutoAlled(topo, raw, allow).Some? && v != w
    ensures var t, vlans, devices := AutoAlled(topo, raw, allow).value, UsableVlans(raw, |raw|), AttachedTo(topo, at);
            && |devices| <= |vlans|
            && (Placed(t, at, v, device) <==> OwnVlan(devices, vlans, v, device))
            && (Linked(t, at, v, w) <==> v in vlans[..|devices|] && w in vlans[..|devices|] && Requested(allow, v, w))
  {
    var vlans := UsableVlans(raw, |raw|);
    UsableVlansSound(raw, |raw|);
    if at in topo && topo[at] != [] {
      AttachedSound(topo, at);
      AutoCfgMeaning(topo[at], vlans, allow, v, w, device);
      AutoCfgSound(topo[at], vlans, allow);
    }
  }
}
