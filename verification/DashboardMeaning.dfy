/** What the dashboard's edits mean: cleaning is idempotent, and assigning a device moves
    that device and nothing else, at the price of the links of the VLANs it leaves empty. */
module DashboardMeaning {
  import opened Prelude
  import opened VlanPolicy
  import opened VlanNormalizer
  import opened Dashboard
  import opened DashboardInvariant
  import opened EndToEnd

  // ----- Cleaning is idempotent, whatever is cleaned -----

  ghost predicate Clean(ms: seq<Member>) {
    DistinctDevices(ms) && forall i :: 0 <= i < |ms| ==> ms[i].device != ""
  }

  lemma {:induction false} CleanMembersClean(ms: seq<Member>, n: nat)
    requires n <= |ms|
    ensures Clean(CleanMembers(ms, n))
  {
    if n > 0 {
      CleanMembersClean(ms, n - 1);
      DistinctSnoc(CleanMembers(ms, n - 1), ms[n - 1]);
    }
  }

  lemma {:induction false} CleanIsKept(ms: seq<Member>)
    requires Clean(ms)
    ensures CleanMembers(ms, |ms|) == ms
  {
    forall m | m in ms
      ensures m.device != ""
    {
    }
    CleanMembersKeepsDistinct(ms, |ms|);
    assert ms[..|ms|] == ms;
  }

  lemma {:induction false} CleanVlansIdempotent(vlans: map<int, seq<Member>>)
    ensures CleanVlans(CleanVlans(vlans)) == CleanVlans(vlans)
  {
    var once := CleanVlans(vlans);
    forall v | v in once
      ensures CleanMembers(once[v], |once[v]|) == once[v]
    {
      CleanMembersClean(vlans[v], |vlans[v]|);
      CleanIsKept(once[v]);
    }
  }

  ghost predicate UsableLinks(links: seq<Link>, vlans: set<int>) {
    && (forall i :: 0 <= i < |links| ==> KeepsLink(links[i], vlans) && links[i].src < links[i].dst)
    && NoDup(links)
  }

  lemma {:induction false} CleanLinksUsable(links: seq<Link>, vlans: set<int>, n: nat)
    requires n <= |links|
    ensures UsableLinks(CleanLinks(links, vlans, n), vlans)
  {
    if n > 0 {
      CleanLinksUsable(links, vlans, n - 1);
    }
  }

  lemma {:induction false} UsableLinksKept(links: seq<Link>, vlans: set<int>, n: nat)
    requires n <= |links| && UsableLinks(links, vlans)
    ensures CleanLinks(links, vlans, n) == links[..n]
  {
    if n > 0 {
      UsableLinksKept(links, vlans, n - 1);
      assert links[..n] == links[..n - 1] + [links[n - 1]];
      assert Ordered(links[n - 1].src, links[n - 1].dst) == links[n - 1];
      assert links[n - 1] !in links[..n - 1];
    }
  }

  /** Cleaning a switch's configuration twice is cleaning it once. */
  lemma {:induction false} CleanupIdempotent(cfg: SwitchCfg)
    ensures Cleaned(Cleaned(cfg)) == Cleaned(cfg)
  {
    CleanVlansIdempotent(cfg.vlans);
    var once := Cleaned(cfg);
    CleanLinksUsable(cfg.links, once.vlans.Keys, |cfg.links|);
    UsableLinksKept(once.links, once.vlans.Keys, |once.links|);
    assert once.links[..|once.links|] == once.links;
  }

  // ----- Links of sound configurations -----

  lemma {:induction false} CleanLinksContents(links: seq<Link>, vlans: set<int>, n: nat, l: Link)
    requires n <= |links|
    ensures l in CleanLinks(links, vlans, n) <==>
            exists k :: k in links[..n] && KeepsLink(k, vlans) && Ordered(k.src, k.dst) == l
  {
    if n > 0 {
      CleanLinksContents(links, vlans, n - 1, l);
      assert links[..n] == links[..n - 1] + [links[n - 1]];
    }
  }

  /** Cleaning sound links keeps exactly those whose two VLANs are still there. */
  lemma {:induction false} CleanSoundLinks(links: seq<Link>, before: map<int, seq<Member>>, vlans: set<int>, l: Link)
    requires SoundLinks(links, before.Keys) && forall v :: v in before ==> ValidVlan(v)
    ensures l in CleanLinks(links, vlans, |links|) <==> l in links && l.src in vlans && l.dst in vlans
  {
    CleanLinksContents(links, vlans, |links|, l);
    assert links[..|links|] == links;
    forall k | k in links
      ensures Ordered(k.src, k.dst) == k && 0 < k.src && k.dst <= MAX_VLAN && k.src != k.dst
    {
      assert k.src in before && k.dst in before;
    }
  }

  lemma {:induction false} SoundLinksUsable(links: seq<Link>, before: map<int, seq<Member>>, vlans: set<int>)
    requires SoundLinks(links, before.Keys) && before.Keys <= vlans && forall v :: v in before ==> ValidVlan(v)
    ensures CleanLinks(links, vlans, |links|) == links
  {
    forall i | 0 <= i < |links|
      ensures KeepsLink(links[i], vlans)
    {
      assert links[i].src in before && links[i].dst in before;
    }
    UsableLinksKept(links, vlans, |links|);
    assert links[..|links|] == links;
  }

  // ----- Members -----

  lemma {:induction false} AbsentUnchanged(ms: seq<Member>, device: string)
    requires device !in Devices(ms)
    ensures WithoutDevice(ms, device) == ms
  {
    if ms != [] {
      var n := |ms| - 1;
      assert ms == ms[..n] + [ms[n]];
      assert ms[n] in ms;
      AbsentUnchanged(ms[..n], device);
    }
  }

  lemma {:induction false} RemoveInserted(ms: seq<Member>, m: Member)
    requires m.device !in Devices(ms)
    ensures WithoutDevice(InsertMember(ms, m), m.device) == ms
  {
    if ms != [] && ms[|ms| - 1].port > m.port {
      var n := |ms| - 1;
      assert ms == ms[..n] + [ms[n]];
      assert ms[n] in ms;
      RemoveInserted(ms[..n], m);
      var inserted := InsertMember(ms, m);
      assert inserted[..|inserted| - 1] == InsertMember(ms[..n], m);
    } else {
      assert (ms + [m])[..|ms|] == ms;
      AbsentUnchanged(ms, m.device);
    }
  }

  ghost predicate ByPort(ms: seq<Member>) {
    forall i, j :: 0 <= i < j < |ms| ==> ms[i].port <= ms[j].port
  }

  lemma {:induction false} InsertKeepsOrder(ms: seq<Member>, m: Member)
    requires ByPort(ms)
    ensures ByPort(InsertMember(ms, m))
  {
    if ms != [] && ms[|ms| - 1].port > m.port {
      var n := |ms| - 1;
      InsertKeepsOrder(ms[..n], m);
      InsertMemberContents(ms[..n], m);
      var inserted := InsertMember(ms[..n], m);
      forall i | 0 <= i < |inserted|
        ensures inserted[i].port <= ms[n].port
      {
        assert inserted[i] in inserted;
        assert inserted[i] in ms[..n] || inserted[i] == m;
      }
    }
  }

  lemma {:induction false} SortedIsByPort(ms: seq<Member>)
    ensures ByPort(SortedMembers(ms))
  {
    if ms != [] {
      SortedIsByPort(ms[..|ms| - 1]);
      InsertKeepsOrder(SortedMembers(ms[..|ms| - 1]), ms[|ms| - 1]);
    }
  }

  lemma {:induction false} ByPortIsSorted(ms: seq<Member>)
    requires ByPort(ms)
    ensures SortedMembers(ms) == ms
  {
    if ms != [] {
      ByPortIsSorted(ms[..|ms| - 1]);
    }
  }

  lemma {:induction false} SortedSnoc(ms: seq<Member>, m: Member)
    ensures SortedMembers(ms + [m]) == InsertMember(SortedMembers(ms), m)
  {
    assert (ms + [m])[..|ms|] == ms;
  }

  lemma {:induction false} SortedDevices(ms: seq<Member>)
    ensures Devices(SortedMembers(ms)) == Devices(ms)
    ensures SortedMembers(ms) == [] <==> ms == []
  {
    SortedMembersContents(ms);
    if ms != [] {
      assert ms[0] in SortedMembers(ms);
    }
    if SortedMembers(ms) != [] {
      assert SortedMembers(ms)[0] in ms;
    }
  }

  // ----- Dropping a device everywhere -----

  ghost function Dropped(s: PolicyState, device: string): PolicyState { EditedAll(s, DropDevice(device)) }

  lemma {:induction false} DroppedAt(topo: Topology, s: PolicyState, device: string, sw: string)
    requires SoundTopology(topo) && SoundPolicy(topo, s)
    ensures sw in Dropped(s, device) <==> sw in s && VlansWithout(s[sw].vlans, device) != map[]
    ensures sw in Dropped(s, device) ==> Dropped(s, device)[sw].vlans == VlansWithout(s[sw].vlans, device)
    ensures sw in Dropped(s, device) ==>
              Dropped(s, device)[sw].links ==
              CleanLinks(s[sw].links, VlansWithout(s[sw].vlans, device).Keys, |s[sw].links|)
  {
    if sw in s {
      AttachedSound(topo, sw);
      VlansWithoutSound(AttachedTo(topo, sw), s[sw].vlans, device);
      CleanedSound(AttachedTo(topo, sw), SwitchCfg(VlansWithout(s[sw].vlans, device), s[sw].links));
    }
  }

  lemma {:induction false} AvoidingUnchanged(devices: seq<Device>, vlans: map<int, seq<Member>>, device: string)
    requires SoundVlans(devices, vlans) && Avoids(vlans, device)
    ensures VlansWithout(vlans, device) == vlans
  {
    forall v | v in vlans
      ensures WithoutDevice(vlans[v], device) == vlans[v] != []
    {
      assert SoundMembers(devices, vlans[v]);
      AbsentUnchanged(vlans[v], device);
    }
  }

  /** What an assignment stores: the policy without the device, and the device added. */
  ghost function Placement(s1: PolicyState, sw: string, vlan: int, m: Member): PolicyState {
    var cfg := CfgIn(s1, sw);
    s1[sw := SwitchCfg(cfg.vlans[vlan := SortedMembers(VlanIn(cfg.vlans, vlan) + [m])], cfg.links)]
  }

  lemma {:induction false} DroppedCfg(topo: Topology, s: PolicyState, device: string, sw: string)
    requires SoundTopology(topo) && SoundPolicy(topo, s)
    ensures var cfg := CfgIn(Dropped(s, device), sw);
            && SoundVlans(AttachedTo(topo, sw), cfg.vlans) && SoundLinks(cfg.links, cfg.vlans.Keys)
            && Avoids(cfg.vlans, device) && VlansWithout(cfg.vlans, device) == cfg.vlans
  {
    EditedAllSound(topo, s, DropDevice(device));
    DroppedAt(topo, s, device, sw);
    DroppedAvoids(CfgIn(s, sw), device);
    AvoidingUnchanged(AttachedTo(topo, sw), CfgIn(Dropped(s, device), sw).vlans, device);
  }

  lemma {:induction false} AssignShape(
      topo: Topology, s: PolicyState, sw: string, device: string, vlan: int) returns (d: Device)
    requires SoundTopology(topo) && SoundPolicy(topo, s) && Assigned(topo, s, sw, device, vlan).Some?
    ensures d in AttachedTo(topo, sw) && d.name == device && FindDevice(AttachedTo(topo, sw), device) == Some(d)
    ensures SoundPolicy(topo, Dropped(s, device)) && Avoids(CfgIn(Dropped(s, device), sw).vlans, device)
    ensures Assigned(topo, s, sw, device, vlan).value == Placement(Dropped(s, device), sw, vlan, MemberOf(d))
  {
    var devices := AttachedTo(topo, sw);
    AttachedSound(topo, sw);
    FoundDevice(devices, device);
    d := FindDevice(devices, device).value;
    EditedAllSound(topo, s, DropDevice(device));
    DroppedCfg(topo, s, device, sw);
    WithMemberShape(devices, CfgIn(Dropped(s, device), sw), vlan, d);
  }

  lemma {:induction false} WithMemberShape(devices: seq<Device>, cfg: SwitchCfg, vlan: int, d: Device)
    requires SoundDevices(devices) && SoundVlans(devices, cfg.vlans) && SoundLinks(cfg.links, cfg.vlans.Keys)
    requires Avoids(cfg.vlans, d.name) && d in devices && ValidVlan(vlan)
    ensures WithMember(cfg, vlan, MemberOf(d)) ==
            SwitchCfg(cfg.vlans[vlan := SortedMembers(VlanIn(cfg.vlans, vlan) + [MemberOf(d)])], cfg.links)
  {
    assert OfDevice(devices, MemberOf(d));
    AddedSound(devices, cfg, vlan, MemberOf(d));
    var vlans := WithMember(cfg, vlan, MemberOf(d)).vlans;
    assert cfg.vlans.Keys <= vlans.Keys;
    SoundLinksUsable(cfg.links, cfg.vlans, vlans.Keys);
  }

  /** After an assignment the device is in that VLAN of that switch and in no other, and
      every other device is where it was. */
  lemma {:induction false} AssignMoves(
      topo: Topology, s: PolicyState, sw: string, device: string, vlan: int, at: string, v: int, d: string)
    requires SoundTopology(topo) && SoundPolicy(topo, s) && Assigned(topo, s, sw, device, vlan).Some?
    ensures Placed(Assigned(topo, s, sw, device, vlan).value, at, v, d) <==>
            if d == device then at == sw && v == vlan else Placed(s, at, v, d)
  {
    var live := AssignShape(topo, s, sw, device, vlan);
    PlacementPlaced(Dropped(s, device), sw, vlan, MemberOf(live), at, v, d);
    DroppedPlaced(topo, s, device, at, v, d);
  }

  lemma {:induction false} PlacementPlaced(
      s1: PolicyState, sw: string, vlan: int, m: Member, at: string, v: int, d: string)
    ensures Placed(Placement(s1, sw, vlan, m), at, v, d) <==>
            Placed(s1, at, v, d) || (at == sw && v == vlan && d == m.device)
  {
    var s2 := Placement(s1, sw, vlan, m);
    if at != sw {
      assert at in s1 ==> s2[at] == s1[at];
    } else if v != vlan {
      assert v in s2[sw].vlans <==> v in CfgIn(s1, sw).vlans;
      assert v in s2[sw].vlans ==> s2[sw].vlans[v] == s1[sw].vlans[v];
    } else {
      SortedHas(VlanIn(CfgIn(s1, sw).vlans, vlan), m, d);
    }
  }

  lemma {:induction false} SortedHas(others: seq<Member>, m: Member, d: string)
    ensures (exists x :: x in SortedMembers(others + [m]) && x.device == d)
            <==> d == m.device || exists x :: x in others && x.device == d
  {
    SortedMembersContents(others + [m]);
    assert forall x: Member :: x in others + [m] <==> x in others || x == m;
  }

  lemma {:induction false} DroppedPlaced(topo: Topology, s: PolicyState, device: string, sw: string, v: int, d: string)
    requires SoundTopology(topo) && SoundPolicy(topo, s)
    ensures Placed(Dropped(s, device), sw, v, d) <==> d != device && Placed(s, sw, v, d)
  {
    DroppedAt(topo, s, device, sw);
    if d != device && Placed(s, sw, v, d) {
      var m :| m in s[sw].vlans[v] && m.device == d;
      assert m in WithoutDevice(s[sw].vlans[v], device);
      assert v in VlansWithout(s[sw].vlans, device);
    }
  }

  /** The VLAN has a member besides the device. */
  ghost predicate Survives(s: PolicyState, sw: string, v: int, device: string) {
    exists d :: d != device && Placed(s, sw, v, d)
  }

  /** An assignment keeps exactly the links whose two VLANs do not need the device to exist:
      even assigning a VLAN's only member to that same VLAN again drops the VLAN's links. */
  lemma {:induction false} AssignLinks(
      topo: Topology, s: PolicyState, sw: string, device: string, vlan: int, at: string, v: int, w: int)
    requires SoundTopology(topo) && SoundPolicy(topo, s) && Assigned(topo, s, sw, device, vlan).Some? && v != w
    ensures Linked(Assigned(topo, s, sw, device, vlan).value, at, v, w) <==>
            Linked(s, at, v, w) && Survives(s, at, v, device) && Survives(s, at, w, device)
  {
    var live := AssignShape(topo, s, sw, device, vlan);
    DroppedAt(topo, s, device, at);
    if at in s {
      var vlans := VlansWithout(s[at].vlans, device);
      CleanSoundLinks(s[at].links, s[at].vlans, vlans.Keys, Ordered(v, w));
      SurvivorsKept(topo, s, at, v, device);
      SurvivorsKept(topo, s, at, w, device);
      assert Ordered(v, w).src in vlans && Ordered(v, w).dst in vlans <==> v in vlans && w in vlans;
    }
  }

  lemma {:induction false} SurvivorsKept(topo: Topology, s: PolicyState, sw: string, v: int, device: string)
    requires SoundTopology(topo) && SoundPolicy(topo, s) && sw in s
    ensures Survives(s, sw, v, device) <==> v in VlansWithout(s[sw].vlans, device)
  {
    var vlans := VlansWithout(s[sw].vlans, device);
    if v in vlans {
      var m: Member := vlans[v][0];
      assert m in vlans[v];
      assert Placed(s, sw, v, m.device);
    }
    if Survives(s, sw, v, device) {
      var d :| d != device && Placed(s, sw, v, d);
      var m :| m in s[sw].vlans[v] && m.device == d;
      assert m in WithoutDevice(s[sw].vlans[v], device);
    }
  }

  /** Assigning a device to a VLAN twice is assigning it once. */
  lemma {:induction false} AssignIdempotent(topo: Topology, s: PolicyState, sw: string, device: string, vlan: int)
    requires SoundTopology(topo) && SoundPolicy(topo, s) && Assigned(topo, s, sw, device, vlan).Some?
    ensures Assigned(topo, Assigned(topo, s, sw, device, vlan).value, sw, device, vlan)
        == Assigned(topo, s, sw, device, vlan)
  {
    var d := AssignShape(topo, s, sw, device, vlan);
    var s1, s2 := Dropped(s, device), Assigned(topo, s, sw, device, vlan).value;
    AssignSound(topo, s, sw, device, vlan);
    var again := AssignShape(topo, s2, sw, device, vlan);
    var s3 := Dropped(s2, device);
    forall at | at != sw
      ensures at in s3 <==> at in s1
      ensures at in s1 ==> s3[at] == s1[at]
    {
      DropOtherUnchanged(topo, s, sw, vlan, d, at);
    }
    DroppedCfg(topo, s, device, sw);
    DropPlaced(topo, s1, sw, vlan, d);
    PlacementAgain(s1, s3, sw, vlan, MemberOf(d));
  }

  lemma {:induction false} SortAgain(ms: seq<Member>, m: Member)
    ensures SortedMembers(SortedMembers(ms) + [m]) == SortedMembers(ms + [m])
  {
    SortedSnoc(ms, m);
    SortedSnoc(SortedMembers(ms), m);
    SortedIsByPort(ms);
    ByPortIsSorted(SortedMembers(ms));
  }

  ghost predicate SameButSorted(c1: SwitchCfg, c3: SwitchCfg, vlan: int) {
    c3.links == c1.links && c3.vlans == Resorted(c1.vlans, vlan)
  }

  ghost function Resorted(vlans: map<int, seq<Member>>, vlan: int): map<int, seq<Member>> {
    if vlan in vlans then vlans[vlan := SortedMembers(vlans[vlan])] else vlans
  }

  lemma {:induction false} PlacementAgain(s1: PolicyState, s3: PolicyState, sw: string, vlan: int, m: Member)
    requires forall at :: at != sw ==> (at in s3 <==> at in s1) && (at in s1 ==> s3[at] == s1[at])
    requires SameButSorted(CfgIn(s1, sw), CfgIn(s3, sw), vlan)
    ensures Placement(s3, sw, vlan, m) == Placement(s1, sw, vlan, m)
  {
    var c1, c3 := CfgIn(s1, sw), CfgIn(s3, sw);
    var ms1, ms3 := SortedMembers(VlanIn(c1.vlans, vlan) + [m]), SortedMembers(VlanIn(c3.vlans, vlan) + [m]);
    assert ms3 == ms1 by {
      if vlan in c1.vlans {
        SortAgain(c1.vlans[vlan], m);
      }
    }
    assert c3.vlans[vlan := ms1] == c1.vlans[vlan := ms1];
    SameUpdate(s1, s3, sw, SwitchCfg(c1.vlans[vlan := ms1], c1.links));
  }

  lemma {:induction false} SameUpdate(s1: PolicyState, s3: PolicyState, sw: string, cfg: SwitchCfg)
    requires forall at :: at != sw ==> (at in s3 <==> at in s1) && (at in s1 ==> s3[at] == s1[at])
    ensures s3[sw := cfg] == s1[sw := cfg]
  {
  }

  lemma {:induction false} DropOtherUnchanged(
      topo: Topology, s: PolicyState, sw: string, vlan: int, d: Device, at: string)
    requires SoundTopology(topo) && SoundPolicy(topo, s) && at != sw
    requires SoundPolicy(topo, Dropped(s, d.name))
        && SoundPolicy(topo, Placement(Dropped(s, d.name), sw, vlan, MemberOf(d)))
    ensures var s1 := Dropped(s, d.name);
            var s3 := Dropped(Placement(s1, sw, vlan, MemberOf(d)), d.name);
            (at in s3 <==> at in s1) && (at in s1 ==> s3[at] == s1[at])
  {
    var s1 := Dropped(s, d.name);
    var s2 := Placement(s1, sw, vlan, MemberOf(d));
    DroppedAt(topo, s, d.name, at);
    DroppedAt(topo, s2, d.name, at);
    if at in s1 {
      var cfg := s1[at];
      DroppedAvoids(s[at], d.name);
      AvoidingUnchanged(AttachedTo(topo, at), cfg.vlans, d.name);
      SoundLinksUsable(cfg.links, cfg.vlans, cfg.vlans.Keys);
    }
  }

  lemma {:induction false} DroppedRest(
      topo: Topology, s: PolicyState, device: string, sw: string, rest: map<int, seq<Member>>)
    requires SoundTopology(topo) && SoundPolicy(topo, s) && sw in s && rest == CfgIn(Dropped(s, device), sw).vlans
    ensures rest == VlansWithout(s[sw].vlans, device)
    ensures CfgIn(Dropped(s, device), sw).links ==
            if rest == map[] then [] else CleanLinks(s[sw].links, rest.Keys, |s[sw].links|)
  {
    DroppedAt(topo, s, device, sw);
  }

  /** Dropping the device again leaves the switch as before, but for the order of the VLAN's members. */
  lemma {:induction false} DropPlaced(topo: Topology, s1: PolicyState, sw: string, vlan: int, d: Device)
    requires SoundTopology(topo) && SoundPolicy(topo, Placement(s1, sw, vlan, MemberOf(d)))
    requires SoundVlans(AttachedTo(topo, sw), CfgIn(s1, sw).vlans) && Avoids(CfgIn(s1, sw).vlans, d.name)
    requires SoundLinks(CfgIn(s1, sw).links, CfgIn(s1, sw).vlans.Keys)
    ensures SameButSorted(CfgIn(s1, sw), CfgIn(Dropped(Placement(s1, sw, vlan, MemberOf(d)), d.name), sw), vlan)
  {
    var s2 := Placement(s1, sw, vlan, MemberOf(d));
    var c3 := CfgIn(Dropped(s2, d.name), sw);
    DroppedRest(topo, s2, d.name, sw, c3.vlans);
    BackToSorted(AttachedTo(topo, sw), CfgIn(s1, sw), vlan, MemberOf(d), c3);
  }

  lemma {:induction false} BackToSorted(devices: seq<Device>, c1: SwitchCfg, vlan: int, m: Member, c3: SwitchCfg)
    requires SoundVlans(devices, c1.vlans) && Avoids(c1.vlans, m.device) && SoundLinks(c1.links, c1.vlans.Keys)
    requires c3.vlans == VlansWithout(c1.vlans[vlan := SortedMembers(VlanIn(c1.vlans, vlan) + [m])], m.device)
    requires c3.links == if c3.vlans == map[] then [] else CleanLinks(c1.links, c3.vlans.Keys, |c1.links|)
    ensures SameButSorted(c1, c3, vlan)
  {
    WithoutPlaced(devices, c1.vlans, vlan, m);
    SoundLinksUsable(c1.links, c1.vlans, c3.vlans.Keys);
    assert c1.vlans == map[] ==> c1.links == [] by {
      assert |c1.links| > 0 ==> c1.links[0].src in c1.vlans;
    }
  }

  lemma {:induction false} WithoutPlaced(devices: seq<Device>, vlans: map<int, seq<Member>>, vlan: int, m: Member)
    requires SoundVlans(devices, vlans) && Avoids(vlans, m.device)
    ensures VlansWithout(vlans[vlan := SortedMembers(VlanIn(vlans, vlan) + [m])], m.device) == Resorted(vlans, vlan)
  {
    var ms := SortedMembers(VlanIn(vlans, vlan) + [m]);
    RemoveAppended(VlanIn(vlans, vlan), m);
    forall v | v in vlans
      ensures WithoutDevice(vlans[v], m.device) == vlans[v] != []
    {
      assert SoundMembers(devices, vlans[v]);
      AbsentUnchanged(vlans[v], m.device);
    }
    WithoutUpdated(vlans, vlan, ms, m.device);
  }

  lemma {:induction false} RemoveAppended(others: seq<Member>, m: Member)
    requires m.device !in Devices(others)
    ensures WithoutDevice(SortedMembers(others + [m]), m.device) == SortedMembers(others)
    ensures SortedMembers(others) == [] <==> others == []
  {
    SortedDevices(others);
    SortedSnoc(others, m);
    RemoveInserted(SortedMembers(others), m);
  }

  lemma {:induction false} WithoutUpdated(vlans: map<int, seq<Member>>, vlan: int, ms: seq<Member>, device: string)
    requires forall v :: v in vlans ==> WithoutDevice(vlans[v], device) == vlans[v] != []
    requires WithoutDevice(ms, device) == SortedMembers(VlanIn(vlans, vlan))
    requires SortedMembers(VlanIn(vlans, vlan)) == [] <==> vlan !in vlans
    ensures VlansWithout(vlans[vlan := ms], device) == Resorted(vlans, vlan)
  {
    var rest, sorted := VlansWithout(vlans[vlan := ms], device), Resorted(vlans, vlan);
    forall v: int
      ensures v in rest <==> v in sorted
      ensures v in rest ==> rest[v] == sorted[v]
    {
      WithoutUpdatedAt(vlans, vlan, ms, device, v);
    }
    SameMap(rest, sorted);
  }

  lemma {:induction false} WithoutUpdatedAt(
      vlans: map<int, seq<Member>>, vlan: int, ms: seq<Member>, device: string, v: int)
    requires v in vlans ==> WithoutDevice(vlans[v], device) == vlans[v] != []
    requires WithoutDevice(ms, device) == SortedMembers(VlanIn(vlans, vlan))
    requires SortedMembers(VlanIn(vlans, vlan)) == [] <==> vlan !in vlans
    ensures var rest, sorted := VlansWithout(vlans[vlan := ms], device), Resorted(vlans, vlan);
            (v in rest <==> v in sorted) && (v in rest ==> rest[v] == sorted[v])
  {
  }
}
