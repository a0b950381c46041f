/** The dashboard's operations as it runs them: each loads the stored policy, edits it in
    loops and writes it back, or refuses and writes nothing. */
module DashboardService {
  import opened Prelude
  import opened VlanPolicy
  import opened VlanNormalizer
  import opened Dashboard

  method CleanupMembers(ms: seq<Member>) returns (valid: seq<Member>)
    ensures valid == CleanMembers(ms, |ms|)
  {
    valid := [];
    var seen: set<string> := {};
    for i := 0 to |ms|
      invariant valid == CleanMembers(ms, i) && seen == Devices(valid)
    {
      if ms[i].device != "" && ms[i].device !in seen {
        valid := valid + [ms[i]];
        seen := seen + {ms[i].device};
      }
    }
  }

  method CleanupVlans(vlans: map<int, seq<Member>>) returns (cleaned: map<int, seq<Member>>)
    ensures cleaned == CleanVlans(vlans)
  {
    cleaned := map[];
    var todo := vlans.Keys;
    while todo != {}
      invariant todo <= vlans.Keys && CleanedExcept(vlans, todo, cleaned)
      decreases |todo|
    {
      var v := Choose(todo);
      var valid := CleanupMembers(vlans[v]);
      CleanedStep(vlans, todo, cleaned, v);
      if valid != [] {
        cleaned := cleaned[v := valid];
      }
      todo := todo - {v};
    }
    SameMap(cleaned, CleanVlans(vlans));
  }

  /** All VLANs but those still to do have been cleaned. */
  ghost predicate CleanedExcept(vlans: map<int, seq<Member>>, todo: set<int>, cleaned: map<int, seq<Member>>) {
    && (forall v :: v in cleaned <==> v in vlans && v !in todo && CleanMembers(vlans[v], |vlans[v]|) != [])
    && (forall v :: v in cleaned ==> cleaned[v] == CleanMembers(vlans[v], |vlans[v]|))
  }

  lemma {:induction false} CleanedStep(
      vlans: map<int, seq<Member>>, todo: set<int>, cleaned: map<int, seq<Member>>, v: int)
    requires CleanedExcept(vlans, todo, cleaned) && v in vlans && v in todo
    ensures var valid := CleanMembers(vlans[v], |vlans[v]|);
            CleanedExcept(vlans, todo - {v}, if valid != [] then cleaned[v := valid] else cleaned)
  {
  }

  method CleanupLinks(links: seq<Link>, vlans: map<int, seq<Member>>) returns (cleaned: seq<Link>)
    ensures cleaned == CleanLinks(links, vlans.Keys, |links|)
  {
    cleaned := [];
    var seen: set<Link> := {};
    for i := 0 to |links|
      invariant cleaned == CleanLinks(links, vlans.Keys, i) && forall l :: l in seen <==> l in cleaned
    {
      var pair := Link(Min(links[i].src, links[i].dst), Max(links[i].src, links[i].dst));
      if !(pair.src <= 0 || pair.dst > MAX_VLAN || pair.src == pair.dst
           || pair.src !in vlans || pair.dst !in vlans || pair in seen) {
        seen := seen + {pair};
        cleaned := cleaned + [pair];
      }
    }
  }

  method CleanupSwitchAutomation(cfg: SwitchCfg) returns (cleaned: SwitchCfg, keep: bool)
    ensures cleaned == Cleaned(cfg) && keep == !IsEmpty(cleaned)
  {
    var vlans := CleanupVlans(cfg.vlans);
    var links := CleanupLinks(cfg.links, vlans);
    cleaned := SwitchCfg(vlans, links);
    keep := vlans != map[] || links != [];
  }

  method RemoveFromVlans(vlans: map<int, seq<Member>>, device: string) returns (rest: map<int, seq<Member>>)
    ensures rest == VlansWithout(vlans, device)
  {
    rest := vlans;
    var todo := vlans.Keys;
    while todo != {}
      invariant todo <= vlans.Keys && RemovedExcept(vlans, device, todo, rest)
      decreases |todo|
    {
      var v := Choose(todo);
      RemovedStep(vlans, device, todo, rest, v);
      var members := WithoutDevice(vlans[v], device);
      if members != [] {
        rest := rest[v := members];
      } else {
        rest := rest - {v};
      }
      todo := todo - {v};
    }
    SameMap(rest, VlansWithout(vlans, device));
  }

  /** The device has been removed from all VLANs but those still to do. */
  ghost predicate RemovedExcept(
      vlans: map<int, seq<Member>>, device: string, todo: set<int>, rest: map<int, seq<Member>>) {
    && (forall v :: v in rest <==> v in vlans && (v in todo || WithoutDevice(vlans[v], device) != []))
    && (forall v :: v in rest ==> rest[v] == if v in todo then vlans[v] else WithoutDevice(vlans[v], device))
  }

  lemma {:induction false} RemovedStep(
      vlans: map<int, seq<Member>>, device: string, todo: set<int>, rest: map<int, seq<Member>>, v: int)
    requires RemovedExcept(vlans, device, todo, rest) && v in vlans && v in todo
    ensures var members := WithoutDevice(vlans[v], device);
            RemovedExcept(vlans, device, todo - {v}, if members != [] then rest[v := members] else rest - {v})
  {
  }

  /** One edit of one switch, in place. */
  method EditSwitch(cfg: SwitchCfg, e: Edit) returns (result: Option<SwitchCfg>)
    ensures result == Edited(cfg, e)
  {
    var changed := cfg;
    match e {
      case DropDevice(device) =>
        var vlans := RemoveFromVlans(cfg.vlans, device);
        changed := cfg.(vlans := vlans);
      case DropVlan(v) =>
        if v !in cfg.vlans {
          return Some(cfg);
        }
        changed := SwitchCfg(cfg.vlans - {v}, LinksWithout(cfg.links, v));
      case SetLink(a, b, enabled) =>
        if a !in cfg.vlans || b !in cfg.vlans {
          return Some(cfg);
        }
        changed := cfg.(links := Relinked(cfg.links, a, b, enabled));
    }
    var cleaned, keep := CleanupSwitchAutomation(changed);
    result := if keep then Some(cleaned) else None;
  }

  /** The loop over all switches that three of the operations share. */
  method EditEverySwitch(s: PolicyState, e: Edit) returns (state: PolicyState)
    ensures state == EditedAll(s, e)
  {
    state := s;
    var todo := s.Keys;
    while todo != {}
      invariant todo <= s.Keys && EditedExcept(s, e, todo, state)
      decreases |todo|
    {
      var sw := Choose(todo);
      var edited := EditSwitch(s[sw], e);
      EditedStep(s, e, todo, state, sw);
      state := Replaced(state, sw, edited);
      todo := todo - {sw};
    }
  }

  /** All switches but those still to do have been edited. */
  ghost predicate EditedExcept(s: PolicyState, e: Edit, todo: set<string>, state: PolicyState) {
    && (forall sw :: sw in state <==> sw in s && (sw in todo || Edited(s[sw], e).Some?))
    && (forall sw :: sw in state ==> state[sw] == if sw in todo then s[sw] else Edited(s[sw], e).value)
  }

  lemma {:induction false} EditedStep(s: PolicyState, e: Edit, todo: set<string>, state: PolicyState, sw: string)
    requires EditedExcept(s, e, todo, state) && sw in todo && sw in s
    ensures EditedExcept(s, e, todo - {sw}, Replaced(state, sw, Edited(s[sw], e)))
  {
    var result := Edited(s[sw], e);
    var after := Replaced(state, sw, result);
    forall at | at != sw
      ensures at in after <==> at in state
      ensures at in after ==> after[at] == state[at]
    {
    }
  }

  method FindAttached(devices: seq<Device>, name: string) returns (live: Option<Device>)
    ensures live == FindDevice(devices, name)
  {
    live := None;
    for i := 0 to |devices|
      invariant FindDevice(devices[i..], name) == FindDevice(devices, name)
    {
      if devices[i].name == name {
        live := Some(devices[i]);
        break;
      }
      assert devices[i..][1..] == devices[i + 1..];
    }
  }

  method DistinctVlans(raw: seq<Option<int>>) returns (vlans: seq<int>)
    ensures vlans == UsableVlans(raw, |raw|)
  {
    vlans := [];
    for i := 0 to |raw|
      invariant vlans == UsableVlans(raw, i)
    {
      if raw[i].Some? && !(raw[i].value <= 0 || raw[i].value > MAX_VLAN || raw[i].value in vlans) {
        vlans := vlans + [raw[i].value];
      }
    }
  }

  method AutoConfigure(devices: seq<Device>, vlans: seq<int>, allow: seq<RawLink>) returns (cfg: SwitchCfg)
    requires |devices| <= |vlans|
    ensures cfg == AutoCfg(devices, vlans, allow)
  {
    var members: map<int, seq<Member>> := map[];
    for i := 0 to |devices|
      invariant members == OneVlanEach(devices, vlans, i)
    {
      members := members[vlans[i] := VlanIn(members, vlans[i]) + [MemberOf(devices[i])]];
    }
    var pairs: seq<Link> := [];
    for i := 0 to |allow|
      invariant pairs == ParsedLinks(allow, i)
    {
      if allow[i].RawLink? && allow[i].a.Some? && allow[i].b.Some? {
        pairs := pairs + [Link(allow[i].a.value, allow[i].b.value)];
      }
    }
    var links := CleanupLinks(pairs, members);
    var keep;
    cfg, keep := CleanupSwitchAutomation(SwitchCfg(members, links));
  }

  /** All switches but those still to do fit, and have their automatic configuration. */
  ghost predicate ConfiguredExcept(
      topo: Topology, vlans: seq<int>, allow: seq<RawLink>, todo: set<string>, state: PolicyState) {
    && (forall sw :: sw in topo && sw !in todo ==> |topo[sw]| <= |vlans|)
    && (forall sw :: sw in state ==>
          sw in topo && sw !in todo && topo[sw] != [] && state[sw] == AutoCfg(topo[sw], vlans, allow))
    && (forall sw :: sw in topo && sw !in todo ==>
          (sw in state <==> topo[sw] != [] && !IsEmpty(AutoCfg(topo[sw], vlans, allow))))
  }

  lemma {:induction false} ConfiguredStep(
      topo: Topology, vlans: seq<int>, allow: seq<RawLink>, todo: set<string>, state: PolicyState, sw: string)
    requires ConfiguredExcept(topo, vlans, allow, todo, state)
    requires sw in todo && sw in topo && topo[sw] != [] && |topo[sw]| <= |vlans|
    ensures var cfg := AutoCfg(topo[sw], vlans, allow);
            ConfiguredExcept(topo, vlans, allow, todo - {sw}, if IsEmpty(cfg) then state else state[sw := cfg])
  {
    var cfg := AutoCfg(topo[sw], vlans, allow);
    var next := if IsEmpty(cfg) then state else state[sw := cfg];
    forall at | at in next
      ensures at in topo && at !in todo - {sw} && topo[at] != [] && next[at] == AutoCfg(topo[at], vlans, allow)
    {
      assert at != sw ==> at in state;
    }
    forall at | at in topo && at !in todo - {sw}
      ensures |topo[at]| <= |vlans|
      ensures at in next <==> topo[at] != [] && !IsEmpty(AutoCfg(topo[at], vlans, allow))
    {
      assert at != sw ==> at !in todo;
    }
  }

  lemma {:induction false} AllConfigured(topo: Topology, vlans: seq<int>, allow: seq<RawLink>, state: PolicyState)
    requires ConfiguredExcept(topo, vlans, allow, {}, state)
    ensures FitsAll(topo, vlans) && state == AutoState(topo, vlans, allow)
  {
  }

  method PlanWholeNetwork(
      topo: Topology, vlanIds: seq<Option<int>>, allow: seq<RawLink>) returns (plan: Option<PolicyState>)
    ensures plan == AutoAlled(topo, vlanIds, allow)
  {
    var vlans := DistinctVlans(vlanIds);
    if vlans == [] || topo == map[] {
      return None;
    }
    var state: PolicyState := map[];
    var todo := topo.Keys;
    while todo != {}
      invariant todo <= topo.Keys && ConfiguredExcept(topo, vlans, allow, todo, state)
      decreases |todo|
    {
      var sw := Choose(todo);
      if topo[sw] != [] {
        if |vlans| < |topo[sw]| {
          assert !FitsAll(topo, vlans);
          return None;
        }
        ConfiguredStep(topo, vlans, allow, todo, state, sw);
        var cfg := AutoConfigure(topo[sw], vlans, allow);
        if cfg.vlans != map[] || cfg.links != [] {
          state := state[sw := cfg];
        }
      }
      todo := todo - {sw};
    }
    AllConfigured(topo, vlans, allow, state);
    return Some(state);
  }

  class Service {
    const topo: Topology
    /** The stored policy. */
    var switches: PolicyState

    constructor (topo: Topology)
      ensures this.topo == topo && switches == map[]
    {
      this.topo := topo;
      switches := map[];
    }

    method AssignDeviceVlan(sw: string, device: string, vlan: int) returns (ok: bool)
      modifies this
      ensures ok <==> Applied(topo, old(switches), Assign(sw, device, vlan)).Some?
      ensures switches == After(topo, old(switches), Assign(sw, device, vlan))
    {
      if !IsSwitchName(sw) || vlan <= 0 || vlan > MAX_VLAN {
        return false;
      }
      var live := FindAttached(AttachedTo(topo, sw), device);
      if live.None? {
        return false;
      }
      var state := EditEverySwitch(switches, DropDevice(device));
      var cfg := CfgIn(state, sw);
      var vlans := RemoveFromVlans(cfg.vlans, device);
      var members := SortedMembers(VlanIn(vlans, vlan) + [MemberOf(live.value)]);
      var keep;
      cfg, keep := CleanupSwitchAutomation(SwitchCfg(vlans[vlan := members], cfg.links));
      switches := state[sw := cfg];
      return true;
    }

    method AutoConfigureSwitchVlans(sw: string, vlanIds: seq<Option<int>>, allow: seq<RawLink>) returns (ok: bool)
      modifies this
      ensures ok <==> Applied(topo, old(switches), AutoSwitch(sw, vlanIds, allow)).Some?
      ensures switches == After(topo, old(switches), AutoSwitch(sw, vlanIds, allow))
    {
      if !IsSwitchName(sw) {
        return false;
      }
      var vlans := DistinctVlans(vlanIds);
      var devices := AttachedTo(topo, sw);
      if vlans == [] || devices == [] || |vlans| < |devices| {
        return false;
      }
      var cfg := AutoConfigure(devices, vlans, allow);
      switches := switches[sw := cfg];
      return true;
    }

    method AutoConfigureWholeNetwork(vlanIds: seq<Option<int>>, allow: seq<RawLink>) returns (ok: bool)
      modifies this
      ensures ok <==> Applied(topo, old(switches), AutoAll(vlanIds, allow)).Some?
      ensures switches == After(topo, old(switches), AutoAll(vlanIds, allow))
    {
      var planned := PlanWholeNetwork(topo, vlanIds, allow);
      if planned.Some? {
        switches := planned.value;
      }
      return planned.Some?;
    }

    method ClearSwitchAutomation(sw: string) returns (ok: bool)
      modifies this
      ensures ok <==> Applied(topo, old(switches), ClearSwitch(sw)).Some?
      ensures switches == After(topo, old(switches), ClearSwitch(sw))
    {
      if !IsSwitchName(sw) || sw !in switches {
        return false;
      }
      switches := switches - {sw};
      return true;
    }

    method ClearAllNetworkAutomation()
      modifies this
      ensures switches == After(topo, old(switches), ClearAll)
    {
      switches := map[];
    }

    method RestoreOpenConnectivity(only: Option<string>)
      modifies this
      ensures switches == After(topo, old(switches), Restore(only))
    {
      if only.Some? && only.value != "" {
        switches := switches - {only.value};
      } else {
        switches := map[];
      }
    }

    method RemoveVlanFromAllSwitches(vlan: int) returns (ok: bool)
      modifies this
      ensures ok <==> Applied(topo, old(switches), RemoveEverywhere(vlan)).Some?
      ensures switches == After(topo, old(switches), RemoveEverywhere(vlan))
    {
      if !exists sw :: sw in switches && vlan in switches[sw].vlans {
        return false;
      }
      switches := EditEverySwitch(switches, DropVlan(vlan));
      return true;
    }

    method RemoveVlanAssignment(sw: string, vlan: int, device: Option<string>) returns (ok: bool)
      modifies this
      ensures ok <==> Applied(topo, old(switches), RemoveAssignment(sw, vlan, device)).Some?
      ensures switches == After(topo, old(switches), RemoveAssignment(sw, vlan, device))
    {
      if sw !in switches || vlan !in switches[sw].vlans {
        return false;
      }
      var cfg := switches[sw];
      var vlans := cfg.vlans;
      if device.Some? && device.value != "" {
        var members := WithoutDevice(vlans[vlan], device.value);
        if members != [] {
          vlans := vlans[vlan := members];
        } else {
          vlans := vlans - {vlan};
        }
      } else {
        vlans := vlans - {vlan};
      }
      var cleaned, keep := CleanupSwitchAutomation(SwitchCfg(vlans, LinksWithout(cfg.links, vlan)));
      switches := if keep then switches[sw := cleaned] else switches - {sw};
      return true;
    }

    method SetVlanInterconnect(sw: string, a: int, b: int, enabled: bool) returns (ok: bool)
      modifies this
      ensures ok <==> Applied(topo, old(switches), Interconnect(sw, a, b, enabled)).Some?
      ensures switches == After(topo, old(switches), Interconnect(sw, a, b, enabled))
    {
      if !IsSwitchName(sw) || a == b || a <= 0 || a > MAX_VLAN || b <= 0 || b > MAX_VLAN {
        return false;
      }
      if sw !in switches || a !in switches[sw].vlans || b !in switches[sw].vlans {
        return false;
      }
      var edited := EditSwitch(switches[sw], SetLink(a, b, enabled));
      switches := Replaced(switches, sw, edited);
      return true;
    }

    method SetVlanInterconnectScope(a: int, b: int, enabled: bool, only: Option<string>) returns (ok: bool)
      modifies this
      ensures ok <==> Applied(topo, old(switches), InterconnectScope(a, b, enabled, only)).Some?
      ensures switches == After(topo, old(switches), InterconnectScope(a, b, enabled, only))
    {
      if only.Some? && only.value != "" {
        ok := SetVlanInterconnect(only.value, a, b, enabled);
        return;
      }
      if !exists sw :: sw in switches && a in switches[sw].vlans && b in switches[sw].vlans {
        return false;
      }
      switches := EditEverySwitch(switches, SetLink(a, b, enabled));
      return true;
    }
  }
}
