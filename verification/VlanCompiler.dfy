/** Compilation of one switch's VLAN policy into OpenFlow rules
    (examples/campus_controller.py, `_install_vlan_automation_flows`). */
module VlanCompiler {
  import opened Prelude
  import opened OpenFlow
  import opened VlanPolicy

  const VLAN_AUTOMATION_COOKIE := 0xCAFE3001

  const ALLOW_PRIORITY := 395
  const ARP_PRIORITY := 390
  const BLOCK_PRIORITY := 385
  const ARP_BLOCK_PRIORITY := 384
  const CLOSED_PRIORITY := 380

  /** The ports of the campus topology; a datapath outside it has no known ports. */
  function KnownPorts(dpid: int): set<int> {
    if dpid == 1 then {1, 2, 3, 4, 5, 6}
    else if dpid == 2 then {1, 2, 3, 4, 5, 6, 7}
    else if 3 <= dpid <= 14 then {1, 2, 3, 4}
    else {}
  }

  // ----- Rules -----

  function Outputs(ms: seq<Member>): (r: seq<Action>)
    ensures |r| == |ms|
    ensures forall i :: 0 <= i < |ms| ==> r[i] == Output(ms[i].port)
  {
    seq(|ms|, i requires 0 <= i < |ms| => Output(ms[i].port))
  }

  function VlanRule(priority: int, pattern: Match, actions: seq<Action>): Rule {
    Rule(Key(priority, pattern), Entry(actions, VLAN_AUTOMATION_COOKIE))
  }

  function ArpRule(port: int, targets: seq<Member>): Rule {
    VlanRule(ARP_PRIORITY,
             ANY.(inPort := Some(port), ethType := Some(ETH_TYPE_ARP), ethDst := Some(BROADCAST)),
             Outputs(targets))
  }

  function AllowRule(port: int, dst: Member): Rule {
    VlanRule(ALLOW_PRIORITY, ANY.(inPort := Some(port), ethDst := Some(dst.mac)), [Output(dst.port)])
  }

  function ClosedRule(port: int): Rule {
    VlanRule(CLOSED_PRIORITY, ANY.(inPort := Some(port)), [])
  }

  function BlockRule(port: int, mac: Mac): Rule {
    VlanRule(BLOCK_PRIORITY, ANY.(inPort := Some(port), ethDst := Some(mac)), [])
  }

  function ArpBlockRule(port: int): Rule {
    VlanRule(ARP_BLOCK_PRIORITY,
             ANY.(inPort := Some(port), ethType := Some(ETH_TYPE_ARP), ethDst := Some(BROADCAST)),
             [])
  }

  // ----- The rule list, in the order the installer pushes it -----

  type VlanMembers = map<int, seq<Member>>

  /** The members on known ports; every port counts as known on a switch without a list. */
  function KnownMembers(ms: seq<Member>, known: set<int>): seq<Member> {
    if ms == [] || known == {} then ms
    else
      var before := KnownMembers(ms[..|ms| - 1], known);
      if ms[|ms| - 1].port in known then before + [ms[|ms| - 1]] else before
  }

  /** The VLANs that keep a member on a known port, with those members. */
  function ManagedVlans(cfg: SwitchCfg, known: set<int>): VlanMembers {
    var vs := Ascending(cfg.vlans.Keys);
    ManagedAmong(cfg, known, vs, |vs|)
  }

  // Functions with a parameter n work on the first n elements of a list.

  function ManagedAmong(cfg: SwitchCfg, known: set<int>, vs: seq<int>, n: nat): VlanMembers
    requires n <= |vs| && forall i :: 0 <= i < |vs| ==> vs[i] in cfg.vlans
  {
    if n == 0 then map[]
    else
      var before := ManagedAmong(cfg, known, vs, n - 1);
      var members := KnownMembers(cfg.vlans[vs[n - 1]], known);
      if members != [] then before[vs[n - 1] := members] else before
  }

  /** The ports of those VLANs, collected one VLAN at a time. */
  function PortsAmong(cfg: SwitchCfg, known: set<int>, vs: seq<int>, n: nat): set<int>
    requires n <= |vs| && forall i :: 0 <= i < |vs| ==> vs[i] in cfg.vlans
  {
    if n == 0 then {}
    else PortsAmong(cfg, known, vs, n - 1) + PortsOf(KnownMembers(cfg.vlans[vs[n - 1]], known))
  }

  lemma {:induction false} ManagedAmongMeaning(cfg: SwitchCfg, known: set<int>, vs: seq<int>, n: nat)
    requires n <= |vs| && forall i :: 0 <= i < |vs| ==> vs[i] in cfg.vlans
    ensures forall v :: v in ManagedAmong(cfg, known, vs, n) <==>
                        v in cfg.vlans && v in vs[..n] && KnownMembers(cfg.vlans[v], known) != []
    ensures forall v :: v in ManagedAmong(cfg, known, vs, n) ==>
                        ManagedAmong(cfg, known, vs, n)[v] == KnownMembers(cfg.vlans[v], known)
  {
    if n > 0 {
      ManagedAmongMeaning(cfg, known, vs, n - 1);
      assert vs[..n] == vs[..n - 1] + [vs[n - 1]];
    }
  }

  function ManagedPorts(vm: VlanMembers): set<int> {
    set v, m | v in vm && m in vm[v] :: m.port
  }

  function Adjacent(vm: VlanMembers, links: seq<Link>, v: int): set<int> {
    set u | u in vm && (u == v || Link(u, v) in links || Link(v, u) in links)
  }

  function Candidates(vm: VlanMembers, peers: seq<int>, n: nat): seq<Member>
    requires n <= |peers|
  {
    if n == 0 then []
    else Candidates(vm, peers, n - 1) + if peers[n - 1] in vm then vm[peers[n - 1]] else []
  }

  function PortsOf(ms: seq<Member>): set<int> {
    set m | m in ms :: m.port
  }

  /** Candidates other than the sender's port, one for each port. */
  function Targets(port: int, candidates: seq<Member>): seq<Member> {
    FirstTargets(port, candidates, |candidates|)
  }

  function FirstTargets(port: int, candidates: seq<Member>, n: nat): seq<Member>
    requires n <= |candidates|
  {
    if n == 0 then []
    else
      var before := FirstTargets(port, candidates, n - 1);
      var d := candidates[n - 1];
      if d.port == port || d.port in PortsOf(before) then before else before + [d]
  }

  // Each of the following extends the list `done` of rules pushed so far.

  function AllowTo(done: seq<Rule>, port: int, targets: seq<Member>, n: nat): seq<Rule>
    requires n <= |targets|
  {
    if n == 0 then done
    else AllowTo(done, port, targets, n - 1) + [AllowRule(port, targets[n - 1])]
  }

  function SourceRules(done: seq<Rule>, port: int, targets: seq<Member>): seq<Rule> {
    var head := if targets != [] then done + [ArpRule(port, targets)] else done;
    AllowTo(head, port, targets, |targets|) + [ClosedRule(port)]
  }

  function PeersOf(vm: VlanMembers, links: seq<Link>, v: int): seq<Member> {
    var peers := Ascending(Adjacent(vm, links, v));
    Candidates(vm, peers, |peers|)
  }

  function MemberRules(done: seq<Rule>, members: seq<Member>, candidates: seq<Member>, n: nat): seq<Rule>
    requires n <= |members|
  {
    if n == 0 then done
    else
      var port := members[n - 1].port;
      SourceRules(MemberRules(done, members, candidates, n - 1), port, Targets(port, candidates))
  }

  function AllowRules(done: seq<Rule>, vm: VlanMembers, links: seq<Link>, vs: seq<int>, n: nat): seq<Rule>
    requires n <= |vs| && forall i :: 0 <= i < |vs| ==> vs[i] in vm
  {
    if n == 0 then done
    else
      var members := vm[vs[n - 1]];
      MemberRules(AllowRules(done, vm, links, vs, n - 1), members, PeersOf(vm, links, vs[n - 1]), |members|)
  }

  function AllowedSources(vm: VlanMembers, links: seq<Link>, v: int): set<int> {
    set u, m | u in Adjacent(vm, links, v) && m in vm[u] :: m.port
  }

  function PortBlocks(done: seq<Rule>, m: Member, allowed: set<int>, ports: seq<int>, n: nat): seq<Rule>
    requires n <= |ports|
  {
    if n == 0 then done
    else
      var before := PortBlocks(done, m, allowed, ports, n - 1);
      var port := ports[n - 1];
      if port == m.port || port in allowed then before else before + [BlockRule(port, m.mac)]
  }

  function MemberBlocks(done: seq<Rule>, members: seq<Member>, allowed: set<int>, ports: seq<int>, n: nat): seq<Rule>
    requires n <= |members|
  {
    if n == 0 then done
    else PortBlocks(MemberBlocks(done, members, allowed, ports, n - 1), members[n - 1], allowed, ports, |ports|)
  }

  function BlockRules(
      done: seq<Rule>, vm: VlanMembers, links: seq<Link>, vs: seq<int>, ports: seq<int>, n: nat): seq<Rule>
    requires n <= |vs| && forall i :: 0 <= i < |vs| ==> vs[i] in vm
  {
    if n == 0 then done
    else
      var v := vs[n - 1];
      MemberBlocks(BlockRules(done, vm, links, vs, ports, n - 1), vm[v], AllowedSources(vm, links, v), ports, |vm[v]|)
  }

  function ArpBlocks(done: seq<Rule>, ports: seq<int>, managed: set<int>, n: nat): seq<Rule>
    requires n <= |ports|
  {
    if n == 0 then done
    else
      var before := ArpBlocks(done, ports, managed, n - 1);
      if ports[n - 1] in managed then before else before + [ArpBlockRule(ports[n - 1])]
  }

  /** The ports the installer guards: those of the topology, or just the managed ones. */
  function GuardedPorts(vm: VlanMembers, known: set<int>): set<int> {
    if known == {} then ManagedPorts(vm) else known
  }

  function CompileVlans(vm: VlanMembers, links: seq<Link>, ports: set<int>): seq<Rule> {
    var vs := Ascending(vm.Keys);
    var guarded := Ascending(ports);
    var allowed := AllowRules([], vm, links, vs, |vs|);
    var blocked := BlockRules(allowed, vm, links, vs, guarded, |vs|);
    ArpBlocks(blocked, guarded, ManagedPorts(vm), |guarded|)
  }

  function Compile(cfg: SwitchCfg, dpid: int): seq<Rule> {
    var vm := ManagedVlans(cfg, KnownPorts(dpid));
    if vm == map[] then [] else CompileVlans(vm, cfg.links, GuardedPorts(vm, KnownPorts(dpid)))
  }

  // ----- The installer -----

  class VlanController {
    var state: PolicyState
    var ruleCounts: map<int, int>

    constructor (state: PolicyState)
      ensures this.state == state && ruleCounts == map[]
    {
      this.state := state;
      ruleCounts := map[];
    }

    /** Reprograms one switch: whatever VLAN rules it had are replaced by the compilation
        of its current policy, every other flow that shares no key stays. */
    method InstallVlanAutomationFlows(sw: Switch) returns (count: int)
      modifies this`ruleCounts, sw
      ensures sw.table ==
              AddAll(DeleteCookie(old(sw.table), VLAN_AUTOMATION_COOKIE), Compile(CfgOf(state, sw.dpid), sw.dpid))
      ensures count == |Compile(CfgOf(state, sw.dpid), sw.dpid)|
      ensures ruleCounts ==
              if ManagedVlans(CfgOf(state, sw.dpid), KnownPorts(sw.dpid)) == map[] then old(ruleCounts) - {sw.dpid}
              else old(ruleCounts)[sw.dpid := count]
    {
      sw.DeleteCookieFlows(VLAN_AUTOMATION_COOKIE);
      ghost var t0 := sw.table;
      var cfg := CfgOf(state, sw.dpid);
      var known := KnownPorts(sw.dpid);
      var vm, managed := CollectMembers(cfg, known);
      if vm == map[] {
        ruleCounts := ruleCounts - {sw.dpid};
        return 0;
      }
      if known == {} {
        known := managed;
      }
      var vs := Ascending(vm.Keys);
      var ports := Ascending(known);
      count := AllowAll(sw, vm, cfg.links, vs, t0);
      ghost var allow := AllowRules([], vm, cfg.links, vs, |vs|);
      count := BlockAll(sw, vm, cfg.links, vs, ports, count, t0, allow);
      count := BlockArp(sw, ports, managed, count, t0, BlockRules(allow, vm, cfg.links, vs, ports, |vs|));
      ruleCounts := ruleCounts[sw.dpid := count];
    }

    method AllowAll(sw: Switch, vm: VlanMembers, links: seq<Link>, vs: seq<int>, ghost t0: Table)
      returns (count: int)
      requires forall i :: 0 <= i < |vs| ==> vs[i] in vm
      requires sw.table == AddAll(t0, [])
      modifies sw
      ensures sw.table == AddAll(t0, AllowRules([], vm, links, vs, |vs|))
      ensures count == |AllowRules([], vm, links, vs, |vs|)|
    {
      count := 0;
      for i := 0 to |vs|
        modifies sw
        invariant sw.table == AddAll(t0, AllowRules([], vm, links, vs, i))
        invariant count == |AllowRules([], vm, links, vs, i)|
      {
        count := AllowVlan(sw, vm[vs[i]], PeersOf(vm, links, vs[i]), count, t0, AllowRules([], vm, links, vs, i));
      }
    }

    method BlockAll(sw: Switch, vm: VlanMembers, links: seq<Link>, vs: seq<int>, ports: seq<int>, sent: int,
        ghost t0: Table, ghost done: seq<Rule>)
      returns (count: int)
      requires forall i :: 0 <= i < |vs| ==> vs[i] in vm
      requires sw.table == AddAll(t0, done) && sent == |done|
      modifies sw
      ensures sw.table == AddAll(t0, BlockRules(done, vm, links, vs, ports, |vs|))
      ensures count == |BlockRules(done, vm, links, vs, ports, |vs|)|
    {
      count := sent;
      for i := 0 to |vs|
        modifies sw
        invariant sw.table == AddAll(t0, BlockRules(done, vm, links, vs, ports, i))
        invariant count == |BlockRules(done, vm, links, vs, ports, i)|
      {
        count := BlockVlan(sw, vm[vs[i]], AllowedSources(vm, links, vs[i]), ports, count, t0,
                           BlockRules(done, vm, links, vs, ports, i));
      }
    }

    /** Sends one rule and counts it. */
    method Push(sw: Switch, r: Rule, sent: int, ghost t0: Table, ghost done: seq<Rule>) returns (count: int)
      requires sw.table == AddAll(t0, done) && sent == |done|
      modifies sw
      ensures sw.table == AddAll(t0, done + [r]) && count == |done + [r]|
    {
      sw.Push(r);
      count := sent + 1;
      AddAllSnoc(t0, done, r);
    }

    method CollectMembers(cfg: SwitchCfg, known: set<int>) returns (vm: VlanMembers, managed: set<int>)
      ensures vm == ManagedVlans(cfg, known) && managed == ManagedPorts(vm)
    {
      var vs := Ascending(cfg.vlans.Keys);
      vm, managed := CollectFrom(cfg, known, vs);
      PortsAmongMeaning(cfg, known, vs, |vs|);
    }

    method CollectFrom(cfg: SwitchCfg, known: set<int>, vs: seq<int>) returns (vm: VlanMembers, managed: set<int>)
      requires forall i :: 0 <= i < |vs| ==> vs[i] in cfg.vlans
      ensures vm == ManagedAmong(cfg, known, vs, |vs|) && managed == PortsAmong(cfg, known, vs, |vs|)
    {
      vm, managed := map[], {};
      for i := 0 to |vs|
        invariant vm == ManagedAmong(cfg, known, vs, i) && managed == PortsAmong(cfg, known, vs, i)
      {
        var members := OnKnownPorts(cfg.vlans[vs[i]], known);
        if members != [] {
          vm := vm[vs[i] := members];
          managed := managed + PortsOf(members);
        }
      }
    }

    method OnKnownPorts(all: seq<Member>, known: set<int>) returns (members: seq<Member>)
      ensures members == KnownMembers(all, known)
    {
      members := [];
      for i := 0 to |all|
        invariant members == KnownMembers(all[..i], known)
      {
        assert all[..i + 1][..i] == all[..i];
        if known == {} || all[i].port in known {
          members := members + [all[i]];
        }
      }
      assert all[..|all|] == all;
    }

    method AllowVlan(sw: Switch, members: seq<Member>, candidates: seq<Member>, sent: int,
        ghost t0: Table, ghost done: seq<Rule>)
      returns (count: int)
      requires sw.table == AddAll(t0, done) && sent == |done|
      modifies sw
      ensures sw.table == AddAll(t0, MemberRules(done, members, candidates, |members|))
      ensures count == |MemberRules(done, members, candidates, |members|)|
    {
      count := sent;
      for i := 0 to |members|
        modifies sw
        invariant sw.table == AddAll(t0, MemberRules(done, members, candidates, i))
        invariant count == |MemberRules(done, members, candidates, i)|
      {
        count := AllowSource(sw, members[i].port, candidates, count, t0, MemberRules(done, members, candidates, i));
      }
    }

    method ChooseTargets(port: int, candidates: seq<Member>) returns (targets: seq<Member>)
      ensures targets == Targets(port, candidates)
    {
      targets := [];
      var seen := {};
      for i := 0 to |candidates|
        invariant targets == FirstTargets(port, candidates, i) && seen == PortsOf(targets)
      {
        var d := candidates[i];
        if d.port != port && d.port !in seen {
          targets := targets + [d];
          seen := seen + {d.port};
        }
      }
    }

    method AllowSource(sw: Switch, port: int, candidates: seq<Member>, sent: int,
        ghost t0: Table, ghost done: seq<Rule>)
      returns (count: int)
      requires sw.table == AddAll(t0, done) && sent == |done|
      modifies sw
      ensures sw.table == AddAll(t0, SourceRules(done, port, Targets(port, candidates)))
      ensures count == |SourceRules(done, port, Targets(port, candidates))|
    {
      count := sent;
      var targets := ChooseTargets(port, candidates);
      ghost var head := done;
      if targets != [] {
        count := Push(sw, ArpRule(port, targets), count, t0, done);
        head := done + [ArpRule(port, targets)];
      }
      for i := 0 to |targets|
        modifies sw
        invariant sw.table == AddAll(t0, AllowTo(head, port, targets, i))
        invariant count == |AllowTo(head, port, targets, i)|
      {
        count := Push(sw, AllowRule(port, targets[i]), count, t0, AllowTo(head, port, targets, i));
      }
      count := Push(sw, ClosedRule(port), count, t0, AllowTo(head, port, targets, |targets|));
    }

    method BlockVlan(sw: Switch, members: seq<Member>, allowed: set<int>, ports: seq<int>, sent: int,
        ghost t0: Table, ghost done: seq<Rule>)
      returns (count: int)
      requires sw.table == AddAll(t0, done) && sent == |done|
      modifies sw
      ensures sw.table == AddAll(t0, MemberBlocks(done, members, allowed, ports, |members|))
      ensures count == |MemberBlocks(done, members, allowed, ports, |members|)|
    {
      count := sent;
      for i := 0 to |members|
        modifies sw
        invariant sw.table == AddAll(t0, MemberBlocks(done, members, allowed, ports, i))
        invariant count == |MemberBlocks(done, members, allowed, ports, i)|
      {
        ghost var before := MemberBlocks(done, members, allowed, ports, i);
        for j := 0 to |ports|
          modifies sw
          invariant sw.table == AddAll(t0, PortBlocks(before, members[i], allowed, ports, j))
          invariant count == |PortBlocks(before, members[i], allowed, ports, j)|
        {
          if ports[j] != members[i].port && ports[j] !in allowed {
            count := Push(sw, BlockRule(ports[j], members[i].mac), count, t0,
                          PortBlocks(before, members[i], allowed, ports, j));
          }
        }
      }
    }

    method BlockArp(sw: Switch, ports: seq<int>, managed: set<int>, sent: int,
        ghost t0: Table, ghost done: seq<Rule>)
      returns (count: int)
      requires sw.table == AddAll(t0, done) && sent == |done|
      modifies sw
      ensures sw.table == AddAll(t0, ArpBlocks(done, ports, managed, |ports|))
      ensures count == |ArpBlocks(done, ports, managed, |ports|)|
    {
      count := sent;
      for i := 0 to |ports|
        modifies sw
        invariant sw.table == AddAll(t0, ArpBlocks(done, ports, managed, i))
        invariant count == |ArpBlocks(done, ports, managed, i)|
      {
        if ports[i] !in managed {
          count := Push(sw, ArpBlockRule(ports[i]), count, t0, ArpBlocks(done, ports, managed, i));
        }
      }
    }
  }

  lemma {:induction false} PortsAmongMeaning(cfg: SwitchCfg, known: set<int>, vs: seq<int>, n: nat)
    requires n <= |vs| && forall i :: 0 <= i < |vs| ==> vs[i] in cfg.vlans
    requires forall i, j :: 0 <= i < j < |vs| ==> vs[i] < vs[j]
    ensures PortsAmong(cfg, known, vs, n) == ManagedPorts(ManagedAmong(cfg, known, vs, n))
  {
    if n > 0 {
      PortsAmongMeaning(cfg, known, vs, n - 1);
      ManagedAmongMeaning(cfg, known, vs, n - 1);
      ManagedPortsAdd(ManagedAmong(cfg, known, vs, n - 1), vs[n - 1], KnownMembers(cfg.vlans[vs[n - 1]], known));
    }
  }

  lemma {:induction false} ManagedPortsAdd(vm: VlanMembers, v: int, members: seq<Member>)
    requires v !in vm
    ensures ManagedPorts(vm[v := members]) == ManagedPorts(vm) + PortsOf(members)
  {
    var vm' := vm[v := members];
    forall p | p in ManagedPorts(vm) + PortsOf(members)
      ensures p in ManagedPorts(vm')
    {
      if p in PortsOf(members) {
        assert vm'[v] == members;
      } else {
        var u, m :| u in vm && m in vm[u] && m.port == p;
        assert u in vm' && m in vm'[u];
      }
    }
  }
}
