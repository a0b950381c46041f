/** What the controller's list of known ports does to a policy: on a switch with a list,
    members on other ports count for nothing, and no rule mentions another port. */
module VlanKnown {
  import opened Prelude
  import opened OpenFlow
  import opened VlanPolicy
  import opened VlanCompiler
  import opened VlanMeaning

  /** The controller takes the port into account: it knows it, or it knows no port of the switch. */
  ghost predicate InSight(dpid: int, port: int) { KnownPorts(dpid) == {} || port in KnownPorts(dpid) }

  /** Exactly the members on those ports are kept. */
  lemma {:induction false} KnownExactly(ms: seq<Member>, known: set<int>, m: Member)
    ensures m in KnownMembers(ms, known) <==> m in ms && (known == {} || m.port in known)
  {
    if ms != [] {
      var n := |ms| - 1;
      KnownExactly(ms[..n], known, m);
      assert m in ms <==> m in ms[..n] || m == ms[n];
    }
  }

  /** And they keep their order. */
  lemma {:induction false} KnownInOrder(ms: seq<Member>, more: seq<Member>, known: set<int>)
    ensures KnownMembers(ms + more, known) == KnownMembers(ms, known) + KnownMembers(more, known)
  {
    if more == [] {
      assert ms + more == ms;
    } else {
      var n := |more| - 1;
      KnownInOrder(ms, more[..n], known);
      assert (ms + more)[..|ms| + n] == ms + more[..n];
    }
  }

  lemma {:induction false} ManagedAt(cfg: SwitchCfg, known: set<int>, v: int)
    ensures v in ManagedVlans(cfg, known) <==> v in cfg.vlans && KnownMembers(cfg.vlans[v], known) != []
    ensures v in ManagedVlans(cfg, known) ==> ManagedVlans(cfg, known)[v] == KnownMembers(cfg.vlans[v], known)
  {
    var vs := Ascending(cfg.vlans.Keys);
    assert vs[..|vs|] == vs;
    ManagedAmongMeaning(cfg, known, vs, |vs|);
    assert v in vs <==> v in cfg.vlans;
  }

  /** A member is managed if and only if the policy has it on such a port. */
  lemma {:induction false} ManagedExactly(cfg: SwitchCfg, dpid: int, v: int, m: Member)
    ensures InVlan(ManagedVlans(cfg, KnownPorts(dpid)), v, m) <==>
            v in cfg.vlans && m in cfg.vlans[v] && InSight(dpid, m.port)
  {
    ManagedAt(cfg, KnownPorts(dpid), v);
    if v in cfg.vlans {
      KnownExactly(cfg.vlans[v], KnownPorts(dpid), m);
    }
  }

  /** In numbers: on the campus switches that is ports 1 to 6 of s1, 1 to 7 of s2 and 1 to 4 of
      the others; on a switch beyond s14 every port. */
  lemma {:induction false} ManagedByNumber(cfg: SwitchCfg, dpid: int, v: int, m: Member)
    requires dpid >= 1
    ensures InVlan(ManagedVlans(cfg, KnownPorts(dpid)), v, m) <==>
            && v in cfg.vlans && m in cfg.vlans[v]
            && (dpid > 14 || 1 <= m.port <= (if dpid == 1 then 6 else if dpid == 2 then 7 else 4))
  {
    ManagedExactly(cfg, dpid, v, m);
  }

  predicate SendsTo(actions: seq<Action>, ports: set<int>) {
    forall i :: 0 <= i < |actions| ==> actions[i].Output? && actions[i].port in ports
  }

  lemma {:induction false} TargetsInSight(cfg: SwitchCfg, dpid: int, v: int, port: int, d: Member)
    requires d in Targets(port, PeersOf(ManagedVlans(cfg, KnownPorts(dpid)), cfg.links, v))
    ensures InSight(dpid, d.port)
  {
    var vm := ManagedVlans(cfg, KnownPorts(dpid));
    var candidates := PeersOf(vm, cfg.links, v);
    TargetsCover(port, candidates, |candidates|);
    PeersMembers(vm, cfg.links, v, d);
    var u :| u in Adjacent(vm, cfg.links, v) && InVlan(vm, u, d);
    ManagedExactly(cfg, dpid, u, d);
  }

  /** On a switch with a list of ports every compiled rule is for an ingress port of the list
      and outputs to ports of the list only, whatever the configuration says. */
  lemma {:induction false} OnlyKnownPorts(cfg: SwitchCfg, dpid: int, r: Rule)
    requires KnownPorts(dpid) != {} && r in Compile(cfg, dpid)
    ensures r.key.pattern.inPort.Some? && r.key.pattern.inPort.value in KnownPorts(dpid)
    ensures SendsTo(r.entry.actions, KnownPorts(dpid))
  {
    var vm, known := ManagedVlans(cfg, KnownPorts(dpid)), KnownPorts(dpid);
    RuleShape(vm, cfg.links, known, r);
    if IsArp(r, vm, cfg.links) {
      ArpKnown(cfg, dpid, r);
    } else if IsAllow(r, vm, cfg.links) {
      AllowKnown(cfg, dpid, r);
    } else if IsClosed(r, vm) {
      var v, s :| InVlan(vm, v, s) && r == ClosedRule(s.port);
      ManagedExactly(cfg, dpid, v, s);
    }
  }

  lemma {:induction false} ArpKnown(cfg: SwitchCfg, dpid: int, r: Rule)
    requires KnownPorts(dpid) != {} && IsArp(r, ManagedVlans(cfg, KnownPorts(dpid)), cfg.links)
    ensures r.key.pattern.inPort.Some? && r.key.pattern.inPort.value in KnownPorts(dpid)
    ensures SendsTo(r.entry.actions, KnownPorts(dpid))
  {
    var vm := ManagedVlans(cfg, KnownPorts(dpid));
    var v, s :| InVlan(vm, v, s) && IsArpFor(r, vm, cfg.links, v, s);
    ManagedExactly(cfg, dpid, v, s);
    var targets := Targets(s.port, PeersOf(vm, cfg.links, v));
    forall i | 0 <= i < |r.entry.actions|
      ensures r.entry.actions[i].Output? && r.entry.actions[i].port in KnownPorts(dpid)
    {
      TargetsInSight(cfg, dpid, v, s.port, targets[i]);
    }
  }

  lemma {:induction false} AllowKnown(cfg: SwitchCfg, dpid: int, r: Rule)
    requires KnownPorts(dpid) != {} && IsAllow(r, ManagedVlans(cfg, KnownPorts(dpid)), cfg.links)
    ensures r.key.pattern.inPort.Some? && r.key.pattern.inPort.value in KnownPorts(dpid)
    ensures SendsTo(r.entry.actions, KnownPorts(dpid))
  {
    var vm := ManagedVlans(cfg, KnownPorts(dpid));
    var v, s, d :| InVlan(vm, v, s) && d in Targets(s.port, PeersOf(vm, cfg.links, v)) && r == AllowRule(s.port, d);
    ManagedExactly(cfg, dpid, v, s);
    TargetsInSight(cfg, dpid, v, s.port, d);
  }
}
