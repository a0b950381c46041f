/** The flows of the VLAN policy, of the queue engine and of the reroute policy in one table:
    in which order of priority they lie, and what becomes of a frame on a switch that holds
    the first two. */
module Layers {
  import opened Prelude
  import opened OpenFlow
  import opened VlanPolicy
  import opened VlanCompiler
  import opened VlanMeaning
  import opened RerouteFlows
  import opened ClientPorts
  import Q = QueuePolicy
  import R = Reroute
  import F = RerouteFrames

  /** The VLAN flows: 395 to allow, 390 for ARP, 385 and 384 for other ports, 380 to close. */
  lemma {:induction false} VlanPriorities(vm: VlanMembers, links: seq<Link>, ports: set<int>, r: Rule)
    requires r in CompileVlans(vm, links, ports)
    ensures var p := r.key.priority; p == 395 || p == 390 || p == 385 || p == 384 || p == 380
  {
    RuleShape(vm, links, ports, r);
  }

  /** The engine's: 310 to 340 by class, and 250 by default. */
  lemma {:induction false} EnginePriorities(s: Q.Site, r: Rule)
    requires r in Q.All(s)
    ensures var p := r.key.priority; p == 340 || p == 335 || p == 330 || p == 320 || p == 310 || p == 250
  {
    var w := Q.RuleWay(s, r);
    if r != Q.DefaultRule(s, w) {
      var c, p :| p in Q.Ports(s.tables, c) && r == Q.ClassRule(s, w, c, p);
    }
  }

  lemma {:induction false} EngineBelow(u: Q.Setup, dpid: int, base: Table, f: Frame)
    requires Valid(u) && 2 <= dpid <= 14
    requires forall k :: k in base && Covers(k.pattern, f) ==> k.priority < 250
    ensures forall k :: k in Q.Programmed(u, dpid, base) && Covers(k.pattern, f) ==> k.priority < 380
  {
    SiteIsValid(u, dpid);
    ReachedMapped(u, dpid);
    var s := Q.SiteOf(u, dpid).value;
    Q.CompiledKeysDecide(s);
    AddAllContents(base, Q.All(s));
    forall k | k in Q.Programmed(u, dpid, base) && Covers(k.pattern, f)
      ensures k.priority < 380
    {
      if k !in base {
        var r :| r in Q.All(s) && r.key == k;
        EnginePriorities(s, r);
      }
    }
  }

  /** What the engine makes of a frame it is concerned with, on a mapped switch. */
  ghost predicate Queues(u: Q.Setup, dpid: int, f: Frame, actions: seq<Action>) {
    && f.ethType == 0x0800
    && ((f.ipDst == u.primary
         && actions == [SetQueue(Q.QueueOf(u.tables, Q.ServerTcp(f, true), Q.ServerUdp(f, true))), Output(1)])
        || (f.inPort == 1 && f.ipSrc == u.primary
            && exists port :: (f.ipDst, port) in Reached(u, dpid)
                 && actions == [SetQueue(Q.QueueOf(u.tables, Q.ServerTcp(f, false), Q.ServerUdp(f, false))),
                     Output(port)]))
  }

  lemma {:induction false} EngineTreats(u: Q.Setup, dpid: int, base: Table, f: Frame, actions: seq<Action>)
    requires Valid(u) && 2 <= dpid <= 14 && Queues(u, dpid, f, actions)
    requires forall k :: k in base && Covers(k.pattern, f) ==> k.priority < 250
    ensures Treats(Q.Programmed(u, dpid, base), f, actions)
  {
    if f.ipDst == u.primary
        && actions == [SetQueue(Q.QueueOf(u.tables, Q.ServerTcp(f, true), Q.ServerUdp(f, true))), Output(1)] {
      ServerReached(u, dpid, base, f);
    } else {
      var q := Q.QueueOf(u.tables, Q.ServerTcp(f, false), Q.ServerUdp(f, false));
      var port :| (f.ipDst, port) in Reached(u, dpid) && actions == [SetQueue(q), Output(port)];
      Served(u, dpid, base, f.ipDst, port, f);
    }
  }

  lemma {:induction false} SameTreatment(base: Table, rs: seq<Rule>, f: Frame, actions: seq<Action>)
    requires KeysDecide(rs) && forall r: Rule :: r in rs ==> !Covers(r.key.pattern, f)
    requires Treats(base, f, actions)
    ensures Treats(AddAll(base, rs), f, actions)
  {
    var t := AddAll(base, rs);
    AddAllContents(base, rs);
    assert forall k: Key :: Covers(k.pattern, f) ==> (k in t <==> k in base);
    assert forall k :: k in t && Covers(k.pattern, f) ==> t[k] == base[k];
    var k :| Wins(base, f, k);
    assert Wins(t, f, k);
    assert forall w :: Wins(t, f, w) ==> Wins(base, f, w);
  }

  /** A switch with the queue flows and VLAN flows on top, over lower flows. A frame that the
      VLAN policy decides goes where the policy says, to and from the server too; any other
      frame of the engine's business is queued as if there were no VLANs. */
  lemma {:induction false} VlansOverQueues(
      u: Q.Setup, dpid: int, base: Table, vm: VlanMembers, links: seq<Link>, ports: set<int>, f: Frame)
    requires Valid(u) && 2 <= dpid <= 14 && VlanMeaning.Distinct(vm) && ManagedPorts(vm) <= ports
    requires forall k :: k in base && Covers(k.pattern, f) ==> k.priority < 250
    ensures var t := AddAll(Q.Programmed(u, dpid, base), CompileVlans(vm, links, ports));
            if PolicyVerdict(vm, links, ports, f).Deliver?
            then Realises(t, base, f, PolicyVerdict(vm, links, ports, f))
            else forall actions :: Queues(u, dpid, f, actions) ==> Treats(t, f, actions)
  {
    var queues := Q.Programmed(u, dpid, base);
    EngineBelow(u, dpid, base, f);
    CompiledMeaning(queues, vm, links, ports, f);
    if !PolicyVerdict(vm, links, ports, f).Deliver? {
      UndecidedIsUnmatched(vm, links, ports, f);
      CompiledKeysDecide(vm, links, ports);
      forall actions | Queues(u, dpid, f, actions)
        ensures Treats(AddAll(queues, CompileVlans(vm, links, ports)), f, actions)
      {
        EngineTreats(u, dpid, base, f, actions);
        SameTreatment(queues, CompileVlans(vm, links, ports), f, actions);
      }
    }
  }

  /** The reroute policy's flows: 180, 200 and, for the fast path, 210; below all of the engine's. */
  lemma {:induction false} ReroutePriorities(site: R.Site, dpid: int, r: Rule)
    requires Ours(site, dpid, r)
    ensures var p := r.key.priority; p == 180 || p == 200 || p == 210
  {
    if r in R.PolicyRules(site, dpid) {
      F.InRerouteRules(site, |site.itClients|, r);
      F.InThrottleRules(site, |site.wifiClients|, r);
    }
  }
}
