/** What the compiled VLAN rules do to a frame, for every policy whose managed ports and
    addresses are distinct and every frame: exactly what the policy says, whatever other
    flows of lower priority the switch holds and in whatever order equal-priority rules
    are tried. */
module VlanMeaning {
  import opened Prelude
  import opened OpenFlow
  import opened VlanPolicy
  import opened VlanCompiler

  // ----- The policy, read directly -----

  ghost predicate InVlan(vm: VlanMembers, v: int, m: Member) { v in vm && m in vm[v] }

  /** One managed endpoint for each port and for each address; no endpoint owns the
      broadcast address. */
  ghost predicate Distinct(vm: VlanMembers) {
    && (forall u, v, m, n :: InVlan(vm, u, m) && InVlan(vm, v, n) && m.port == n.port ==> u == v && m == n)
    && (forall u, v, m, n :: InVlan(vm, u, m) && InVlan(vm, v, n) && m.mac == n.mac ==> u == v && m == n)
    && (forall v, m :: InVlan(vm, v, m) ==> m.mac != BROADCAST)
  }

  /** The endpoint on `port` may send to endpoint d: they share a VLAN, or their VLANs are linked. */
  ghost predicate MayReach(vm: VlanMembers, links: seq<Link>, port: int, d: Member) {
    exists v, s, u ::
      InVlan(vm, v, s) && s.port == port && u in Adjacent(vm, links, v) && InVlan(vm, u, d) && d.port != port
  }

  predicate IsArpBroadcast(f: Frame) { f.ethType == ETH_TYPE_ARP && f.ethDst == BROADCAST }

  datatype Verdict = Untouched | Deliver(ports: iset<int>)

  ghost function Destinations(vm: VlanMembers, links: seq<Link>, f: Frame): iset<int> {
    iset d | MayReach(vm, links, f.inPort, d) && (IsArpBroadcast(f) || d.mac == f.ethDst) :: d.port
  }

  /** What the policy wants for a frame: endpoints talk only to the endpoints they may
      reach; other guarded ports reach no endpoint; everything else is not VLAN business. */
  ghost function PolicyVerdict(vm: VlanMembers, links: seq<Link>, guarded: set<int>, f: Frame): Verdict {
    if f.inPort in ManagedPorts(vm) then Deliver(Destinations(vm, links, f))
    else if f.inPort in guarded && (IsArpBroadcast(f) || exists v, m :: InVlan(vm, v, m) && m.mac == f.ethDst)
    then Deliver(iset{})
    else Untouched
  }

  /** The actions send the frame out of exactly these ports, once each. */
  ghost predicate Sends(actions: seq<Action>, ports: iset<int>) {
    && (forall i :: 0 <= i < |actions| ==> actions[i].Output?)
    && NoDup(actions)
    && (forall p :: p in ports <==> Output(p) in actions)
  }

  ghost predicate Realises(t: Table, base: Table, f: Frame, v: Verdict) {
    match v
    case Deliver(ports) =>
      (exists k :: Wins(t, f, k)) && forall k :: Wins(t, f, k) ==> Sends(t[k].actions, ports)
    case Untouched =>
      forall k :: Wins(t, f, k) <==> Wins(base, f, k) && k in t && t[k] == base[k]
  }

  // ----- Which rules the compiler emits -----

  ghost predicate FromSource(r: Rule, port: int, targets: seq<Member>) {
    || (targets != [] && r == ArpRule(port, targets))
    || (exists d :: d in targets && r == AllowRule(port, d))
    || r == ClosedRule(port)
  }

  ghost predicate FromMembers(r: Rule, members: seq<Member>, candidates: seq<Member>) {
    exists s :: s in members && FromMember(r, s, candidates)
  }

  ghost predicate FromMember(r: Rule, s: Member, candidates: seq<Member>) {
    FromSource(r, s.port, Targets(s.port, candidates))
  }

  ghost predicate FromAllow(r: Rule, vm: VlanMembers, links: seq<Link>, vs: seq<int>) {
    exists v :: v in vs && v in vm && FromMembers(r, vm[v], PeersOf(vm, links, v))
  }

  ghost predicate FromBlockOf(r: Rule, m: Member, allowed: set<int>, ports: seq<int>) {
    exists p :: p in ports && p != m.port && p !in allowed && r == BlockRule(p, m.mac)
  }

  ghost predicate FromBlocks(r: Rule, members: seq<Member>, allowed: set<int>, ports: seq<int>) {
    exists m :: m in members && FromBlockOf(r, m, allowed, ports)
  }

  ghost predicate FromBlock(r: Rule, vm: VlanMembers, links: seq<Link>, vs: seq<int>, ports: seq<int>) {
    exists v :: v in vs && v in vm && FromBlocks(r, vm[v], AllowedSources(vm, links, v), ports)
  }

  ghost predicate FromArpBlock(r: Rule, ports: seq<int>, managed: set<int>) {
    exists p :: p in ports && p !in managed && r == ArpBlockRule(p)
  }

  lemma {:induction false} AllowToRules(done: seq<Rule>, port: int, targets: seq<Member>, n: nat, r: Rule)
    requires n <= |targets|
    ensures r in AllowTo(done, port, targets, n)
        <==> r in done || exists d :: d in targets[..n] && r == AllowRule(port, d)
  {
    if n > 0 {
      AllowToRules(done, port, targets, n - 1, r);
      assert targets[..n] == targets[..n - 1] + [targets[n - 1]];
    }
  }

  lemma {:induction false} SourceRulesRules(done: seq<Rule>, port: int, targets: seq<Member>, r: Rule)
    ensures r in SourceRules(done, port, targets) <==> r in done || FromSource(r, port, targets)
  {
    var head := if targets != [] then done + [ArpRule(port, targets)] else done;
    AllowToRules(head, port, targets, |targets|, r);
    assert targets[..|targets|] == targets;
  }

  lemma {:induction false} FromMembersSnoc(r: Rule, members: seq<Member>, s: Member, candidates: seq<Member>)
    ensures FromMembers(r, members + [s], candidates) <==>
            FromMembers(r, members, candidates) || FromMember(r, s, candidates)
  {
    assert forall m :: m in members + [s] <==> m in members || m == s;
  }

  lemma {:induction false} MemberStep(before: seq<Rule>, s: Member, candidates: seq<Member>, r: Rule)
    ensures r in SourceRules(before, s.port, Targets(s.port, candidates))
        <==> r in before || FromMember(r, s, candidates)
  {
    SourceRulesRules(before, s.port, Targets(s.port, candidates), r);
  }

  ghost predicate FromFirst(r: Rule, members: seq<Member>, candidates: seq<Member>, n: nat)
    requires n <= |members|
  {
    n > 0 && (FromFirst(r, members, candidates, n - 1) || FromMember(r, members[n - 1], candidates))
  }

  lemma {:induction false} FirstRules(done: seq<Rule>, members: seq<Member>, candidates: seq<Member>, n: nat, r: Rule)
    requires n <= |members|
    ensures r in MemberRules(done, members, candidates, n) <==> r in done || FromFirst(r, members, candidates, n)
  {
    if n > 0 {
      FirstRules(done, members, candidates, n - 1, r);
      MemberStep(MemberRules(done, members, candidates, n - 1), members[n - 1], candidates, r);
    }
  }

  lemma {:induction false} FirstMembers(r: Rule, members: seq<Member>, candidates: seq<Member>, n: nat)
    requires n <= |members|
    ensures FromFirst(r, members, candidates, n) <==> FromMembers(r, members[..n], candidates)
  {
    if n > 0 {
      FirstMembers(r, members, candidates, n - 1);
      FromMembersSnoc(r, members[..n - 1], members[n - 1], candidates);
      assert members[..n] == members[..n - 1] + [members[n - 1]];
    }
  }

  lemma {:induction false} MemberRulesRules(
      done: seq<Rule>, members: seq<Member>, candidates: seq<Member>, n: nat, r: Rule)
    requires n <= |members|
    ensures r in MemberRules(done, members, candidates, n) <==> r in done || FromMembers(r, members[..n], candidates)
  {
    FirstRules(done, members, candidates, n, r);
    FirstMembers(r, members, candidates, n);
  }

  lemma {:induction false} AllowRulesRules(
      done: seq<Rule>, vm: VlanMembers, links: seq<Link>, vs: seq<int>, n: nat, r: Rule)
    requires n <= |vs| && forall i :: 0 <= i < |vs| ==> vs[i] in vm
    ensures r in AllowRules(done, vm, links, vs, n) <==>
            r in done || FromAllow(r, vm, links, vs[..n])
  {
    if n > 0 {
      AllowRulesRules(done, vm, links, vs, n - 1, r);
      var members := vm[vs[n - 1]];
      MemberRulesRules(AllowRules(done, vm, links, vs, n - 1), members, PeersOf(vm, links, vs[n - 1]), |members|, r);
      assert members[..|members|] == members;
      assert vs[..n] == vs[..n - 1] + [vs[n - 1]];
    }
  }

  lemma {:induction false} PortBlocksRules(
      done: seq<Rule>, m: Member, allowed: set<int>, ports: seq<int>, n: nat, r: Rule)
    requires n <= |ports|
    ensures r in PortBlocks(done, m, allowed, ports, n) <==> r in done || FromBlockOf(r, m, allowed, ports[..n])
  {
    if n > 0 {
      PortBlocksRules(done, m, allowed, ports, n - 1, r);
      assert ports[..n] == ports[..n - 1] + [ports[n - 1]];
    }
  }

  lemma {:induction false} MemberBlocksRules(
      done: seq<Rule>, members: seq<Member>, allowed: set<int>, ports: seq<int>, n: nat, r: Rule)
    requires n <= |members|
    ensures r in MemberBlocks(done, members, allowed, ports, n)
        <==> r in done || FromBlocks(r, members[..n], allowed, ports)
  {
    if n > 0 {
      MemberBlocksRules(done, members, allowed, ports, n - 1, r);
      PortBlocksRules(MemberBlocks(done, members, allowed, ports, n - 1), members[n - 1], allowed, ports, |ports|, r);
      assert ports[..|ports|] == ports;
      assert members[..n] == members[..n - 1] + [members[n - 1]];
    }
  }

  lemma {:induction false} BlockRulesRules(
      done: seq<Rule>, vm: VlanMembers, links: seq<Link>, vs: seq<int>, ports: seq<int>, n: nat, r: Rule)
    requires n <= |vs| && forall i :: 0 <= i < |vs| ==> vs[i] in vm
    ensures r in BlockRules(done, vm, links, vs, ports, n) <==>
            r in done || FromBlock(r, vm, links, vs[..n], ports)
  {
    if n > 0 {
      BlockRulesRules(done, vm, links, vs, ports, n - 1, r);
      var members, allowed := vm[vs[n - 1]], AllowedSources(vm, links, vs[n - 1]);
      MemberBlocksRules(BlockRules(done, vm, links, vs, ports, n - 1), members, allowed, ports, |members|, r);
      assert members[..|members|] == members;
      assert vs[..n] == vs[..n - 1] + [vs[n - 1]];
    }
  }

  lemma {:induction false} ArpBlocksRules(done: seq<Rule>, ports: seq<int>, managed: set<int>, n: nat, r: Rule)
    requires n <= |ports|
    ensures r in ArpBlocks(done, ports, managed, n) <==> r in done || FromArpBlock(r, ports[..n], managed)
  {
    if n > 0 {
      ArpBlocksRules(done, ports, managed, n - 1, r);
      assert ports[..n] == ports[..n - 1] + [ports[n - 1]];
    }
  }

  /** The five forms of a compiled rule, and no others. */
  lemma {:induction false} CompiledRules(vm: VlanMembers, links: seq<Link>, ports: set<int>, r: Rule)
    ensures r in CompileVlans(vm, links, ports) <==>
            || FromAllow(r, vm, links, Ascending(vm.Keys))
            || FromBlock(r, vm, links, Ascending(vm.Keys), Ascending(ports))
            || FromArpBlock(r, Ascending(ports), ManagedPorts(vm))
  {
    var vs, guarded := Ascending(vm.Keys), Ascending(ports);
    var allowed := AllowRules([], vm, links, vs, |vs|);
    var blocked := BlockRules(allowed, vm, links, vs, guarded, |vs|);
    assert vs[..|vs|] == vs && guarded[..|guarded|] == guarded;
    assert r in allowed <==> FromAllow(r, vm, links, vs) by {
      AllowRulesRules([], vm, links, vs, |vs|, r);
    }
    assert r in blocked <==> r in allowed || FromBlock(r, vm, links, vs, guarded) by {
      BlockRulesRules(allowed, vm, links, vs, guarded, |vs|, r);
    }
    ArpBlocksRules(blocked, guarded, ManagedPorts(vm), |guarded|, r);
  }

  // ----- Targets -----

  lemma {:induction false} CandidatesMembers(vm: VlanMembers, peers: seq<int>, n: nat, d: Member)
    requires n <= |peers|
    ensures d in Candidates(vm, peers, n) <==> exists u :: u in peers[..n] && InVlan(vm, u, d)
  {
    if n > 0 {
      CandidatesMembers(vm, peers, n - 1, d);
      var last := if peers[n - 1] in vm then vm[peers[n - 1]] else [];
      assert Candidates(vm, peers, n) == Candidates(vm, peers, n - 1) + last;
      assert d in last <==> InVlan(vm, peers[n - 1], d);
      assert peers[..n] == peers[..n - 1] + [peers[n - 1]];
    }
  }

  lemma {:induction false} PeersMembers(vm: VlanMembers, links: seq<Link>, v: int, d: Member)
    ensures d in PeersOf(vm, links, v) <==> exists u :: u in Adjacent(vm, links, v) && InVlan(vm, u, d)
  {
    var peers := Ascending(Adjacent(vm, links, v));
    CandidatesMembers(vm, peers, |peers|, d);
    assert peers[..|peers|] == peers;
  }

  /** Targets keeps one candidate for each port other than the sender's. */
  lemma {:induction false} TargetsCover(port: int, candidates: seq<Member>, n: nat)
    requires n <= |candidates|
    ensures forall d :: d in FirstTargets(port, candidates, n) ==> d in candidates && d.port != port
    ensures forall i :: 0 <= i < n && candidates[i].port != port ==>
                        candidates[i].port in PortsOf(FirstTargets(port, candidates, n))
    ensures DistinctPorts(FirstTargets(port, candidates, n))
  {
    if n > 0 {
      TargetsCover(port, candidates, n - 1);
      var before, after := FirstTargets(port, candidates, n - 1), FirstTargets(port, candidates, n);
      var d := candidates[n - 1];
      if d.port != port && d.port !in PortsOf(before) {
        assert after == before + [d] && after[|before|] == d;
        assert d in after && d.port in PortsOf(after);
        assert forall i :: 0 <= i < |before| ==> before[i] in before && before[i].port in PortsOf(before);
        assert forall e :: e in before ==> e in after;
        assert PortsOf(before) <= PortsOf(after);
      }
    }
  }

  ghost predicate DistinctPorts(ms: seq<Member>) {
    forall i, j :: 0 <= i < j < |ms| ==> ms[i].port != ms[j].port
  }

  lemma {:induction false} TargetsMeaning(vm: VlanMembers, links: seq<Link>, v: int, s: Member, d: Member)
    requires Distinct(vm) && InVlan(vm, v, s)
    ensures d in Targets(s.port, PeersOf(vm, links, v)) <==> MayReach(vm, links, s.port, d)
  {
    var candidates := PeersOf(vm, links, v);
    TargetsCover(s.port, candidates, |candidates|);
    PeersMembers(vm, links, v, d);
    if MayReach(vm, links, s.port, d) {
      var v', s', u :| InVlan(vm, v', s') && s'.port == s.port && u in Adjacent(vm, links, v') && InVlan(vm, u, d)
          && d.port != s.port;
      assert v' == v;
      var i :| 0 <= i < |candidates| && candidates[i] == d;
      assert candidates[i].port in PortsOf(Targets(s.port, candidates));
      var d' :| d' in Targets(s.port, candidates) && d'.port == d.port;
      PeersMembers(vm, links, v, d');
    }
  }

  // ----- Conflict freedom -----

  ghost predicate IsArp(r: Rule, vm: VlanMembers, links: seq<Link>) {
    exists v, s :: InVlan(vm, v, s) && IsArpFor(r, vm, links, v, s)
  }

  ghost predicate IsArpFor(r: Rule, vm: VlanMembers, links: seq<Link>, v: int, s: Member) {
    var targets := Targets(s.port, PeersOf(vm, links, v));
    targets != [] && r == ArpRule(s.port, targets)
  }

  ghost predicate IsAllow(r: Rule, vm: VlanMembers, links: seq<Link>) {
    exists v, s, d :: InVlan(vm, v, s) && d in Targets(s.port, PeersOf(vm, links, v)) && r == AllowRule(s.port, d)
  }

  ghost predicate IsClosed(r: Rule, vm: VlanMembers) {
    exists v, s :: InVlan(vm, v, s) && r == ClosedRule(s.port)
  }

  ghost predicate IsBlock(r: Rule, vm: VlanMembers, links: seq<Link>, ports: set<int>) {
    exists v, m, p ::
      InVlan(vm, v, m) && p in ports && p != m.port && p !in AllowedSources(vm, links, v) && r == BlockRule(p, m.mac)
  }

  ghost predicate IsArpBlock(r: Rule, vm: VlanMembers, ports: set<int>) {
    exists p :: p in ports && p !in ManagedPorts(vm) && r == ArpBlockRule(p)
  }

  lemma {:induction false} RuleShape(vm: VlanMembers, links: seq<Link>, ports: set<int>, r: Rule)
    ensures r in CompileVlans(vm, links, ports) <==>
            IsArp(r, vm, links) || IsAllow(r, vm, links) || IsClosed(r, vm) || IsBlock(r, vm, links, ports)
                || IsArpBlock(r, vm, ports)
  {
    CompiledRules(vm, links, ports, r);
    AllowShape(vm, links, r);
    BlockShape(vm, links, ports, r);
  }

  lemma {:induction false} AllowShape(vm: VlanMembers, links: seq<Link>, r: Rule)
    ensures FromAllow(r, vm, links, Ascending(vm.Keys))
        <==> IsArp(r, vm, links) || IsAllow(r, vm, links) || IsClosed(r, vm)
  {
    if FromAllow(r, vm, links, Ascending(vm.Keys)) {
      var v :| v in Ascending(vm.Keys) && v in vm && FromMembers(r, vm[v], PeersOf(vm, links, v));
      AllowedHasShape(vm, links, v, r);
    }
    if IsArp(r, vm, links) {
      var v, s :| InVlan(vm, v, s) && IsArpFor(r, vm, links, v, s);
      ShapeIsAllowed(vm, links, v, s, r);
    }
    if IsAllow(r, vm, links) {
      var v, s, d :| InVlan(vm, v, s) && d in Targets(s.port, PeersOf(vm, links, v)) && r == AllowRule(s.port, d);
      ShapeIsAllowed(vm, links, v, s, r);
    }
    if IsClosed(r, vm) {
      var v, s :| InVlan(vm, v, s) && r == ClosedRule(s.port);
      ShapeIsAllowed(vm, links, v, s, r);
    }
  }

  lemma {:induction false} AllowedHasShape(vm: VlanMembers, links: seq<Link>, v: int, r: Rule)
    requires v in vm && FromMembers(r, vm[v], PeersOf(vm, links, v))
    ensures IsArp(r, vm, links) || IsAllow(r, vm, links) || IsClosed(r, vm)
  {
    var s :| s in vm[v] && FromMember(r, s, PeersOf(vm, links, v));
    assert InVlan(vm, v, s);
    assert r == ClosedRule(s.port) ==> IsClosed(r, vm);
    assert IsArpFor(r, vm, links, v, s) ==> IsArp(r, vm, links);
  }

  lemma {:induction false} ShapeIsAllowed(vm: VlanMembers, links: seq<Link>, v: int, s: Member, r: Rule)
    requires InVlan(vm, v, s) && FromSource(r, s.port, Targets(s.port, PeersOf(vm, links, v)))
    ensures FromAllow(r, vm, links, Ascending(vm.Keys))
  {
    assert FromMember(r, s, PeersOf(vm, links, v));
    assert FromMembers(r, vm[v], PeersOf(vm, links, v));
  }

  lemma {:induction false} BlockShape(vm: VlanMembers, links: seq<Link>, ports: set<int>, r: Rule)
    ensures FromBlock(r, vm, links, Ascending(vm.Keys), Ascending(ports)) <==> IsBlock(r, vm, links, ports)
  {
    if FromBlock(r, vm, links, Ascending(vm.Keys), Ascending(ports)) {
      var v :| v in Ascending(vm.Keys) && v in vm
          && FromBlocks(r, vm[v], AllowedSources(vm, links, v), Ascending(ports));
      var m :| m in vm[v] && FromBlockOf(r, m, AllowedSources(vm, links, v), Ascending(ports));
      assert InVlan(vm, v, m);
    }
    if IsBlock(r, vm, links, ports) {
      var v, m, p :| InVlan(vm, v, m) && p in ports && p != m.port && p !in AllowedSources(vm, links, v)
          && r == BlockRule(p, m.mac);
      assert FromBlockOf(r, m, AllowedSources(vm, links, v), Ascending(ports));
      assert FromBlocks(r, vm[v], AllowedSources(vm, links, v), Ascending(ports));
    }
  }

  /** Two compiled rules of equal priority that match a common frame are the same rule,
      so the order in which a switch tries them does not matter. */
  lemma {:induction false} ConflictFree(
      vm: VlanMembers, links: seq<Link>, ports: set<int>, r1: Rule, r2: Rule, f: Frame)
    requires Distinct(vm)
    requires r1 in CompileVlans(vm, links, ports) && r2 in CompileVlans(vm, links, ports)
    requires r1.key.priority == r2.key.priority && Covers(r1.key.pattern, f) && Covers(r2.key.pattern, f)
    ensures r1 == r2
  {
    RuleShape(vm, links, ports, r1);
    RuleShape(vm, links, ports, r2);
    if r1.key.priority == ALLOW_PRIORITY {
      SameAllow(vm, links, r1, r2, f);
    }
  }

  lemma {:induction false} SameAllow(vm: VlanMembers, links: seq<Link>, r1: Rule, r2: Rule, f: Frame)
    requires Distinct(vm) && IsAllow(r1, vm, links) && IsAllow(r2, vm, links)
    requires Covers(r1.key.pattern, f) && Covers(r2.key.pattern, f)
    ensures r1 == r2
  {
    var v1, s1, d1 :| InVlan(vm, v1, s1) && d1 in Targets(s1.port, PeersOf(vm, links, v1))
        && r1 == AllowRule(s1.port, d1);
    var v2, s2, d2 :| InVlan(vm, v2, s2) && d2 in Targets(s2.port, PeersOf(vm, links, v2))
        && r2 == AllowRule(s2.port, d2);
    TargetsMeaning(vm, links, v1, s1, d1);
    TargetsMeaning(vm, links, v2, s2, d2);
    assert d1.mac == d2.mac;
  }

  /** Rules with the same key are the same rule: no add replaces an earlier one by a different one. */
  lemma {:induction false} CompiledKeysDecide(vm: VlanMembers, links: seq<Link>, ports: set<int>)
    requires Distinct(vm)
    ensures KeysDecide(CompileVlans(vm, links, ports))
  {
    var rules := CompileVlans(vm, links, ports);
    forall r, s | r in rules && s in rules && r.key == s.key
      ensures r == s
    {
      RuleShape(vm, links, ports, r);
      var pattern := r.key.pattern;
      var f := Frame(pattern.inPort.value,
                     if pattern.ethType.Some? then pattern.ethType.value else 0,
                     if pattern.ethDst.Some? then pattern.ethDst.value else 0,
                     0, 0, 0, None, None);
      ConflictFree(vm, links, ports, r, s, f);
    }
  }

  // ----- The meaning of the compiled table -----

  /** A compiled rule that no other compiled rule outranks for f sends f where the policy says. */
  lemma {:induction false} TopRuleSends(vm: VlanMembers, links: seq<Link>, ports: set<int>, f: Frame, r: Rule)
    requires Distinct(vm)
    requires r in CompileVlans(vm, links, ports) && Covers(r.key.pattern, f)
    requires forall o :: o in CompileVlans(vm, links, ports) && Covers(o.key.pattern, f) ==>
               o.key.priority <= r.key.priority
    ensures Sends(r.entry.actions, Destinations(vm, links, f))
  {
    RuleShape(vm, links, ports, r);
    if IsArp(r, vm, links) {
      ArpRuleSends(vm, links, f, r);
    } else if IsAllow(r, vm, links) {
      AllowRuleSends(vm, links, f, r);
    } else if IsClosed(r, vm) {
      ClosedMeansNowhere(vm, links, ports, f, r);
    } else if IsBlock(r, vm, links, ports) {
      BlockMeansNowhere(vm, links, ports, f, r);
    } else {
      assert forall d :: !MayReach(vm, links, f.inPort, d);
    }
  }

  lemma {:induction false} ArpRuleSends(vm: VlanMembers, links: seq<Link>, f: Frame, r: Rule)
    requires Distinct(vm) && IsArp(r, vm, links) && Covers(r.key.pattern, f)
    ensures Sends(r.entry.actions, Destinations(vm, links, f))
  {
    var v, s :| InVlan(vm, v, s) && IsArpFor(r, vm, links, v, s);
    var targets := Targets(s.port, PeersOf(vm, links, v));
    TargetsCover(s.port, PeersOf(vm, links, v), |PeersOf(vm, links, v)|);
    forall d: Member
      ensures d in targets <==> MayReach(vm, links, f.inPort, d)
    {
      TargetsMeaning(vm, links, v, s, d);
    }
    OutputsSend(targets);
    assert Destinations(vm, links, f) == iset d | d in targets :: d.port;
  }

  lemma {:induction false} OutputsSend(targets: seq<Member>)
    requires DistinctPorts(targets)
    ensures Sends(Outputs(targets), iset d | d in targets :: d.port)
  {
    var actions := Outputs(targets);
    forall d | d in targets
      ensures Output(d.port) in actions
    {
      var i :| 0 <= i < |targets| && targets[i] == d;
      assert actions[i] == Output(d.port);
    }
  }

  lemma {:induction false} AllowRuleSends(vm: VlanMembers, links: seq<Link>, f: Frame, r: Rule)
    requires Distinct(vm) && IsAllow(r, vm, links) && Covers(r.key.pattern, f)
    ensures Sends(r.entry.actions, Destinations(vm, links, f))
  {
    var v, s, d :| InVlan(vm, v, s) && d in Targets(s.port, PeersOf(vm, links, v)) && r == AllowRule(s.port, d);
    TargetsMeaning(vm, links, v, s, d);
    assert MayReach(vm, links, f.inPort, d) && d.mac == f.ethDst;
    forall e | MayReach(vm, links, f.inPort, e) && e.mac == f.ethDst
      ensures e == d
    {
    }
    assert Destinations(vm, links, f) == iset{d.port};
    assert r.entry.actions == [Output(d.port)];
  }

  lemma {:induction false} ClosedMeansNowhere(vm: VlanMembers, links: seq<Link>, ports: set<int>, f: Frame, r: Rule)
    requires Distinct(vm) && IsClosed(r, vm) && Covers(r.key.pattern, f)
    requires forall o :: o in CompileVlans(vm, links, ports) && Covers(o.key.pattern, f) ==>
               o.key.priority <= r.key.priority
    ensures r.entry.actions == [] && Destinations(vm, links, f) == iset{}
  {
    var v, s :| InVlan(vm, v, s) && r == ClosedRule(s.port);
    var targets := Targets(s.port, PeersOf(vm, links, v));
    forall d | MayReach(vm, links, f.inPort, d) && (IsArpBroadcast(f) || d.mac == f.ethDst)
      ensures false
    {
      TargetsMeaning(vm, links, v, s, d);
      var better := if IsArpBroadcast(f) then ArpRule(s.port, targets) else AllowRule(s.port, d);
      RuleShape(vm, links, ports, better);
      assert IsArpFor(ArpRule(s.port, targets), vm, links, v, s);
      assert better in CompileVlans(vm, links, ports) && Covers(better.key.pattern, f);
    }
  }

  lemma {:induction false} BlockMeansNowhere(vm: VlanMembers, links: seq<Link>, ports: set<int>, f: Frame, r: Rule)
    requires Distinct(vm) && IsBlock(r, vm, links, ports) && Covers(r.key.pattern, f)
    ensures r.entry.actions == [] && Destinations(vm, links, f) == iset{}
  {
    var v, m, p :| InVlan(vm, v, m) && p in ports && p != m.port && p !in AllowedSources(vm, links, v)
        && r == BlockRule(p, m.mac);
    BlockedIsUnreachable(vm, links, v, m, p);
    assert forall d :: MayReach(vm, links, p, d) && d.mac == f.ethDst ==> d == m;
  }

  lemma {:induction false} BlockedIsUnreachable(vm: VlanMembers, links: seq<Link>, v: int, m: Member, port: int)
    requires Distinct(vm) && InVlan(vm, v, m) && port !in AllowedSources(vm, links, v)
    ensures !MayReach(vm, links, port, m)
  {
    forall w, s, u | InVlan(vm, w, s) && u in Adjacent(vm, links, w) && InVlan(vm, u, m)
      ensures s.port in AllowedSources(vm, links, v)
    {
      assert u == v && w in Adjacent(vm, links, v);
    }
  }

  ghost predicate SomeRuleMatches(vm: VlanMembers, links: seq<Link>, ports: set<int>, f: Frame) {
    exists r :: r in CompileVlans(vm, links, ports) && Covers(r.key.pattern, f)
  }

  /** Some compiled rule matches every frame the policy has a say in. */
  lemma {:induction false} DecidedIsMatched(vm: VlanMembers, links: seq<Link>, ports: set<int>, f: Frame)
    requires PolicyVerdict(vm, links, ports, f).Deliver?
    ensures SomeRuleMatches(vm, links, ports, f)
  {
    var r;
    if f.inPort in ManagedPorts(vm) {
      var v, s :| v in vm && s in vm[v] && s.port == f.inPort;
      assert InVlan(vm, v, s);
      r := ClosedRule(f.inPort);
      assert IsClosed(r, vm);
    } else if IsArpBroadcast(f) {
      r := ArpBlockRule(f.inPort);
      assert IsArpBlock(r, vm, ports);
    } else {
      var v, m :| InVlan(vm, v, m) && m.mac == f.ethDst;
      r := BlockRule(f.inPort, m.mac);
      assert m.port in ManagedPorts(vm);
      assert f.inPort !in AllowedSources(vm, links, v);
      assert IsBlock(r, vm, links, ports);
    }
    RuleShape(vm, links, ports, r);
    assert r in CompileVlans(vm, links, ports) && Covers(r.key.pattern, f);
  }

  /** The compiled rules match no other frame. */
  lemma {:induction false} UndecidedIsUnmatched(vm: VlanMembers, links: seq<Link>, ports: set<int>, f: Frame)
    requires ManagedPorts(vm) <= ports
    requires PolicyVerdict(vm, links, ports, f).Untouched?
    ensures !SomeRuleMatches(vm, links, ports, f)
  {
    forall r | r in CompileVlans(vm, links, ports)
      ensures !Covers(r.key.pattern, f)
    {
      RuleShape(vm, links, ports, r);
      MemberPortsManaged(vm);
    }
  }

  lemma {:induction false} MemberPortsManaged(vm: VlanMembers)
    ensures forall v, s :: InVlan(vm, v, s) ==> s.port in ManagedPorts(vm)
  {
  }

  /** Compiler correctness: every frame gets the verdict of the policy, whatever other flows
      the switch holds, unless one of them matches the frame at the priorities of the rules
      or above. */
  lemma {:induction false} CompiledMeaning(base: Table, vm: VlanMembers, links: seq<Link>, ports: set<int>, f: Frame)
    requires Distinct(vm) && ManagedPorts(vm) <= ports
    requires forall k :: k in base && Covers(k.pattern, f) ==> k.priority < CLOSED_PRIORITY
    ensures Realises(AddAll(base, CompileVlans(vm, links, ports)), base, f, PolicyVerdict(vm, links, ports, f))
  {
    var rules := CompileVlans(vm, links, ports);
    var t := AddAll(base, rules);
    CompiledKeysDecide(vm, links, ports);
    AddAllContents(base, rules);
    forall r | r in rules
      ensures r.key.priority >= CLOSED_PRIORITY
    {
      RuleShape(vm, links, ports, r);
    }
    if PolicyVerdict(vm, links, ports, f).Deliver? {
      DecidedIsMatched(vm, links, ports, f);
      var some :| some in rules && Covers(some.key.pattern, f);
      WinnerExists(t, f, some.key);
      forall k | Wins(t, f, k)
        ensures Sends(t[k].actions, Destinations(vm, links, f))
      {
        assert some.key in t && k.priority >= CLOSED_PRIORITY;
        var r :| r in rules && r.key == k;
        TopRuleSends(vm, links, ports, f, r);
      }
      DecidedDestinations(vm, links, ports, f);
    } else {
      UndecidedIsUnmatched(vm, links, ports, f);
      forall k | k in t && Covers(k.pattern, f)
        ensures k in base && t[k] == base[k]
      {
      }
      forall k | k in base && Covers(k.pattern, f)
        ensures k in t
      {
      }
    }
  }

  lemma {:induction false} DecidedDestinations(vm: VlanMembers, links: seq<Link>, ports: set<int>, f: Frame)
    requires PolicyVerdict(vm, links, ports, f).Deliver?
    ensures PolicyVerdict(vm, links, ports, f) == Deliver(Destinations(vm, links, f))
  {
    if f.inPort !in ManagedPorts(vm) {
      assert forall d :: !MayReach(vm, links, f.inPort, d);
    }
  }
}
