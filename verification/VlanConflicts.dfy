/** When a VLAN policy compiles without conflicts, exactly, and that the controller's reading
    of a policy file does not rule conflicts out. */
module VlanConflicts {
  import opened Prelude
  import opened OpenFlow
  import opened VlanPolicy
  import opened VlanCompiler
  import opened VlanMeaning
  import opened VlanNormalizer

  function TargetsOf(vm: VlanMembers, links: seq<Link>, v: int, s: Member): seq<Member> {
    Targets(s.port, PeersOf(vm, links, v))
  }

  /** A member on the port sends to d. */
  ghost predicate Offers(vm: VlanMembers, links: seq<Link>, port: int, d: Member) {
    exists v, s :: InVlan(vm, v, s) && s.port == port && d in TargetsOf(vm, links, v, s)
  }

  /** A member on the port fans its ARP broadcasts out by these actions. */
  ghost predicate FansOut(vm: VlanMembers, links: seq<Link>, port: int, actions: seq<Action>) {
    exists v, s ::
      InVlan(vm, v, s) && s.port == port && TargetsOf(vm, links, v, s) != []
          && actions == Outputs(TargetsOf(vm, links, v, s))
  }

  /** A port in several VLANs fans out to the same ports in each in which it reaches anybody. */
  ghost predicate OneFanOut(vm: VlanMembers, links: seq<Link>) {
    forall port, x, y :: FansOut(vm, links, port, x) && FansOut(vm, links, port, y) ==> x == y
  }

  /** Members with one address that a port sends to are on one port. */
  ghost predicate OnePortPerAddress(vm: VlanMembers, links: seq<Link>) {
    forall port, d, e :: Offers(vm, links, port, d) && Offers(vm, links, port, e) && d.mac == e.mac ==> d.port == e.port
  }

  /** Rules of one priority that match a common frame are the same rule. */
  ghost predicate NoConflicts(rs: seq<Rule>) {
    forall q, r, f: Frame ::
      (q in rs && r in rs && q.key.priority == r.key.priority
       && Covers(q.key.pattern, f) && Covers(r.key.pattern, f)) ==> q == r
  }

  // ----- Rules of one key -----

  lemma {:induction false} ArpIsFanOut(vm: VlanMembers, links: seq<Link>, r: Rule)
    requires IsArp(r, vm, links)
    ensures r.key.pattern.inPort.Some? && FansOut(vm, links, r.key.pattern.inPort.value, r.entry.actions)
  {
    var v, s :| InVlan(vm, v, s) && IsArpFor(r, vm, links, v, s);
    assert TargetsOf(vm, links, v, s) != [] && r.entry.actions == Outputs(TargetsOf(vm, links, v, s));
  }

  lemma {:induction false} AllowIsOffer(vm: VlanMembers, links: seq<Link>, r: Rule) returns (d: Member)
    requires IsAllow(r, vm, links)
    ensures r.key.pattern.inPort.Some? && Offers(vm, links, r.key.pattern.inPort.value, d)
    ensures r == AllowRule(r.key.pattern.inPort.value, d)
  {
    var v, s, e :| InVlan(vm, v, s) && e in Targets(s.port, PeersOf(vm, links, v)) && r == AllowRule(s.port, e);
    assert e in TargetsOf(vm, links, v, s);
    d := e;
  }

  lemma {:induction false} ArpsAgree(vm: VlanMembers, links: seq<Link>, q: Rule, r: Rule)
    requires OneFanOut(vm, links) && IsArp(q, vm, links) && IsArp(r, vm, links) && q.key == r.key
    ensures q == r
  {
    ArpIsFanOut(vm, links, q);
    ArpIsFanOut(vm, links, r);
    assert q.entry.actions == r.entry.actions;
  }

  lemma {:induction false} AllowsAgree(vm: VlanMembers, links: seq<Link>, q: Rule, r: Rule)
    requires OnePortPerAddress(vm, links) && IsAllow(q, vm, links) && IsAllow(r, vm, links) && q.key == r.key
    ensures q == r
  {
    var d := AllowIsOffer(vm, links, q);
    var e := AllowIsOffer(vm, links, r);
    assert d.mac == e.mac;
  }

  lemma {:induction false} KeyDecides(vm: VlanMembers, links: seq<Link>, ports: set<int>, q: Rule, r: Rule)
    requires OneFanOut(vm, links) && OnePortPerAddress(vm, links)
    requires q in CompileVlans(vm, links, ports) && r in CompileVlans(vm, links, ports) && q.key == r.key
    ensures q == r
  {
    RuleShape(vm, links, ports, q);
    RuleShape(vm, links, ports, r);
    if q.key.priority == ARP_PRIORITY {
      ArpsAgree(vm, links, q, r);
    } else if q.key.priority == ALLOW_PRIORITY {
      AllowsAgree(vm, links, q, r);
    }
  }

  /** A port with two fan-outs gets two rules for its ARP broadcasts. */
  lemma {:induction false} SharedPortConflicts(
      vm: VlanMembers, links: seq<Link>, ports: set<int>, port: int, x: seq<Action>, y: seq<Action>)
    requires FansOut(vm, links, port, x) && FansOut(vm, links, port, y) && x != y
    ensures !KeysDecide(CompileVlans(vm, links, ports))
  {
    var q := FanOutRule(vm, links, ports, port, x);
    var r := FanOutRule(vm, links, ports, port, y);
    assert q.key == r.key && q != r;
  }

  lemma {:induction false} FanOutRule(vm: VlanMembers, links: seq<Link>, ports: set<int>, port: int, x: seq<Action>)
    returns (r: Rule)
    requires FansOut(vm, links, port, x)
    ensures r in CompileVlans(vm, links, ports) && r.entry.actions == x
    ensures r.key == ArpRule(port, []).key
  {
    var v, s :| InVlan(vm, v, s) && s.port == port && TargetsOf(vm, links, v, s) != []
        && x == Outputs(TargetsOf(vm, links, v, s));
    r := ArpRule(port, TargetsOf(vm, links, v, s));
    assert IsArpFor(r, vm, links, v, s);
    RuleShape(vm, links, ports, r);
  }

  lemma {:induction false} OfferRule(vm: VlanMembers, links: seq<Link>, ports: set<int>, port: int, d: Member)
    requires Offers(vm, links, port, d)
    ensures AllowRule(port, d) in CompileVlans(vm, links, ports)
  {
    assert IsAllow(AllowRule(port, d), vm, links);
    RuleShape(vm, links, ports, AllowRule(port, d));
  }

  /** Two members that share an address and that one port sends to get rules of one key with
      different ports. */
  lemma {:induction false} SharedAddressConflicts(
      vm: VlanMembers, links: seq<Link>, ports: set<int>, port: int, d: Member, e: Member)
    requires Offers(vm, links, port, d) && Offers(vm, links, port, e) && d.mac == e.mac && d.port != e.port
    ensures !KeysDecide(CompileVlans(vm, links, ports))
  {
    OfferRule(vm, links, ports, port, d);
    OfferRule(vm, links, ports, port, e);
    var q, r := AllowRule(port, d), AllowRule(port, e);
    assert q.key == r.key && q.entry.actions[0] != r.entry.actions[0];
  }

  /** No add replaces an earlier one by a different one if and only if every port has one
      fan-out and reaches every address on one port. */
  lemma {:induction false} KeysDecideExactly(vm: VlanMembers, links: seq<Link>, ports: set<int>)
    ensures KeysDecide(CompileVlans(vm, links, ports)) <==> OneFanOut(vm, links) && OnePortPerAddress(vm, links)
  {
    var rules := CompileVlans(vm, links, ports);
    if OneFanOut(vm, links) && OnePortPerAddress(vm, links) {
      forall q, r | q in rules && r in rules && q.key == r.key
        ensures q == r
      {
        KeyDecides(vm, links, ports, q, r);
      }
    } else if !OneFanOut(vm, links) {
      var port, x, y :| FansOut(vm, links, port, x) && FansOut(vm, links, port, y) && x != y;
      SharedPortConflicts(vm, links, ports, port, x, y);
    } else {
      var port, d, e :| Offers(vm, links, port, d) && Offers(vm, links, port, e) && d.mac == e.mac && d.port != e.port;
      SharedAddressConflicts(vm, links, ports, port, d, e);
    }
  }

  // ----- Overlap is the same key -----

  /** Compiled rules of one priority that match a common frame have one key. */
  lemma {:induction false} OverlapIsKey(
      vm: VlanMembers, links: seq<Link>, ports: set<int>, q: Rule, r: Rule, f: Frame)
    requires q in CompileVlans(vm, links, ports) && r in CompileVlans(vm, links, ports)
    requires q.key.priority == r.key.priority && Covers(q.key.pattern, f) && Covers(r.key.pattern, f)
    ensures q.key == r.key
  {
    RuleShape(vm, links, ports, q);
    RuleShape(vm, links, ports, r);
  }

  /** Every compiled rule matches some frame. */
  lemma {:induction false} MatchesSome(vm: VlanMembers, links: seq<Link>, ports: set<int>, r: Rule) returns (f: Frame)
    requires r in CompileVlans(vm, links, ports)
    ensures Covers(r.key.pattern, f)
  {
    RuleShape(vm, links, ports, r);
    var pattern := r.key.pattern;
    f := Frame(pattern.inPort.value,
               if pattern.ethType.Some? then pattern.ethType.value else 0,
               if pattern.ethDst.Some? then pattern.ethDst.value else 0,
               0, 0, 0, None, None);
  }

  /** A policy compiles without conflicts if and only if every port has one fan-out and reaches
      every address on one port. Distinct ports and addresses are enough for that. */
  lemma {:induction false} ConflictFreeExactly(vm: VlanMembers, links: seq<Link>, ports: set<int>)
    ensures NoConflicts(CompileVlans(vm, links, ports)) <==> OneFanOut(vm, links) && OnePortPerAddress(vm, links)
    ensures Distinct(vm) ==> OneFanOut(vm, links) && OnePortPerAddress(vm, links)
  {
    var rules := CompileVlans(vm, links, ports);
    KeysDecideExactly(vm, links, ports);
    if KeysDecide(rules) {
      forall q, r, f: Frame | q in rules && r in rules && q.key.priority == r.key.priority
                              && Covers(q.key.pattern, f) && Covers(r.key.pattern, f)
        ensures q == r
      {
        OverlapIsKey(vm, links, ports, q, r, f);
      }
    }
    if NoConflicts(rules) {
      forall q, r | q in rules && r in rules && q.key == r.key
        ensures q == r
      {
        var f := MatchesSome(vm, links, ports, q);
      }
    }
    if Distinct(vm) {
      CompiledKeysDecide(vm, links, ports);
    }
  }

  // ----- A policy file that conflicts -----

  const A := Member("a", "a", 2, 1)
  const B := Member("b", "b", 3, 7)
  const C := Member("c", "c", 4, 7)

  const SPOOFED_MEMBERS := [WriteMember(A), WriteMember(B), WriteMember(C)]
  const SPOOFED: Payload := [RawEntry("s4", RawSwitch([RawVlan(Some(10), SPOOFED_MEMBERS)], []))]

  lemma {:induction false} MembersSnoc(raw: seq<RawMember>, m: Member)
    requires m.port > 0 && m.port !in Ports(Members(raw))
    ensures Members(raw + [WriteMember(m)]) == Members(raw) + [m]
  {
    assert (raw + [WriteMember(m)])[..|raw|] == raw;
  }

  lemma {:induction false} SpoofedMembers()
    ensures Members(SPOOFED_MEMBERS) == [A, B, C]
  {
    MembersSnoc([], A);
    MembersSnoc([WriteMember(A)], B);
    MembersSnoc([WriteMember(A), WriteMember(B)], C);
    assert [] + [WriteMember(A)] == [WriteMember(A)];
    assert [WriteMember(A)] + [WriteMember(B)] == [WriteMember(A), WriteMember(B)];
    assert [WriteMember(A), WriteMember(B)] + [WriteMember(C)] == SPOOFED_MEMBERS;
    assert [] + [A] == [A] && [A] + [B] == [A, B] && [A, B] + [C] == [A, B, C];
  }

  lemma {:induction false} OneEntry(e: RawEntry)
    requires IsSwitchName(e.name) && NormalizedSwitch(e.cfg).Some?
    ensures Normalized([e]) == map[e.name := NormalizedSwitch(e.cfg).value]
  {
    assert [e][..0] == [] && [e][0] == e;
  }

  lemma {:induction false} OneVlan(v: int, members: seq<RawMember>)
    requires ValidVlan(v) && Members(members) != []
    ensures NormalizedSwitch(RawSwitch([RawVlan(Some(v), members)], []))
        == Some(SwitchCfg(map[v := Members(members)], []))
  {
    var raw := [RawVlan(Some(v), members)];
    assert raw[..0] == [] && raw[0] == RawVlan(Some(v), members);
    assert Vlans(raw) == map[v := Members(members)];
    assert v in Vlans(raw);
  }

  lemma {:induction false} SpoofedNormal()
    ensures Normalized(SPOOFED) == map["s4" := SwitchCfg(map[10 := [A, B, C]], [])]
  {
    SpoofedMembers();
    OneVlan(10, SPOOFED_MEMBERS);
    OneEntry(SPOOFED[0]);
  }

  lemma {:induction false} SpoofedTargets(vm: VlanMembers, d: Member)
    requires vm == map[10 := [A, B, C]] && (d == B || d == C)
    ensures d in TargetsOf(vm, [], 10, A)
  {
    var candidates := PeersOf(vm, [], 10);
    assert 10 in Adjacent(vm, [], 10) && InVlan(vm, 10, d);
    PeersMembers(vm, [], 10, d);
    TargetsCover(A.port, candidates, |candidates|);
    var i :| 0 <= i < |candidates| && candidates[i] == d;
    var e :| e in Targets(A.port, candidates) && e.port == d.port;
    PeersMembers(vm, [], 10, e);
  }

  lemma {:induction false} SpoofedCompiled()
    ensures Compile(CfgOf(Normalized(SPOOFED), 4), 4) == CompileVlans(map[10 := [A, B, C]], [], KnownPorts(4))
  {
    SpoofedNormal();
    var cfg := SwitchCfg(map[10 := [A, B, C]], []);
    assert SwitchName(4) == "s4";
    assert CfgOf(Normalized(SPOOFED), 4) == cfg;
    SpoofedManaged(cfg);
    assert 10 in cfg.vlans;
  }

  /** The file with two members of one address normalises to a policy in normal form whose
      compilation conflicts. */
  lemma {:induction false} NormalPolicyConflicts()
    ensures NormalState(Normalized(SPOOFED))
    ensures !NoConflicts(Compile(CfgOf(Normalized(SPOOFED), 4), 4))
  {
    NormalizedIsNormal(SPOOFED);
    SpoofedCompiled();
    SpoofedConflicts(map[10 := [A, B, C]]);
    ConflictFreeExactly(map[10 := [A, B, C]], [], KnownPorts(4));
  }

  lemma {:induction false} SpoofedConflicts(vm: VlanMembers)
    requires vm == map[10 := [A, B, C]]
    ensures !OnePortPerAddress(vm, [])
  {
    SpoofedTargets(vm, B);
    SpoofedTargets(vm, C);
    assert A in vm[10] && InVlan(vm, 10, A);
    assert Offers(vm, [], 2, B) && Offers(vm, [], 2, C);
  }

  lemma {:induction false} SpoofedManaged(cfg: SwitchCfg)
    requires cfg == SwitchCfg(map[10 := [A, B, C]], [])
    ensures ManagedVlans(cfg, KnownPorts(4)) == cfg.vlans
  {
    var known := KnownPorts(4);
    var ms := [A, B, C];
    assert ms[..2] == [A, B] && [A, B][..1] == [A] && [A][..0] == [];
    assert KnownMembers([A], known) == [A];
    assert KnownMembers([A, B], known) == [A, B];
    assert KnownMembers(ms, known) == ms;
    var vs := Ascending(cfg.vlans.Keys);
    ManagedAmongMeaning(cfg, known, vs, |vs|);
    assert vs[..|vs|] == vs;
    assert 10 in cfg.vlans.Keys && 10 in vs;
    SameMap(ManagedVlans(cfg, known), cfg.vlans);
  }
}
