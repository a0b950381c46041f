/** The dashboard's clearing operations, what a stored VLAN looks like, and which operations
    are accepted, in terms of who is placed where. */
module DashboardClearing {
  import opened Prelude
  import opened VlanPolicy
  import opened VlanNormalizer
  import opened Dashboard
  import opened DashboardInvariant
  import opened EndToEnd

  // ----- Clearing -----

  /** Clearing a switch takes all its members and links and touches no other switch. */
  lemma {:induction false} ClearSwitchMeaning(
      topo: Topology, s: PolicyState, sw: string, at: string, v: int, w: int, device: string)
    requires Applied(topo, s, ClearSwitch(sw)).Some?
    ensures var t := Applied(topo, s, ClearSwitch(sw)).value;
            && (Placed(t, at, v, device) <==> at != sw && Placed(s, at, v, device))
            && (Linked(t, at, v, w) <==> at != sw && Linked(s, at, v, w))
  {
    assert at != sw ==> (at in s - {sw} <==> at in s);
  }

  /** Restoring a switch does the same, also when it has no policy; without a switch's name,
      and after clearing everything, nobody is placed and nothing linked anywhere. */
  lemma {:induction false} RestoreMeaning(
      topo: Topology, s: PolicyState, only: Option<string>, at: string, v: int, w: int, device: string)
    ensures var t := After(topo, s, Restore(only));
            if only == None || only == Some("") then !Placed(t, at, v, device) && !Linked(t, at, v, w)
            else
              && (Placed(t, at, v, device) <==> at != only.value && Placed(s, at, v, device))
              && (Linked(t, at, v, w) <==> at != only.value && Linked(s, at, v, w))
    ensures var t := After(topo, s, ClearAll);
            !Placed(t, at, v, device) && !Linked(t, at, v, w)
  {
    if only.Some? {
      assert at != only.value ==> (at in s - {only.value} <==> at in s);
    }
  }

  // ----- Which operations are accepted -----

  /** The VLAN has a member on the switch. */
  ghost predicate InUse(s: PolicyState, sw: string, v: int) { exists d :: Placed(s, sw, v, d) }

  lemma {:induction false} InUseExactly(topo: Topology, s: PolicyState, sw: string, v: int)
    requires SoundPolicy(topo, s)
    ensures InUse(s, sw, v) <==> sw in s && v in s[sw].vlans
  {
    if sw in s && v in s[sw].vlans {
      assert SoundMembers(AttachedTo(topo, sw), s[sw].vlans[v]);
      var m: Member := s[sw].vlans[v][0];
      assert m in s[sw].vlans[v];
      assert Placed(s, sw, v, m.device);
    }
  }

  lemma {:induction false} UsableContents(raw: seq<Option<int>>, n: nat)
    requires n <= |raw|
    ensures forall v :: v in UsableVlans(raw, n) <==> ValidVlan(v) && Some(v) in raw[..n]
    ensures 0 < n ==> UsableVlans(raw, n - 1) <= UsableVlans(raw, n)
  {
    if n > 0 {
      UsableContents(raw, n - 1);
      assert raw[..n] == raw[..n - 1] + [raw[n - 1]];
    }
  }

  /** The valid numbers of a request. */
  ghost function Numbers(raw: seq<Option<int>>): set<int> {
    set i | 0 <= i < |raw| && raw[i].Some? && ValidVlan(raw[i].value) :: raw[i].value
  }

  lemma {:induction false} UsableCount(raw: seq<Option<int>>)
    ensures |UsableVlans(raw, |raw|)| == |Numbers(raw)|
  {
    var vlans := UsableVlans(raw, |raw|);
    UsableContents(raw, |raw|);
    UsableVlansSound(raw, |raw|);
    assert raw[..|raw|] == raw;
    forall v
      ensures v in vlans <==> v in Numbers(raw)
    {
      if v in vlans {
        var i :| 0 <= i < |raw| && raw[i] == Some(v);
      }
    }
    DistinctCount(vlans, Numbers(raw));
  }

  lemma {:induction false} DistinctCount(xs: seq<int>, s: set<int>)
    requires NoDup(xs) && forall v :: v in xs <==> v in s
    ensures |xs| == |s|
    decreases |xs|
  {
    if xs == [] {
      HasNone(xs, s);
    } else {
      var n := |xs| - 1;
      var last := xs[n];
      assert last in xs;
      forall v
        ensures v in xs[..n] <==> v in s - {last}
      {
        InFront(xs, v);
      }
      DistinctCount(xs[..n], s - {last});
    }
  }

  lemma {:induction false} HasNone(xs: seq<int>, s: set<int>)
    requires xs == [] && forall v :: v in xs <==> v in s
    ensures s == {}
  {
    assert forall v :: v in s ==> v in xs;
  }

  lemma {:induction false} InFront(xs: seq<int>, v: int)
    requires xs != [] && NoDup(xs)
    ensures v in xs[..|xs| - 1] <==> v in xs && v != xs[|xs| - 1]
  {
    var n := |xs| - 1;
    assert xs == xs[..n] + [xs[n]];
    if v in xs[..n] {
      var i :| 0 <= i < n && xs[..n][i] == v;
      assert xs[i] == v;
    }
  }

  ghost predicate IsAttached(topo: Topology, sw: string, device: string) {
    exists d :: d in AttachedTo(topo, sw) && d.name == device
  }

  ghost predicate BothInUse(s: PolicyState, sw: string, a: int, b: int) {
    InUse(s, sw, a) && InUse(s, sw, b)
  }

  /** What each operation asks for. */
  ghost predicate Acceptable(topo: Topology, s: PolicyState, op: Op) {
    match op
    case Assign(sw, device, vlan) => IsSwitchName(sw) && 0 < vlan <= 4094 && IsAttached(topo, sw, device)
    case AutoSwitch(sw, raw, _) =>
      IsSwitchName(sw) && AttachedTo(topo, sw) != [] && |AttachedTo(topo, sw)| <= |Numbers(raw)|
    case AutoAll(raw, _) =>
      Numbers(raw) != {} && topo != map[] && forall sw :: sw in topo ==> |topo[sw]| <= |Numbers(raw)|
    case ClearSwitch(sw) => exists v :: InUse(s, sw, v)
    case ClearAll => true
    case Restore(_) => true
    case RemoveEverywhere(vlan) => exists sw :: InUse(s, sw, vlan)
    case RemoveAssignment(sw, vlan, _) => InUse(s, sw, vlan)
    case Interconnect(sw, a, b, _) => a != b && BothInUse(s, sw, a, b)
    case InterconnectScope(a, b, _, only) =>
      if only == None || only == Some("") then exists sw :: BothInUse(s, sw, a, b)
      else a != b && BothInUse(s, only.value, a, b)
  }

  /** An operation on a sound policy is accepted if and only if it is acceptable. */
  lemma {:induction false} AcceptedExactly(topo: Topology, s: PolicyState, op: Op)
    requires SoundTopology(topo) && SoundPolicy(topo, s)
    ensures Applied(topo, s, op).Some? <==> Acceptable(topo, s, op)
  {
    match op
    case Assign(sw, device, vlan) => FoundDevice(AttachedTo(topo, sw), device);
    case AutoSwitch(sw, raw, _) => UsableCount(raw);
    case AutoAll(raw, _) => UsableCount(raw);
    case ClearSwitch(sw) => ClearAccepted(topo, s, sw);
    case RemoveEverywhere(vlan) => EverywhereAccepted(topo, s, vlan);
    case RemoveAssignment(sw, vlan, _) => InUseExactly(topo, s, sw, vlan);
    case Interconnect(sw, a, b, _) => LinkAccepted(topo, s, sw, a, b);
    case InterconnectScope(a, b, enabled, only) => ScopeAccepted(topo, s, a, b, enabled, only);
    case ClearAll =>
    case Restore(_) =>
  }

  lemma {:induction false} ClearAccepted(topo: Topology, s: PolicyState, sw: string)
    requires SoundPolicy(topo, s)
    ensures Applied(topo, s, ClearSwitch(sw)).Some? <==> exists v :: InUse(s, sw, v)
  {
    if sw in s {
      var v := Pick(s[sw].vlans.Keys);
      InUseExactly(topo, s, sw, v);
    }
    forall v
      ensures InUse(s, sw, v) ==> sw in s
    {
      InUseExactly(topo, s, sw, v);
    }
  }

  lemma {:induction false} EverywhereAccepted(topo: Topology, s: PolicyState, vlan: int)
    requires SoundPolicy(topo, s)
    ensures RemovedEverywhere(s, vlan).Some? <==> exists sw :: InUse(s, sw, vlan)
  {
    forall sw
      ensures InUse(s, sw, vlan) <==> sw in s && vlan in s[sw].vlans
    {
      InUseExactly(topo, s, sw, vlan);
    }
  }

  lemma {:induction false} LinkAccepted(topo: Topology, s: PolicyState, sw: string, a: int, b: int)
    requires SoundPolicy(topo, s)
    ensures forall enabled :: Interconnected(s, sw, a, b, enabled).Some? <==> a != b && BothInUse(s, sw, a, b)
  {
    InUseExactly(topo, s, sw, a);
    InUseExactly(topo, s, sw, b);
    if sw in s {
      assert SoundVlans(AttachedTo(topo, sw), s[sw].vlans);
    }
  }

  lemma {:induction false} ScopeAccepted(
      topo: Topology, s: PolicyState, a: int, b: int, enabled: bool, only: Option<string>)
    requires SoundPolicy(topo, s)
    ensures Applied(topo, s, InterconnectScope(a, b, enabled, only)).Some?
            <==> Acceptable(topo, s, InterconnectScope(a, b, enabled, only))
  {
    if only.Some? && only.value != "" {
      LinkAccepted(topo, s, only.value, a, b);
    } else {
      forall sw
        ensures BothInUse(s, sw, a, b) <==> sw in s && a in s[sw].vlans && b in s[sw].vlans
      {
        InUseExactly(topo, s, sw, a);
        InUseExactly(topo, s, sw, b);
      }
    }
  }
}
