/** Two edits that lose links one would not expect them to lose, each a run from the empty
    policy on a concrete topology. */
module LinkLosses {
  import opened Prelude
  import opened VlanPolicy
  import opened Dashboard
  import opened DashboardInvariant
  import opened DashboardMeaning
  import opened DashboardEdits
  import opened EndToEnd
  import opened Scenarios

  /** In s the devices of the switch are in these VLANs, and no other device is in one. */
  ghost predicate Places(s: PolicyState, sw: string, at: map<string, int>) {
    forall x, v, d :: Placed(s, x, v, d) <==> x == sw && d in at && at[d] == v
  }

  ghost predicate Reached(topo: Topology, ops: seq<Op>, s: PolicyState) {
    Run(topo, map[], ops) == s && SoundPolicy(topo, s)
  }

  lemma {:induction false} ReachMore(topo: Topology, ops: seq<Op>, s: PolicyState, op: Op, t: PolicyState)
    requires SoundTopology(topo) && Reached(topo, ops, s) && Applied(topo, s, op) == Some(t)
    ensures Reached(topo, ops + [op], t)
  {
    AppliedSound(topo, s, op);
    RunSnoc(topo, ops, op);
  }

  lemma {:induction false} AssignStep(
      topo: Topology, ops: seq<Op>, s: PolicyState, sw: string, at: map<string, int>, d: Device, vlan: int)
    returns (t: PolicyState)
    requires SoundTopology(topo) && sw in topo && d in topo[sw] && ValidVlan(vlan)
    requires Reached(topo, ops, s) && Places(s, sw, at)
    ensures Assigned(topo, s, sw, d.name, vlan) == Some(t)
    ensures Reached(topo, ops + [Assign(sw, d.name, vlan)], t) && Places(t, sw, at[d.name := vlan])
  {
    AssignAccepted(topo, s, sw, d, vlan);
    t := Assigned(topo, s, sw, d.name, vlan).value;
    ReachMore(topo, ops, s, Assign(sw, d.name, vlan), t);
    forall x, v, e
      ensures Placed(t, x, v, e) <==> x == sw && e in at[d.name := vlan] && at[d.name := vlan][e] == v
    {
      AssignMoves(topo, s, sw, d.name, vlan, x, v, e);
    }
  }

  predicate HasVlan(s: PolicyState, sw: string, v: int) { sw in s && v in s[sw].vlans }

  lemma {:induction false} PlacedAt(s: PolicyState, sw: string, at: map<string, int>, d: string)
    requires Places(s, sw, at) && d in at
    ensures Placed(s, sw, at[d], d) && HasVlan(s, sw, at[d])
  {
  }

  lemma {:induction false} LinkAccepted(topo: Topology, s: PolicyState, sw: string, v: int, w: int)
    returns (t: PolicyState)
    requires SoundTopology(topo) && sw in topo && SoundPolicy(topo, s) && v != w
    requires HasVlan(s, sw, v) && HasVlan(s, sw, w)
    ensures Interconnected(s, sw, v, w, true) == Some(t)
    ensures Applied(topo, s, Interconnect(sw, v, w, true)) == Some(t)
  {
    assert SoundVlans(AttachedTo(topo, sw), s[sw].vlans);
    t := Interconnected(s, sw, v, w, true).value;
  }

  lemma {:induction false} LinkStep(
      topo: Topology, ops: seq<Op>, s: PolicyState, sw: string, at: map<string, int>, v: int, w: int)
    returns (t: PolicyState)
    requires SoundTopology(topo) && sw in topo && Reached(topo, ops, s) && Places(s, sw, at)
    requires HasVlan(s, sw, v) && HasVlan(s, sw, w) && v != w
    ensures Reached(topo, ops + [Interconnect(sw, v, w, true)], t) && Places(t, sw, at) && Linked(t, sw, v, w)
  {
    t := LinkAccepted(topo, s, sw, v, w);
    ReachMore(topo, ops, s, Interconnect(sw, v, w, true), t);
    LinkedPlaces(topo, s, sw, at, v, w, t);
  }

  lemma {:induction false} LinkedPlaces(
      topo: Topology, s: PolicyState, sw: string, at: map<string, int>, v: int, w: int, t: PolicyState)
    requires SoundTopology(topo) && SoundPolicy(topo, s) && Places(s, sw, at)
    requires v != w && Interconnected(s, sw, v, w, true) == Some(t)
    ensures Places(t, sw, at) && Linked(t, sw, v, w)
  {
    forall x, u, e
      ensures Placed(t, x, u, e) <==> x == sw && e in at && at[e] == u
    {
      InterconnectMeaning(topo, s, sw, v, w, true, x, u, u + 1, e);
    }
    InterconnectMeaning(topo, s, sw, v, w, true, sw, v, w, "");
  }

  /** The only device of a VLAN takes the VLAN's links along. */
  lemma {:induction false} SoleMember(
      topo: Topology, s: PolicyState, sw: string, a: string, v: int, b: string, w: int, vlan: int, t: PolicyState)
    requires SoundTopology(topo) && SoundPolicy(topo, s) && v != w && Places(s, sw, map[a := v, b := w])
    requires Assigned(topo, s, sw, a, vlan) == Some(t)
    ensures !Linked(t, sw, v, w)
  {
    NobodyElse(s, sw, a, v, b, w);
    AssignLinks(topo, s, sw, a, vlan, sw, v, w);
  }

  lemma {:induction false} NobodyElse(s: PolicyState, sw: string, a: string, v: int, b: string, w: int)
    requires v != w && Places(s, sw, map[a := v, b := w])
    ensures !Survives(s, sw, v, a)
  {
  }

  /** A device that is in neither VLAN of a link can be added without losing it. */
  lemma {:induction false} LinkKept(
      topo: Topology, s: PolicyState, sw: string, a: string, v: int, b: string, w: int, c: string, vlan: int,
      t: PolicyState)
    requires SoundTopology(topo) && SoundPolicy(topo, s) && Placed(s, sw, v, a) && Placed(s, sw, w, b) && v != w
    requires c != a && c != b && Assigned(topo, s, sw, c, vlan) == Some(t) && Linked(s, sw, v, w)
    ensures Linked(t, sw, v, w)
  {
    AssignLinks(topo, s, sw, c, vlan, sw, v, w);
  }

  lemma {:induction false} StartPlaces(topo: Topology, sw: string)
    ensures Reached(topo, [], map[]) && Places(map[], sw, map[])
  {
  }

  /** Two linked VLANs, of these two devices alone. */
  lemma {:induction false} TwoLinked(topo: Topology, sw: string, a: Device, v: int, b: Device, w: int)
    returns (ops: seq<Op>, s: PolicyState, at: map<string, int>)
    requires SoundTopology(topo) && sw in topo && a in topo[sw] && b in topo[sw] && a.name != b.name
    requires ValidVlan(v) && ValidVlan(w) && v != w
    ensures at == map[a.name := v, b.name := w]
    ensures Reached(topo, ops, s) && Places(s, sw, at) && Linked(s, sw, v, w)
  {
    StartPlaces(topo, sw);
    at := map[];
    ops := [];
    s := AssignStep(topo, ops, map[], sw, at, a, v);
    ops, at := ops + [Assign(sw, a.name, v)], at[a.name := v];
    s := AssignStep(topo, ops, s, sw, at, b, w);
    ops, at := ops + [Assign(sw, b.name, w)], at[b.name := w];
    PlacedAt(s, sw, at, a.name);
    PlacedAt(s, sw, at, b.name);
    s := LinkStep(topo, ops, s, sw, at, v, w);
    ops := ops + [Interconnect(sw, v, w, true)];
  }

  ghost predicate SamePlaces(s: PolicyState, t: PolicyState) {
    forall x, v, d :: Placed(t, x, v, d) <==> Placed(s, x, v, d)
  }

  lemma {:induction false} SameByPlaces(
      s: PolicyState, t: PolicyState, sw: string, at: map<string, int>, a: string, v: int)
    requires Places(s, sw, at) && Places(t, sw, at[a := v]) && a in at && at[a] == v
    ensures SamePlaces(s, t)
  {
    assert at[a := v] == at;
  }

  /** Two linked VLANs of one device each. Assigning a device again to the VLAN it is in moves
      nobody, and the link is gone. */
  lemma {:induction false} ReassigningLosesLink(topo: Topology, sw: string, a: Device, v: int, b: Device, w: int)
    returns (ops: seq<Op>, s: PolicyState, t: PolicyState)
    requires SoundTopology(topo) && sw in topo && a in topo[sw] && b in topo[sw] && a.name != b.name
    requires ValidVlan(v) && ValidVlan(w) && v != w
    ensures Reached(topo, ops, s) && Linked(s, sw, v, w)
    ensures Reached(topo, ops + [Assign(sw, a.name, v)], t) && !Linked(t, sw, v, w) && SamePlaces(s, t)
  {
    var at;
    ops, s, at := TwoLinked(topo, sw, a, v, b, w);
    t := AssignStep(topo, ops, s, sw, at, a, v);
    SoleMember(topo, s, sw, a.name, v, b.name, w, v, t);
    SameByPlaces(s, t, sw, at, a.name, v);
  }

  /** Two linked VLANs, one of two devices. Removing one of the two leaves a device in each,
      and the link is gone. */
  lemma {:induction false} RemovingLosesLink(
      topo: Topology, sw: string, a: Device, v: int, b: Device, w: int, c: Device)
    returns (ops: seq<Op>, s: PolicyState, t: PolicyState)
    requires SoundTopology(topo) && sw in topo && a in topo[sw] && b in topo[sw] && c in topo[sw]
    requires a.name != b.name && c.name != a.name && c.name != b.name
    requires ValidVlan(v) && ValidVlan(w) && v != w
    ensures Reached(topo, ops, s) && Linked(s, sw, v, w) && Placed(s, sw, v, c.name)
    ensures Reached(topo, ops + [RemoveAssignment(sw, v, Some(c.name))], t)
    ensures Placed(t, sw, v, a.name) && Placed(t, sw, w, b.name) && !Linked(t, sw, v, w)
  {
    var at, s0;
    ops, s0, at := TwoLinked(topo, sw, a, v, b, w);
    s := AssignStep(topo, ops, s0, sw, at, c, v);
    PlacedAt(s0, sw, at, a.name);
    PlacedAt(s0, sw, at, b.name);
    LinkKept(topo, s0, sw, a.name, v, b.name, w, c.name, v, s);
    ops := ops + [Assign(sw, c.name, v)];
    ThreePlaced(s, sw, at, a.name, v, b.name, w, c.name);
    NamesNotEmpty(topo, sw, c);
    t := LinkRemoved(topo, s, sw, a.name, v, b.name, w, c.name);
    ReachMore(topo, ops, s, RemoveAssignment(sw, v, Some(c.name)), t);
  }

  lemma {:induction false} ThreePlaced(
      s: PolicyState, sw: string, at: map<string, int>, a: string, v: int, b: string, w: int, c: string)
    requires at == map[a := v, b := w] && Places(s, sw, at[c := v]) && a != b && c != a && c != b
    ensures Placed(s, sw, v, a) && Placed(s, sw, w, b) && Placed(s, sw, v, c) && HasVlan(s, sw, v)
  {
    PlacedAt(s, sw, at[c := v], a);
    PlacedAt(s, sw, at[c := v], b);
    PlacedAt(s, sw, at[c := v], c);
  }

  lemma {:induction false} LinkRemoved(
      topo: Topology, s: PolicyState, sw: string, a: string, v: int, b: string, w: int, c: string)
    returns (t: PolicyState)
    requires SoundTopology(topo) && SoundPolicy(topo, s) && v != w && c != a && c != ""
    requires Placed(s, sw, v, a) && Placed(s, sw, w, b) && HasVlan(s, sw, v)
    ensures Applied(topo, s, RemoveAssignment(sw, v, Some(c))) == Some(t)
    ensures Placed(t, sw, v, a) && Placed(t, sw, w, b) && !Linked(t, sw, v, w)
  {
    t := RemovalAccepted(topo, s, sw, v, c);
    RemovalKeeps(topo, s, sw, v, w, a, c, t);
    RemovalKeepsOther(topo, s, sw, v, w, b, c, t);
  }

  lemma {:induction false} NamesNotEmpty(topo: Topology, sw: string, d: Device)
    requires SoundTopology(topo) && sw in topo && d in topo[sw]
    ensures d.name != ""
  {
  }

  lemma {:induction false} RemovalAccepted(topo: Topology, s: PolicyState, sw: string, v: int, c: string)
    returns (t: PolicyState)
    requires HasVlan(s, sw, v) && c != ""
    ensures RemovedAssignment(s, sw, v, Some(c)) == Some(t)
    ensures Applied(topo, s, RemoveAssignment(sw, v, Some(c))) == Some(t)
  {
    t := RemovedAssignment(s, sw, v, Some(c)).value;
  }

  lemma {:induction false} RemovalKeeps(
      topo: Topology, s: PolicyState, sw: string, v: int, w: int, a: string, c: string, t: PolicyState)
    requires SoundTopology(topo) && SoundPolicy(topo, s) && RemovedAssignment(s, sw, v, Some(c)) == Some(t)
    requires Placed(s, sw, v, a) && a != c && v != w
    ensures Placed(t, sw, v, a) && !Linked(t, sw, v, w)
  {
    RemoveAssignmentMeaning(topo, s, sw, v, Some(c), sw, v, w, a);
  }

  lemma {:induction false} RemovalKeepsOther(
      topo: Topology, s: PolicyState, sw: string, v: int, w: int, b: string, c: string, t: PolicyState)
    requires SoundTopology(topo) && SoundPolicy(topo, s) && RemovedAssignment(s, sw, v, Some(c)) == Some(t)
    requires Placed(s, sw, w, b) && v != w
    ensures Placed(t, sw, w, b)
  {
    RemoveAssignmentMeaning(topo, s, sw, v, Some(c), sw, w, v, b);
  }

  /** Both happen on the topology with three devices. */
  lemma {:induction false} LabLosesLinks(v: int, w: int)
    requires ValidVlan(v) && ValidVlan(w) && v != w
    ensures exists ops, s, t ::
              && Reached(LAB, ops, s) && Linked(s, SWITCH, v, w)
              && Reached(LAB, ops + [Assign(SWITCH, PRINTER.name, v)], t) && !Linked(t, SWITCH, v, w)
                  && SamePlaces(s, t)
    ensures exists ops, s, t ::
              && Reached(LAB, ops, s) && Linked(s, SWITCH, v, w)
              && Reached(LAB, ops + [RemoveAssignment(SWITCH, v, Some(CAMERA.name))], t) && !Linked(t, SWITCH, v, w)
              && Placed(t, SWITCH, v, PRINTER.name) && Placed(t, SWITCH, w, DESK.name)
  {
    LabIsSound();
    LabDevices();
    var ops, s, t := ReassigningLosesLink(LAB, SWITCH, PRINTER, v, DESK, w);
    ops, s, t := RemovingLosesLink(LAB, SWITCH, PRINTER, v, DESK, w, CAMERA);
  }

  const SWITCH := "s4"

  lemma {:induction false} LabDevices()
    ensures SWITCH in LAB && PRINTER in LAB[SWITCH] && DESK in LAB[SWITCH] && CAMERA in LAB[SWITCH]
    ensures PRINTER.name != DESK.name && PRINTER.name != CAMERA.name && DESK.name != CAMERA.name
  {
    assert PRINTER.name[0] != DESK.name[0] && PRINTER.name[0] != CAMERA.name[0] && DESK.name[0] != CAMERA.name[0];
    assert LAB[SWITCH][0] == PRINTER && LAB[SWITCH][1] == DESK && LAB[SWITCH][2] == CAMERA;
  }
}
