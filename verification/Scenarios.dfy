/** The end-to-end theorem at work: from the empty policy, two devices of a switch are put
    into VLANs, and frames between them flow exactly if it is the same VLAN. */
module Scenarios {
  import opened Prelude
  import opened OpenFlow
  import opened VlanPolicy
  import opened VlanNormalizer
  import opened VlanHistory
  import opened VlanKnown
  import opened VlanWriter
  import opened Dashboard
  import opened DashboardInvariant
  import opened DashboardMeaning
  import opened EndToEnd

  const PRINTER := Device("printer", "Printer", 2, 0x0200_0000_0001)
  const DESK := Device("desk", "Desk", 3, 0x0200_0000_0002)
  const CAMERA := Device("camera", "Camera", 4, 0x0200_0000_0003)
  const LAB: Topology := map["s4" := [PRINTER, DESK, CAMERA]]

  lemma {:induction false} LabIsSound()
    ensures SoundTopology(LAB)
  {
    assert PRINTER.name[0] != DESK.name[0] && PRINTER.name[0] != CAMERA.name[0] && DESK.name[0] != CAMERA.name[0];
    assert forall sw :: sw in LAB ==> sw == "s4";
    assert IsSwitchName("s4");
  }

  /** An attached device can always be assigned to a valid VLAN. */
  lemma {:induction false} AssignAccepted(topo: Topology, s: PolicyState, sw: string, d: Device, vlan: int)
    requires SoundTopology(topo) && sw in topo && d in topo[sw] && ValidVlan(vlan)
    ensures Assigned(topo, s, sw, d.name, vlan).Some?
  {
    FoundDevice(AttachedTo(topo, sw), d.name);
  }

  function TwoAssignments(sw: string, a: Device, v: int, b: Device, w: int): seq<Op> {
    [Assign(sw, a.name, v), Assign(sw, b.name, w)]
  }

  lemma {:induction false} RunSnoc(topo: Topology, ops: seq<Op>, op: Op)
    ensures Run(topo, map[], ops + [op]) == After(topo, Run(topo, map[], ops), op)
  {
    assert (ops + [op])[..|ops|] == ops;
  }

  lemma {:induction false} RunTwo(topo: Topology, first: Op, second: Op)
    ensures Run(topo, map[], [first, second]) == After(topo, After(topo, map[], first), second)
  {
    RunSnoc(topo, [], first);
    RunSnoc(topo, [first], second);
    assert [] + [first] == [first] && [first] + [second] == [first, second];
  }

  lemma {:induction false} TwoPlaced(
      topo: Topology, s1: PolicyState, s2: PolicyState, sw: string, a: Device, v: int, b: Device, w: int, x: int)
    requires SoundTopology(topo) && SoundPolicy(topo, s1) && a.name != b.name
    requires Assigned(topo, map[], sw, a.name, v) == Some(s1) && Assigned(topo, s1, sw, b.name, w) == Some(s2)
    ensures Placed(s2, sw, x, a.name) <==> x == v
    ensures Placed(s2, sw, x, b.name) <==> x == w
    ensures v != w ==> !Linked(s2, sw, v, w)
  {
    AssignMoves(topo, map[], sw, a.name, v, sw, x, a.name);
    AssignMoves(topo, s1, sw, b.name, w, sw, x, a.name);
    AssignMoves(topo, s1, sw, b.name, w, sw, x, b.name);
    if v != w {
      AssignLinks(topo, map[], sw, a.name, v, sw, v, w);
      AssignLinks(topo, s1, sw, b.name, w, sw, v, w);
    }
  }

  lemma {:induction false} TwoTalk(s: PolicyState, sw: string, a: string, v: int, b: string, w: int)
    requires forall x :: Placed(s, sw, x, a) <==> x == v
    requires forall x :: Placed(s, sw, x, b) <==> x == w
    requires v != w ==> !Linked(s, sw, v, w)
    ensures MayTalk(s, sw, a, b) <==> v == w
  {
    if v == w {
      assert Placed(s, sw, v, a) && Placed(s, sw, v, b);
    }
  }

  /** Two freshly assigned devices may talk exactly when they are in one VLAN. */
  lemma {:induction false} TalkExactlyInOneVlan(topo: Topology, sw: string, a: Device, v: int, b: Device, w: int)
    requires SoundTopology(topo) && sw in topo && a in topo[sw] && b in topo[sw] && a != b
    requires ValidVlan(v) && ValidVlan(w)
    ensures var s := Run(topo, map[], TwoAssignments(sw, a, v, b, w));
            Managed(s, sw, a.name) && (MayTalk(s, sw, a.name, b.name) <==> v == w)
  {
    var first, second := Assign(sw, a.name, v), Assign(sw, b.name, w);
    RunTwo(topo, first, second);
    AttachedSound(topo, sw);
    DeviceAt(topo[sw], a, b);
    AssignAccepted(topo, map[], sw, a, v);
    var s1 := After(topo, map[], first);
    AppliedSound(topo, map[], first);
    AssignAccepted(topo, s1, sw, b, w);
    var s2 := After(topo, s1, second);
    forall x: int
      ensures Placed(s2, sw, x, a.name) <==> x == v
      ensures Placed(s2, sw, x, b.name) <==> x == w
      ensures v != w ==> !Linked(s2, sw, v, w)
    {
      TwoPlaced(topo, s1, s2, sw, a, v, b, w, x);
    }
    TwoTalk(s2, sw, a.name, v, b.name, w);
    assert Placed(s2, sw, v, a.name);
  }

  lemma {:induction false} ForwardedIfTalking(
      topo: Topology, ops: seq<Op>, dpid: nat, a: Device, b: Device, talk: bool,
      p: Payload, start: Table, steps: seq<Step>, f: Frame)
    requires SoundTopology(topo) && Stores(p, Run(topo, map[], ops))
    requires a in AttachedTo(topo, SwitchName(dpid)) && b in AttachedTo(topo, SwitchName(dpid)) && a != b
    requires f.inPort == a.port && f.ethDst == b.mac && InSight(dpid, a.port)
    requires ProgrammedFrom(start, dpid, steps, p) && LowerFlows(OthersAt(start, steps, |steps|), f)
    requires var s, sw := Run(topo, map[], ops), SwitchName(dpid);
             Managed(s, sw, a.name) && (MayTalk(s, sw, a.name, b.name) <==> talk)
    ensures Treats(TableAt(start, dpid, steps, |steps|), f,
                   if talk && InSight(dpid, b.port) then [Output(b.port)] else [])
  {
    UnicastBetweenDevices(topo, ops, p, dpid, start, steps, a, b, f);
  }

  /** On the switch: a frame from one, on a port the controller takes into account, to the
      other's address leaves on the other's port when that is such a port too and they share
      a VLAN, and is dropped otherwise. */
  lemma {:induction false} AssignedThenForwarded(
      topo: Topology, ops: seq<Op>, dpid: nat, a: Device, v: int, b: Device, w: int,
      p: Payload, start: Table, steps: seq<Step>, f: Frame)
    requires SoundTopology(topo) && SwitchName(dpid) in topo && a in topo[SwitchName(dpid)]
        && b in topo[SwitchName(dpid)]
    requires a != b && ValidVlan(v) && ValidVlan(w) && f.inPort == a.port && f.ethDst == b.mac
    requires ops == TwoAssignments(SwitchName(dpid), a, v, b, w) && Stores(p, Run(topo, map[], ops))
    requires ProgrammedFrom(start, dpid, steps, p) && LowerFlows(OthersAt(start, steps, |steps|), f)
    requires InSight(dpid, a.port)
    ensures Treats(TableAt(start, dpid, steps, |steps|), f,
                   if v == w && InSight(dpid, b.port) then [Output(b.port)] else [])
  {
    TalkExactlyInOneVlan(topo, SwitchName(dpid), a, v, b, w);
    ForwardedIfTalking(topo, ops, dpid, a, b, v == w, p, start, steps, f);
  }

  /** All assumptions at once can be met: on this topology, for any two VLANs, there
      is a file that stores the policy, and programming an empty switch from it treats every
      frame from the printer to the desk as it should. */
  lemma {:induction false} LabDelivers(v: int, w: int, f: Frame) returns (p: Payload)
    requires ValidVlan(v) && ValidVlan(w) && f.inPort == PRINTER.port && f.ethDst == DESK.mac
    ensures Stores(p, Run(LAB, map[], TwoAssignments("s4", PRINTER, v, DESK, w)))
    ensures Treats(Reprogrammed(map[], CfgOf(Normalized(p), 4), 4), f, if v == w then [Output(DESK.port)] else [])
  {
    p := Storable(Run(LAB, map[], TwoAssignments("s4", PRINTER, v, DESK, w)));
    LabProgrammed(p, v, w, f, TwoAssignments("s4", PRINTER, v, DESK, w), [Reprogram(CfgOf(Normalized(p), 4))]);
  }

  lemma {:induction false} LabProgrammed(p: Payload, v: int, w: int, f: Frame, ops: seq<Op>, steps: seq<Step>)
    requires ValidVlan(v) && ValidVlan(w) && f.inPort == PRINTER.port && f.ethDst == DESK.mac
    requires ops == TwoAssignments("s4", PRINTER, v, DESK, w) && Stores(p, Run(LAB, map[], ops))
    requires steps == [Reprogram(CfgOf(Normalized(p), 4))]
    ensures Treats(Reprogrammed(map[], CfgOf(Normalized(p), 4), 4), f, if v == w then [Output(DESK.port)] else [])
  {
    LabIsSound();
    LabIsKnown();
    OneProgramming(CfgOf(Normalized(p), 4));
    AssignedThenForwarded(LAB, ops, 4, PRINTER, v, DESK, w, p, map[], steps, f);
  }

  lemma {:induction false} LabIsKnown()
    ensures InSight(4, PRINTER.port) && InSight(4, DESK.port) && InSight(4, CAMERA.port)
    ensures SwitchName(4) == "s4" && "s4" in LAB && LAB["s4"] == [PRINTER, DESK, CAMERA]
  {
    assert SwitchName(4) == "s4";
    assert AttachedTo(LAB, "s4") == [PRINTER, DESK, CAMERA];
  }

  lemma {:induction false} OneProgramming(cfg: SwitchCfg)
    ensures AllApart([Reprogram(cfg)], 1) && LastCfg([Reprogram(cfg)], 1) == cfg
    ensures TableAt(map[], 4, [Reprogram(cfg)], 1) == Reprogrammed(map[], cfg, 4)
    ensures OthersAt(map[], [Reprogram(cfg)], 1) == map[]
  {
  }
}
