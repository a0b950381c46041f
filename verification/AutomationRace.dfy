/** A run of the policy loop in which a registered switch misses the policy in force: it
    changes after the switch was set up and before it is registered. */
module AutomationRace {
  import opened Prelude
  import opened OpenFlow
  import opened VlanPolicy
  import opened VlanNormalizer
  import opened VlanCompiler
  import opened VlanHistory
  import opened VlanWriter
  import opened Dashboard
  import opened DashboardInvariant
  import opened DashboardMeaning
  import opened AutomationHook
  import opened AutomationLoop
  import Scenarios

  ghost predicate Reaches(topo: Topology, s: System, run: seq<Event>, t: System) {
    PossibleRun(topo, s, run, |run|) && At(topo, s, run, |run|) == t
  }

  lemma {:induction false} SamePrefix(topo: Topology, s: System, run: seq<Event>, more: seq<Event>, n: nat)
    requires n <= |run| && run <= more
    ensures At(topo, s, run, n) == At(topo, s, more, n)
    ensures PossibleRun(topo, s, run, n) == PossibleRun(topo, s, more, n)
  {
    if n > 0 {
      SamePrefix(topo, s, run, more, n - 1);
    }
  }

  lemma {:induction false} OneMore(topo: Topology, s: System, run: seq<Event>, t: System, e: Event)
    requires Reaches(topo, s, run, t) && Possible(topo, t, e)
    ensures Reaches(topo, s, run + [e], Next(topo, t, e))
  {
    var more := run + [e];
    SamePrefix(topo, s, run, more, |run|);
    assert more[|run|] == e;
    assert At(topo, s, more, |run| + 1) == Next(topo, t, e);
    assert PossibleRun(topo, s, more, |run| + 1);
  }

  lemma {:induction false} SetUpEmpty(topo: Topology, s: System, d: int) returns (t: System)
    requires Start(topo, s)
    ensures t == Next(topo, s, SetUp(d, None)) && Possible(topo, s, SetUp(d, None))
    ensures t == s.(tables := map[d := map[]], others := map[d := map[]], programmed := map[d := map[]])
  {
    t := Next(topo, s, SetUp(d, None));
    NothingCompiled(d);
    assert CfgOf(map[], d) == EMPTY_CFG;
    assert DeleteCookie(map[], VLAN_AUTOMATION_COOKIE) == map[];
    assert Reprogrammed(map[], EMPTY_CFG, d) == map[];
  }

  /** The edit is in force after the round, and the switch that is registered then has none
      of its rules. */
  lemma {:induction false} MissedUpdate(
      topo: Topology, s: System, op: Op, now: PolicyState, p: Payload, d: int) returns (run: seq<Event>, t: System)
    requires SoundTopology(topo) && Start(topo, s) && s.stored == map[]
    requires Applied(topo, map[], op) == Some(now) && Stores(p, now) && CfgOf(now, d) != EMPTY_CFG
    ensures Reaches(topo, s, run, t) && d in t.registered && t.hook.policy == t.stored == now
    ensures !Current(t, d) && d in t.tables && t.tables[d] == map[]
  {
    run := [];
    var s1 := SetUpEmpty(topo, s, d);
    OneMore(topo, s, run, s, SetUp(d, None));
    run := run + [SetUp(d, None)];
    var edit := Edit(op, s.clock + 1.0, p);
    var s2 := Next(topo, s1, edit);
    OneMore(topo, s, run, s1, edit);
    run := run + [edit];
    assert FileSound(topo, s2) by {
      assert FileSound(topo, s1);
      FileStep(topo, s1, edit);
    }
    var s3 := UnregisteredRound(topo, s2);
    OneMore(topo, s, run, s2, Round);
    run := run + [Round];
    t := s3.(registered := s3.registered + {d});
    OneMore(topo, s, run, s3, Register(d));
    run := run + [Register(d)];
    assert CfgOf(map[], d) == EMPTY_CFG;
  }

  lemma {:induction false} UnregisteredRound(topo: Topology, s: System) returns (t: System)
    requires SoundTopology(topo) && FileSound(topo, s) && s.registered == {}
    ensures t == Next(topo, s, Round) && t.hook.policy == s.stored
    ensures t.stored == s.stored && t.registered == {} && t.programmed == s.programmed && t.tables == s.tables
  {
    t := Polling(s);
    RoundCatchesUp(topo, s);
    PollsNobody(s);
  }

  lemma {:induction false} PollsNobody(s: System)
    requires s.registered == {}
    ensures Polling(s) == s.(hook := Polled(s.hook, s.file))
  {
    NoneOrAll(s.tables, Polled(s.hook, s.file).policy);
    assert (map d | d in s.programmed :: if d in s.registered then s.hook.policy else s.programmed[d]) == s.programmed;
  }

  ghost predicate Misses(topo: Topology, s: System, run: seq<Event>, t: System, sw: string, d: int, v: int,
      device: string) {
    && Start(topo, s) && Reaches(topo, s, run, t) && d in t.registered && t.hook.policy == t.stored
    && Placed(t.stored, sw, v, device) && !Current(t, d) && d in t.tables && t.tables[d] == map[]
  }

  lemma {:induction false} FreshStart(topo: Topology) returns (s: System)
    ensures Start(topo, s) && s.stored == map[]
  {
    s := System(map[], None, 1.0, Hook(map[], 0.0), {}, map[], map[], map[]);
  }

  /** It happens on the topology with three devices, with an assignment of the printer. */
  lemma {:induction false} LabMissesUpdate(v: int)
    requires ValidVlan(v)
    ensures exists s, run, t :: Misses(Scenarios.LAB, s, run, t, "s4", 4, v, Scenarios.PRINTER.name)
  {
    var s := FreshStart(Scenarios.LAB);
    Scenarios.LabIsSound();
    var now := PrinterAssigned(v);
    var p := Storable(now);
    var run, t := MissedUpdate(Scenarios.LAB, s, Assign("s4", Scenarios.PRINTER.name, v), now, p, 4);
    assert Misses(Scenarios.LAB, s, run, t, "s4", 4, v, Scenarios.PRINTER.name);
  }

  lemma {:induction false} PrinterAssigned(v: int) returns (now: PolicyState)
    requires ValidVlan(v)
    ensures Applied(Scenarios.LAB, map[], Assign("s4", Scenarios.PRINTER.name, v)) == Some(now)
    ensures Placed(now, "s4", v, Scenarios.PRINTER.name) && CfgOf(now, 4) != EMPTY_CFG
  {
    Scenarios.LabIsSound();
    Scenarios.LabIsKnown();
    Scenarios.AssignAccepted(Scenarios.LAB, map[], "s4", Scenarios.PRINTER, v);
    now := Assigned(Scenarios.LAB, map[], "s4", Scenarios.PRINTER.name, v).value;
    AssignMoves(Scenarios.LAB, map[], "s4", Scenarios.PRINTER.name, v, "s4", v, Scenarios.PRINTER.name);
    assert v in now["s4"].vlans;
  }
}
