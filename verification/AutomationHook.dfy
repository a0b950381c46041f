/** The controller's polling of the policy file (examples/campus_controller.py): a round that
    finds a newer file reads it, and reprograms every registered switch if the policy changed. */
module AutomationHook {
  import opened Prelude
  import opened OpenFlow
  import opened VlanPolicy
  import opened VlanNormalizer
  import opened VlanCompiler
  import opened VlanHistory

  /** A file as a round finds it; None for a content that cannot be read. */
  datatype File = File(mtime: real, content: Option<Payload>)

  /** The policy in force and the time stamp of the last file looked into. */
  datatype Hook = Hook(policy: PolicyState, seen: real)

  /** A missing file counts as the empty policy; a file is looked into once for each time
      stamp, whether it can be read or not. */
  function Polled(h: Hook, file: Option<File>): Hook {
    match file
    case None => h.(policy := map[])
    case Some(f) =>
      if f.mtime <= h.seen then h
      else Hook(if f.content.Some? then Normalized(f.content.value) else h.policy, f.mtime)
  }

  /** One time stamp is looked into once: whatever a file holds when it is found again with the
      same stamp or an earlier one, and however often, nothing changes. */
  lemma {:induction false} ReadOnce(h: Hook, f: File, again: File)
    requires again.mtime <= f.mtime
    ensures Polled(Polled(h, Some(f)), Some(again)) == Polled(h, Some(f))
  {
  }

  /** A newer file that can be read puts its policy in force, until the file is missing. */
  lemma {:induction false} NewerRead(h: Hook, f: File, p: Payload)
    requires f.mtime > h.seen && f.content == Some(p)
    ensures Polled(h, Some(f)).policy == Normalized(p)
    ensures Polled(Polled(h, Some(f)), None).policy == map[]
  {
  }

  /** The tables after the switches in ds were reprogrammed. */
  function ReprogrammedAll(tables: map<int, Table>, ds: set<int>, policy: PolicyState): map<int, Table> {
    map d | d in tables :: if d in ds then Reprogrammed(tables[d], CfgOf(policy, d), d) else tables[d]
  }

  function AfterChange(
      tables: map<int, Table>, ds: set<int>, before: PolicyState, policy: PolicyState): map<int, Table> {
    if policy == before then tables else ReprogrammedAll(tables, ds, policy)
  }

  lemma {:induction false} OneMoreSwitch(
      was: map<int, Table>, done: set<int>, d: int, policy: PolicyState, t: map<int, Table>)
    requires d in was && d !in done && t == ReprogrammedAll(was, done, policy)
    ensures d in t && t[d] == was[d]
    ensures t[d := Reprogrammed(was[d], CfgOf(policy, d), d)] == ReprogrammedAll(was, done + {d}, policy)
  {
  }

  lemma {:induction false} NoneOrAll(tables: map<int, Table>, policy: PolicyState)
    ensures ReprogrammedAll(tables, {}, policy) == tables
  {
  }

  class Automation {
    const vlan: VlanController
    var networkAutomationMtime: real
    /** The registered switches. */
    var datapaths: map<int, Switch>

    ghost predicate Valid()
      reads this
    {
      forall d :: d in datapaths ==> datapaths[d].dpid == d
    }

    ghost function Switches(): set<Switch>
      reads this
    {
      datapaths.Values
    }

    ghost function State(): Hook
      reads this, vlan
    {
      Hook(vlan.state, networkAutomationMtime)
    }

    constructor ()
      ensures Valid() && State() == Hook(map[], 0.0) && datapaths == map[] && fresh(vlan)
    {
      vlan := new VlanController(map[]);
      networkAutomationMtime, datapaths := 0.0, map[];
    }

    ghost function Tables(): map<int, Table>
      reads this, Switches()
    {
      map d | d in datapaths :: datapaths[d].table
    }

    method Install(sw: Switch)
      modifies vlan`ruleCounts, sw
      ensures sw.table == Reprogrammed(old(sw.table), CfgOf(vlan.state, sw.dpid), sw.dpid)
    {
      var _ := vlan.InstallVlanAutomationFlows(sw);
    }

    /** A change of one switch's table leaves the others as they are. */
    twostate lemma OnlyOne(d: int)
      requires Valid() && d in datapaths && datapaths == old(datapaths)
      requires forall sw :: sw in Switches() && sw != datapaths[d] ==> sw.table == old(sw.table)
      ensures Tables() == old(Tables())[d := datapaths[d].table]
    {
      assert forall e :: e in datapaths && e != d ==> datapaths[e] != datapaths[d];
    }

    method ReprogramOne(d: int)
      requires Valid() && d in datapaths
      modifies vlan`ruleCounts, datapaths[d]
      ensures Tables() == old(Tables())[d := Reprogrammed(old(datapaths[d].table), CfgOf(vlan.state, d), d)]
    {
      Install(datapaths[d]);
      OnlyOne(d);
    }

    /** Every registered switch gets the rules of the policy in force. */
    method ReprogramAll()
      requires Valid()
      modifies vlan`ruleCounts, Switches()
      ensures Tables() == ReprogrammedAll(old(Tables()), datapaths.Keys, vlan.state)
    {
      var todo := datapaths.Keys;
      ghost var was, done := Tables(), {};
      NoneOrAll(was, vlan.state);
      while todo != {}
        modifies vlan`ruleCounts, Switches()
        invariant todo <= datapaths.Keys && done == datapaths.Keys - todo
        invariant Tables() == ReprogrammedAll(was, done, vlan.state)
      {
        var d := Choose(todo);
        OneMoreSwitch(was, done, d, vlan.state, Tables());
        ReprogramOne(d);
        todo, done := todo - {d}, done + {d};
      }
      assert done == datapaths.Keys;
    }

    /** A policy other than the one in force is put in force on every registered switch. */
    method Adopt(policy: PolicyState)
      requires Valid()
      modifies vlan, Switches()
      ensures vlan.state == policy
      ensures Tables() == AfterChange(old(Tables()), datapaths.Keys, old(vlan.state), policy)
    {
      if policy != vlan.state {
        ghost var was := Tables();
        vlan.state := policy;
        assert Tables() == was;
        ReprogramAll();
      }
    }

    method LookInto(file: File)
      requires Valid()
      modifies this`networkAutomationMtime, vlan, Switches()
      ensures State() == Polled(old(State()), Some(file))
      ensures Tables() == AfterChange(old(Tables()), datapaths.Keys, old(vlan.state), vlan.state)
    {
      if file.mtime <= networkAutomationMtime {
        return;
      }
      if file.content.Some? {
        var normalized := NormalizeNetworkAutomation(file.content.value);
        Adopt(normalized);
      }
      ghost var now := Tables();
      networkAutomationMtime := file.mtime;
      assert Tables() == now;
    }

    /** One round: the new state, and the tables of the registered switches, reprogrammed
        exactly when the policy changed. */
    method ApplyNetworkAutomationHook(file: Option<File>)
      requires Valid()
      modifies this`networkAutomationMtime, vlan, Switches()
      ensures State() == Polled(old(State()), file)
      ensures Tables() == AfterChange(old(Tables()), datapaths.Keys, old(vlan.state), vlan.state)
    {
      if file.None? {
        Adopt(map[]);
      } else {
        LookInto(file.value);
      }
    }
  }
}
