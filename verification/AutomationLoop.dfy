/** The dashboard, its file, the controller's rounds and the switches as one system: when a
    registered switch has the rules of the policy in force, and what that makes of a frame. */
module AutomationLoop {
  import opened Prelude
  import opened OpenFlow
  import opened VlanPolicy
  import opened VlanNormalizer
  import opened VlanCompiler
  import opened VlanMeaning
  import opened VlanHistory
  import opened Dashboard
  import opened DashboardInvariant
  import opened EndToEnd
  import opened AutomationHook

  /** The policy as the dashboard stores it, the file, the latest time stamp of the file, the
      controller, its registered switches, and of every switch that was ever set up the
      table, the flows of others in it, and the policy it was programmed with last. */
  datatype System = System(
    stored: PolicyState,
    file: Option<File>,
    clock: real,
    hook: Hook,
    registered: set<int>,
    tables: map<int, Table>,
    others: map<int, Table>,
    programmed: map<int, PolicyState>)

  /** An edit in the dashboard, which writes the file unless it is refused; the file is
      removed; a monitor round; a switch is set up, with the table it kept or a new one; it
      is registered, which is a later event; it is lost; others change its flows. */
  datatype Event =
    | Edit(op: Op, mtime: real, written: Payload)
    | Remove
    | Round
    | SetUp(dpid: int, table: Option<Table>)
    | Register(dpid: int)
    | Lose(dpid: int)
    | Foreign(dpid: int, change: Step)

  function Edited(topo: Topology, s: System, op: Op, mtime: real, written: Payload): System {
    if Applied(topo, s.stored, op).None? then s
    else s.(stored := Applied(topo, s.stored, op).value, file := Some(File(mtime, Some(written))), clock := mtime)
  }

  function Polling(s: System): System {
    var hook := Polled(s.hook, s.file);
    s.(hook := hook,
       tables := AfterChange(s.tables, s.registered, s.hook.policy, hook.policy),
       programmed :=
         if hook.policy == s.hook.policy then s.programmed
         else map d | d in s.programmed :: if d in s.registered then hook.policy else s.programmed[d])
  }

  function Connected(s: System, dpid: int, table: Option<Table>): System {
    var t := if table.Some? then table.value else if dpid in s.tables then s.tables[dpid] else map[];
    var env := if table.Some? then table.value else if dpid in s.others then s.others[dpid] else map[];
    s.(tables := s.tables[dpid := Reprogrammed(t, CfgOf(s.hook.policy, dpid), dpid)],
       others := s.others[dpid := env],
       programmed := s.programmed[dpid := s.hook.policy])
  }

  function Changed(s: System, dpid: int, change: Step): System {
    if dpid !in s.tables || dpid !in s.others then s
    else
      s.(tables := s.tables[dpid := Others(s.tables[dpid], change)],
         others := s.others[dpid := Others(s.others[dpid], change)])
  }

  function Next(topo: Topology, s: System, e: Event): System {
    match e
    case Edit(op, mtime, written) => Edited(topo, s, op, mtime, written)
    case Remove => s.(stored := map[], file := None)
    case Round => Polling(s)
    case SetUp(dpid, table) => Connected(s, dpid, table)
    case Register(dpid) => s.(registered := s.registered + {dpid})
    case Lose(dpid) => s.(registered := s.registered - {dpid})
    case Foreign(dpid, change) => Changed(s, dpid, change)
  }

  /** A write gets a later time stamp than the ones before, and stores the policy in some
      order; a switch starts without VLAN rules and is set up before it is registered; others
      keep to their own cookies and keys. */
  ghost predicate Possible(topo: Topology, s: System, e: Event) {
    match e
    case Edit(op, mtime, written) =>
      Applied(topo, s.stored, op).Some? ==> mtime > s.clock && Stores(written, Applied(topo, s.stored, op).value)
    case SetUp(_, table) => table.Some? ==> VlanFree(table.value)
    case Register(dpid) => dpid in s.tables
    case Foreign(_, change) => Apart(change) && !change.Reprogram?
    case _ => true
  }

  /** The controller has just started, whatever the dashboard has stored before. */
  ghost predicate Start(topo: Topology, s: System) {
    && s.hook == Hook(map[], 0.0) && s.clock > 0.0 && SoundPolicy(topo, s.stored) && FileStores(s)
    && s.registered == {} && s.tables == map[] && s.others == map[] && s.programmed == map[]
  }

  function At(topo: Topology, s: System, run: seq<Event>, n: nat): System
    requires n <= |run|
  {
    if n == 0 then s else Next(topo, At(topo, s, run, n - 1), run[n - 1])
  }

  ghost predicate PossibleRun(topo: Topology, s: System, run: seq<Event>, n: nat)
    requires n <= |run|
  {
    n > 0 ==> PossibleRun(topo, s, run, n - 1) && Possible(topo, At(topo, s, run, n - 1), run[n - 1])
  }

  // ----- The file and the policy in force -----

  ghost predicate FileStores(s: System) {
    && (s.file.None? ==> s.stored == map[])
    && (s.file.Some? ==> s.file.value.mtime == s.clock && s.file.value.content.Some?
                         && Stores(s.file.value.content.value, s.stored))
  }

  ghost predicate FileSound(topo: Topology, s: System) {
    && SoundPolicy(topo, s.stored) && FileStores(s) && s.hook.seen <= s.clock
    && (s.file.Some? && s.hook.seen == s.clock ==> s.hook.policy == s.stored)
  }

  lemma {:induction false} StoredIsRead(topo: Topology, p: Payload, s: PolicyState)
    requires SoundTopology(topo) && SoundPolicy(topo, s) && Stores(p, s)
    ensures Normalized(p) == s
  {
    SoundIsNormal(topo, s);
    ReadBack(p, s);
  }

  lemma {:induction false} EditedFile(topo: Topology, s: System, op: Op, mtime: real, written: Payload)
    requires SoundTopology(topo) && FileSound(topo, s) && Possible(topo, s, Edit(op, mtime, written))
    ensures FileSound(topo, Edited(topo, s, op, mtime, written))
  {
    if Applied(topo, s.stored, op).Some? {
      AppliedSound(topo, s.stored, op);
    }
  }

  /** A round puts what the dashboard has stored in force. */
  lemma {:induction false} RoundCatchesUp(topo: Topology, s: System)
    requires SoundTopology(topo) && FileSound(topo, s)
    ensures Polling(s).hook.policy == s.stored
    ensures FileSound(topo, Polling(s))
  {
    if s.file.Some? {
      StoredIsRead(topo, s.file.value.content.value, s.stored);
    }
  }

  lemma {:induction false} FileStep(topo: Topology, s: System, e: Event)
    requires SoundTopology(topo) && FileSound(topo, s) && Possible(topo, s, e)
    ensures FileSound(topo, Next(topo, s, e))
  {
    match e
    case Edit(op, mtime, written) => EditedFile(topo, s, op, mtime, written);
    case Round => RoundCatchesUp(topo, s);
    case _ =>
  }

  lemma {:induction false} FileRun(topo: Topology, s: System, run: seq<Event>, n: nat)
    requires SoundTopology(topo) && Start(topo, s) && n <= |run| && PossibleRun(topo, s, run, n)
    ensures FileSound(topo, At(topo, s, run, n))
  {
    if n > 0 {
      FileRun(topo, s, run, n - 1);
      FileStep(topo, At(topo, s, run, n - 1), run[n - 1]);
    }
  }

  // ----- The tables -----

  /** The table is the others' flows with the rules of that policy on top. */
  ghost predicate Fits(t: Table, env: Table, policy: PolicyState, dpid: int) {
    VlanFree(env) && t == AddAll(env, Compile(CfgOf(policy, dpid), dpid))
  }

  ghost predicate TablesSound(s: System) {
    && s.tables.Keys == s.others.Keys == s.programmed.Keys && s.registered <= s.tables.Keys
    && (forall d :: d in s.tables ==> Fits(s.tables[d], s.others[d], s.programmed[d], d))
  }

  lemma {:induction false} FitsReprogrammed(t: Table, env: Table, policy: PolicyState, dpid: int, now: PolicyState)
    requires Fits(t, env, policy, dpid)
    ensures Fits(Reprogrammed(t, CfgOf(now, dpid), dpid), env, now, dpid)
  {
    StepForgets(env, CfgOf(policy, dpid), dpid, Reprogram(CfgOf(now, dpid)));
  }

  lemma {:induction false} FitsBare(env: Table, dpid: int)
    requires VlanFree(env)
    ensures Fits(env, env, map[], dpid)
  {
    NothingCompiled(dpid);
  }

  lemma {:induction false} FitsChanged(t: Table, env: Table, policy: PolicyState, dpid: int, change: Step)
    requires Fits(t, env, policy, dpid) && Apart(change) && !change.Reprogram?
    ensures Fits(Others(t, change), Others(env, change), policy, dpid)
  {
    StepForgets(env, CfgOf(policy, dpid), dpid, change);
  }

  lemma {:induction false} PollingTables(s: System)
    requires TablesSound(s)
    ensures TablesSound(Polling(s))
  {
    var now := Polled(s.hook, s.file).policy;
    if now != s.hook.policy {
      forall d | d in s.tables && d in s.registered
        ensures Fits(ReprogrammedAll(s.tables, s.registered, now)[d], s.others[d], now, d)
      {
        FitsReprogrammed(s.tables[d], s.others[d], s.programmed[d], d, now);
      }
    }
  }

  lemma {:induction false} FitsUpdated(s: System, t: System, dpid: int, table: Table, env: Table, policy: PolicyState)
    requires TablesSound(s) && Fits(table, env, policy, dpid)
    requires t.tables == s.tables[dpid := table] && t.others == s.others[dpid := env]
    requires t.programmed == s.programmed[dpid := policy] && t.registered == s.registered
    ensures TablesSound(t)
  {
  }

  lemma {:induction false} ConnectedTables(s: System, dpid: int, table: Option<Table>)
    requires TablesSound(s) && (table.Some? ==> VlanFree(table.value))
    ensures TablesSound(Connected(s, dpid, table))
  {
    if table.None? && dpid in s.tables {
      SetUpTable(s, Connected(s, dpid, table), dpid, s.tables[dpid], s.others[dpid], s.programmed[dpid]);
    } else {
      var bare := if table.Some? then table.value else map[];
      FitsBare(bare, dpid);
      SetUpTable(s, Connected(s, dpid, table), dpid, bare, bare, map[]);
    }
  }

  lemma {:induction false} SetUpTable(s: System, t: System, dpid: int, table: Table, env: Table, before: PolicyState)
    requires TablesSound(s) && Fits(table, env, before, dpid)
    requires t.tables == s.tables[dpid := Reprogrammed(table, CfgOf(s.hook.policy, dpid), dpid)]
    requires t.others == s.others[dpid := env] && t.programmed == s.programmed[dpid := s.hook.policy]
    requires t.registered == s.registered
    ensures TablesSound(t)
  {
    FitsReprogrammed(table, env, before, dpid, s.hook.policy);
    FitsUpdated(s, t, dpid, t.tables[dpid], env, s.hook.policy);
  }

  lemma {:induction false} ChangedTables(s: System, dpid: int, change: Step)
    requires TablesSound(s) && Apart(change) && !change.Reprogram?
    ensures TablesSound(Changed(s, dpid, change))
  {
    if dpid in s.tables {
      var table, env := Others(s.tables[dpid], change), Others(s.others[dpid], change);
      FitsChanged(s.tables[dpid], s.others[dpid], s.programmed[dpid], dpid, change);
      assert s.programmed[dpid := s.programmed[dpid]] == s.programmed;
      FitsUpdated(s, Changed(s, dpid, change), dpid, table, env, s.programmed[dpid]);
    }
  }

  lemma {:induction false} TablesStep(topo: Topology, s: System, e: Event)
    requires TablesSound(s) && Possible(topo, s, e)
    ensures TablesSound(Next(topo, s, e))
  {
    match e
    case Round => PollingTables(s);
    case SetUp(dpid, table) => ConnectedTables(s, dpid, table);
    case Foreign(dpid, change) => ChangedTables(s, dpid, change);
    case _ =>
  }

  lemma {:induction false} TablesRun(topo: Topology, s: System, run: seq<Event>, n: nat)
    requires Start(topo, s) && n <= |run| && PossibleRun(topo, s, run, n)
    ensures TablesSound(At(topo, s, run, n))
  {
    if n > 0 {
      TablesRun(topo, s, run, n - 1);
      TablesStep(topo, At(topo, s, run, n - 1), run[n - 1]);
    }
  }

  // ----- Which registered switches are current -----

  /** The switch has the rules of the policy in force. */
  ghost predicate Current(s: System, d: int) {
    d in s.programmed && CfgOf(s.programmed[d], d) == CfgOf(s.hook.policy, d)
  }

  /** The event brings the switch, if registered, up to date: it is set up again, or a round
      changes the policy. */
  predicate Refreshes(s: System, e: Event, d: int) {
    || (e.SetUp? && e.dpid == d)
    || (e.Round? && Polled(s.hook, s.file).policy != s.hook.policy)
  }

  lemma {:induction false} RoundCurrent(s: System, d: int)
    requires TablesSound(s) && d in s.registered
    ensures Current(Polling(s), d) <==> Polled(s.hook, s.file).policy != s.hook.policy || Current(s, d)
  {
    var t := Polling(s);
    if t.hook.policy != s.hook.policy {
      assert d in t.programmed && t.programmed[d] == t.hook.policy;
    }
  }

  lemma {:induction false} SetUpCurrent(s: System, dpid: int, table: Option<Table>, d: int)
    ensures Current(Connected(s, dpid, table), d) <==> dpid == d || Current(s, d)
  {
    var t := Connected(s, dpid, table);
    assert d in t.programmed <==> d == dpid || d in s.programmed;
  }

  /** Neither a round nor a set-up. */
  lemma {:induction false} QuietStep(topo: Topology, s: System, e: Event)
    requires !e.Round? && !e.SetUp?
    ensures Next(topo, s, e).programmed == s.programmed && Next(topo, s, e).hook == s.hook
  {
  }

  lemma {:induction false} CurrentStep(topo: Topology, s: System, e: Event, d: int)
    requires TablesSound(s) && d in s.registered
    ensures Current(Next(topo, s, e), d) <==> Refreshes(s, e, d) || Current(s, d)
  {
    match e
    case Round => RoundCurrent(s, d);
    case SetUp(dpid, table) => SetUpCurrent(s, dpid, table, d);
    case _ => QuietStep(topo, s, e);
  }

  /** The switch is registered by event m and is not lost before event n. */
  ghost predicate StaysRegistered(run: seq<Event>, d: int, m: nat, n: nat)
    requires m < n <= |run|
  {
    run[m] == Register(d) && forall i :: m < i < n ==> run[i] != Lose(d)
  }

  ghost predicate Refreshed(topo: Topology, s: System, run: seq<Event>, d: int, m: nat, n: nat)
    requires n <= |run|
  {
    exists i :: m <= i < n && Refreshes(At(topo, s, run, i), run[i], d)
  }

  lemma {:induction false} StillRegistered(topo: Topology, s: System, run: seq<Event>, d: int, m: nat, n: nat)
    requires m < n <= |run| && StaysRegistered(run, d, m, n)
    ensures d in At(topo, s, run, n).registered
    decreases n
  {
    if m < n - 1 {
      StillRegistered(topo, s, run, d, m, n - 1);
    }
  }

  /** When a registered switch is current: from its registration on, exactly when it was set
      up again or the policy has changed since, or it was current when it was registered. */
  lemma {:induction false} CurrentExactly(topo: Topology, s: System, run: seq<Event>, d: int, m: nat, n: nat)
    requires Start(topo, s) && m < n <= |run| && PossibleRun(topo, s, run, n) && StaysRegistered(run, d, m, n)
    ensures Current(At(topo, s, run, n), d) <==>
            Refreshed(topo, s, run, d, m + 1, n) || Current(At(topo, s, run, m), d)
    decreases n
  {
    if m < n - 1 {
      CurrentExactly(topo, s, run, d, m, n - 1);
      StillRegistered(topo, s, run, d, m, n - 1);
      TablesRun(topo, s, run, n - 1);
      CurrentStep(topo, At(topo, s, run, n - 1), run[n - 1], d);
      RefreshedMore(topo, s, run, d, m + 1, n);
    }
  }

  lemma {:induction false} RefreshedMore(topo: Topology, s: System, run: seq<Event>, d: int, m: nat, n: nat)
    requires m < n <= |run|
    ensures Refreshed(topo, s, run, d, m, n) <==>
            Refreshed(topo, s, run, d, m, n - 1) || Refreshes(At(topo, s, run, n - 1), run[n - 1], d)
  {
  }

  lemma {:induction false} PromptlyRegistered(
      topo: Topology, s: System, run: seq<Event>, d: int, i: nat, m: nat)
    requires i < m <= |run| && run[i].SetUp? && run[i].dpid == d && d !in At(topo, s, run, i).registered
    requires forall j :: i < j < m ==> run[j] != Register(d) && !(run[j].SetUp? && run[j].dpid == d)
    ensures var t := At(topo, s, run, m);
            d in t.programmed && d !in t.registered && t.programmed[d] == At(topo, s, run, i).hook.policy
    ensures Current(At(topo, s, run, m), d) <==>
            CfgOf(At(topo, s, run, i).hook.policy, d) == CfgOf(At(topo, s, run, m).hook.policy, d)
    decreases m
  {
    if i < m - 1 {
      PromptlyRegistered(topo, s, run, d, i, m - 1);
      UntouchedStep(topo, At(topo, s, run, m - 1), run[m - 1], d);
    }
  }

  lemma {:induction false} UntouchedStep(topo: Topology, s: System, e: Event, d: int)
    requires d !in s.registered && d in s.programmed && e != Register(d) && !(e.SetUp? && e.dpid == d)
    ensures var t := Next(topo, s, e);
            d !in t.registered && d in t.programmed && t.programmed[d] == s.programmed[d]
  {
  }

  /** A switch that is set up, registered later and not lost since is current if and only if
      the policy has changed since its registration, the switch was set up again, or its part
      of the policy was the same at set-up and at registration. */
  lemma {:induction false} CurrentSinceSetUp(
      topo: Topology, s: System, run: seq<Event>, d: int, i: nat, m: nat, n: nat)
    requires Start(topo, s) && i < m < n <= |run| && PossibleRun(topo, s, run, n)
    requires run[i].SetUp? && run[i].dpid == d && d !in At(topo, s, run, i).registered
    requires forall j :: i < j < m ==> run[j] != Register(d) && !(run[j].SetUp? && run[j].dpid == d)
    requires StaysRegistered(run, d, m, n)
    ensures Current(At(topo, s, run, n), d) <==>
            || Refreshed(topo, s, run, d, m + 1, n)
            || CfgOf(At(topo, s, run, i).hook.policy, d) == CfgOf(At(topo, s, run, m).hook.policy, d)
  {
    CurrentExactly(topo, s, run, d, m, n);
    PromptlyRegistered(topo, s, run, d, i, m);
  }

  // ----- What reaches the data plane -----

  /** Some round came after the last edit. */
  ghost predicate Settled(run: seq<Event>, n: nat)
    requires n <= |run|
  {
    n > 0 && (run[n - 1].Round? || (!run[n - 1].Edit? && !run[n - 1].Remove? && Settled(run, n - 1)))
  }

  lemma {:induction false} InForceStep(topo: Topology, s: System, e: Event)
    requires !e.Round? && !e.Edit? && !e.Remove?
    ensures Next(topo, s, e).hook == s.hook && Next(topo, s, e).stored == s.stored
  {
  }

  lemma {:induction false} InForce(topo: Topology, s: System, run: seq<Event>, n: nat)
    requires SoundTopology(topo) && Start(topo, s) && n <= |run| && PossibleRun(topo, s, run, n) && Settled(run, n)
    ensures At(topo, s, run, n).hook.policy == At(topo, s, run, n).stored
  {
    if run[n - 1].Round? {
      FileRun(topo, s, run, n - 1);
      RoundCatchesUp(topo, At(topo, s, run, n - 1));
    } else {
      InForce(topo, s, run, n - 1);
      InForceStep(topo, At(topo, s, run, n - 1), run[n - 1]);
    }
  }

  /** The whole loop: in every reachable state that a round has seen since the last edit, on
      every current switch, each frame of an attached device is treated as the policy that
      the dashboard has stored says. */
  lemma {:induction false} EditsReachDataPlane(
      topo: Topology, s: System, run: seq<Event>, n: nat, dpid: nat, a: Device, f: Frame)
    requires SoundTopology(topo) && Start(topo, s) && n <= |run| && PossibleRun(topo, s, run, n) && Settled(run, n)
    requires Current(At(topo, s, run, n), dpid) && dpid in At(topo, s, run, n).others
    requires LowerFlows(At(topo, s, run, n).others[dpid], f)
    requires a in AttachedTo(topo, SwitchName(dpid)) && f.inPort == a.port
    ensures var t := At(topo, s, run, n);
            dpid in t.tables && Realises(t.tables[dpid], t.others[dpid], f, Wanted(topo, t.stored, dpid, a, f))
  {
    var t := At(topo, s, run, n);
    FileRun(topo, s, run, n);
    TablesRun(topo, s, run, n);
    InForce(topo, s, run, n);
    assert Fits(t.tables[dpid], t.others[dpid], t.programmed[dpid], dpid);
    StoredMeaning(topo, t.stored, dpid, t.others[dpid], a, f);
  }
}
