/** The flows of the reroute protocol beside everybody else's, over all runs: the policy flows
    agree with the flag, and every other flow is as if the protocol were not there. */
module RerouteFlows {
  import opened Prelude
  import opened OpenFlow
  import opened Reroute

  /** The priorities the policy uses; no other flow of the controller has one of them. */
  predicate PolicyPriority(p: int) { p == 180 || p == 200 || p == 210 }

  /** The flows the protocol installs on a switch. */
  ghost predicate Ours(site: Site, dpid: int, r: Rule) {
    || r in PolicyRules(site, dpid)
    || (dpid == IT_DPID && exists port, src :: r == FastRule(site, port, src))
  }

  /** The flows of a table that are not the policy's. */
  function Others(t: Table): Table { DeleteCookie(t, POLICY_COOKIE) }

  /** A table beside the one the environment alone would have made: the policy's flows are
      the protocol's, the others are the environment's, and while inactive there is nothing else. */
  ghost predicate FitsTable(site: Site, dpid: int, active: bool, t: Table, env: Table) {
    && (forall k :: k in t && t[k].cookie == POLICY_COOKIE ==> Ours(site, dpid, Rule(k, t[k])))
    && (forall k :: k in env ==> env[k].cookie != POLICY_COOKIE && !PolicyPriority(k.priority))
    && Others(t) == env
    && (!active ==> t == env)
  }

  ghost predicate Fits(site: Site, active: bool, flows: map<int, Table>, env: map<int, Table>) {
    && (forall d :: d in flows <==> d in env)
    && (forall d :: d in flows ==> FitsTable(site, d, active, flows[d], env[d]))
  }

  ghost predicate Agrees(cfg: Config, s: Ctl, env: map<int, Table>) { Fits(cfg.site, s.active, s.flows, env) }

  // ----- The protocol's rules -----

  predicate IsPolicy(r: Rule) { r.entry.cookie == POLICY_COOKIE && PolicyPriority(r.key.priority) }

  lemma {:induction false} RerouteRulesPolicy(site: Site, n: nat)
    requires n <= |site.itClients|
    ensures forall i :: 0 <= i < |RerouteRules(site, n)| ==> IsPolicy(RerouteRules(site, n)[i])
    ensures forall i :: 0 <= i < |ReturnRules(site, n)| ==> IsPolicy(ReturnRules(site, n)[i])
  {
    if n > 0 {
      RerouteRulesPolicy(site, n - 1);
    }
  }

  lemma {:induction false} ThrottleRulesPolicy(site: Site, n: nat)
    requires n <= |site.wifiClients|
    ensures forall i :: 0 <= i < |ThrottleRules(site, n)| ==> IsPolicy(ThrottleRules(site, n)[i])
  {
    if n > 0 {
      ThrottleRulesPolicy(site, n - 1);
    }
  }

  lemma {:induction false} OursIsPolicy(site: Site, dpid: int, r: Rule)
    requires Ours(site, dpid, r)
    ensures IsPolicy(r)
  {
    RerouteRulesPolicy(site, |site.itClients|);
    ThrottleRulesPolicy(site, |site.wifiClients|);
  }

  // ----- One table -----

  lemma {:induction false} AddOurs(site: Site, dpid: int, t: Table, env: Table, r: Rule)
    requires FitsTable(site, dpid, true, t, env) && Ours(site, dpid, r)
    ensures FitsTable(site, dpid, true, AddFlow(t, r), env)
  {
    OursIsPolicy(site, dpid, r);
    assert r.key in t && t[r.key].cookie != POLICY_COOKIE ==> r.key in env;
    assert r.key !in env;
    assert Others(AddFlow(t, r)) == Others(t);
  }

  lemma {:induction false} AddAllOurs(site: Site, dpid: int, t: Table, env: Table, rs: seq<Rule>)
    requires FitsTable(site, dpid, true, t, env) && forall i :: 0 <= i < |rs| ==> Ours(site, dpid, rs[i])
    ensures FitsTable(site, dpid, true, AddAll(t, rs), env)
  {
    if rs != [] {
      AddAllOurs(site, dpid, t, env, rs[..|rs| - 1]);
      AddOurs(site, dpid, AddAll(t, rs[..|rs| - 1]), env, rs[|rs| - 1]);
    }
  }

  lemma {:induction false} DeleteOurs(site: Site, dpid: int, t: Table, env: Table)
    requires FitsTable(site, dpid, true, t, env)
    ensures FitsTable(site, dpid, false, Others(t), env)
  {
    assert Others(Others(t)) == Others(t);
  }

  lemma {:induction false} ExpiryFits(site: Site, dpid: int, active: bool, t: Table, env: Table, k: Key)
    requires FitsTable(site, dpid, active, t, env)
    ensures FitsTable(site, dpid, active, t - {k}, env - {k})
  {
    assert Others(t - {k}) == Others(t) - {k};
  }

  lemma {:induction false} ForeignAddFits(site: Site, dpid: int, active: bool, t: Table, env: Table, r: Rule)
    requires FitsTable(site, dpid, active, t, env) && r.entry.cookie != POLICY_COOKIE && !PolicyPriority(r.key.priority)
    ensures FitsTable(site, dpid, active, AddFlow(t, r), AddFlow(env, r))
  {
    assert Others(AddFlow(t, r)) == AddFlow(Others(t), r);
  }

  lemma {:induction false} ForeignDeleteFits(site: Site, dpid: int, active: bool, t: Table, env: Table, cookie: int)
    requires FitsTable(site, dpid, active, t, env) && cookie != POLICY_COOKIE
    ensures FitsTable(site, dpid, active, DeleteCookie(t, cookie), DeleteCookie(env, cookie))
  {
    assert Others(DeleteCookie(t, cookie)) == DeleteCookie(Others(t), cookie);
  }

  // ----- The handlers -----

  lemma {:induction false} SetRerouteAgrees(cfg: Config, s: Ctl, enabled: bool, mbps: real, env: map<int, Table>)
    requires Agrees(cfg, s, env)
    ensures Agrees(cfg, SetReroute(cfg, s, enabled, mbps), env)
  {
    if s.active != enabled {
      forall d | d in s.flows
        ensures FitsTable(cfg.site, d, enabled, SetReroute(cfg, s, enabled, mbps).flows[d], env[d])
      {
        assert FitsTable(cfg.site, d, s.active, s.flows[d], env[d]);
        if enabled {
          AddAllOurs(cfg.site, d, s.flows[d], env[d], PolicyRules(cfg.site, d));
        } else {
          DeleteOurs(cfg.site, d, s.flows[d], env[d]);
        }
      }
    }
  }

  lemma {:induction false} ForceAgrees(cfg: Config, s: Ctl, a: AgentAction, env: map<int, Table>)
    requires Agrees(cfg, s, env)
    ensures Agrees(cfg, ApplyForce(cfg, s, a), env)
  {
    if a.force.Some? {
      SetRerouteAgrees(cfg, s, a.force.value, s.core, env);
    } else if s.choice.Some? {
      SetRerouteAgrees(cfg, s, s.choice.value in BACKUP_CHOICES, s.core, env);
    }
  }

  lemma {:induction false} HookAgrees(cfg: Config, s: Ctl, e: Env, env: map<int, Table>)
    requires Agrees(cfg, s, env)
    ensures Agrees(cfg, Hook(cfg, s, e), env)
  {
    if Fresh(s, e) {
      var a := e.file.value.action;
      var s1 := ReadAction(s, e.file.value, e.manual);
      assert s1.active == s.active && s1.flows == s.flows;
      if cfg.dqn {
        SetRerouteAgrees(cfg, s1.(pending := false), Resolve(s1, a, s1.core), s1.core, env);
      } else {
        ForceAgrees(cfg, s1, a, env);
      }
    }
  }

  lemma {:induction false} EvaluateAgrees(cfg: Config, s: Ctl, mbps: real, e: Env, env: map<int, Table>)
    requires Agrees(cfg, s, env)
    ensures Agrees(cfg, Evaluate(cfg, s, mbps, e), env)
  {
    var s1 := TrackThroughput(s, mbps);
    var reason := if s1.active then "congestion_low" else "congestion_high";
    var s2 := Trigger(cfg, s1, reason, mbps, e.now);
    assert s2.active == s.active && s2.flows == s.flows;
    HookAgrees(cfg, s2, e, env);
    SetRerouteAgrees(cfg, Hook(cfg, s2, e), !s1.active, mbps, env);
    SetRerouteAgrees(cfg, s1, !s1.active, mbps, env);
  }

  lemma {:induction false} TickAgrees(cfg: Config, s: Ctl, e: Env, mode: Option<string>, env: map<int, Table>)
    requires Agrees(cfg, s, env)
    ensures Agrees(cfg, Ticked(cfg, s, e, mode), env)
  {
    HookAgrees(cfg, s, e, env);
    var s1 := Timetabled(Hook(cfg, s, e), mode);
    var s2 := s1.(pending := false, trace := s1.trace + [TimedOut(s1.core)]);
    SetRerouteAgrees(cfg, s2, true, s1.core, env);
  }

  lemma {:induction false} PacketAgrees(cfg: Config, s: Ctl, dpid: int, f: Frame, dropped: bool, env: map<int, Table>)
    requires Agrees(cfg, s, env)
    ensures Agrees(cfg, PacketIn(cfg, s, dpid, f, dropped), env)
  {
    if PacketIn(cfg, s, dpid, f, dropped) != s {
      assert FitsTable(cfg.site, dpid, true, s.flows[dpid], env[dpid]);
      AddOurs(cfg.site, dpid, s.flows[dpid], env[dpid], FastRule(cfg.site, f.inPort, f.ipSrc));
    }
  }

  /** The rest of the controller leaves the policy's cookie and priorities alone. */
  predicate Polite(step: Step) {
    match step
    case ForeignAdd(_, r) => r.entry.cookie != POLICY_COOKIE && !PolicyPriority(r.key.priority)
    case ForeignDelete(_, cookie) => cookie != POLICY_COOKIE
    case _ => true
  }

  lemma {:induction false} UpdatedAgrees(cfg: Config, s: Ctl, step: Step, env: map<int, Table>)
    requires Agrees(cfg, s, env) && Polite(step)
    ensures Agrees(cfg, s.(flows := Updated(s.flows, step)), Updated(env, step))
  {
    if (step.Expiry? || step.ForeignAdd? || step.ForeignDelete?) && step.dpid in s.flows {
      var d := step.dpid;
      assert FitsTable(cfg.site, d, s.active, s.flows[d], env[d]);
      match step
      case Expiry(_, k) => ExpiryFits(cfg.site, d, s.active, s.flows[d], env[d], k);
      case ForeignAdd(_, r) => ForeignAddFits(cfg.site, d, s.active, s.flows[d], env[d], r);
      case ForeignDelete(_, cookie) => ForeignDeleteFits(cfg.site, d, s.active, s.flows[d], env[d], cookie);
    }
  }

  lemma {:induction false} StepAgrees(cfg: Config, s: Ctl, step: Step, env: map<int, Table>)
    requires Agrees(cfg, s, env) && Polite(step)
    ensures Agrees(cfg, Next(cfg, s, step), Updated(env, step))
  {
    match step
    case Sample(key, util, mbps, e) =>
      var s1 := UpdatePort(s, key, util);
      assert s1.active == s.active && s1.flows == s.flows;
      EvaluateAgrees(cfg, s1.(core := mbps), mbps, e, env);
    case Tick(e, mode) => TickAgrees(cfg, s, e, mode, env);
    case Packet(dpid, f, dropped) => PacketAgrees(cfg, s, dpid, f, dropped, env);
    case _ => UpdatedAgrees(cfg, s, step, env);
  }

  // ----- Runs -----

  /** The tables after n steps if the protocol installed nothing. */
  function Environment(env: map<int, Table>, steps: seq<Step>, n: nat): map<int, Table>
    requires n <= |steps|
  {
    if n == 0 then env else Updated(Environment(env, steps, n - 1), steps[n - 1])
  }

  ghost predicate PolicyFree(t: Table) {
    forall k :: k in t ==> t[k].cookie != POLICY_COOKIE && !PolicyPriority(k.priority)
  }

  ghost predicate Start(s: Ctl) {
    !s.active && forall d :: d in s.flows ==> PolicyFree(s.flows[d])
  }

  lemma {:induction false} StartAgrees(cfg: Config, s: Ctl)
    requires Start(s)
    ensures Agrees(cfg, s, s.flows)
  {
    forall d | d in s.flows
      ensures FitsTable(cfg.site, d, false, s.flows[d], s.flows[d])
    {
      assert PolicyFree(s.flows[d]);
      assert Others(s.flows[d]) == s.flows[d];
    }
  }

  lemma {:induction false} RunAgrees(cfg: Config, s: Ctl, steps: seq<Step>, n: nat)
    requires Start(s) && n <= |steps| && forall k :: 0 <= k < n ==> Polite(steps[k])
    ensures Agrees(cfg, At(cfg, s, steps, n), Environment(s.flows, steps, n))
  {
    if n == 0 {
      StartAgrees(cfg, s);
    } else {
      RunAgrees(cfg, s, steps, n - 1);
      StepAgrees(cfg, At(cfg, s, steps, n - 1), steps[n - 1], Environment(s.flows, steps, n - 1));
    }
  }

  lemma {:induction false} FitsMeaning(site: Site, active: bool, flows: map<int, Table>, env: map<int, Table>)
    requires Fits(site, active, flows, env)
    ensures forall d :: d in flows ==> Others(flows[d]) == env[d]
    ensures !active ==>
              flows == env && forall d, k :: d in flows && k in flows[d] ==> flows[d][k].cookie != POLICY_COOKIE
  {
    assert forall d :: d in flows ==> FitsTable(site, d, active, flows[d], env[d]);
    if !active {
      SameMap(flows, env);
    }
  }

  /** From tables without policy flows, in every reachable state of every run in which flows
      time out and the rest of the controller adds and deletes its own: the flows that are
      not the policy's are exactly those there would be without the protocol, and whenever
      the reroute is inactive the tables hold nothing else, so no policy flow is left. */
  lemma {:induction false} FlowsAgree(cfg: Config, s: Ctl, steps: seq<Step>, n: nat)
    requires Start(s) && n <= |steps| && forall k :: 0 <= k < n ==> Polite(steps[k])
    ensures var t, env := At(cfg, s, steps, n), Environment(s.flows, steps, n);
            && (forall d :: d in t.flows <==> d in s.flows)
            && (forall d :: d in t.flows ==> d in env && Others(t.flows[d]) == env[d])
            && (!t.active ==> t.flows == env
                              && forall d, k :: d in t.flows && k in t.flows[d]
                                  ==> t.flows[d][k].cookie != POLICY_COOKIE)
  {
    RunAgrees(cfg, s, steps, n);
    EnvironmentSwitches(s.flows, steps, n);
    FitsMeaning(cfg.site, At(cfg, s, steps, n).active, At(cfg, s, steps, n).flows, Environment(s.flows, steps, n));
  }

  lemma {:induction false} EnvironmentSwitches(env: map<int, Table>, steps: seq<Step>, n: nat)
    requires n <= |steps|
    ensures forall d :: d in Environment(env, steps, n) <==> d in env
  {
    if n > 0 {
      EnvironmentSwitches(env, steps, n - 1);
    }
  }
}
