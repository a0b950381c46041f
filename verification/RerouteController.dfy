/** The controller object whose fields the handlers of the reroute protocol update. Each
    method is the handler of the same name in examples/campus_controller.py, proved to move
    the fields exactly as the protocol's step function moves the state. */
module RerouteController {
  import opened Prelude
  import opened OpenFlow
  import opened Reroute
  import opened RerouteLog

  const DEFAULT_THRESHOLDS := Thresholds(150.0, 80.0, 80.0, 65.0)

  lemma {:induction false} ThrottleOneMore(t: Table, site: Site, i: nat)
    requires i < |site.wifiClients|
    ensures var client := site.wifiClients[i];
            AddAll(t, ThrottleRules(site, i + 1)) ==
            AddFlow(AddFlow(AddAll(t, ThrottleRules(site, i)), DownloadRule(site, client)), UploadRule(site, client))
  {
    var client, done := site.wifiClients[i], ThrottleRules(site, i);
    AddAllSnoc(t, done, DownloadRule(site, client));
    AddAllSnoc(t, done + [DownloadRule(site, client)], UploadRule(site, client));
  }

  class Controller {
    const cfg: Config
    var congestHigh: real
    var congestLow: real
    var portHigh: real
    var portLow: real
    var congestedPorts: set<PortKey>
    var throughputCongested: bool
    var rerouteActive: bool
    var pendingDecision: bool
    var lastTriggerTs: real
    var lastCoreMbps: real
    var lastChoice: Option<string>
    var actionMtime: real
    var timetableMode: string
    var flows: map<int, Table>
    ghost var events: seq<Event>

    ghost function State(): Ctl
      reads this
    {
      Ctl(Th(), congestedPorts, throughputCongested,
          rerouteActive, pendingDecision, lastTriggerTs, lastCoreMbps, lastChoice, actionMtime,
          timetableMode, flows, events)
    }

    /** The thresholds are the defaults or those the environment sets, corrected like any
        request; the tables are those of the switches of the run. */
    constructor (cfg: Config, settings: Settings, flows: map<int, Table>)
      ensures this.cfg == cfg && Initial(State()) && this.flows == flows
      ensures Th() == ApplySettings(DEFAULT_THRESHOLDS, settings) && timetableMode == "normal"
      ensures lastTriggerTs == 0.0 && lastCoreMbps == 0.0 && actionMtime == 0.0 && lastChoice == None
    {
      this.cfg := cfg;
      congestHigh := if settings.high.Some? then settings.high.value else 150.0;
      congestLow := if settings.low.Some? then settings.low.value else 80.0;
      portHigh := if settings.portHigh.Some? then settings.portHigh.value else 80.0;
      portLow := if settings.portLow.Some? then settings.portLow.value else 65.0;
      congestedPorts, throughputCongested, rerouteActive, pendingDecision := {}, false, false, false;
      lastTriggerTs, lastCoreMbps, lastChoice, actionMtime := 0.0, 0.0, None, 0.0;
      timetableMode := "normal";
      this.flows := flows;
      events := [];
      new;
      if congestLow >= congestHigh {
        congestLow := congestHigh * 0.7;
      }
      if portLow >= portHigh {
        portLow := portHigh * 0.8;
      }
    }

    predicate Congested(mbps: real)
      reads this
      ensures Congested(mbps) <==> IsCongested(State(), mbps)
    {
      mbps >= congestHigh || |congestedPorts| > 0 || rerouteActive
    }

    ghost function Th(): Thresholds
      reads this
    {
      Thresholds(congestHigh, congestLow, portHigh, portLow)
    }

    method ApplyThresholdSettings(st: Settings)
      modifies `congestHigh, `congestLow, `portHigh, `portLow
      ensures Th() == ApplySettings(old(Th()), st)
    {
      if st.high.Some? {
        congestHigh := st.high.value;
      }
      if st.low.Some? {
        congestLow := st.low.value;
      }
      if st.portHigh.Some? {
        portHigh := st.portHigh.value;
      }
      if st.portLow.Some? {
        portLow := st.portLow.value;
      }
      if congestLow >= congestHigh {
        congestLow := congestHigh * 0.7;
      }
      if portLow >= portHigh {
        portLow := portHigh * 0.8;
      }
    }

    method ApplyOverride(manual: Option<Settings>)
      modifies `congestHigh, `congestLow, `portHigh, `portLow
      ensures State() == OverrideThresholds(old(State()), manual)
    {
      if manual.Some? && manual.value != Settings(None, None, None, None) {
        ApplyThresholdSettings(manual.value);
      }
    }

    method Push(dpid: int, r: Rule)
      requires dpid in flows
      modifies `flows
      ensures flows == old(flows)[dpid := AddFlow(old(flows)[dpid], r)]
    {
      flows := flows[dpid := flows[dpid][r.key := r.entry]];
    }

    method InstallReroute(dpid: int)
      requires dpid in flows
      modifies `flows
      ensures flows == old(flows)[dpid := AddAll(old(flows)[dpid], RerouteRules(cfg.site, |cfg.site.itClients|))]
    {
      var i := 0;
      while i < |cfg.site.itClients|
        invariant i <= |cfg.site.itClients|
        invariant dpid in flows
        invariant flows == old(flows)[dpid := AddAll(old(flows)[dpid], RerouteRules(cfg.site, i))]
      {
        AddAllSnoc(old(flows)[dpid], RerouteRules(cfg.site, i), RerouteRule(cfg.site, cfg.site.itClients[i]));
        Push(dpid, RerouteRule(cfg.site, cfg.site.itClients[i]));
        i := i + 1;
      }
    }

    method InstallReturn(dpid: int)
      requires dpid in flows
      modifies `flows
      ensures flows == old(flows)[dpid := AddAll(old(flows)[dpid], ReturnRules(cfg.site, |cfg.site.itClients|))]
    {
      var i := 0;
      while i < |cfg.site.itClients|
        invariant i <= |cfg.site.itClients|
        invariant dpid in flows
        invariant flows == old(flows)[dpid := AddAll(old(flows)[dpid], ReturnRules(cfg.site, i))]
      {
        AddAllSnoc(old(flows)[dpid], ReturnRules(cfg.site, i), ReturnRule(cfg.site, cfg.site.itClients[i]));
        Push(dpid, ReturnRule(cfg.site, cfg.site.itClients[i]));
        i := i + 1;
      }
    }

    method InstallThrottle(dpid: int)
      requires dpid in flows
      modifies `flows
      ensures flows == old(flows)[dpid := AddAll(old(flows)[dpid], ThrottleRules(cfg.site, |cfg.site.wifiClients|))]
    {
      var i := 0;
      while i < |cfg.site.wifiClients|
        invariant i <= |cfg.site.wifiClients|
        invariant dpid in flows
        invariant flows == old(flows)[dpid := AddAll(old(flows)[dpid], ThrottleRules(cfg.site, i))]
      {
        var client := cfg.site.wifiClients[i];
        ThrottleOneMore(old(flows)[dpid], cfg.site, i);
        Push(dpid, DownloadRule(cfg.site, client));
        Push(dpid, UploadRule(cfg.site, client));
        i := i + 1;
      }
    }

    method InstallPolicyFlows(dpid: int)
      requires dpid in flows
      modifies `flows
      ensures flows == old(flows)[dpid := AddAll(old(flows)[dpid], PolicyRules(cfg.site, dpid))]
    {
      if dpid == IT_DPID {
        InstallReroute(dpid);
      } else if dpid == NET_DPID {
        InstallReturn(dpid);
      } else if dpid == WIFI_DPID {
        InstallThrottle(dpid);
      }
    }

    method DeleteCookieFlows(dpid: int, cookie: int)
      requires dpid in flows
      modifies `flows
      ensures flows == old(flows)[dpid := DeleteCookie(old(flows)[dpid], cookie)]
    {
      var table := flows[dpid];
      flows := flows[dpid := map k | k in table && table[k].cookie != cookie :: table[k]];
    }

    method SetReroutePolicy(enabled: bool, mbps: real)
      modifies `rerouteActive, `flows, `events
      ensures State() == SetReroute(cfg, old(State()), enabled, mbps)
    {
      if rerouteActive == enabled {
        return;
      }
      rerouteActive := enabled;
      if enabled {
        events := events + [Activated(mbps)];
      } else {
        events := events + [Deactivated(mbps)];
      }
      ghost var goal := SetReroute(cfg, old(State()), enabled, mbps).flows;
      var todo := flows.Keys;
      while todo != {}
        modifies `flows
        invariant todo <= flows.Keys
        invariant forall d :: d in flows <==> d in old(flows)
        invariant forall d :: d in flows ==> flows[d] == if d in todo then old(flows)[d] else goal[d]
      {
        var dpid := Choose(todo);
        if enabled {
          InstallPolicyFlows(dpid);
        } else {
          DeleteCookieFlows(dpid, POLICY_COOKIE);
        }
        todo := todo - {dpid};
      }
      SameMap(flows, goal);
    }

    method UpdatePortCongestion(key: PortKey, util: real)
      modifies `congestedPorts, `events
      ensures State() == UpdatePort(old(State()), key, util)
    {
      var isActive := key in congestedPorts;
      if !isActive && util >= portHigh {
        congestedPorts := congestedPorts + {key};
        events := events + [PortOn(key, util, portHigh, portLow)];
        return;
      }
      if isActive && util <= portLow {
        congestedPorts := congestedPorts - {key};
        events := events + [PortOff(key, util, portHigh, portLow)];
      }
    }

    method TriggerDecision(reason: string, mbps: real, now: real)
      modifies `pendingDecision, `lastTriggerTs, `events
      ensures State() == Trigger(cfg, old(State()), reason, mbps, now)
    {
      if !cfg.dqn {
        return;
      }
      if pendingDecision {
        return;
      }
      pendingDecision := true;
      lastTriggerTs := now;
      events := events + [Requested(reason, mbps)];
    }

    method ResolveChoice(a: AgentAction, mbps: real) returns (decision: bool)
      ensures decision == Resolve(State(), a, mbps)
    {
      var choice := if a.choice.Some? then a.choice.value else "";
      var name := if a.dqn.Some? then a.dqn.value else "";
      if choice in BACKUP_CHOICES {
        decision := true;
      } else if choice in PRIMARY_CHOICES {
        decision := false;
      } else if name in {"prefer_backup_path", "emergency_throttle"} {
        decision := true;
      } else if name in {"keep_primary", "relax_thresholds"} {
        decision := false;
      } else if name == "tighten_thresholds" {
        decision := if Congested(mbps) then true else rerouteActive;
      } else {
        decision := rerouteActive;
      }
      if Congested(mbps) && !decision {
        decision := true;
      }
    }

    method ApplyRoutingDecision(a: AgentAction, mbps: real)
      modifies `pendingDecision, `rerouteActive, `flows, `events
      ensures State() == ApplyDecision(cfg, old(State()), a, mbps)
    {
      var decision := ResolveChoice(a, mbps);
      pendingDecision := false;
      if decision != rerouteActive {
        SetReroutePolicy(decision, mbps);
      }
      events := events + [Applied(decision, mbps)];
    }

    method CheckDecisionTimeout(now: real)
      modifies `pendingDecision, `rerouteActive, `flows, `events
      ensures State() == CheckTimeout(cfg, old(State()), now)
    {
      if !pendingDecision {
        return;
      }
      if lastTriggerTs <= 0.0 {
        return;
      }
      var age := now - lastTriggerTs;
      if age < cfg.timeout {
        return;
      }
      pendingDecision := false;
      events := events + [TimedOut(lastCoreMbps)];
      if Congested(lastCoreMbps) {
        SetReroutePolicy(true, lastCoreMbps);
      }
    }

    method RecordChoice(choice: Option<string>)
      modifies `lastChoice, `events
      ensures lastChoice == if choice.Some? then choice else old(lastChoice)
      ensures events == if choice.Some? then old(events) + [RoutingChoice(choice.value)] else old(events)
    {
      if choice.Some? {
        lastChoice := choice;
        events := events + [RoutingChoice(choice.value)];
      }
    }

    method ReadActionFile(file: AgentFile, manual: Option<Settings>)
      modifies `actionMtime, `lastChoice, `congestHigh, `congestLow, `portHigh, `portLow, `events
      ensures State() == ReadAction(old(State()), file, manual)
    {
      actionMtime := file.mtime;
      var a := file.action;
      RecordChoice(a.choice);
      if !Overrides(manual) {
        ApplyThresholdSettings(a.settings);
      }
    }

    method ApplyForcedReroute(a: AgentAction)
      modifies `rerouteActive, `flows, `events
      ensures State() == ApplyForce(cfg, old(State()), a)
    {
      if a.force.Some? {
        if a.force.value != rerouteActive {
          SetReroutePolicy(a.force.value, lastCoreMbps);
        }
        events := events + [Forced(a.force.value)];
      } else if lastChoice.Some? {
        var inferred := None;
        if lastChoice.value in BACKUP_CHOICES {
          inferred := Some(true);
        } else if lastChoice.value in PRIMARY_CHOICES {
          inferred := Some(false);
        }
        if inferred.Some? && inferred.value != rerouteActive {
          SetReroutePolicy(inferred.value, lastCoreMbps);
          events := events + [Forced(inferred.value)];
        }
      }
    }

    method ApplyActionHook(env: Env)
      modifies this
      ensures State() == Hook(cfg, old(State()), env)
    {
      if env.file.None? || env.file.value.mtime <= actionMtime {
        ApplyOverride(env.manual);
        return;
      }
      var a := env.file.value.action;
      ReadActionFile(env.file.value, env.manual);
      if cfg.dqn {
        if pendingDecision && a.dqn.Some? {
          ApplyRoutingDecision(a, lastCoreMbps);
        } else if Congested(lastCoreMbps) && a.dqn.Some? {
          ApplyRoutingDecision(a, lastCoreMbps);
        }
      } else {
        ApplyForcedReroute(a);
      }
      ApplyOverride(env.manual);
    }

    method EvaluateCongestion(mbps: real, env: Env)
      modifies this
      ensures State() == Evaluate(cfg, old(State()), mbps, env)
    {
      if !throughputCongested && mbps >= congestHigh {
        throughputCongested := true;
        events := events + [ThroughputOn(mbps, congestHigh, congestLow)];
      } else if throughputCongested && mbps <= congestLow {
        throughputCongested := false;
        events := events + [ThroughputOff(mbps, congestHigh, congestLow)];
      }
      assert State() == TrackThroughput(old(State()), mbps);
      if !rerouteActive && mbps >= congestHigh {
        if cfg.dqn {
          TriggerDecision("congestion_high", mbps, env.now);
          ApplyActionHook(env);
          if !pendingDecision && !rerouteActive {
            SetReroutePolicy(true, mbps);
          }
        } else {
          SetReroutePolicy(true, mbps);
        }
      } else if rerouteActive && mbps <= congestLow {
        if cfg.dqn {
          TriggerDecision("congestion_low", mbps, env.now);
          ApplyActionHook(env);
          if !pendingDecision && rerouteActive {
            SetReroutePolicy(false, mbps);
          }
        } else {
          SetReroutePolicy(false, mbps);
        }
      }
    }

    /** One port of a port-statistics reply. */
    method PortStats(key: PortKey, util: real, mbps: real, env: Env)
      modifies this
      ensures State() == Sampled(cfg, old(State()), key, util, mbps, env)
    {
      UpdatePortCongestion(key, util);
      if key == (CORE_DPID, CORE_TO_PRIMARY_PORT) {
        lastCoreMbps := mbps;
        EvaluateCongestion(mbps, env);
      }
    }

    method ApplyTimetable(mode: Option<string>)
      modifies `timetableMode, `congestHigh, `congestLow
      ensures State() == Timetabled(old(State()), mode)
    {
      if mode.Some? {
        var oldMode := timetableMode;
        timetableMode := mode.value;
        if mode.value != oldMode {
          congestHigh := TimetableHigh(mode.value);
          congestLow := TimetableLow(mode.value);
        }
      }
    }

    /** One round of the monitor loop. */
    method Monitor(env: Env, mode: Option<string>)
      modifies this
      ensures State() == Ticked(cfg, old(State()), env, mode)
    {
      ApplyActionHook(env);
      ApplyTimetable(mode);
      CheckDecisionTimeout(env.now);
    }

    method PacketInHandler(dpid: int, f: Frame, dropped: bool)
      modifies this
      ensures State() == PacketIn(cfg, old(State()), dpid, f, dropped)
    {
      if dropped {
        return;
      }
      if rerouteActive && dpid == IT_DPID && dpid in flows && f.ethType == ETH_TYPE_IP && f.ipProto == PROTO_ICMP
         && f.ipSrc in cfg.site.itClients && f.ipDst == cfg.site.primary {
        Push(dpid, FastRule(cfg.site, f.inPort, f.ipSrc));
      }
    }
  }
}
