/** The adaptive reroute protocol (examples/campus_controller.py): hysteresis on the core
    link and on every port, decisions asked of an external agent, a safety override, a
    timeout fallback, and the flows that carry the policy. One handler is one step; clock
    readings and file contents are inputs of the step. */
module Reroute {
  import opened Prelude
  import opened OpenFlow

  const POLICY_COOKIE := 0xCAFE0001
  const CORE_DPID := 1
  const CORE_TO_PRIMARY_PORT := 1
  const IT_DPID := 2
  const NET_DPID := 3
  const WIFI_DPID := 5
  const IT_TO_CORE_PORT := 1
  const NET_TO_CORE_PORT := 1
  const NET_TO_BACKUP_PORT := 4
  const WIFI_TO_CORE_PORT := 1
  const THROTTLE_QUEUE_ID := 2

  /** The addresses the policy is about. */
  datatype Site = Site(
    itClients: seq<Ip>, wifiClients: seq<(Ip, int)>, primary: Ip, backup: Ip, backupMac: Mac)

  datatype Config = Config(dqn: bool, timeout: real, site: Site)

  // ----- Thresholds -----

  datatype Thresholds = Thresholds(high: real, low: real, portHigh: real, portLow: real)

  /** Requested values; None leaves a value alone. */
  datatype Settings = Settings(high: Option<real>, low: Option<real>, portHigh: Option<real>, portLow: Option<real>)

  function Or(request: Option<real>, current: real): real {
    if request.Some? then request.value else current
  }

  function ApplySettings(th: Thresholds, st: Settings): Thresholds {
    var high, low := Or(st.high, th.high), Or(st.low, th.low);
    var portHigh, portLow := Or(st.portHigh, th.portHigh), Or(st.portLow, th.portLow);
    Thresholds(high, if low >= high then high * 0.7 else low,
               portHigh, if portLow >= portHigh then portHigh * 0.8 else portLow)
  }

  /** The thresholds of each timetable mode; an unknown mode counts as normal. */
  function TimetableHigh(mode: string): real {
    if mode == "exam" then 20.0 else if mode == "lecture" then 35.0 else if mode == "lab" then 50.0
    else if mode == "admin" then 30.0 else if mode == "break" then 40.0 else if mode == "after_hours" then 60.0
    else if mode == "peak_hour" then 25.0 else if mode == "congestion" then 15.0 else if mode == "ddos" then 20.0
    else if mode == "combined" then 18.0 else 40.0
  }

  function TimetableLow(mode: string): real {
    if mode == "exam" then 10.0 else if mode == "lecture" then 18.0 else if mode == "lab" then 25.0
    else if mode == "admin" then 15.0 else if mode == "break" then 20.0 else if mode == "after_hours" then 30.0
    else if mode == "peak_hour" then 12.0 else if mode == "congestion" then 8.0 else if mode == "ddos" then 10.0
    else if mode == "combined" then 9.0 else 20.0
  }

  // ----- State, events and inputs -----

  type PortKey = (int, int)

  datatype Event =
    | PortOn(port: PortKey, util: real, high: real, low: real)
    | PortOff(port: PortKey, util: real, high: real, low: real)
    | ThroughputOn(mbps: real, high: real, low: real)
    | ThroughputOff(mbps: real, high: real, low: real)
    | Requested(reason: string, mbps: real)
    | Applied(enabled: bool, mbps: real)
    | TimedOut(mbps: real)
    | Activated(mbps: real)
    | Deactivated(mbps: real)
    | Forced(enabled: bool)
    | RoutingChoice(choice: string)

  /** What an agent writes: settings, a routing choice, the action name of its agent section
      (empty when it has none, None when the section is malformed), and a forced decision
      for the mode without agent. */
  datatype AgentAction = AgentAction(
    settings: Settings, choice: Option<string>, dqn: Option<string>, force: Option<bool>)

  datatype AgentFile = AgentFile(mtime: real, action: AgentAction)

  /** What a handler finds: the time, the agent's file and the operator's settings. */
  datatype Env = Env(now: real, file: Option<AgentFile>, manual: Option<Settings>)

  datatype Ctl = Ctl(
    th: Thresholds,
    congested: set<PortKey>,
    throughput: bool,
    active: bool,
    pending: bool,
    triggerTs: real,
    core: real,
    choice: Option<string>,
    seen: real,
    mode: string,
    flows: map<int, Table>,
    trace: seq<Event>)

  // ----- Policy flows -----

  function RerouteRule(site: Site, src: Ip): Rule {
    Rule(Key(200, ANY.(ethType := Some(ETH_TYPE_IP), ipProto := Some(PROTO_ICMP),
                       ipSrc := Some(src), ipDst := Some(site.primary))),
         Entry([SetIpDst(site.backup), SetEthDst(site.backupMac), Output(IT_TO_CORE_PORT)], POLICY_COOKIE))
  }

  function ReturnRule(site: Site, dst: Ip): Rule {
    Rule(Key(200, ANY.(inPort := Some(NET_TO_BACKUP_PORT), ethType := Some(ETH_TYPE_IP), ipProto := Some(PROTO_ICMP),
                       ipSrc := Some(site.backup), ipDst := Some(dst))),
         Entry([SetIpSrc(site.primary), Output(NET_TO_CORE_PORT)], POLICY_COOKIE))
  }

  function DownloadRule(site: Site, client: (Ip, int)): Rule {
    Rule(Key(180, ANY.(ethType := Some(ETH_TYPE_IP), ipSrc := Some(site.primary), ipDst := Some(client.0))),
         Entry([SetQueue(THROTTLE_QUEUE_ID), Output(client.1)], POLICY_COOKIE))
  }

  function UploadRule(site: Site, client: (Ip, int)): Rule {
    Rule(Key(180, ANY.(ethType := Some(ETH_TYPE_IP), ipSrc := Some(client.0), ipDst := Some(site.primary))),
         Entry([SetQueue(THROTTLE_QUEUE_ID), Output(WIFI_TO_CORE_PORT)], POLICY_COOKIE))
  }

  /** The rule of the packet-in fast path, for one ingress port. */
  function FastRule(site: Site, inPort: int, src: Ip): Rule {
    Rule(Key(210, ANY.(inPort := Some(inPort), ethType := Some(ETH_TYPE_IP), ipProto := Some(PROTO_ICMP),
                       ipSrc := Some(src), ipDst := Some(site.primary))),
         Entry([SetIpDst(site.backup), SetEthDst(site.backupMac), Output(IT_TO_CORE_PORT)], POLICY_COOKIE))
  }

  function RerouteRules(site: Site, n: nat): seq<Rule>
    requires n <= |site.itClients|
  {
    if n == 0 then [] else RerouteRules(site, n - 1) + [RerouteRule(site, site.itClients[n - 1])]
  }

  function ReturnRules(site: Site, n: nat): seq<Rule>
    requires n <= |site.itClients|
  {
    if n == 0 then [] else ReturnRules(site, n - 1) + [ReturnRule(site, site.itClients[n - 1])]
  }

  function ThrottleRules(site: Site, n: nat): seq<Rule>
    requires n <= |site.wifiClients|
  {
    if n == 0 then []
    else
      var client := site.wifiClients[n - 1];
      ThrottleRules(site, n - 1) + [DownloadRule(site, client)] + [UploadRule(site, client)]
  }

  function PolicyRules(site: Site, dpid: int): seq<Rule> {
    if dpid == IT_DPID then RerouteRules(site, |site.itClients|)
    else if dpid == NET_DPID then ReturnRules(site, |site.itClients|)
    else if dpid == WIFI_DPID then ThrottleRules(site, |site.wifiClients|)
    else []
  }

  // ----- The handlers as functions -----

  function SetReroute(cfg: Config, s: Ctl, enabled: bool, mbps: real): Ctl {
    if s.active == enabled then s
    else if enabled then
      s.(active := true, trace := s.trace + [Activated(mbps)],
         flows := map d | d in s.flows :: AddAll(s.flows[d], PolicyRules(cfg.site, d)))
    else
      s.(active := false, trace := s.trace + [Deactivated(mbps)],
         flows := map d | d in s.flows :: DeleteCookie(s.flows[d], POLICY_COOKIE))
  }

  predicate IsCongested(s: Ctl, mbps: real) {
    mbps >= s.th.high || s.congested != {} || s.active
  }

  function Trigger(cfg: Config, s: Ctl, reason: string, mbps: real, now: real): Ctl {
    if !cfg.dqn || s.pending then s
    else s.(pending := true, triggerTs := now, trace := s.trace + [Requested(reason, mbps)])
  }

  const BACKUP_CHOICES := {"backup_path", "prefer_backup_path", "reroute_backup"}
  const PRIMARY_CHOICES := {"primary_path", "prefer_primary_path", "keep_primary"}

  /** What the agent's message asks for, before the safety override. */
  function Asked(s: Ctl, a: AgentAction, mbps: real): bool {
    var choice := if a.choice.Some? then a.choice.value else "";
    var name := if a.dqn.Some? then a.dqn.value else "";
    if choice in BACKUP_CHOICES then true
    else if choice in PRIMARY_CHOICES then false
    else if name in {"prefer_backup_path", "emergency_throttle"} then true
    else if name in {"keep_primary", "relax_thresholds"} then false
    else if name == "tighten_thresholds" then (if IsCongested(s, mbps) then true else s.active)
    else s.active
  }

  function Resolve(s: Ctl, a: AgentAction, mbps: real): bool {
    Asked(s, a, mbps) || IsCongested(s, mbps)
  }

  function ApplyDecision(cfg: Config, s: Ctl, a: AgentAction, mbps: real): Ctl {
    var decision := Resolve(s, a, mbps);
    var s1 := SetReroute(cfg, s.(pending := false), decision, mbps);
    s1.(trace := s1.trace + [Applied(decision, mbps)])
  }

  function CheckTimeout(cfg: Config, s: Ctl, now: real): Ctl {
    if !s.pending || s.triggerTs <= 0.0 || now - s.triggerTs < cfg.timeout then s
    else
      var s1 := s.(pending := false, trace := s.trace + [TimedOut(s.core)]);
      if IsCongested(s1, s1.core) then SetReroute(cfg, s1, true, s1.core) else s1
  }

  /** The operator's settings count only when they name at least one threshold. */
  predicate Overrides(manual: Option<Settings>) {
    manual.Some? && manual.value != Settings(None, None, None, None)
  }

  function OverrideThresholds(s: Ctl, manual: Option<Settings>): Ctl {
    if Overrides(manual) then s.(th := ApplySettings(s.th, manual.value)) else s
  }

  predicate Fresh(s: Ctl, env: Env) {
    env.file.Some? && env.file.value.mtime > s.seen
  }

  /** Without an agent the message may force a decision, or imply one by its routing choice. */
  function ApplyForce(cfg: Config, s: Ctl, a: AgentAction): Ctl {
    if a.force.Some? then
      var s1 := SetReroute(cfg, s, a.force.value, s.core);
      s1.(trace := s1.trace + [Forced(a.force.value)])
    else if s.choice.Some? && (s.choice.value in BACKUP_CHOICES || s.choice.value in PRIMARY_CHOICES) then
      var inferred := s.choice.value in BACKUP_CHOICES;
      if inferred == s.active then s
      else
        var s1 := SetReroute(cfg, s, inferred, s.core);
        s1.(trace := s1.trace + [Forced(inferred)])
    else s
  }

  function ReadAction(s: Ctl, file: AgentFile, manual: Option<Settings>): Ctl {
    var a := file.action;
    var s1 := s.(seen := file.mtime);
    var s2 :=
      if a.choice.Some? then s1.(choice := a.choice, trace := s1.trace + [RoutingChoice(a.choice.value)]) else s1;
    if !Overrides(manual) then s2.(th := ApplySettings(s2.th, a.settings)) else s2
  }

  function Hook(cfg: Config, s: Ctl, env: Env): Ctl {
    if !Fresh(s, env) then OverrideThresholds(s, env.manual)
    else
      var a := env.file.value.action;
      var s1 := ReadAction(s, env.file.value, env.manual);
      var s2 :=
        if cfg.dqn then
          if a.dqn.Some? && (s1.pending || IsCongested(s1, s1.core)) then ApplyDecision(cfg, s1, a, s1.core) else s1
        else ApplyForce(cfg, s1, a);
      OverrideThresholds(s2, env.manual)
  }

  function TrackThroughput(s: Ctl, mbps: real): Ctl {
    if !s.throughput && mbps >= s.th.high then
      s.(throughput := true, trace := s.trace + [ThroughputOn(mbps, s.th.high, s.th.low)])
    else if s.throughput && mbps <= s.th.low then
      s.(throughput := false, trace := s.trace + [ThroughputOff(mbps, s.th.high, s.th.low)])
    else s
  }

  /** Ask the agent, take its answer if it is already there, and decide alone if nothing is pending. */
  function AskAgent(cfg: Config, s: Ctl, reason: string, enabled: bool, mbps: real, env: Env): Ctl {
    var s1 := Hook(cfg, Trigger(cfg, s, reason, mbps, env.now), env);
    if !s1.pending && s1.active != enabled then SetReroute(cfg, s1, enabled, mbps) else s1
  }

  function Evaluate(cfg: Config, s: Ctl, mbps: real, env: Env): Ctl {
    var s1 := TrackThroughput(s, mbps);
    if !s1.active && mbps >= s1.th.high then
      if cfg.dqn then AskAgent(cfg, s1, "congestion_high", true, mbps, env) else SetReroute(cfg, s1, true, mbps)
    else if s1.active && mbps <= s1.th.low then
      if cfg.dqn then AskAgent(cfg, s1, "congestion_low", false, mbps, env) else SetReroute(cfg, s1, false, mbps)
    else s1
  }

  function UpdatePort(s: Ctl, key: PortKey, util: real): Ctl {
    if key !in s.congested && util >= s.th.portHigh then
      s.(congested := s.congested + {key}, trace := s.trace + [PortOn(key, util, s.th.portHigh, s.th.portLow)])
    else if key in s.congested && util <= s.th.portLow then
      s.(congested := s.congested - {key}, trace := s.trace + [PortOff(key, util, s.th.portHigh, s.th.portLow)])
    else s
  }

  predicate IsCorePort(key: PortKey) { key == (CORE_DPID, CORE_TO_PRIMARY_PORT) }

  function Sampled(cfg: Config, s: Ctl, key: PortKey, util: real, mbps: real, env: Env): Ctl {
    var s1 := UpdatePort(s, key, util);
    if IsCorePort(key) then Evaluate(cfg, s1.(core := mbps), mbps, env) else s1
  }

  function Timetabled(s: Ctl, mode: Option<string>): Ctl {
    if mode.None? || mode.value == s.mode then s
    else s.(mode := mode.value, th := s.th.(high := TimetableHigh(mode.value), low := TimetableLow(mode.value)))
  }

  function Ticked(cfg: Config, s: Ctl, env: Env, mode: Option<string>): Ctl {
    CheckTimeout(cfg, Timetabled(Hook(cfg, s, env), mode), env.now)
  }

  /** A packet handed to the controller; one the security policy drops goes no further. */
  function PacketIn(cfg: Config, s: Ctl, dpid: int, f: Frame, dropped: bool): Ctl {
    if !dropped && s.active && dpid == IT_DPID && dpid in s.flows && f.ethType == ETH_TYPE_IP && f.ipProto == PROTO_ICMP
       && f.ipSrc in cfg.site.itClients && f.ipDst == cfg.site.primary
    then s.(flows := s.flows[dpid := AddFlow(s.flows[dpid], FastRule(cfg.site, f.inPort, f.ipSrc))])
    else s
  }

  // ----- Runs -----

  datatype Step =
    | Sample(key: PortKey, util: real, mbps: real, env: Env)
    | Tick(env: Env, mode: Option<string>)
    | Packet(dpid: int, frame: Frame, dropped: bool)
    | Expiry(dpid: int, flow: Key)
    | ForeignAdd(dpid: int, rule: Rule)
    | ForeignDelete(dpid: int, cookie: int)

  /** What a step that is not the protocol's own does to the tables: a flow times out, or
      another part of the controller adds a flow or deletes the flows of a cookie. */
  function Updated(flows: map<int, Table>, step: Step): map<int, Table> {
    match step
    case Expiry(d, k) => if d in flows then flows[d := flows[d] - {k}] else flows
    case ForeignAdd(d, r) => if d in flows then flows[d := AddFlow(flows[d], r)] else flows
    case ForeignDelete(d, cookie) => if d in flows then flows[d := DeleteCookie(flows[d], cookie)] else flows
    case _ => flows
  }

  function Next(cfg: Config, s: Ctl, step: Step): Ctl {
    match step
    case Sample(key, util, mbps, env) => Sampled(cfg, s, key, util, mbps, env)
    case Tick(env, mode) => Ticked(cfg, s, env, mode)
    case Packet(dpid, f, dropped) => PacketIn(cfg, s, dpid, f, dropped)
    case Expiry(_, _) => s.(flows := Updated(s.flows, step))
    case ForeignAdd(_, _) => s.(flows := Updated(s.flows, step))
    case ForeignDelete(_, _) => s.(flows := Updated(s.flows, step))
  }

  /** The state after the first n steps. */
  function At(cfg: Config, s: Ctl, steps: seq<Step>, n: nat): Ctl
    requires n <= |steps|
  {
    if n == 0 then s else Next(cfg, At(cfg, s, steps, n - 1), steps[n - 1])
  }
}
