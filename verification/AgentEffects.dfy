/** From the agent's action to the controller: which actions bring the reroute about, and how
    strict the thresholds are that they publish. */
module AgentEffects {
  import opened Prelude
  import opened Thresholds
  import opened RerouteChoices
  import R = Reroute

  // ----- Which actions reroute -----

  /** The actions whose message asks for the backup path. */
  const REROUTING := {
    "throttle_wifi_90pct", "peak_hour_mode", "throttle_wifi_boost_staff", "throttle_wifi_boost_server",
    "emergency_staff_protection", "emergency_server_protection", "security_isolation_wifi"}

  /** Names of one length differ in the character at the place given here. */
  lemma {:induction false} NamesDiffer()
    ensures NoDup(ACTION_NAMES)
  {
    var names := ACTION_NAMES;
    assert names[1][14] == '3' && names[2][14] == '7' && names[3][14] == '9';
    assert names[6][0] == 'b' && names[8][0] == 'p';
    assert names[10][0] == 't' && names[12][0] == 'e';
    assert |names[0]| == 11 && |names[1]| == 19 && |names[2]| == 19 && |names[3]| == 19 && |names[4]| == 15;
    assert |names[5]| == 17 && |names[6]| == 14 && |names[7]| == 9 && |names[8]| == 14 && |names[9]| == 25;
    assert |names[10]| == 26 && |names[11]| == 30 && |names[12]| == 26 && |names[13]| == 27 && |names[14]| == 23;
    assert |names[15]| == 20;
  }

  lemma {:induction false} ReroutingNames()
    ensures REROUTING == {ACTION_NAMES[3], ACTION_NAMES[8], ACTION_NAMES[9], ACTION_NAMES[10], ACTION_NAMES[12],
                          ACTION_NAMES[13], ACTION_NAMES[14]}
  {
  }

  lemma {:induction false} ReroutingExactly(action: nat)
    requires action < |ACTION_NAMES|
    ensures ACTION_NAMES[action] in REROUTING <==> action in {3, 8, 9, 10, 12, 13, 14}
  {
    NamesDiffer();
    ReroutingNames();
    assert action !in {3, 8, 9, 10, 12, 13, 14} ==>
             && ACTION_NAMES[action] != ACTION_NAMES[3] && ACTION_NAMES[action] != ACTION_NAMES[8]
             && ACTION_NAMES[action] != ACTION_NAMES[9] && ACTION_NAMES[action] != ACTION_NAMES[10]
             && ACTION_NAMES[action] != ACTION_NAMES[12] && ACTION_NAMES[action] != ACTION_NAMES[13]
             && ACTION_NAMES[action] != ACTION_NAMES[14];
  }

  lemma {:induction false} RouteAsked(action: nat, active: bool)
    requires action < |ACTION_NAMES|
    ensures var choice := EffectOf(action, active).choice;
            && (AsksForBackup(choice) <==> action in {3, 8, 9, 10, 12, 13, 14})
            && (AsksForPrimary(choice) <==> action !in {3, 8, 9, 10, 12, 13, 14, 15})
  {
    var b, p, l := "backup_path", "primary_path", "load_balance";
    assert b[0] == 'b' && p[0] == 'p' && l[0] == 'l';
    var x, y, z := "prefer_backup_path", "reroute_backup", "prefer_primary_path";
    assert |x| == 18 && |y| == 14 && |z| == 19 && |b| == 11 && |p| == 12 && |l| == 12 && |"keep_primary"| == 12;
    assert "keep_primary"[0] == 'k';
  }

  lemma {:induction false} LoadBalanceName()
    ensures ACTION_NAMES[15] != "prefer_backup_path" && ACTION_NAMES[15] != "emergency_throttle"
  {
    assert |ACTION_NAMES[15]| == 20 && |"prefer_backup_path"| == 18 && |"emergency_throttle"| == 18;
  }

  lemma {:induction false} PayloadAsks(b: Bounds, th: R.Thresholds, active: bool, action: nat)
    requires action < |ACTION_NAMES|
    ensures AsksForReroute(Payload(b, th, active, action)) <==> ACTION_NAMES[action] in REROUTING
  {
    RouteAsked(action, active);
    ReroutingExactly(action);
    LoadBalanceName();
  }

  /** With the agent on: after the controller has taken up the message of an action, the
      reroute is on if and only if the link was congested or the action is one of the seven. */
  lemma {:induction false} ActionReroutes(
      cfg: R.Config, s: R.Ctl, env: R.Env, b: Bounds, th: R.Thresholds, active: bool, action: nat)
    requires cfg.dqn && action < |ACTION_NAMES| && TakesUp(s, env)
    requires env.file.value.action == Payload(b, th, active, action)
    ensures R.Hook(cfg, s, env).active <==>
            Busy(s, HighAfter(s, env.file.value.action, env.manual)) || ACTION_NAMES[action] in REROUTING
  {
    AgentDecides(cfg, s, env);
    PayloadAsks(b, th, active, action);
  }

  /** The actions whose message forces the reroute on a controller without agent integration:
      two more, one of which asks for the primary path, and one that keeps what the agent saw. */
  ghost predicate Forces(name: string, active: bool) {
    || name in REROUTING || name == "exam_mode" || name == "load_balance_ds1_ds2"
    || (name == "throttle_wifi_70pct" && active)
  }

  lemma {:induction false} ForcesByIndex(action: nat, active: bool)
    requires action < |ACTION_NAMES|
    ensures Forces(ACTION_NAMES[action], active) <==>
            action in {3, 8, 9, 10, 12, 13, 14} || action == 7 || action == 15 || (action == 2 && active)
  {
    ReroutingExactly(action);
    NamesDiffer();
    var names := ACTION_NAMES;
    assert names[7] == "exam_mode" && names[15] == "load_balance_ds1_ds2" && names[2] == "throttle_wifi_70pct";
  }

  lemma {:induction false} ForcedExactly(action: nat, active: bool)
    requires action < |ACTION_NAMES|
    ensures EffectOf(action, active).force <==> Forces(ACTION_NAMES[action], active)
  {
    ForcesByIndex(action, active);
  }

  /** Without the agent's integration: after the controller has read the message of an action,
      the reroute is on if and only if the action forces it. */
  lemma {:induction false} ActionForces(
      cfg: R.Config, s: R.Ctl, env: R.Env, b: Bounds, th: R.Thresholds, active: bool, action: nat)
    requires !cfg.dqn && action < |ACTION_NAMES| && R.Fresh(s, env)
    requires env.file.value.action == Payload(b, th, active, action)
    ensures R.Hook(cfg, s, env).active <==> Forces(ACTION_NAMES[action], active)
  {
    MessageForces(cfg, s, env);
    ForcedExactly(action, active);
  }

  /** So the two kinds of controller, uncongested, disagree on a message exactly if its action
      is one of the three. */
  lemma {:induction false} IntegrationMatters(
      on: R.Config, off: R.Config, s: R.Ctl, env: R.Env, b: Bounds, th: R.Thresholds, active: bool, action: nat)
    requires on.dqn && !off.dqn && action < |ACTION_NAMES| && TakesUp(s, env)
    requires env.file.value.action == Payload(b, th, active, action)
    requires !Busy(s, HighAfter(s, env.file.value.action, env.manual))
    ensures R.Hook(on, s, env).active != R.Hook(off, s, env).active <==>
            || ACTION_NAMES[action] == "exam_mode" || ACTION_NAMES[action] == "load_balance_ds1_ds2"
            || (ACTION_NAMES[action] == "throttle_wifi_70pct" && active)
  {
    ActionReroutes(on, s, env, b, th, active, action);
    ActionForces(off, s, env, b, th, active, action);
    ForcesByIndex(action, active);
    ReroutingExactly(action);
    ThreeByIndex(action);
  }

  lemma {:induction false} ThreeByIndex(action: nat)
    requires action < |ACTION_NAMES|
    ensures ACTION_NAMES[action] == "exam_mode" <==> action == 7
    ensures ACTION_NAMES[action] == "load_balance_ds1_ds2" <==> action == 15
    ensures ACTION_NAMES[action] == "throttle_wifi_70pct" <==> action == 2
  {
    NamesDiffer();
    var names := ACTION_NAMES;
    assert names[7] == "exam_mode" && names[15] == "load_balance_ds1_ds2" && names[2] == "throttle_wifi_70pct";
  }

  // ----- How strict the thresholds are -----

  /** The actions from the strictest to the most generous, by the high threshold. */
  const STRICTEST_FIRST := [
    "security_isolation_wifi", "throttle_wifi_90pct", "emergency_staff_protection", "emergency_server_protection",
    "throttle_wifi_70pct", "peak_hour_mode", "exam_mode", "throttle_wifi_boost_staff", "throttle_wifi_boost_server",
    "throttle_wifi_30pct", "load_balance_ds1_ds2", "normal_mode", "throttle_social_boost_academic", "boost_lab_zone",
    "boost_staff_lan", "boost_server_zone"]

  const STRICTNESS := [14, 3, 12, 13, 2, 8, 7, 9, 10, 1, 15, 0, 11, 6, 4, 5]

  lemma {:induction false} StrictnessNames(i: nat)
    requires i < 16
    ensures 0 <= STRICTNESS[i] < |ACTION_NAMES| && ACTION_NAMES[STRICTNESS[i]] == STRICTEST_FIRST[i]
  {
  }

  /** For one reading, an action further down this list never publishes a lower high threshold. */
  lemma {:induction false} StricterFirst(b: Bounds, th: R.Thresholds, active: bool, i: nat, j: nat)
    requires i < j < 16
    ensures var e, f := EffectOf(STRICTNESS[i], active), EffectOf(STRICTNESS[j], active);
            Published(b, th, e).high <= Published(b, th, f).high
  {
    var e, f := EffectOf(STRICTNESS[i], active), EffectOf(STRICTNESS[j], active);
    assert e.high <= f.high;
    RoundMonotone(ClampHigh(b, th.high + e.high), ClampHigh(b, th.high + f.high));
  }

  /** What is published for the controller's own defaults, 150 and 80 for the core link and 80
      and 65 for a port: the high thresholds and the low one of the port, by action. */
  const DEFAULT_HIGHS := [152, 146, 142, 136, 155, 158, 154, 144, 142, 145, 145, 153, 138, 138, 135, 151]
  const DEFAULT_PORT_HIGHS := [80, 77, 73, 68, 84, 85, 83, 76, 74, 76, 83, 78, 70, 72, 66, 82]
  const DEFAULT_PORT_LOWS := [65, 65, 60, 55, 65, 68, 65, 63, 61, 65, 65, 65, 57, 59, 53, 65]

  lemma {:induction false} WholePublished(e: Effect, high: int, portHigh: int, portLow: int)
    requires 150.0 + e.high == high as real && 82 <= high <= 180
    requires 80.0 + e.portHigh == portHigh as real && 40 <= portHigh <= 95
    requires 65.0 + e.portLow == portLow as real && 30 <= portLow <= portHigh - 1
    ensures Published(DEFAULT_BOUNDS, R.Thresholds(150.0, 80.0, 80.0, 65.0), e)
            == R.Thresholds(high as real, 80.0, portHigh as real, portLow as real)
  {
    RoundWhole(80);
    RoundWhole(high);
    RoundWhole(portHigh);
    RoundWhole(portLow);
  }

  lemma {:induction false} DefaultSums(action: nat, active: bool)
    requires action < 16
    ensures var e := EffectOf(action, active);
            && 150.0 + e.high == DEFAULT_HIGHS[action] as real && 82 <= DEFAULT_HIGHS[action] <= 180
            && 80.0 + e.portHigh == DEFAULT_PORT_HIGHS[action] as real && 40 <= DEFAULT_PORT_HIGHS[action] <= 95
            && 65.0 + e.portLow == DEFAULT_PORT_LOWS[action] as real
            && 30 <= DEFAULT_PORT_LOWS[action] <= DEFAULT_PORT_HIGHS[action] - 1
  {
  }

  lemma {:induction false} PublishedForDefaults(active: bool, action: nat)
    requires action < 16
    ensures Published(DEFAULT_BOUNDS, R.Thresholds(150.0, 80.0, 80.0, 65.0), EffectOf(action, active))
            == R.Thresholds(DEFAULT_HIGHS[action] as real, 80.0,
                            DEFAULT_PORT_HIGHS[action] as real, DEFAULT_PORT_LOWS[action] as real)
  {
    DefaultSums(action, active);
    WholePublished(
      EffectOf(action, active), DEFAULT_HIGHS[action], DEFAULT_PORT_HIGHS[action], DEFAULT_PORT_LOWS[action]);
  }
}
