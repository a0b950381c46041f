/** The order of the congestion thresholds across the agent and the controller: the agent's
    clamp and action table (examples/dqn_routing_agent.py) and every place where the
    controller changes a threshold. */
module Thresholds {
  import opened Prelude
  import opened Rounding
  import R = Reroute

  function MinR(a: real, b: real): real { if a <= b then a else b }

  function MaxR(a: real, b: real): real { if a >= b then a else b }

  // ----- Rounding to two decimals -----

  /** `round(x, 2)`: to the nearest hundredth, a tie to the even one. */
  function Round2(x: real): real { RoundInt(x * 100.0) as real / 100.0 }

  lemma {:induction false} RoundMonotone(x: real, y: real)
    requires x <= y
    ensures Round2(x) <= Round2(y)
  {
    RoundIntMonotone(x * 100.0, y * 100.0);
  }

  /** Rounding commutes with subtracting one, so a gap of one survives it. */
  lemma {:induction false} RoundShift(x: real)
    ensures Round2(x - 1.0) == Round2(x) - 1.0
  {
    var a := x * 100.0;
    assert (x - 1.0) * 100.0 == a - 100.0;
    assert (a - 100.0).Floor == a.Floor - 100;
    assert (a.Floor - 100) % 2 == a.Floor % 2;
    assert RoundInt(a - 100.0) == RoundInt(a) - 100;
  }

  lemma {:induction false} RoundWhole(n: int)
    ensures Round2(n as real) == n as real
  {
    assert (n as real * 100.0) == (n * 100) as real;
    assert (n as real * 100.0).Floor == n * 100;
  }

  lemma {:induction false} RoundTwice(x: real)
    ensures Round2(Round2(x)) == Round2(x)
  {
    var n := RoundInt(x * 100.0);
    assert Round2(x) * 100.0 == n as real;
    assert (n as real).Floor == n;
  }

  // ----- The agent -----

  datatype Bounds = Bounds(minHigh: real, maxHigh: real, minLow: real, minPortHigh: real, maxPortHigh: real)

  const DEFAULT_BOUNDS := Bounds(20.0, 180.0, 8.0, 40.0, 95.0)

  function ClampHigh(b: Bounds, high: real): real { MaxR(b.minHigh, MinR(b.maxHigh, high)) }

  /** The low threshold before rounding, with the agent's own correction. */
  function ClampLow(b: Bounds, high: real, low: real): real {
    var clamped := MaxR(b.minLow, MinR(high - 1.0, low));
    if clamped >= high then MaxR(b.minLow, high * 0.5) else clamped
  }

  /** The correction never restores the order: before rounding the clamped pair is ordered
      if and only if the lower bound of the low threshold is below the clamped high. */
  lemma {:induction false} ClampOrdered(b: Bounds, high: real, low: real)
    ensures ClampLow(b, ClampHigh(b, high), low) < ClampHigh(b, high) <==> b.minLow < ClampHigh(b, high)
  {
  }

  /** The agent's correction moves a threshold at times, but never to where it is needed:
      the pair is ordered after it exactly when it was before. */
  lemma {:induction false} CorrectionNeverHelps(b: Bounds, high: real, low: real)
    ensures ClampLow(b, high, low) < high <==> MaxR(b.minLow, MinR(high - 1.0, low)) < high
  {
  }

  /** Bounds under which the agent publishes an unordered pair whatever it read, and bounds
      under which its correction changes the low threshold and leaves it above the high one. */
  lemma {:induction false} UnorderedBounds()
    ensures exists b :: NeverOrders(b)
    ensures exists b :: ClampHigh(b, -4.0) == -4.0 && ClampLow(b, -4.0, -5.0) == -2.0
                        && MaxR(b.minLow, MinR(-4.0 - 1.0, -5.0)) == -3.0
  {
    var narrow := Bounds(5.0, 6.0, 8.0, 40.0, 95.0);
    forall high, low
      ensures ClampLow(narrow, ClampHigh(narrow, high), low) >= ClampHigh(narrow, high)
    {
      ClampOrdered(narrow, high, low);
    }
    assert NeverOrders(narrow);
    var negative := Bounds(-10.0, -4.0, -3.0, 40.0, 95.0);
    assert ClampHigh(negative, -4.0) == -4.0 && ClampLow(negative, -4.0, -5.0) == -2.0;
  }

  ghost predicate NeverOrders(b: Bounds) {
    forall high, low :: ClampLow(b, ClampHigh(b, high), low) >= ClampHigh(b, high)
  }

  /** After rounding it is ordered if and only if these two still differ. */
  lemma {:induction false} RoundedClampOrdered(b: Bounds, high: real, low: real)
    ensures Round2(ClampLow(b, ClampHigh(b, high), low)) < Round2(ClampHigh(b, high))
            <==> Round2(b.minLow) < Round2(ClampHigh(b, high))
  {
    var h := ClampHigh(b, high);
    var l := ClampLow(b, h, low);
    RoundMonotone(b.minLow, l);
    RoundShift(h);
    if b.minLow < h && l != b.minLow {
      RoundMonotone(l, h - 1.0);
    }
    if b.minLow >= h {
      RoundMonotone(h, b.minLow);
    }
  }

  /** What an action does: the route it asks for, whether it forces it, and the changes to
      the high, port-high and port-low thresholds. */
  datatype Effect = Effect(choice: string, force: bool, high: real, portHigh: real, portLow: real)

  const ACTION_NAMES := [
    "normal_mode", "throttle_wifi_30pct", "throttle_wifi_70pct", "throttle_wifi_90pct",
    "boost_staff_lan", "boost_server_zone", "boost_lab_zone", "exam_mode", "peak_hour_mode",
    "throttle_wifi_boost_staff", "throttle_wifi_boost_server", "throttle_social_boost_academic",
    "emergency_staff_protection", "emergency_server_protection", "security_isolation_wifi",
    "load_balance_ds1_ds2"]

  function EffectOf(action: nat, active: bool): Effect
    requires action < |ACTION_NAMES|
  {
    match action
    case 0 => Effect("primary_path", false, 2.0, 0.0, 0.0)
    case 1 => Effect("primary_path", false, -4.0, -3.0, 0.0)
    case 2 => Effect("primary_path", active, -8.0, -7.0, -5.0)
    case 3 => Effect("backup_path", true, -14.0, -12.0, -10.0)
    case 4 => Effect("primary_path", false, 5.0, 4.0, 0.0)
    case 5 => Effect("primary_path", false, 8.0, 5.0, 3.0)
    case 6 => Effect("primary_path", false, 4.0, 3.0, 0.0)
    case 7 => Effect("primary_path", true, -6.0, -4.0, -2.0)
    case 8 => Effect("backup_path", true, -8.0, -6.0, -4.0)
    case 9 => Effect("backup_path", true, -5.0, -4.0, 0.0)
    case 10 => Effect("backup_path", true, -5.0, 3.0, 0.0)
    case 11 => Effect("primary_path", false, 3.0, -2.0, 0.0)
    case 12 => Effect("backup_path", true, -12.0, -10.0, -8.0)
    case 13 => Effect("backup_path", true, -12.0, -8.0, -6.0)
    case 14 => Effect("backup_path", true, -15.0, -14.0, -12.0)
    case _ => Effect("load_balance", true, 1.0, 2.0, 0.0)
  }

  /** The thresholds the agent publishes for the ones it read. */
  function Published(b: Bounds, th: R.Thresholds, e: Effect): R.Thresholds {
    var high := th.high + e.high;
    var clamped := ClampHigh(b, high);
    var low := ClampLow(b, clamped, if th.low > 0.0 then th.low else high * 0.5);
    var portHigh := Round2(MaxR(b.minPortHigh, MinR(b.maxPortHigh, th.portHigh + e.portHigh)));
    var portLow := Round2(MaxR(30.0, MinR(portHigh - 1.0, th.portLow + e.portLow)));
    R.Thresholds(Round2(clamped), Round2(low), portHigh, portLow)
  }

  function Payload(b: Bounds, th: R.Thresholds, active: bool, action: nat): R.AgentAction
    requires action < |ACTION_NAMES|
  {
    var e := EffectOf(action, active);
    var p := Published(b, th, e);
    R.AgentAction(R.Settings(Some(p.high), Some(p.low), Some(p.portHigh), Some(p.portLow)),
                  Some(e.choice), Some(ACTION_NAMES[action]), Some(e.force))
  }

  /** The branches of the agent, one for each action. */
  method Adjust(th: R.Thresholds, active: bool, action: nat)
    returns (choice: string, force: bool, high: real, portHigh: real, portLow: real)
    requires action < |ACTION_NAMES|
    ensures var e := EffectOf(action, active);
            && choice == e.choice && force == e.force
            && high == th.high + e.high && portHigh == th.portHigh + e.portHigh && portLow == th.portLow + e.portLow
  {
    high, portHigh, portLow := th.high, th.portHigh, th.portLow;
    choice, force := "primary_path", false;
    if action == 0 {
      high := high + 2.0;
    } else if action == 1 {
      high, portHigh := high - 4.0, portHigh - 3.0;
    } else if action == 2 {
      force := active;
      high, portHigh, portLow := high - 8.0, portHigh - 7.0, portLow - 5.0;
    } else if action == 3 {
      choice, force := "backup_path", true;
      high, portHigh, portLow := high - 14.0, portHigh - 12.0, portLow - 10.0;
    } else if action == 4 {
      high, portHigh := high + 5.0, portHigh + 4.0;
    } else if action == 5 {
      high, portHigh, portLow := high + 8.0, portHigh + 5.0, portLow + 3.0;
    } else if action == 6 {
      high, portHigh := high + 4.0, portHigh + 3.0;
    } else if action == 7 {
      force := true;
      high, portHigh, portLow := high - 6.0, portHigh - 4.0, portLow - 2.0;
    } else if action == 8 {
      choice, force := "backup_path", true;
      high, portHigh, portLow := high - 8.0, portHigh - 6.0, portLow - 4.0;
    } else if action == 9 {
      choice, force := "backup_path", true;
      high, portHigh := high - 5.0, portHigh - 4.0;
    } else if action == 10 {
      choice, force := "backup_path", true;
      high, portHigh := high - 5.0, portHigh + 3.0;
    } else if action == 11 {
      high, portHigh := high + 3.0, portHigh - 2.0;
    } else if action == 12 {
      choice, force := "backup_path", true;
      high, portHigh, portLow := high - 12.0, portHigh - 10.0, portLow - 8.0;
    } else if action == 13 {
      choice, force := "backup_path", true;
      high, portHigh, portLow := high - 12.0, portHigh - 8.0, portLow - 6.0;
    } else if action == 14 {
      choice, force := "backup_path", true;
      high, portHigh, portLow := high - 15.0, portHigh - 14.0, portLow - 12.0;
    } else {
      choice, force := "load_balance", true;
      high, portHigh := high + 1.0, portHigh + 2.0;
    }
  }

  method BuildActionPayload(b: Bounds, th: R.Thresholds, active: bool, action: nat) returns (payload: R.AgentAction)
    requires action < |ACTION_NAMES|
    ensures payload == Payload(b, th, active, action)
  {
    var choice, force, high, portHigh, portLow := Adjust(th, active, action);
    var low := if th.low > 0.0 then th.low else high * 0.5;
    var clamped := MaxR(b.minHigh, MinR(b.maxHigh, high));
    low := MaxR(b.minLow, MinR(clamped - 1.0, low));
    if low >= clamped {
      low := MaxR(b.minLow, clamped * 0.5);
    }
    portHigh := Round2(MaxR(b.minPortHigh, MinR(b.maxPortHigh, portHigh)));
    portLow := Round2(MaxR(30.0, MinR(portHigh - 1.0, portLow)));
    payload := R.AgentAction(R.Settings(Some(Round2(clamped)), Some(Round2(low)), Some(portHigh), Some(portLow)),
                             Some(choice), Some(ACTION_NAMES[action]), Some(force));
  }

  // ----- Both sides -----

  /** Each low threshold is below its high one, and the high ones are positive. */
  predicate Ordered(th: R.Thresholds) {
    th.low < th.high && th.portLow < th.portHigh && th.high > 0.0 && th.portHigh > 0.0
  }

  /** The settings request no high threshold that is not positive. */
  predicate PositiveHighs(st: R.Settings) {
    (st.high.Some? ==> st.high.value > 0.0) && (st.portHigh.Some? ==> st.portHigh.value > 0.0)
  }

  /** The published port pair is ordered if and only if the published port-high exceeds 30. */
  lemma {:induction false} PublishedOrdered(b: Bounds, th: R.Thresholds, e: Effect)
    ensures var p := Published(b, th, e);
            && (p.low < p.high <==> Round2(b.minLow) < p.high)
            && (p.portLow < p.portHigh <==> p.portHigh > 30.0)
  {
    var high := th.high + e.high;
    RoundedClampOrdered(b, high, if th.low > 0.0 then th.low else high * 0.5);
    var portHigh := MaxR(b.minPortHigh, MinR(b.maxPortHigh, th.portHigh + e.portHigh));
    RoundTwice(portHigh);
    var top := Round2(portHigh);
    var low := MaxR(30.0, MinR(top - 1.0, th.portLow + e.portLow));
    RoundWhole(30);
    RoundShift(top);
    RoundMonotone(30.0, low);
    if low != 30.0 {
      RoundMonotone(low, top - 1.0);
    }
  }

  /** With the default bounds every action publishes ordered thresholds, whatever it read,
      and the controller adopts them exactly as they are. */
  lemma {:induction false} AgentAdopted(th: R.Thresholds, read: R.Thresholds, active: bool, action: nat)
    requires action < |ACTION_NAMES|
    ensures var p := Published(DEFAULT_BOUNDS, read, EffectOf(action, active));
            Ordered(p) && R.ApplySettings(th, Payload(DEFAULT_BOUNDS, read, active, action).settings) == p
  {
    var e := EffectOf(action, active);
    var b := DEFAULT_BOUNDS;
    PublishedOrdered(b, read, e);
    RoundWhole(8);
    RoundWhole(20);
    RoundWhole(40);
    RoundMonotone(20.0, ClampHigh(b, read.high + e.high));
    RoundMonotone(40.0, MaxR(b.minPortHigh, MinR(b.maxPortHigh, read.portHigh + e.portHigh)));
  }

  /** When the controller's own correction gives an ordered pair: exactly when the merged
      pair is ordered already or its high threshold is positive. */
  lemma {:induction false} ApplyOrdered(th: R.Thresholds, st: R.Settings)
    ensures var t := R.ApplySettings(th, st);
            && (t.low < t.high <==> (R.Or(st.high, th.high) > 0.0 || R.Or(st.low, th.low) < R.Or(st.high, th.high)))
            && (t.portLow < t.portHigh <==>
                  (R.Or(st.portHigh, th.portHigh) > 0.0
                      || R.Or(st.portLow, th.portLow) < R.Or(st.portHigh, th.portHigh)))
  {
  }

  /** A request that stays unordered: a negative high threshold for ordered ones in force. */
  lemma {:induction false} NegativeHigh()
    ensures exists th, st :: Ordered(th) && R.ApplySettings(th, st).low > R.ApplySettings(th, st).high
  {
    var th := R.Thresholds(40.0, 20.0, 80.0, 50.0);
    var st := R.Settings(Some(-1.0), None, None, None);
    assert Ordered(th) && R.ApplySettings(th, st).high == -1.0 && R.ApplySettings(th, st).low == -0.7;
  }

  /** Applying the same settings again changes nothing. */
  lemma {:induction false} ApplyTwice(th: R.Thresholds, st: R.Settings)
    requires PositiveHighs(st) && Ordered(th)
    ensures R.ApplySettings(R.ApplySettings(th, st), st) == R.ApplySettings(th, st)
  {
    var t := R.ApplySettings(th, st);
    assert t.high == R.Or(st.high, t.high) && t.portHigh == R.Or(st.portHigh, t.portHigh);
  }

  predicate PositiveEnv(env: R.Env) {
    && (env.file.Some? ==> PositiveHighs(env.file.value.action.settings))
    && (env.manual.Some? ==> PositiveHighs(env.manual.value))
  }

  predicate PositiveStep(step: R.Step) {
    match step
    case Sample(_, _, _, env) => PositiveEnv(env)
    case Tick(env, _) => PositiveEnv(env)
    case _ => true
  }

  lemma {:induction false} HookOrdered(cfg: R.Config, s: R.Ctl, env: R.Env)
    requires Ordered(s.th) && PositiveEnv(env)
    ensures Ordered(R.Hook(cfg, s, env).th)
  {
    if R.Fresh(s, env) {
      var s1 := R.ReadAction(s, env.file.value, env.manual);
      assert Ordered(s1.th);
      if cfg.dqn {
        assert R.ApplyDecision(cfg, s1, env.file.value.action, s1.core).th == s1.th;
      } else {
        assert R.ApplyForce(cfg, s1, env.file.value.action).th == s1.th;
      }
    }
  }

  lemma {:induction false} SampleOrdered(cfg: R.Config, s: R.Ctl, mbps: real, env: R.Env)
    requires Ordered(s.th) && PositiveEnv(env)
    ensures Ordered(R.Evaluate(cfg, s, mbps, env).th)
  {
    var s1 := R.TrackThroughput(s, mbps);
    var s2 := R.Trigger(cfg, s1, if s1.active then "congestion_low" else "congestion_high", mbps, env.now);
    assert s1.th == s.th && s2.th == s.th;
    HookOrdered(cfg, s2, env);
  }

  lemma {:induction false} TimetabledOrdered(s: R.Ctl, mode: Option<string>)
    requires Ordered(s.th)
    ensures Ordered(R.Timetabled(s, mode).th)
  {
  }

  lemma {:induction false} StepOrdered(cfg: R.Config, s: R.Ctl, step: R.Step)
    requires Ordered(s.th) && PositiveStep(step)
    ensures Ordered(R.Next(cfg, s, step).th)
  {
    match step
    case Sample(key, util, mbps, env) =>
      var s1 := R.UpdatePort(s, key, util);
      assert s1.th == s.th;
      SampleOrdered(cfg, s1.(core := mbps), mbps, env);
    case Tick(env, mode) =>
      HookOrdered(cfg, s, env);
      TimetabledOrdered(R.Hook(cfg, s, env), mode);
    case _ =>
  }

  /** The thresholds stay ordered in every reachable state: agent messages, operator
      settings and timetable changes in any order keep each low below its high, as long as
      no message asks for a high threshold that is not positive. */
  lemma {:induction false} AlwaysOrdered(cfg: R.Config, s: R.Ctl, steps: seq<R.Step>, n: nat)
    requires n <= |steps| && Ordered(s.th)
    requires forall k :: 0 <= k < n ==> PositiveStep(steps[k])
    ensures Ordered(R.At(cfg, s, steps, n).th)
  {
    if n > 0 {
      AlwaysOrdered(cfg, s, steps, n - 1);
      StepOrdered(cfg, R.At(cfg, s, steps, n - 1), steps[n - 1]);
    }
  }
}
