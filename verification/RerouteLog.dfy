/** The event log of the reroute protocol as a history: every entry is legal where it
    stands, replaying the log gives back the controller's flags, and the log only grows. */
module RerouteLog {
  import opened Prelude
  import opened Reroute

  /** What a reader of the log knows after a prefix of it. */
  datatype View = View(active: bool, pending: bool, throughput: bool, ports: set<PortKey>)

  function ViewOf(s: Ctl): View { View(s.active, s.pending, s.throughput, s.congested) }

  function Noted(v: View, e: Event): View {
    match e
    case PortOn(port, _, _, _) => v.(ports := v.ports + {port})
    case PortOff(port, _, _, _) => v.(ports := v.ports - {port})
    case ThroughputOn(_, _, _) => v.(throughput := true)
    case ThroughputOff(_, _, _) => v.(throughput := false)
    case Requested(_, _) => v.(pending := true)
    case Applied(_, _) => v.(pending := false)
    case TimedOut(_) => v.(pending := false)
    case Activated(_) => v.(active := true)
    case Deactivated(_) => v.(active := false)
    case Forced(_) => v
    case RoutingChoice(_) => v
  }

  function Replay(log: seq<Event>, n: nat): View
    requires n <= |log|
  {
    if n == 0 then View(false, false, false, {}) else Noted(Replay(log, n - 1), log[n - 1])
  }

  /** May this event come next? On and off alternate, with on at or above the high threshold
      and off at or below the low one; a decision is requested only when none is pending. */
  predicate Legal(v: View, e: Event) {
    match e
    case PortOn(port, util, high, _) => port !in v.ports && util >= high
    case PortOff(port, util, _, low) => port in v.ports && util <= low
    case ThroughputOn(mbps, high, _) => !v.throughput && mbps >= high
    case ThroughputOff(mbps, _, low) => v.throughput && mbps <= low
    case Requested(_, _) => !v.pending
    case Applied(enabled, _) => v.active == enabled
    case TimedOut(_) => v.pending
    case Activated(_) => !v.active
    case Deactivated(_) => v.active
    case Forced(enabled) => v.active == enabled
    case RoutingChoice(_) => true
  }

  predicate Stands(log: seq<Event>, k: nat)
    requires k < |log|
  {
    Legal(Replay(log, k), log[k])
  }

  ghost predicate LegalLog(log: seq<Event>) {
    forall k :: 0 <= k < |log| ==> Stands(log, k)
  }

  ghost predicate Tells(log: seq<Event>, v: View) {
    LegalLog(log) && Replay(log, |log|) == v
  }

  /** A measurement is logged with these thresholds. */
  predicate Stamped(e: Event, th: Thresholds) {
    match e
    case PortOn(_, _, high, low) => high == th.portHigh && low == th.portLow
    case PortOff(_, _, high, low) => high == th.portHigh && low == th.portLow
    case ThroughputOn(_, high, low) => high == th.high && low == th.low
    case ThroughputOff(_, high, low) => high == th.high && low == th.low
    case _ => true
  }

  /** The log grew from `before` to `after`, measurements stamped with `th`. */
  ghost predicate Grew(before: seq<Event>, after: seq<Event>, th: Thresholds) {
    before <= after && forall k :: |before| <= k < |after| ==> Stamped(after[k], th)
  }

  lemma {:induction false} ReplayPrefix(log: seq<Event>, more: seq<Event>, n: nat)
    requires n <= |log| && log <= more
    ensures Replay(log, n) == Replay(more, n)
  {
    if n > 0 {
      ReplayPrefix(log, more, n - 1);
    }
  }

  lemma {:induction false} StandsPrefix(log: seq<Event>, more: seq<Event>, k: nat)
    requires k < |log| && log <= more && Stands(log, k)
    ensures Stands(more, k)
  {
    ReplayPrefix(log, more, k);
    assert more[k] == log[k];
  }

  lemma {:induction false} Append(log: seq<Event>, v: View, e: Event)
    requires Tells(log, v) && Legal(v, e)
    ensures Tells(log + [e], Noted(v, e))
  {
    var more := log + [e];
    ReplayPrefix(log, more, |log|);
    assert more[|log|] == e;
    forall k | 0 <= k < |more|
      ensures Stands(more, k)
    {
      if k < |log| {
        StandsPrefix(log, more, k);
      }
    }
  }

  // ----- One handler at a time -----

  lemma {:induction false} SetRerouteLogged(cfg: Config, s: Ctl, v: View, enabled: bool, mbps: real, th: Thresholds)
    requires Tells(s.trace, v) && v.active == s.active
    ensures var t := SetReroute(cfg, s, enabled, mbps);
            Tells(t.trace, v.(active := enabled)) && t.active == enabled && Grew(s.trace, t.trace, th)
  {
    if s.active != enabled {
      Append(s.trace, v, if enabled then Activated(mbps) else Deactivated(mbps));
    }
  }

  lemma {:induction false} ApplyDecisionLogged(cfg: Config, s: Ctl, a: AgentAction, mbps: real, th: Thresholds)
    requires Tells(s.trace, ViewOf(s))
    ensures var t := ApplyDecision(cfg, s, a, mbps);
            Tells(t.trace, ViewOf(t)) && Grew(s.trace, t.trace, th)
  {
    var decision := Resolve(s, a, mbps);
    SetRerouteLogged(cfg, s.(pending := false), ViewOf(s), decision, mbps, th);
    var s1 := SetReroute(cfg, s.(pending := false), decision, mbps);
    Append(s1.trace, ViewOf(s).(active := decision), Applied(decision, mbps));
  }

  lemma {:induction false} TriggerLogged(cfg: Config, s: Ctl, reason: string, mbps: real, now: real, th: Thresholds)
    requires Tells(s.trace, ViewOf(s))
    ensures var t := Trigger(cfg, s, reason, mbps, now);
            Tells(t.trace, ViewOf(t)) && Grew(s.trace, t.trace, th)
  {
    if cfg.dqn && !s.pending {
      Append(s.trace, ViewOf(s), Requested(reason, mbps));
    }
  }

  lemma {:induction false} TimeoutLogged(cfg: Config, s: Ctl, now: real, th: Thresholds)
    requires Tells(s.trace, ViewOf(s))
    ensures var t := CheckTimeout(cfg, s, now);
            Tells(t.trace, ViewOf(t)) && Grew(s.trace, t.trace, th)
  {
    if s.pending && s.triggerTs > 0.0 && now - s.triggerTs >= cfg.timeout {
      Append(s.trace, ViewOf(s), TimedOut(s.core));
      var s1 := s.(pending := false, trace := s.trace + [TimedOut(s.core)]);
      if IsCongested(s1, s1.core) {
        SetRerouteLogged(cfg, s1, ViewOf(s1), true, s1.core, th);
      }
    }
  }

  lemma {:induction false} ForceLogged(cfg: Config, s: Ctl, a: AgentAction, th: Thresholds)
    requires Tells(s.trace, ViewOf(s))
    ensures var t := ApplyForce(cfg, s, a);
            Tells(t.trace, ViewOf(t)) && Grew(s.trace, t.trace, th)
  {
    var asked :=
      if a.force.Some? then a.force
      else if s.choice.Some? && (s.choice.value in BACKUP_CHOICES || s.choice.value in PRIMARY_CHOICES)
              && (s.choice.value in BACKUP_CHOICES) != s.active then Some(s.choice.value in BACKUP_CHOICES)
      else None;
    if asked.Some? {
      SetRerouteLogged(cfg, s, ViewOf(s), asked.value, s.core, th);
      Append(SetReroute(cfg, s, asked.value, s.core).trace, ViewOf(s).(active := asked.value), Forced(asked.value));
    }
  }

  lemma {:induction false} ReadLogged(s: Ctl, file: AgentFile, manual: Option<Settings>, th: Thresholds)
    requires Tells(s.trace, ViewOf(s))
    ensures var t := ReadAction(s, file, manual);
            Tells(t.trace, ViewOf(t)) && Grew(s.trace, t.trace, th)
  {
    if file.action.choice.Some? {
      Append(s.trace, ViewOf(s), RoutingChoice(file.action.choice.value));
    }
  }

  lemma {:induction false} HookLogged(cfg: Config, s: Ctl, env: Env, th: Thresholds)
    requires Tells(s.trace, ViewOf(s))
    ensures var t := Hook(cfg, s, env);
            Tells(t.trace, ViewOf(t)) && Grew(s.trace, t.trace, th)
  {
    if Fresh(s, env) {
      ReadLogged(s, env.file.value, env.manual, th);
      var s1 := ReadAction(s, env.file.value, env.manual);
      if cfg.dqn {
        ApplyDecisionLogged(cfg, s1, env.file.value.action, s1.core, th);
      } else {
        ForceLogged(cfg, s1, env.file.value.action, th);
      }
    }
  }

  lemma {:induction false} ThroughputLogged(s: Ctl, mbps: real)
    requires Tells(s.trace, ViewOf(s))
    ensures var t := TrackThroughput(s, mbps);
            Tells(t.trace, ViewOf(t)) && Grew(s.trace, t.trace, s.th)
  {
    if !s.throughput && mbps >= s.th.high {
      Append(s.trace, ViewOf(s), ThroughputOn(mbps, s.th.high, s.th.low));
    } else if s.throughput && mbps <= s.th.low {
      Append(s.trace, ViewOf(s), ThroughputOff(mbps, s.th.high, s.th.low));
    }
  }

  lemma {:induction false} PortLogged(s: Ctl, key: PortKey, util: real)
    requires Tells(s.trace, ViewOf(s))
    ensures var t := UpdatePort(s, key, util);
            Tells(t.trace, ViewOf(t)) && Grew(s.trace, t.trace, s.th)
  {
    if key !in s.congested && util >= s.th.portHigh {
      Append(s.trace, ViewOf(s), PortOn(key, util, s.th.portHigh, s.th.portLow));
    } else if key in s.congested && util <= s.th.portLow {
      Append(s.trace, ViewOf(s), PortOff(key, util, s.th.portHigh, s.th.portLow));
    }
  }

  lemma {:induction false} AskLogged(
      cfg: Config, s: Ctl, reason: string, enabled: bool, mbps: real, env: Env, th: Thresholds)
    requires Tells(s.trace, ViewOf(s))
    ensures var t := AskAgent(cfg, s, reason, enabled, mbps, env);
            Tells(t.trace, ViewOf(t)) && Grew(s.trace, t.trace, th)
  {
    TriggerLogged(cfg, s, reason, mbps, env.now, th);
    var s0 := Trigger(cfg, s, reason, mbps, env.now);
    HookLogged(cfg, s0, env, th);
    var s1 := Hook(cfg, s0, env);
    SetRerouteLogged(cfg, s1, ViewOf(s1), enabled, mbps, th);
  }

  lemma {:induction false} EvaluateLogged(cfg: Config, s: Ctl, mbps: real, env: Env)
    requires Tells(s.trace, ViewOf(s))
    ensures var t := Evaluate(cfg, s, mbps, env);
            Tells(t.trace, ViewOf(t)) && Grew(s.trace, t.trace, s.th)
  {
    ThroughputLogged(s, mbps);
    var s1 := TrackThroughput(s, mbps);
    var enabled := !s1.active;
    AskLogged(cfg, s1, if enabled then "congestion_high" else "congestion_low", enabled, mbps, env, s.th);
    SetRerouteLogged(cfg, s1, ViewOf(s1), enabled, mbps, s.th);
  }

  lemma {:induction false} TickLogged(cfg: Config, s: Ctl, env: Env, mode: Option<string>)
    requires Tells(s.trace, ViewOf(s))
    ensures var t := Ticked(cfg, s, env, mode);
            Tells(t.trace, ViewOf(t)) && Grew(s.trace, t.trace, s.th)
  {
    HookLogged(cfg, s, env, s.th);
    TimeoutLogged(cfg, Timetabled(Hook(cfg, s, env), mode), env.now, s.th);
  }

  /** One step keeps the log a legal history of the flags, only appends to it, and stamps
      the measurements it appends with the thresholds in force before the step. */
  lemma {:induction false} StepLogged(cfg: Config, s: Ctl, step: Step)
    requires Tells(s.trace, ViewOf(s))
    ensures Tells(Next(cfg, s, step).trace, ViewOf(Next(cfg, s, step)))
    ensures Grew(s.trace, Next(cfg, s, step).trace, s.th)
  {
    match step
    case Sample(key, util, mbps, env) =>
      PortLogged(s, key, util);
      if IsCorePort(key) {
        EvaluateLogged(cfg, UpdatePort(s, key, util).(core := mbps), mbps, env);
      }
    case Tick(env, mode) => TickLogged(cfg, s, env, mode);
    case _ =>
  }

  // ----- Runs -----

  /** The state after the constructor: nothing congested, nothing active, an empty log. */
  predicate Initial(s: Ctl) {
    !s.active && !s.pending && !s.throughput && s.congested == {} && s.trace == []
  }

  /** In every reachable state the log is a legal history and replaying it gives the flags. */
  lemma {:induction false} LogTellsState(cfg: Config, s: Ctl, steps: seq<Step>, n: nat)
    requires Initial(s) && n <= |steps|
    ensures Tells(At(cfg, s, steps, n).trace, ViewOf(At(cfg, s, steps, n)))
  {
    if n > 0 {
      LogTellsState(cfg, s, steps, n - 1);
      StepLogged(cfg, At(cfg, s, steps, n - 1), steps[n - 1]);
    }
  }

  lemma {:induction false} StaysActive(log: seq<Event>, i: nat, j: nat)
    requires i <= j <= |log|
    requires Replay(log, i).active && forall k :: i <= k < j ==> !log[k].Deactivated?
    ensures Replay(log, j).active
    decreases j - i
  {
    if i < j {
      assert !log[i].Deactivated?;
      StaysActive(log, i + 1, j);
    }
  }

  lemma {:induction false} StaysInactive(log: seq<Event>, i: nat, j: nat)
    requires i <= j <= |log|
    requires !Replay(log, i).active && forall k :: i <= k < j ==> !log[k].Activated?
    ensures !Replay(log, j).active
    decreases j - i
  {
    if i < j {
      assert !log[i].Activated?;
      StaysInactive(log, i + 1, j);
    }
  }

  lemma {:induction false} ActivationsApart(log: seq<Event>, i: nat, j: nat)
    requires LegalLog(log) && i < j < |log| && log[i].Activated? && log[j].Activated?
    ensures exists k :: i < k < j && log[k].Deactivated?
  {
    assert Stands(log, j);
    if forall k :: i < k < j ==> !log[k].Deactivated? {
      StaysActive(log, i + 1, j);
    }
  }

  /** The last change before a deactivation is an activation. */
  lemma {:induction false} DeactivationFollows(log: seq<Event>, i: nat, j: nat)
    requires LegalLog(log) && i <= j < |log| && log[j].Deactivated?
    requires i == 0 || log[i - 1].Deactivated?
    ensures exists k :: i <= k < j && log[k].Activated?
  {
    assert Stands(log, j);
    if forall k :: i <= k < j ==> !log[k].Activated? {
      StaysInactive(log, i, j);
    }
  }

  /** In any run activations and deactivations strictly alternate, starting with an
      activation, and the controller is active just when the last of them activated it. */
  lemma {:induction false} PolicyAlternates(cfg: Config, s: Ctl, steps: seq<Step>, n: nat, j: nat)
    requires Initial(s) && n <= |steps| && j < |At(cfg, s, steps, n).trace|
    ensures var t := At(cfg, s, steps, n);
            && (forall i :: 0 <= i < j && t.trace[i].Activated? && t.trace[j].Activated? ==>
                  exists k :: i < k < j && t.trace[k].Deactivated?)
            && (t.trace[j].Deactivated? ==> exists k :: 0 <= k < j && t.trace[k].Activated?)
            && (forall i :: 0 <= i < j && t.trace[i].Deactivated? && t.trace[j].Deactivated? ==>
                  exists k :: i + 1 <= k < j && t.trace[k].Activated?)
            && ((t.trace[j].Activated? || t.trace[j].Deactivated?)
                && (forall k :: j < k < |t.trace| ==> !t.trace[k].Activated? && !t.trace[k].Deactivated?)
                ==> t.active == t.trace[j].Activated?)
  {
    LogTellsState(cfg, s, steps, n);
    AlternatesIn(At(cfg, s, steps, n).trace, At(cfg, s, steps, n), j);
  }

  lemma {:induction false} AlternatesIn(log: seq<Event>, t: Ctl, j: nat)
    requires Tells(log, ViewOf(t)) && j < |log|
    ensures forall i :: 0 <= i < j && log[i].Activated? && log[j].Activated? ==>
              exists k :: i < k < j && log[k].Deactivated?
    ensures log[j].Deactivated? ==> exists k :: 0 <= k < j && log[k].Activated?
    ensures forall i :: 0 <= i < j && log[i].Deactivated? && log[j].Deactivated? ==>
              exists k :: i + 1 <= k < j && log[k].Activated?
    ensures (log[j].Activated? || log[j].Deactivated?)
            && (forall k :: j < k < |log| ==> !log[k].Activated? && !log[k].Deactivated?)
            ==> t.active == log[j].Activated?
  {
    if log[j].Deactivated? {
      DeactivationFollows(log, 0, j);
    }
    forall i | 0 <= i < j && log[i].Activated? && log[j].Activated?
      ensures exists k :: i < k < j && log[k].Deactivated?
    {
      ActivationsApart(log, i, j);
    }
    forall i | 0 <= i < j && log[i].Deactivated? && log[j].Deactivated?
      ensures exists k :: i + 1 <= k < j && log[k].Activated?
    {
      DeactivationFollows(log, i + 1, j);
    }
    if forall k :: j < k < |log| ==> !log[k].Activated? && !log[k].Deactivated? {
      if log[j].Activated? {
        StaysActive(log, j + 1, |log|);
      } else if log[j].Deactivated? {
        StaysInactive(log, j + 1, |log|);
      }
    }
  }

  predicate On(e: Event, port: PortKey) { e.PortOn? && e.port == port }

  predicate Off(e: Event, port: PortKey) { e.PortOff? && e.port == port }

  lemma {:induction false} StaysCongested(log: seq<Event>, port: PortKey, i: nat, j: nat)
    requires i <= j <= |log|
    requires port in Replay(log, i).ports && forall k :: i <= k < j ==> !Off(log[k], port)
    ensures port in Replay(log, j).ports
    decreases j - i
  {
    if i < j {
      assert !Off(log[i], port);
      StaysCongested(log, port, i + 1, j);
    }
  }

  lemma {:induction false} StaysClear(log: seq<Event>, port: PortKey, i: nat, j: nat)
    requires i <= j <= |log|
    requires port !in Replay(log, i).ports && forall k :: i <= k < j ==> !On(log[k], port)
    ensures port !in Replay(log, j).ports
    decreases j - i
  {
    if i < j {
      assert !On(log[i], port);
      StaysClear(log, port, i + 1, j);
    }
  }

  /** Congestion events of one port alternate in any legal log: between two detections
      comes the clearing, and before a clearing, since the last one or the start, a detection. */
  lemma {:induction false} PortDetectionsApart(log: seq<Event>, i: nat, j: nat, port: PortKey)
    requires LegalLog(log) && i < j < |log| && On(log[i], port) && On(log[j], port)
    ensures exists k :: i < k < j && Off(log[k], port)
  {
    assert Stands(log, j);
    if forall k :: i < k < j ==> !Off(log[k], port) {
      StaysCongested(log, port, i + 1, j);
    }
  }

  lemma {:induction false} PortClearingFollows(log: seq<Event>, i: nat, j: nat, port: PortKey)
    requires LegalLog(log) && i <= j < |log| && Off(log[j], port)
    requires i == 0 || Off(log[i - 1], port)
    ensures exists k :: i <= k < j && On(log[k], port)
  {
    assert Stands(log, j);
    if forall k :: i <= k < j ==> !On(log[k], port) {
      StaysClear(log, port, i, j);
    }
  }
}
