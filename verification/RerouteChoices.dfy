/** What a message of the agent does to the reroute, by the names it may carry, and what the
    samples do to it when there is no agent. */
module RerouteChoices {
  import opened Prelude
  import opened Reroute

  // ----- With the agent -----

  /** The high threshold once the message has been read: the operator's settings keep the
      message from changing it. */
  function HighAfter(s: Ctl, a: AgentAction, manual: Option<Settings>): real {
    if manual.Some? && manual.value != Settings(None, None, None, None) then s.th.high
    else if a.settings.high.Some? then a.settings.high.value
    else s.th.high
  }

  /** The core link or a port is congested, or the reroute is on already. */
  predicate Busy(s: Ctl, high: real) { s.core >= high || s.congested != {} || s.active }

  predicate AsksForBackup(choice: string) {
    choice == "backup_path" || choice == "prefer_backup_path" || choice == "reroute_backup"
  }

  predicate AsksForPrimary(choice: string) {
    choice == "primary_path" || choice == "prefer_primary_path" || choice == "keep_primary"
  }

  /** The message itself asks for the reroute: by its routing choice, and only without one of
      the six by the name of its action. */
  predicate AsksForReroute(a: AgentAction) {
    if a.choice.Some? && AsksForBackup(a.choice.value) then true
    else if a.choice.Some? && AsksForPrimary(a.choice.value) then false
    else a.dqn == Some("prefer_backup_path") || a.dqn == Some("emergency_throttle")
  }

  /** The controller takes a decision from the message. */
  predicate TakesUp(s: Ctl, env: Env) {
    && env.file.Some? && env.file.value.mtime > s.seen && env.file.value.action.dqn.Some?
    && (s.pending || Busy(s, HighAfter(s, env.file.value.action, env.manual)))
  }

  lemma {:induction false} ReadMessage(s: Ctl, file: AgentFile, manual: Option<Settings>)
    ensures var t := ReadAction(s, file, manual);
            && t.th.high == HighAfter(s, file.action, manual) && t.core == s.core && t.congested == s.congested
            && t.active == s.active && t.pending == s.pending && t.triggerTs == s.triggerTs && t.mode == s.mode
            && t.choice == if file.action.choice.Some? then file.action.choice else s.choice
  {
  }

  lemma {:induction false} Resolved(s: Ctl, a: AgentAction)
    requires a.dqn.Some?
    ensures Resolve(s, a, s.core) <==> Busy(s, s.th.high) || AsksForReroute(a)
  {
  }

  /** With the agent on, the reroute is on after a message was taken up if and only if the
      link was congested or the message asks for it, and no decision is pending any more. A
      message that is not taken up changes neither. */
  lemma {:induction false} AgentDecides(cfg: Config, s: Ctl, env: Env)
    requires cfg.dqn
    ensures var t := Hook(cfg, s, env);
            if TakesUp(s, env) then
              var a := env.file.value.action;
              !t.pending && (t.active <==> Busy(s, HighAfter(s, a, env.manual)) || AsksForReroute(a))
            else t.active == s.active && t.pending == s.pending
  {
    if Fresh(s, env) {
      ReadMessage(s, env.file.value, env.manual);
      if env.file.value.action.dqn.Some? {
        Resolved(ReadAction(s, env.file.value, env.manual), env.file.value.action);
      }
    }
  }

  /** The same of a whole monitor round that takes a message up. */
  lemma {:induction false} RoundDecides(cfg: Config, s: Ctl, env: Env, mode: Option<string>)
    requires cfg.dqn && TakesUp(s, env)
    ensures var t, a := Next(cfg, s, Tick(env, mode)), env.file.value.action;
            !t.pending && (t.active <==> Busy(s, HighAfter(s, a, env.manual)) || AsksForReroute(a))
  {
    AgentDecides(cfg, s, env);
  }

  /** The deadline of the pending decision has come. */
  predicate Overdue(cfg: Config, s: Ctl, now: real) {
    s.pending && s.triggerTs > 0.0 && now - s.triggerTs >= cfg.timeout
  }

  lemma {:induction false} TimeoutDecides(cfg: Config, s: Ctl, now: real)
    ensures var t := CheckTimeout(cfg, s, now);
            && (t.pending <==> s.pending && !Overdue(cfg, s, now))
            && (t.active <==> s.active || (Overdue(cfg, s, now) && Busy(s, s.th.high)))
            && t.th == s.th
  {
  }

  lemma {:induction false} HookLeaves(cfg: Config, s: Ctl, env: Env)
    requires cfg.dqn && !TakesUp(s, env)
    ensures var t := Hook(cfg, s, env);
            && t.core == s.core && t.congested == s.congested && t.active == s.active && t.pending == s.pending
            && t.triggerTs == s.triggerTs
  {
    if Fresh(s, env) {
      ReadMessage(s, env.file.value, env.manual);
    }
  }

  /** A monitor round that takes no message up: a decision stays pending until its deadline,
      and the reroute is switched on if and only if the deadline has come and the link is
      congested by the threshold then in force. */
  lemma {:induction false} RoundWaits(cfg: Config, s: Ctl, env: Env, mode: Option<string>)
    requires cfg.dqn && !TakesUp(s, env)
    ensures var t := Next(cfg, s, Tick(env, mode));
            && (t.pending <==> s.pending && !Overdue(cfg, s, env.now))
            && (t.active <==> s.active || (Overdue(cfg, s, env.now) && Busy(s, t.th.high)))
  {
    HookLeaves(cfg, s, env);
    TimeoutDecides(cfg, Timetabled(Hook(cfg, s, env), mode), env.now);
  }

  /** A new message with an action in it. */
  predicate Speaks(s: Ctl, env: Env) {
    env.file.Some? && env.file.value.mtime > s.seen && env.file.value.action.dqn.Some?
  }

  lemma {:induction false} AskDecides(cfg: Config, s: Ctl, reason: string, enabled: bool, mbps: real, env: Env)
    requires cfg.dqn && s.active != enabled
    ensures var t := AskAgent(cfg, s, reason, enabled, mbps, env);
            && (t.active <==> if Speaks(s, env) then enabled else s.active)
            && (t.pending <==> !Speaks(s, env))
  {
    var u := Trigger(cfg, s, reason, mbps, env.now);
    assert u.pending && u.active == s.active && u.seen == s.seen;
    AgentDecides(cfg, u, env);
  }

  /** A core sample with the agent on. It asks the agent if it is high while the reroute is off
      or low while it is on. A new message that is there already is taken up, and whatever it
      says the reroute ends up on after a high sample and off after a low one; without one the
      decision stays pending. Any other sample changes neither. */
  lemma {:induction false} SampleDecides(cfg: Config, s: Ctl, key: PortKey, util: real, mbps: real, env: Env)
    requires cfg.dqn
    ensures var t := Next(cfg, s, Sample(key, util, mbps, env));
            var high, low := !s.active && mbps >= s.th.high, s.active && mbps <= s.th.low;
            if key == (1, 1) && (high || low) then
              (t.active <==> if Speaks(s, env) then high else s.active) && (t.pending <==> !Speaks(s, env))
            else t.active == s.active && t.pending == s.pending
  {
    var s1 := TrackThroughput(UpdatePort(s, key, util).(core := mbps), mbps);
    assert s1.active == s.active && s1.th == s.th && s1.pending == s.pending && s1.seen == s.seen;
    if key == (1, 1) && !s.active && mbps >= s.th.high {
      AskDecides(cfg, s1, "congestion_high", true, mbps, env);
    } else if key == (1, 1) && s.active && mbps <= s.th.low {
      AskDecides(cfg, s1, "congestion_low", false, mbps, env);
    }
  }

  // ----- Who sets the thresholds -----

  const NO_SETTINGS := Settings(None, None, None, None)

  /** Whose settings a round applies: the operator's if there are any, else those of a new
      message. */
  function SettingsInForce(s: Ctl, env: Env): Settings {
    if env.manual.Some? && env.manual.value != NO_SETTINGS then env.manual.value
    else if env.file.Some? && env.file.value.mtime > s.seen then env.file.value.action.settings
    else NO_SETTINGS
  }

  /** The threshold now in force is the one requested, if one is, else the old one. */
  predicate TakesEffect(request: Option<real>, was: real, now: real) {
    now == if request.Some? then request.value else was
  }

  /** The same of a low threshold that stays below the high one; else it is a part of that. */
  predicate TakesEffectBelow(request: Option<real>, was: real, now: real, high: real, part: real) {
    var wanted := if request.Some? then request.value else was;
    now == if wanted < high then wanted else high * part
  }

  predicate SettingsApplied(st: Settings, was: Thresholds, now: Thresholds) {
    && TakesEffect(st.high, was.high, now.high) && TakesEffectBelow(st.low, was.low, now.low, now.high, 0.7)
    && TakesEffect(st.portHigh, was.portHigh, now.portHigh)
    && TakesEffectBelow(st.portLow, was.portLow, now.portLow, now.portHigh, 0.8)
  }

  lemma {:induction false} DecisionKeepsThresholds(cfg: Config, s: Ctl, a: AgentAction, mbps: real)
    ensures ApplyDecision(cfg, s, a, mbps).th == s.th && ApplyForce(cfg, s, a).th == s.th
  {
  }

  lemma {:induction false} RequestsApply(th: Thresholds, st: Settings)
    ensures SettingsApplied(st, th, ApplySettings(th, st))
  {
  }

  lemma {:induction false} HookThresholds(cfg: Config, s: Ctl, env: Env)
    ensures Hook(cfg, s, env).th ==
            if Overrides(env.manual) then ApplySettings(s.th, env.manual.value)
            else if Fresh(s, env) then ApplySettings(s.th, env.file.value.action.settings)
            else s.th
  {
    if Fresh(s, env) {
      var s1 := ReadAction(s, env.file.value, env.manual);
      ReadMessage(s, env.file.value, env.manual);
      DecisionKeepsThresholds(cfg, s1, env.file.value.action, s1.core);
    }
  }

  /** Reading the agent's and the operator's files: the thresholds afterwards are the
      operator's requests if there are any, whatever the agent asks for, else those of a new
      message, and as before where nothing is requested. */
  lemma {:induction false} ThresholdsDecided(cfg: Config, s: Ctl, env: Env)
    ensures var st, t := SettingsInForce(s, env), Hook(cfg, s, env);
            if st == NO_SETTINGS && !Fresh(s, env) then t.th == s.th else SettingsApplied(st, s.th, t.th)
  {
    HookThresholds(cfg, s, env);
    RequestsApply(s.th, SettingsInForce(s, env));
  }

  // ----- The timetable -----

  /** The thresholds of a mode of the timetable. */
  predicate InTimetable(mode: string, high: real, low: real) {
    || (mode == "exam" && high == 20.0 && low == 10.0) || (mode == "lecture" && high == 35.0 && low == 18.0)
    || (mode == "lab" && high == 50.0 && low == 25.0) || (mode == "admin" && high == 30.0 && low == 15.0)
    || (mode == "break" && high == 40.0 && low == 20.0) || (mode == "after_hours" && high == 60.0 && low == 30.0)
    || (mode == "peak_hour" && high == 25.0 && low == 12.0) || (mode == "congestion" && high == 15.0 && low == 8.0)
    || (mode == "ddos" && high == 20.0 && low == 10.0) || (mode == "combined" && high == 18.0 && low == 9.0)
  }

  const MODES := {"exam", "lecture", "lab", "admin", "break", "after_hours", "peak_hour", "congestion", "ddos",
      "combined"}

  lemma {:induction false} ModeThresholds(s: Ctl, mode: Option<string>)
    ensures var t := Timetabled(s, mode);
            if mode.None? || mode.value == s.mode then t == s
            else
              && t.mode == mode.value && t.th.portHigh == s.th.portHigh && t.th.portLow == s.th.portLow
              && (mode.value in MODES ==> InTimetable(mode.value, t.th.high, t.th.low))
              && (mode.value !in MODES ==> t.th.high == 40.0 && t.th.low == 20.0)
  {
  }

  lemma {:induction false} SetKeepsThresholds(cfg: Config, s: Ctl, mbps: real)
    ensures SetReroute(cfg, s, true, mbps).th == s.th && SetReroute(cfg, s, true, mbps).mode == s.mode
  {
  }

  lemma {:induction false} TimeoutKeepsThresholds(cfg: Config, s: Ctl, now: real)
    ensures CheckTimeout(cfg, s, now).th == s.th && CheckTimeout(cfg, s, now).mode == s.mode
  {
    SetKeepsThresholds(cfg, s.(pending := false, trace := s.trace + [TimedOut(s.core)]), s.core);
  }

  /** A round without messages that finds a new mode puts that mode's thresholds in force, 40
      and 20 for a mode that the timetable does not know; the same mode again, or none,
      changes nothing. The port thresholds stay. */
  lemma {:induction false} ModeTakesEffect(cfg: Config, s: Ctl, env: Env, mode: Option<string>)
    requires !Fresh(s, env) && !Overrides(env.manual)
    ensures var t := Next(cfg, s, Tick(env, mode));
            && t.th.portHigh == s.th.portHigh && t.th.portLow == s.th.portLow
            && (if mode.None? || mode.value == s.mode then t.th == s.th && t.mode == s.mode
                else
                  && t.mode == mode.value
                  && (mode.value in MODES ==> InTimetable(mode.value, t.th.high, t.th.low))
                  && (mode.value !in MODES ==> t.th.high == 40.0 && t.th.low == 20.0))
  {
    assert Hook(cfg, s, env) == s;
    ModeThresholds(s, mode);
    TimeoutKeepsThresholds(cfg, Timetabled(s, mode), env.now);
  }

  // ----- Without the agent -----

  /** Without the agent a new message sets the reroute outright if it says so, and otherwise
      by the last routing choice known; an old one does nothing. */
  lemma {:induction false} MessageForces(cfg: Config, s: Ctl, env: Env)
    requires !cfg.dqn
    ensures var t := Hook(cfg, s, env);
            if env.file.Some? && env.file.value.mtime > s.seen then
              var a := env.file.value.action;
              var choice := if a.choice.Some? then a.choice else s.choice;
              if a.force.Some? then t.active == a.force.value
              else if choice.Some? && AsksForBackup(choice.value) then t.active
              else if choice.Some? && AsksForPrimary(choice.value) then !t.active
              else t.active == s.active
            else t.active == s.active
  {
    if Fresh(s, env) {
      ReadMessage(s, env.file.value, env.manual);
    }
  }

  // ----- Hysteresis -----

  predicate PortHit(s: Ctl, step: Step, key: PortKey) {
    step.Sample? && step.key == key && step.util >= s.th.portHigh
  }

  predicate PortFall(s: Ctl, step: Step, key: PortKey) {
    step.Sample? && step.key == key && step.util <= s.th.portLow
  }

  predicate CoreHit(s: Ctl, step: Step) { step.Sample? && step.key == (1, 1) && step.mbps >= s.th.high }

  predicate CoreFall(s: Ctl, step: Step) { step.Sample? && step.key == (1, 1) && step.mbps <= s.th.low }

  function PortHits(cfg: Config, s: Ctl, steps: seq<Step>, key: PortKey): (r: seq<bool>)
    ensures |r| == |steps|
    ensures forall i :: 0 <= i < |steps| ==> r[i] == PortHit(At(cfg, s, steps, i), steps[i], key)
  {
    seq(|steps|, i requires 0 <= i < |steps| => PortHit(At(cfg, s, steps, i), steps[i], key))
  }

  function PortFalls(cfg: Config, s: Ctl, steps: seq<Step>, key: PortKey): (r: seq<bool>)
    ensures |r| == |steps|
    ensures forall i :: 0 <= i < |steps| ==> r[i] == PortFall(At(cfg, s, steps, i), steps[i], key)
  {
    seq(|steps|, i requires 0 <= i < |steps| => PortFall(At(cfg, s, steps, i), steps[i], key))
  }

  function CoreHits(cfg: Config, s: Ctl, steps: seq<Step>): (r: seq<bool>)
    ensures |r| == |steps|
    ensures forall i :: 0 <= i < |steps| ==> r[i] == CoreHit(At(cfg, s, steps, i), steps[i])
  {
    seq(|steps|, i requires 0 <= i < |steps| => CoreHit(At(cfg, s, steps, i), steps[i]))
  }

  function CoreFalls(cfg: Config, s: Ctl, steps: seq<Step>): (r: seq<bool>)
    ensures |r| == |steps|
    ensures forall i :: 0 <= i < |steps| ==> r[i] == CoreFall(At(cfg, s, steps, i), steps[i])
  {
    seq(|steps|, i requires 0 <= i < |steps| => CoreFall(At(cfg, s, steps, i), steps[i]))
  }

  /** Switching the policy changes no measurement and no request. */
  lemma {:induction false} SetKeeps(cfg: Config, s: Ctl, enabled: bool, mbps: real)
    ensures var t := SetReroute(cfg, s, enabled, mbps);
            t.congested == s.congested && t.throughput == s.throughput && t.pending == s.pending
  {
  }

  lemma {:induction false} DecisionKeeps(cfg: Config, s: Ctl, a: AgentAction, mbps: real)
    ensures var t := ApplyDecision(cfg, s, a, mbps);
            t.congested == s.congested && t.throughput == s.throughput && !t.pending
    ensures var t := ApplyForce(cfg, s, a);
            t.congested == s.congested && t.throughput == s.throughput && t.pending == s.pending
  {
    SetKeeps(cfg, s.(pending := false), Resolve(s, a, mbps), mbps);
    if a.force.Some? {
      SetKeeps(cfg, s, a.force.value, s.core);
    } else {
      SetKeeps(cfg, s, s.choice.Some? && s.choice.value in BACKUP_CHOICES, s.core);
    }
  }

  lemma {:induction false} HookKeeps(cfg: Config, s: Ctl, env: Env)
    ensures var t := Hook(cfg, s, env);
            t.congested == s.congested && t.throughput == s.throughput && (!s.pending ==> !t.pending)
  {
    if Fresh(s, env) {
      var s1 := ReadAction(s, env.file.value, env.manual);
      assert s1.throughput == s.throughput;
      ReadMessage(s, env.file.value, env.manual);
      DecisionKeeps(cfg, s1, env.file.value.action, s1.core);
    }
  }

  lemma {:induction false} AskKeeps(cfg: Config, s: Ctl, reason: string, enabled: bool, mbps: real, env: Env)
    ensures var t := AskAgent(cfg, s, reason, enabled, mbps, env);
            t.congested == s.congested && t.throughput == s.throughput
  {
    var s1 := Hook(cfg, Trigger(cfg, s, reason, mbps, env.now), env);
    HookKeeps(cfg, Trigger(cfg, s, reason, mbps, env.now), env);
    SetKeeps(cfg, s1, enabled, mbps);
  }

  lemma {:induction false} EvaluateKeeps(cfg: Config, s: Ctl, mbps: real, env: Env)
    ensures var t := Evaluate(cfg, s, mbps, env);
            && t.congested == s.congested && t.throughput == TrackThroughput(s, mbps).throughput
            && (!cfg.dqn && !s.pending ==> !t.pending)
  {
    var s1 := TrackThroughput(s, mbps);
    AskKeeps(cfg, s1, "congestion_high", true, mbps, env);
    AskKeeps(cfg, s1, "congestion_low", false, mbps, env);
    SetKeeps(cfg, s1, true, mbps);
    SetKeeps(cfg, s1, false, mbps);
  }

  lemma {:induction false} TickKeeps(cfg: Config, s: Ctl, env: Env, mode: Option<string>)
    ensures var t := Ticked(cfg, s, env, mode);
            t.congested == s.congested && t.throughput == s.throughput && (!s.pending ==> !t.pending)
  {
    HookKeeps(cfg, s, env);
    var s1 := Timetabled(Hook(cfg, s, env), mode);
    SetKeeps(cfg, s1.(pending := false, trace := s1.trace + [TimedOut(s1.core)]), true, s1.core);
  }

  lemma {:induction false} PortStep(cfg: Config, s: Ctl, step: Step, key: PortKey)
    requires s.th.portLow < s.th.portHigh
    ensures key in Next(cfg, s, step).congested <==>
            PortHit(s, step, key) || (key in s.congested && !PortFall(s, step, key))
  {
    match step
    case Sample(k, util, mbps, env) => EvaluateKeeps(cfg, UpdatePort(s, k, util).(core := mbps), mbps, env);
    case Tick(env, mode) => TickKeeps(cfg, s, env, mode);
    case _ =>
  }

  ghost predicate PortsOrdered(cfg: Config, s: Ctl, steps: seq<Step>) {
    forall i :: 0 <= i < |steps| ==> At(cfg, s, steps, i).th.portLow < At(cfg, s, steps, i).th.portHigh
  }

  ghost predicate CoreOrdered(cfg: Config, s: Ctl, steps: seq<Step>) {
    forall i :: 0 <= i < |steps| ==> At(cfg, s, steps, i).th.low < At(cfg, s, steps, i).th.high
  }

  function PortFlags(cfg: Config, s: Ctl, steps: seq<Step>, key: PortKey): (r: seq<bool>)
    ensures |r| == |steps| + 1
    ensures forall i :: 0 <= i <= |steps| ==> r[i] == (key in At(cfg, s, steps, i).congested)
  {
    seq(|steps| + 1, i requires 0 <= i <= |steps| => key in At(cfg, s, steps, i).congested)
  }

  lemma {:induction false} PortRecurs(cfg: Config, s: Ctl, steps: seq<Step>, key: PortKey, i: nat)
    requires i < |steps| && PortsOrdered(cfg, s, steps)
    ensures PortFlags(cfg, s, steps, key)[i + 1] ==
            (PortHits(cfg, s, steps, key)[i] || (PortFlags(cfg, s, steps, key)[i] && !PortFalls(cfg, s, steps, key)[i]))
  {
    PortStep(cfg, At(cfg, s, steps, i), steps[i], key);
  }

  /** Over runs with ordered thresholds: a port is congested if and only if some sample of it
      was at or above its high threshold and no later one at or below its low threshold,
      each as in force at the time. */
  lemma {:induction false} PortCongestedExactly(cfg: Config, s: Ctl, steps: seq<Step>, key: PortKey, n: nat)
    requires n <= |steps| && key !in s.congested && PortsOrdered(cfg, s, steps)
    ensures key in At(cfg, s, steps, n).congested <==>
            HitLast(PortHits(cfg, s, steps, key), PortFalls(cfg, s, steps, key), n)
  {
    forall i | 0 <= i < |steps|
      ensures PortFlags(cfg, s, steps, key)[i + 1] ==
              (PortHits(cfg, s, steps, key)[i]
                  || (PortFlags(cfg, s, steps, key)[i] && !PortFalls(cfg, s, steps, key)[i]))
    {
      PortRecurs(cfg, s, steps, key, i);
    }
    Latched(PortFlags(cfg, s, steps, key), PortHits(cfg, s, steps, key), PortFalls(cfg, s, steps, key), n);
  }

  lemma {:induction false} ThroughputStep(cfg: Config, s: Ctl, step: Step)
    requires s.th.low < s.th.high
    ensures Next(cfg, s, step).throughput <==> CoreHit(s, step) || (s.throughput && !CoreFall(s, step))
  {
    match step
    case Sample(k, util, mbps, env) =>
      var s1 := UpdatePort(s, k, util).(core := mbps);
      assert s1.throughput == s.throughput && s1.th == s.th;
      EvaluateKeeps(cfg, s1, mbps, env);
    case Tick(env, mode) => TickKeeps(cfg, s, env, mode);
    case _ =>
  }

  function ThroughputFlags(cfg: Config, s: Ctl, steps: seq<Step>): (r: seq<bool>)
    ensures |r| == |steps| + 1
    ensures forall i :: 0 <= i <= |steps| ==> r[i] == At(cfg, s, steps, i).throughput
  {
    seq(|steps| + 1, i requires 0 <= i <= |steps| => At(cfg, s, steps, i).throughput)
  }

  lemma {:induction false} ThroughputRecurs(cfg: Config, s: Ctl, steps: seq<Step>, i: nat)
    requires i < |steps| && CoreOrdered(cfg, s, steps)
    ensures ThroughputFlags(cfg, s, steps)[i + 1] ==
            (CoreHits(cfg, s, steps)[i] || (ThroughputFlags(cfg, s, steps)[i] && !CoreFalls(cfg, s, steps)[i]))
  {
    ThroughputStep(cfg, At(cfg, s, steps, i), steps[i]);
  }

  /** The same of the flag for the core link's throughput. */
  lemma {:induction false} ThroughputExactly(cfg: Config, s: Ctl, steps: seq<Step>, n: nat)
    requires n <= |steps| && !s.throughput && CoreOrdered(cfg, s, steps)
    ensures At(cfg, s, steps, n).throughput <==> HitLast(CoreHits(cfg, s, steps), CoreFalls(cfg, s, steps), n)
  {
    forall i | 0 <= i < |steps|
      ensures ThroughputFlags(cfg, s, steps)[i + 1] ==
              (CoreHits(cfg, s, steps)[i] || (ThroughputFlags(cfg, s, steps)[i] && !CoreFalls(cfg, s, steps)[i]))
    {
      ThroughputRecurs(cfg, s, steps, i);
    }
    Latched(ThroughputFlags(cfg, s, steps), CoreHits(cfg, s, steps), CoreFalls(cfg, s, steps), n);
  }

  // ----- The reroute without an agent -----

  /** No round finds a new message. */
  ghost predicate NoMessages(cfg: Config, s: Ctl, steps: seq<Step>) {
    forall i :: 0 <= i < |steps| && steps[i].Tick? ==> !Fresh(At(cfg, s, steps, i), steps[i].env)
  }

  lemma {:induction false} NothingPending(cfg: Config, s: Ctl, steps: seq<Step>, n: nat)
    requires !cfg.dqn && !s.pending && n <= |steps|
    ensures !At(cfg, s, steps, n).pending
  {
    if n > 0 {
      NothingPending(cfg, s, steps, n - 1);
      StillNothing(cfg, At(cfg, s, steps, n - 1), steps[n - 1]);
    }
  }

  lemma {:induction false} StillNothing(cfg: Config, s: Ctl, step: Step)
    requires !cfg.dqn && !s.pending
    ensures !Next(cfg, s, step).pending
  {
    match step
    case Sample(k, util, mbps, env) => EvaluateKeeps(cfg, UpdatePort(s, k, util).(core := mbps), mbps, env);
    case Tick(env, mode) => TickKeeps(cfg, s, env, mode);
    case _ =>
  }

  lemma {:induction false} ActiveStep(cfg: Config, s: Ctl, step: Step)
    requires !cfg.dqn && !s.pending && s.th.low < s.th.high && (step.Tick? ==> !Fresh(s, step.env))
    ensures Next(cfg, s, step).active <==> CoreHit(s, step) || (s.active && !CoreFall(s, step))
  {
    match step
    case Sample(k, util, mbps, env) =>
      var s1 := TrackThroughput(UpdatePort(s, k, util).(core := mbps), mbps);
      assert s1.active == s.active && s1.th == s.th;
    case _ =>
  }

  function ActiveFlags(cfg: Config, s: Ctl, steps: seq<Step>): (r: seq<bool>)
    ensures |r| == |steps| + 1
    ensures forall i :: 0 <= i <= |steps| ==> r[i] == At(cfg, s, steps, i).active
  {
    seq(|steps| + 1, i requires 0 <= i <= |steps| => At(cfg, s, steps, i).active)
  }

  lemma {:induction false} ActiveRecurs(cfg: Config, s: Ctl, steps: seq<Step>, i: nat)
    requires i < |steps| && !cfg.dqn && !s.pending && CoreOrdered(cfg, s, steps) && NoMessages(cfg, s, steps)
    ensures ActiveFlags(cfg, s, steps)[i + 1] ==
            (CoreHits(cfg, s, steps)[i] || (ActiveFlags(cfg, s, steps)[i] && !CoreFalls(cfg, s, steps)[i]))
  {
    NothingPending(cfg, s, steps, i);
    ActiveStep(cfg, At(cfg, s, steps, i), steps[i]);
  }

  /** Without an agent and without messages: the reroute is on if and only if some core sample
      was at or above the high threshold and no later one at or below the low one. */
  lemma {:induction false} ActiveExactly(cfg: Config, s: Ctl, steps: seq<Step>, n: nat)
    requires !cfg.dqn && n <= |steps| && !s.active && !s.pending
    requires CoreOrdered(cfg, s, steps) && NoMessages(cfg, s, steps)
    ensures At(cfg, s, steps, n).active <==> HitLast(CoreHits(cfg, s, steps), CoreFalls(cfg, s, steps), n)
  {
    forall i | 0 <= i < |steps|
      ensures ActiveFlags(cfg, s, steps)[i + 1] ==
              (CoreHits(cfg, s, steps)[i] || (ActiveFlags(cfg, s, steps)[i] && !CoreFalls(cfg, s, steps)[i]))
    {
      ActiveRecurs(cfg, s, steps, i);
    }
    Latched(ActiveFlags(cfg, s, steps), CoreHits(cfg, s, steps), CoreFalls(cfg, s, steps), n);
  }
}
