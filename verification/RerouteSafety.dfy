/** Safety and bounded response of the reroute protocol over all runs: only a core sample at
    or below the low threshold releases a reroute, and a core link that stays congested is
    rerouted by the first monitor round past the agent's deadline. */
module RerouteSafety {
  import opened Reroute

  // ----- Release -----

  /** With the agent on, the one way an active reroute is released: a core sample at or
      below the low threshold in force, with a fresh agent message consumed inside it.
      Whatever the message says, it is not the message that releases. */
  predicate Releases(s: Ctl, step: Step) {
    step.Sample? && IsCorePort(step.key) && step.mbps <= s.th.low
    && Fresh(s, step.env) && step.env.file.value.action.dqn.Some?
  }

  /** No agent message switches an active reroute off, in any handler but the sample. */
  lemma {:induction false} HookHolds(cfg: Config, s: Ctl, env: Env)
    requires cfg.dqn && s.active
    ensures Hook(cfg, s, env).active
    ensures s.pending ==> (Hook(cfg, s, env).pending <==> !(Fresh(s, env) && env.file.value.action.dqn.Some?))
  {
  }

  lemma {:induction false} ReleaseExactly(cfg: Config, s: Ctl, step: Step)
    requires cfg.dqn && s.active
    ensures !Next(cfg, s, step).active <==> Releases(s, step)
  {
    match step
    case Sample(key, util, mbps, env) =>
      if IsCorePort(key) {
        var s1 := TrackThroughput(UpdatePort(s, key, util).(core := mbps), mbps);
        assert s1.th == s.th && s1.active && s1.seen == s.seen;
        HookHolds(cfg, Trigger(cfg, s1, "congestion_low", mbps, env.now), env);
      }
    case Tick(env, mode) => HookHolds(cfg, s, env);
    case _ =>
  }

  /** Over runs: a reroute that is active at one moment and not at a later one was released
      by such a sample in between. */
  lemma {:induction false} ReleasedOnlyBySample(cfg: Config, s: Ctl, steps: seq<Step>, i: nat, j: nat)
    requires cfg.dqn && i <= j <= |steps|
    requires At(cfg, s, steps, i).active && !At(cfg, s, steps, j).active
    ensures exists k :: i <= k < j && Releases(At(cfg, s, steps, k), steps[k])
    decreases j
  {
    if At(cfg, s, steps, j - 1).active {
      ReleaseExactly(cfg, At(cfg, s, steps, j - 1), steps[j - 1]);
    } else {
      ReleasedOnlyBySample(cfg, s, steps, i, j - 1);
    }
  }

  // ----- Bounded response -----

  /** The step leaves the high threshold as it is at every moment inside it. A core sample is
      at or above it, with the low threshold below it and the clock past the epoch. What an
      agent's file or the operator asks for does not matter unless it is taken up. */
  predicate Steady(cfg: Config, s: Ctl, step: Step) {
    match step
    case Sample(key, _, mbps, env) =>
      IsCorePort(key) ==>
        s.th.low < s.th.high <= mbps && env.now > 0.0 && Next(cfg, s, step).th.high == s.th.high
    case Tick(env, _) => Hook(cfg, s, env).th.high == s.th.high && Next(cfg, s, step).th.high == s.th.high
    case _ => true
  }

  /** The core is congested and either the reroute is on or a decision asked for at
      `since` is pending. */
  predicate Responding(s: Ctl, since: real) {
    s.core >= s.th.high && (s.active || (s.pending && s.triggerTs == since))
  }

  /** The decision of a hook is taken under the thresholds it ends with, or under those it
      began with. */
  lemma {:induction false} ReadKeepsHigh(cfg: Config, s: Ctl, env: Env)
    requires Fresh(s, env) && Hook(cfg, s, env).th.high == s.th.high
    ensures ReadAction(s, env.file.value, env.manual).th.high == s.th.high
  {
    var s1 := ReadAction(s, env.file.value, env.manual);
    if !Overrides(env.manual) {
      DecisionKeepsThresholds(cfg, s1, env.file.value.action, s1.core);
    }
  }

  lemma {:induction false} DecisionKeepsThresholds(cfg: Config, s: Ctl, a: AgentAction, mbps: real)
    ensures ApplyDecision(cfg, s, a, mbps).th == s.th && ApplyForce(cfg, s, a).th == s.th
  {
  }

  lemma {:induction false} HookResponds(cfg: Config, s: Ctl, env: Env, since: real)
    requires cfg.dqn && Hook(cfg, s, env).th.high == s.th.high && Responding(s, since)
    ensures var t := Hook(cfg, s, env);
            Responding(t, since) && t.core == s.core && (s.active ==> t.active)
  {
    if Fresh(s, env) {
      ReadKeepsHigh(cfg, s, env);
    }
  }

  lemma {:induction false} StepResponds(cfg: Config, s: Ctl, step: Step, since: real)
    requires cfg.dqn && Steady(cfg, s, step) && Responding(s, since) && since > 0.0
    ensures var t := Next(cfg, s, step);
            && Responding(t, since) && t.th.high == s.th.high
            && (s.active ==> t.active)
            && (step.Tick? && step.env.now >= since + cfg.timeout ==> t.active)
  {
    match step
    case Sample(key, util, mbps, env) =>
      if IsCorePort(key) {
        var s1 := TrackThroughput(UpdatePort(s, key, util).(core := mbps), mbps);
        assert s1.th == s.th && Responding(s1, since);
        if !s1.active {
          HookResponds(cfg, s1, env, since);
        }
      }
    case Tick(env, mode) => HookResponds(cfg, s, env, since);
    case _ =>
  }

  /** Before the first sample nothing is known; right after a core sample the protocol responds. */
  lemma {:induction false} SampleResponds(cfg: Config, s: Ctl, step: Step)
    requires cfg.dqn && Steady(cfg, s, step)
    requires step.Sample? && IsCorePort(step.key)
    requires s.pending ==> s.triggerTs > 0.0
    ensures var t := Next(cfg, s, step);
            t.th.high == s.th.high && (s.pending ==> Responding(t, s.triggerTs))
            && (!s.pending ==> Responding(t, step.env.now))
  {
    var s1 := TrackThroughput(UpdatePort(s, step.key, step.util).(core := step.mbps), step.mbps);
    assert s1.th == s.th;
    if !s1.active {
      var s2 := Trigger(cfg, s1, "congestion_high", step.mbps, step.env.now);
      HookResponds(cfg, s2, step.env, s2.triggerTs);
    }
  }

  ghost predicate SteadyRun(cfg: Config, s: Ctl, steps: seq<Step>, i: nat, n: nat)
    requires i <= n <= |steps|
  {
    forall k :: i <= k < n ==> Steady(cfg, At(cfg, s, steps, k), steps[k])
  }

  lemma {:induction false} RunResponds(cfg: Config, s: Ctl, steps: seq<Step>, i: nat, n: nat, since: real)
    requires cfg.dqn && i <= n <= |steps| && since > 0.0
    requires SteadyRun(cfg, s, steps, i, n)
    requires Responding(At(cfg, s, steps, i), since)
    ensures Responding(At(cfg, s, steps, n), since)
    ensures At(cfg, s, steps, i).active ==> At(cfg, s, steps, n).active
    decreases n
  {
    if i < n {
      RunResponds(cfg, s, steps, i, n - 1, since);
      assert Steady(cfg, At(cfg, s, steps, n - 1), steps[n - 1]);
      StepResponds(cfg, At(cfg, s, steps, n - 1), steps[n - 1], since);
    }
  }

  /** The time of the request a core sample leaves pending: the one already pending, since a
      repeated trigger extends no deadline, or its own. */
  function Deadline(cfg: Config, s: Ctl, sample: Step): real
    requires sample.Sample?
  {
    (if s.pending then s.triggerTs else sample.env.now) + cfg.timeout
  }

  /** Bounded response. Step i is a core sample, and from it on the high threshold is fixed and
      core samples stay at or above it. After every later step the reroute is on
      or a decision is pending whose deadline is the one set at step i; and from the first
      monitor round at or past that deadline on, the reroute is on for good. */
  lemma {:induction false} BoundedResponse(cfg: Config, s: Ctl, steps: seq<Step>, i: nat, j: nat, n: nat)
    requires cfg.dqn && i < j < n <= |steps|
    requires SteadyRun(cfg, s, steps, i, n)
    requires At(cfg, s, steps, i).pending ==> At(cfg, s, steps, i).triggerTs > 0.0
    requires steps[i].Sample? && IsCorePort(steps[i].key)
    ensures var d := Deadline(cfg, At(cfg, s, steps, i), steps[i]);
            && (At(cfg, s, steps, j).active
                || (At(cfg, s, steps, j).pending && At(cfg, s, steps, j).triggerTs + cfg.timeout == d))
            && (steps[j].Tick? && steps[j].env.now >= d ==> At(cfg, s, steps, n).active)
  {
    var since := FirstResponse(cfg, At(cfg, s, steps, i), steps[i]);
    RunResponds(cfg, s, steps, i + 1, j, since);
    DeadlineMet(cfg, s, steps, j, n, since);
  }

  lemma {:induction false} FirstResponse(cfg: Config, a: Ctl, sample: Step) returns (since: real)
    requires cfg.dqn && Steady(cfg, a, sample) && sample.Sample? && IsCorePort(sample.key)
    requires a.pending ==> a.triggerTs > 0.0
    ensures since > 0.0 && since + cfg.timeout == Deadline(cfg, a, sample)
    ensures Responding(Next(cfg, a, sample), since) && Next(cfg, a, sample).th.high == a.th.high
  {
    SampleResponds(cfg, a, sample);
    since := if a.pending then a.triggerTs else sample.env.now;
  }

  lemma {:induction false} DeadlineMet(cfg: Config, s: Ctl, steps: seq<Step>, j: nat, n: nat, since: real)
    requires cfg.dqn && j < n <= |steps| && SteadyRun(cfg, s, steps, j, n) && since > 0.0
    requires Responding(At(cfg, s, steps, j), since)
    ensures steps[j].Tick? && steps[j].env.now >= since + cfg.timeout ==> At(cfg, s, steps, n).active
  {
    assert Steady(cfg, At(cfg, s, steps, j), steps[j]);
    StepResponds(cfg, At(cfg, s, steps, j), steps[j], since);
    RunResponds(cfg, s, steps, j + 1, n, since);
  }
}
