/** The alarm shared by the two attack detectors: when it is on, over all runs, and two runs
    in which it says something else than the records. */
module AttackAlarm {
  import opened Prelude
  import opened FloodDetector

  /** The step records a new flood or a new attacking address. */
  predicate Raises(s: Detector, step: Step) {
    match step
    case PacketIn(dpid, _, now, _, _) =>
      |Popped(Window(s.times, dpid) + [now], now - WINDOW)| as real / WINDOW >= THRESHOLD && dpid !in s.flooded
    case Exceeds(switches, ip, _) => switches != [] && ip !in s.attackers
    case _ => false
  }

  /** The step is a data-plane clean-up that expires some address and leaves none. */
  predicate Clears(s: Detector, step: Step) {
    step.DataCleanup? && Lapsed(s, step.now) != {} && s.attackers.Keys <= Lapsed(s, step.now)
  }

  lemma {:induction false} NoneLeft(m: map<int, real>, gone: set<int>)
    ensures m - gone == map[] <==> m.Keys <= gone
  {
    var rest := m - gone;
    assert forall ip :: ip in rest <==> ip in m && ip !in gone;
    if m.Keys <= gone && rest != map[] {
      var ip := Pick(rest.Keys);
    }
  }

  lemma {:induction false} UnblockedAlarm(s: Detector, now: real)
    requires s.attackers != map[] ==> s.ddosActive
    ensures var t := Unblocked(s, now);
            && t.ddosActive == (s.ddosActive && !Clears(s, DataCleanup(now)))
            && (t.attackers != map[] ==> t.ddosActive)
  {
    NoneLeft(s.attackers, Lapsed(s, now));
  }

  lemma {:induction false} AlarmStep(s: Detector, step: Step)
    requires s.attackers != map[] ==> s.ddosActive
    ensures var t := Next(s, step);
            && t.ddosActive == (Raises(s, step) || (s.ddosActive && !Clears(s, step)))
            && (t.attackers != map[] ==> t.ddosActive)
  {
    if step.DataCleanup? {
      UnblockedAlarm(s, step.now);
    }
  }

  lemma {:induction false} AttackersAlarm(steps: seq<Step>, n: nat)
    requires n <= |steps|
    ensures At(START, steps, n).attackers != map[] ==> At(START, steps, n).ddosActive
  {
    if n > 0 {
      AttackersAlarm(steps, n - 1);
      AlarmStep(At(START, steps, n - 1), steps[n - 1]);
    }
  }

  /** Which steps of a run raise the alarm, and which clear it. */
  function Raising(steps: seq<Step>): (r: seq<bool>)
    ensures |r| == |steps|
    ensures forall k :: 0 <= k < |steps| ==> r[k] == Raises(At(START, steps, k), steps[k])
  {
    seq(|steps|, k requires 0 <= k < |steps| => Raises(At(START, steps, k), steps[k]))
  }

  function Clearing(steps: seq<Step>): (r: seq<bool>)
    ensures |r| == |steps|
    ensures forall k :: 0 <= k < |steps| ==> r[k] == Clears(At(START, steps, k), steps[k])
  {
    seq(|steps|, k requires 0 <= k < |steps| => Clears(At(START, steps, k), steps[k]))
  }

  /** Since step m the alarm has been cleared, and not been raised after that. */
  predicate Off(raising: seq<bool>, clearing: seq<bool>, m: nat, n: nat)
    requires n <= |raising| == |clearing|
    decreases n
  {
    m < n && !raising[n - 1] && (clearing[n - 1] || Off(raising, clearing, m, n - 1))
  }

  ghost predicate ClearedAt(raising: seq<bool>, clearing: seq<bool>, k: nat, n: nat)
    requires k < n <= |raising| == |clearing|
  {
    clearing[k] && forall j :: k <= j < n ==> !raising[j]
  }

  lemma {:induction false} OffMeaning(raising: seq<bool>, clearing: seq<bool>, m: nat, n: nat)
    requires n <= |raising| == |clearing|
    ensures Off(raising, clearing, m, n) <==> exists k :: m <= k < n && ClearedAt(raising, clearing, k, n)
    decreases n
  {
    if m < n {
      OffMeaning(raising, clearing, m, n - 1);
      if Off(raising, clearing, m, n) {
        if clearing[n - 1] {
          assert ClearedAt(raising, clearing, n - 1, n);
        } else {
          var k :| m <= k < n - 1 && ClearedAt(raising, clearing, k, n - 1);
          assert ClearedAt(raising, clearing, k, n);
        }
      }
      if k :| m <= k < n && ClearedAt(raising, clearing, k, n) {
        assert k < n - 1 ==> ClearedAt(raising, clearing, k, n - 1);
      }
    }
  }

  /** The alarm before each step and after the last. */
  function Alarms(steps: seq<Step>): (r: seq<bool>)
    ensures |r| == |steps| + 1
    ensures forall k :: 0 <= k <= |steps| ==> r[k] == At(START, steps, k).ddosActive
  {
    seq(|steps| + 1, k requires 0 <= k <= |steps| => At(START, steps, k).ddosActive)
  }

  lemma {:induction false} AlarmsRecur(steps: seq<Step>, n: nat)
    requires n < |steps|
    ensures Alarms(steps)[n + 1] == (Raising(steps)[n] || (Alarms(steps)[n] && !Clearing(steps)[n]))
  {
    AttackersAlarm(steps, n);
    AlarmStep(At(START, steps, n), steps[n]);
  }

  lemma {:induction false} FlagsOff(alarms: seq<bool>, raising: seq<bool>, clearing: seq<bool>, m: nat, n: nat)
    requires m <= n <= |raising| == |clearing| == |alarms| - 1 && alarms[m]
    requires forall k :: 0 <= k < |raising| ==> alarms[k + 1] == (raising[k] || (alarms[k] && !clearing[k]))
    ensures !alarms[n] <==> Off(raising, clearing, m, n)
    decreases n
  {
    if m < n {
      FlagsOff(alarms, raising, clearing, m, n - 1);
      assert alarms[n - 1 + 1] == (raising[n - 1] || (alarms[n - 1] && !clearing[n - 1]));
    }
  }

  /** The alarm, once on, is off later if and only if some data-plane clean-up in between
      expired an attacking address and left none, and nothing was detected since. The
      clean-up of floods plays no part: it neither clears the alarm when the last flood is
      over nor keeps it on while one lasts. */
  lemma {:induction false} AlarmExactly(steps: seq<Step>, m: nat, n: nat)
    requires m <= n <= |steps| && At(START, steps, m).ddosActive
    ensures !At(START, steps, n).ddosActive <==>
            exists k :: m <= k < n && ClearedAt(Raising(steps), Clearing(steps), k, n)
  {
    forall k | 0 <= k < |steps|
      ensures Alarms(steps)[k + 1] == (Raising(steps)[k] || (Alarms(steps)[k] && !Clearing(steps)[k]))
    {
      AlarmsRecur(steps, k);
    }
    FlagsOff(Alarms(steps), Raising(steps), Clearing(steps), m, n);
    OffMeaning(Raising(steps), Clearing(steps), m, n);
  }

  // ----- Two runs -----

  lemma {:induction false} AtPrefix(s: Detector, steps: seq<Step>, more: seq<Step>, n: nat)
    requires n <= |steps| && steps <= more
    ensures At(s, steps, n) == At(s, more, n)
    ensures TimelyRun(s, steps, n) == TimelyRun(s, more, n)
  {
    if n > 0 {
      AtPrefix(s, steps, more, n - 1);
    }
  }

  /** A timely run from the start that ends in s. */
  ghost predicate Reaches(steps: seq<Step>, s: Detector) {
    TimelyRun(START, steps, |steps|) && At(START, steps, |steps|) == s
  }

  lemma {:induction false} OneStep(steps: seq<Step>, s: Detector, step: Step)
    requires Reaches(steps, s) && Timely(s, step)
    ensures Reaches(steps + [step], Next(s, step))
  {
    var more := steps + [step];
    AtPrefix(START, steps, more, |steps|);
    assert more[|steps|] == step;
    assert At(START, more, |steps| + 1) == Next(s, step);
    assert TimelyRun(START, more, |steps| + 1);
  }

  /** From s, n packet-ins of one new switch at one moment have been heard. */
  ghost predicate Heard(s: Detector, t: Detector, dpid: int, now: real, n: nat) {
    && |Window(t.times, dpid)| == n && (forall i :: 0 <= i < n ==> Window(t.times, dpid)[i] == now)
    && t.clock <= now && t.attackers == s.attackers
    && (if n < 75 then t.flooded == s.flooded else t.flooded == s.flooded[dpid := now])
    && (n == 75 ==> t.floodActive && t.ddosActive && t.attackType == Some("ctrl_plane"))
  }

  lemma {:induction false} HearsOneMore(s: Detector, t: Detector, dpid: int, now: real, n: nat) returns (u: Detector)
    requires n < 75 && dpid !in s.flooded && Heard(s, t, dpid, now, n)
    ensures u == Next(t, PacketIn(dpid, 1, now, now, 0.0)) && Timely(t, PacketIn(dpid, 1, now, now, 0.0))
    ensures Heard(s, u, dpid, now, n + 1)
  {
    u := Tracked(t, dpid, 1, now, now, 0.0);
    var times := Window(t.times, dpid) + [now];
    assert times[0] == now;
    assert Popped(times, now - WINDOW) == times;
    assert |times| as real / WINDOW >= THRESHOLD <==> n + 1 >= 75;
  }

  lemma {:induction false} Burst(prefix: seq<Step>, s: Detector, dpid: int, now: real, n: nat)
    returns (steps: seq<Step>, t: Detector)
    requires n <= 75 && Reaches(prefix, s) && s.clock <= now && dpid !in s.times && dpid !in s.flooded
    ensures Reaches(steps, t) && Heard(s, t, dpid, now, n)
  {
    if n == 0 {
      steps, t := prefix, s;
    } else {
      var before, u := Burst(prefix, s, dpid, now, n - 1);
      t := HearsOneMore(s, u, dpid, now, n - 1);
      steps := before + [PacketIn(dpid, 1, now, now, 0.0)];
      OneStep(before, u, PacketIn(dpid, 1, now, now, 0.0));
    }
  }

  /** A flood alone: after its record is cleaned up the alarm is still on. */
  lemma {:induction false} AlarmOutlivesFlood()
    ensures exists steps, s ::
              Reaches(steps, s) && s.flooded == map[] && !s.floodActive && s.ddosActive
                  && s.attackType == Some("ctrl_plane")
  {
    var flood, s := Burst([], START, 1, 1.0, 75);
    assert s.flooded == map[1 := 1.0];
    OneStep(flood, s, Cleanup(33.0));
    assert Expired(s, 33.0) == {1};
    assert s.flooded - {1} == map[];
    assert Reaches(flood + [Cleanup(33.0)], Cleaned(s, 33.0));
  }

  /** A flood after a data-plane attack: the alarm goes off with the older attack while the
      flood is still recorded. */
  lemma {:induction false} AlarmForgetsFlood()
    ensures exists steps, s :: Reaches(steps, s) && s.flooded != map[] && s.floodActive && !s.ddosActive
  {
    var attack := Exceeds([1], 7, 1.0);
    OneStep([], START, attack);
    var flood, s := Burst([] + [attack], Next(START, attack), 1, 2.0, 75);
    assert s.attackers == map[7 := 1.0];
    assert s.flooded == map[1 := 2.0] && 1 in s.flooded;
    OneStep(flood, s, DataCleanup(33.0));
    assert Lapsed(s, 33.0) == {7};
    NoneLeft(s.attackers, {7});
    assert Reaches(flood + [DataCleanup(33.0)], Unblocked(s, 33.0));
  }

  // ----- An address is blocked on one switch -----

  /** The block is the one recorded, or it had expired before that one or by now. */
  predicate BlockAccounted(s: Detector, b: Block) {
    && b.stamp <= s.clock
    && if b.ip in s.attackers then b.stamp == s.attackers[b.ip] || b.stamp + RECORD_EXPIRY <= s.attackers[b.ip]
       else b.stamp + RECORD_EXPIRY <= s.clock
  }

  ghost predicate HasBlock(s: Detector, ip: int)
    requires ip in s.attackers
  {
    exists i :: 0 <= i < |s.blocks| && s.blocks[i].ip == ip && s.blocks[i].stamp == s.attackers[ip]
  }

  ghost predicate BlocksSound(s: Detector) {
    && (forall i :: 0 <= i < |s.blocks| ==> BlockAccounted(s, s.blocks[i]))
    && (forall i, j :: 0 <= i < j < |s.blocks| && s.blocks[i].ip == s.blocks[j].ip ==>
          s.blocks[i].stamp + RECORD_EXPIRY <= s.blocks[j].stamp)
    && (forall ip :: ip in s.attackers ==> HasBlock(s, ip) && s.attackers[ip] <= s.clock)
  }

  lemma {:induction false} NewBlockSound(s: Detector, t: Detector, b: Block)
    requires BlocksSound(s) && s.clock <= b.stamp == t.clock && b.ip !in s.attackers
    requires t.attackers == s.attackers[b.ip := b.stamp] && t.blocks == s.blocks + [b]
    ensures BlocksSound(t)
  {
    forall i | 0 <= i < |t.blocks|
      ensures BlockAccounted(t, t.blocks[i])
    {
      assert i < |s.blocks| ==> BlockAccounted(s, s.blocks[i]);
    }
    forall i, j | 0 <= i < j < |t.blocks| && t.blocks[i].ip == t.blocks[j].ip
      ensures t.blocks[i].stamp + RECORD_EXPIRY <= t.blocks[j].stamp
    {
      assert BlockAccounted(s, s.blocks[i]);
    }
    forall ip | ip in t.attackers
      ensures HasBlock(t, ip) && t.attackers[ip] <= t.clock
    {
      if ip != b.ip {
        var i :| 0 <= i < |s.blocks| && s.blocks[i].ip == ip && s.blocks[i].stamp == s.attackers[ip];
        assert t.blocks[i] == s.blocks[i];
      } else {
        assert t.blocks[|s.blocks|] == b;
      }
    }
  }

  lemma {:induction false} BlockedSound(s: Detector, switches: seq<int>, ip: int, stamp: real)
    requires BlocksSound(s) && s.clock <= stamp
    ensures BlocksSound(Blocked(s, switches, ip, stamp))
  {
    if switches == [] || ip in s.attackers {
      LaterBlocksSound(s, Blocked(s, switches, ip, stamp));
    } else {
      NewBlockSound(s, Blocked(s, switches, ip, stamp), Block(switches[0], ip, stamp));
    }
  }

  lemma {:induction false} UnblockedAccounted(s: Detector, now: real, b: Block)
    requires BlockAccounted(s, b) && s.clock <= now && (b.ip in s.attackers ==> s.attackers[b.ip] <= s.clock)
    ensures BlockAccounted(Unblocked(s, now), b)
  {
    assert b.ip in s.attackers ==> b.ip in Unblocked(s, now).attackers || b.ip in Lapsed(s, now);
  }

  lemma {:induction false} UnblockedSound(s: Detector, now: real)
    requires BlocksSound(s) && s.clock <= now
    ensures BlocksSound(Unblocked(s, now))
  {
    var t := Unblocked(s, now);
    forall i | 0 <= i < |t.blocks|
      ensures BlockAccounted(t, t.blocks[i])
    {
      UnblockedAccounted(s, now, s.blocks[i]);
    }
    forall ip | ip in t.attackers
      ensures HasBlock(t, ip) && t.attackers[ip] <= t.clock
    {
      assert HasBlock(s, ip);
    }
  }

  lemma {:induction false} LaterBlocksSound(s: Detector, t: Detector)
    requires BlocksSound(s) && s.clock <= t.clock && t.attackers == s.attackers && t.blocks == s.blocks
    ensures BlocksSound(t)
  {
    forall i | 0 <= i < |t.blocks|
      ensures BlockAccounted(t, t.blocks[i])
    {
      assert BlockAccounted(s, s.blocks[i]);
    }
    forall ip | ip in t.attackers
      ensures HasBlock(t, ip) && t.attackers[ip] <= t.clock
    {
      assert HasBlock(s, ip);
    }
  }

  lemma {:induction false} BlocksStepSound(s: Detector, step: Step)
    requires BlocksSound(s) && Timely(s, step)
    ensures BlocksSound(Next(s, step))
  {
    match step
    case Exceeds(switches, ip, stamp) => BlockedSound(s, switches, ip, stamp);
    case DataCleanup(now) => UnblockedSound(s, now);
    case PacketIn(_, _, _, _, _) => LaterBlocksSound(s, Next(s, step));
    case Cleanup(_) => LaterBlocksSound(s, Next(s, step));
  }

  lemma {:induction false} BlocksRunSound(steps: seq<Step>, n: nat)
    requires n <= |steps| && TimelyRun(START, steps, n)
    ensures BlocksSound(At(START, steps, n))
  {
    if n > 0 {
      BlocksRunSound(steps, n - 1);
      BlocksStepSound(At(START, steps, n - 1), steps[n - 1]);
    }
  }

  /** However many switches are connected, in every reachable state a recorded address is
      blocked by exactly one rule on one switch: another block of the address, on whatever
      switch, is older by the time after which records expire, or longer. */
  lemma {:induction false} BlockedOnce(steps: seq<Step>, n: nat, ip: int) returns (i: nat)
    requires n <= |steps| && TimelyRun(START, steps, n) && ip in At(START, steps, n).attackers
    ensures var s := At(START, steps, n);
            && i < |s.blocks| && s.blocks[i].ip == ip && s.blocks[i].stamp == s.attackers[ip]
            && (forall j :: 0 <= j < |s.blocks| && j != i && s.blocks[j].ip == ip ==>
                  s.blocks[j].stamp + RECORD_EXPIRY <= s.blocks[i].stamp)
  {
    BlocksRunSound(steps, n);
    i := TheBlock(At(START, steps, n), ip);
  }

  lemma {:induction false} TheBlock(s: Detector, ip: int) returns (i: nat)
    requires BlocksSound(s) && ip in s.attackers
    ensures i < |s.blocks| && s.blocks[i].ip == ip && s.blocks[i].stamp == s.attackers[ip]
    ensures forall j :: 0 <= j < |s.blocks| && j != i && s.blocks[j].ip == ip ==>
              s.blocks[j].stamp + RECORD_EXPIRY <= s.blocks[i].stamp
  {
    assert HasBlock(s, ip);
    i :| 0 <= i < |s.blocks| && s.blocks[i].ip == ip && s.blocks[i].stamp == s.attackers[ip];
    forall j | 0 <= j < |s.blocks| && j != i && s.blocks[j].ip == ip
      ensures s.blocks[j].stamp + RECORD_EXPIRY <= s.blocks[i].stamp
    {
      assert BlockAccounted(s, s.blocks[j]) && BlockAccounted(s, s.blocks[i]);
    }
  }
}
