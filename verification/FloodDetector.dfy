/** Attack detection (examples/campus_controller.py): the sliding window of packet-in times
    of each switch, the drop rule for a flooding port, the drop rule for an attacking
    address, the clean-up of both kinds of records, and the alarm they share. Clock
    readings, the delay until a switch has installed a rule, and the moment a port exceeds
    its packet rate are inputs. */
module FloodDetector {
  import opened Prelude

  const WINDOW := 0.5
  const THRESHOLD := 150.0
  const HARD_TIMEOUT := 30.0
  const RECORD_EXPIRY := 32.0

  /** A drop rule for one ingress port: recorded at `stamp`, live on the switch from `from`
      until its hard timeout. */
  datatype Drop = Drop(dpid: int, port: int, stamp: real, from: real)

  function Until(d: Drop): real { d.from + HARD_TIMEOUT }

  predicate Live(d: Drop, t: real) { d.from <= t < Until(d) }

  /** A drop rule for one source address. */
  datatype Block = Block(dpid: int, ip: int, stamp: real)

  /** The detector: window and flood record of each switch, the
      attacking addresses and the alarm flags. For the
      proofs it also holds every packet-in heard since a switch's window was created, every
      drop rule installed, and the latest clock reading. */
  datatype Detector = Detector(
    times: map<int, seq<real>>,
    flooded: map<int, real>,
    attackers: map<int, real>,
    floodActive: bool,
    ddosActive: bool,
    attackType: Option<string>,
    heard: map<int, seq<real>>,
    drops: seq<Drop>,
    blocks: seq<Block>,
    clock: real)

  const START := Detector(map[], map[], map[], false, false, None, map[], [], [], 0.0)

  /** The window without its outdated front. */
  function Popped(times: seq<real>, cutoff: real): seq<real> {
    if times != [] && times[0] < cutoff then Popped(times[1..], cutoff) else times
  }

  /** All readings at or after the cutoff. */
  function Recent(times: seq<real>, cutoff: real): seq<real> {
    if times == [] then []
    else if times[0] >= cutoff then [times[0]] + Recent(times[1..], cutoff)
    else Recent(times[1..], cutoff)
  }

  function Window(m: map<int, seq<real>>, dpid: int): seq<real> {
    if dpid in m then m[dpid] else []
  }

  function Mitigated(s: Detector, dpid: int, port: int, stamp: real, delay: real): Detector {
    s.(flooded := s.flooded[dpid := stamp], floodActive := true, ddosActive := true,
       attackType := Some("ctrl_plane"), drops := s.drops + [Drop(dpid, port, stamp, stamp + delay)])
  }

  function Tracked(s: Detector, dpid: int, port: int, now: real, stamp: real, delay: real): Detector {
    var times := Popped(Window(s.times, dpid) + [now], now - WINDOW);
    var s1 :=
      s.(times := s.times[dpid := times], heard := s.heard[dpid := Window(s.heard, dpid) + [now]], clock := stamp);
    if |times| as real / WINDOW >= THRESHOLD && dpid !in s.flooded then Mitigated(s1, dpid, port, stamp, delay) else s1
  }

  function Expired(s: Detector, now: real): set<int> {
    set d | d in s.flooded && now - s.flooded[d] >= RECORD_EXPIRY
  }

  function Cleaned(s: Detector, now: real): Detector {
    var expired := Expired(s, now);
    var s1 := s.(flooded := s.flooded - expired, times := s.times - expired, heard := s.heard - expired, clock := now);
    if expired == {} then s1
    else
      var active := s1.flooded != map[];
      s1.(floodActive := active, attackType := if !active && !s1.ddosActive then None else s1.attackType)
  }

  /** A port of the host with this address exceeds the packet rate: the first of the
      connected switches gets the drop rule, for then the address counts as blocked. */
  function Blocked(s: Detector, switches: seq<int>, ip: int, stamp: real): Detector {
    if switches == [] || ip in s.attackers then s.(clock := stamp)
    else
      s.(attackers := s.attackers[ip := stamp], ddosActive := true,
         attackType := if s.attackType.None? then Some("data_plane") else s.attackType,
         blocks := s.blocks + [Block(switches[0], ip, stamp)], clock := stamp)
  }

  function Lapsed(s: Detector, now: real): set<int> {
    set ip | ip in s.attackers && now - s.attackers[ip] >= RECORD_EXPIRY
  }

  function Unblocked(s: Detector, now: real): Detector {
    var lapsed := Lapsed(s, now);
    var s1 := s.(attackers := s.attackers - lapsed, clock := now);
    if lapsed == {} then s1
    else
      var active := s1.attackers != map[];
      s1.(ddosActive := active, attackType := if !active && !s1.floodActive then None else s1.attackType)
  }

  datatype Step =
    | PacketIn(dpid: int, port: int, now: real, stamp: real, delay: real)
    | Cleanup(now: real)
    | Exceeds(switches: seq<int>, ip: int, stamp: real)
    | DataCleanup(now: real)

  /** The clock does not go back, and a switch installs a rule within two seconds. */
  predicate Timely(s: Detector, step: Step) {
    match step
    case PacketIn(_, _, now, stamp, delay) => s.clock <= now <= stamp && 0.0 <= delay <= 2.0
    case Cleanup(now) => s.clock <= now
    case Exceeds(_, _, stamp) => s.clock <= stamp
    case DataCleanup(now) => s.clock <= now
  }

  function Next(s: Detector, step: Step): Detector {
    match step
    case PacketIn(dpid, port, now, stamp, delay) => Tracked(s, dpid, port, now, stamp, delay)
    case Cleanup(now) => Cleaned(s, now)
    case Exceeds(switches, ip, stamp) => Blocked(s, switches, ip, stamp)
    case DataCleanup(now) => Unblocked(s, now)
  }

  function At(s: Detector, steps: seq<Step>, n: nat): Detector
    requires n <= |steps|
  {
    if n == 0 then s else Next(At(s, steps, n - 1), steps[n - 1])
  }

  ghost predicate TimelyRun(s: Detector, steps: seq<Step>, n: nat)
    requires n <= |steps|
  {
    n > 0 ==> TimelyRun(s, steps, n - 1) && Timely(At(s, steps, n - 1), steps[n - 1])
  }

  // ----- The window is the recent history -----

  ghost predicate Rising(times: seq<real>, top: real) {
    && (forall i, j :: 0 <= i < j < |times| ==> times[i] <= times[j])
    && (forall i :: 0 <= i < |times| ==> times[i] <= top)
  }

  lemma {:induction false} PoppedIsRecent(times: seq<real>, cutoff: real)
    requires forall i, j :: 0 <= i < j < |times| ==> times[i] <= times[j]
    ensures Popped(times, cutoff) == Recent(times, cutoff)
  {
    if times != [] {
      PoppedIsRecent(times[1..], cutoff);
      if times[0] >= cutoff {
        assert times == [times[0]] + times[1..];
        assert |times| > 1 ==> times[1] >= cutoff;
      }
    }
  }

  /** What an earlier cutoff removed, a later one would have removed too. */
  lemma {:induction false} PopLater(times: seq<real>, more: seq<real>, earlier: real, cutoff: real)
    requires earlier <= cutoff
    ensures Popped(Popped(times, earlier) + more, cutoff) == Popped(times + more, cutoff)
  {
    if times != [] && times[0] < earlier {
      PopLater(times[1..], more, earlier, cutoff);
      assert (times + more)[1..] == times[1..] + more;
    }
  }

  /** The window of a switch is what it heard up to the last packet-in, from WINDOW before it. */
  ghost predicate WindowFits(times: seq<real>, heard: seq<real>, clock: real) {
    heard != [] && Rising(heard, clock) && times == Recent(heard, heard[|heard| - 1] - WINDOW)
  }

  lemma {:induction false} HearOne(times: seq<real>, heard: seq<real>, clock: real, now: real, stamp: real)
    requires WindowFits(times, heard, clock) && clock <= now <= stamp
    ensures WindowFits(Popped(times + [now], now - WINDOW), heard + [now], stamp)
  {
    var earlier := heard[|heard| - 1] - WINDOW;
    PoppedIsRecent(heard, earlier);
    PopLater(heard, [now], earlier, now - WINDOW);
    PoppedIsRecent(heard + [now], now - WINDOW);
  }

  lemma {:induction false} HearFirst(now: real, stamp: real)
    requires now <= stamp
    ensures WindowFits(Popped([] + [now], now - WINDOW), [] + [now], stamp)
  {
    PoppedIsRecent([] + [now], now - WINDOW);
  }

  // ----- Rules and records -----

  /** A rule is still recorded, or it has timed out on its switch. */
  predicate Accounted(s: Detector, d: Drop) {
    d.stamp <= d.from <= d.stamp + 2.0 && d.stamp <= s.clock
    && ((d.dpid in s.flooded && s.flooded[d.dpid] == d.stamp) || Until(d) <= s.clock)
  }

  ghost predicate WindowsSound(s: Detector) {
    && (forall d :: d in s.times <==> d in s.heard)
    && (forall d :: d in s.times ==> WindowFits(s.times[d], s.heard[d], s.clock))
  }

  ghost predicate Sound(s: Detector) {
    && WindowsSound(s)
    && (s.floodActive <==> s.flooded != map[])
    && (forall i :: 0 <= i < |s.drops| ==> Accounted(s, s.drops[i]))
    && (forall i, j :: 0 <= i < j < |s.drops| && s.drops[i].dpid == s.drops[j].dpid ==>
                      Until(s.drops[i]) <= s.drops[j].stamp)
  }

  lemma {:induction false} RisingLater(heard: seq<real>, times: seq<real>, clock: real, later: real)
    requires WindowFits(times, heard, clock) && clock <= later
    ensures WindowFits(times, heard, later)
  {
  }

  lemma {:induction false} TrackWindows(s: Detector, dpid: int, port: int, now: real, stamp: real, delay: real)
    requires WindowsSound(s) && s.clock <= now <= stamp
    ensures WindowsSound(Tracked(s, dpid, port, now, stamp, delay))
  {
    if dpid in s.times {
      HearOne(s.times[dpid], s.heard[dpid], s.clock, now, stamp);
    } else {
      HearFirst(now, stamp);
    }
    var t := Tracked(s, dpid, port, now, stamp, delay);
    forall d | d in t.times
      ensures WindowFits(t.times[d], t.heard[d], t.clock)
    {
      if d != dpid {
        RisingLater(s.heard[d], s.times[d], s.clock, stamp);
      }
    }
  }

  lemma {:induction false} TrackSound(s: Detector, dpid: int, port: int, now: real, stamp: real, delay: real)
    requires Sound(s) && Timely(s, PacketIn(dpid, port, now, stamp, delay))
    ensures Sound(Tracked(s, dpid, port, now, stamp, delay))
  {
    TrackWindows(s, dpid, port, now, stamp, delay);
    var t := Tracked(s, dpid, port, now, stamp, delay);
    forall i | 0 <= i < |t.drops|
      ensures Accounted(t, t.drops[i])
    {
      if i < |s.drops| {
        assert Accounted(s, s.drops[i]);
      }
    }
    assert dpid in t.flooded || t.flooded == s.flooded;
  }

  lemma {:induction false} CleanWindows(s: Detector, now: real)
    requires WindowsSound(s) && s.clock <= now
    ensures WindowsSound(Cleaned(s, now))
  {
    var t := Cleaned(s, now);
    forall d | d in t.times
      ensures WindowFits(t.times[d], t.heard[d], t.clock)
    {
      RisingLater(s.heard[d], s.times[d], s.clock, now);
    }
  }

  lemma {:induction false} CleanSound(s: Detector, now: real)
    requires Sound(s) && s.clock <= now
    ensures Sound(Cleaned(s, now))
  {
    CleanWindows(s, now);
    var t := Cleaned(s, now);
    var expired := Expired(s, now);
    forall i | 0 <= i < |t.drops|
      ensures Accounted(t, t.drops[i])
    {
      var d := s.drops[i];
      assert Accounted(s, d);
      assert d.dpid in expired && s.flooded[d.dpid] == d.stamp ==> Until(d) <= now;
      assert d.dpid in s.flooded && d.dpid !in expired ==> d.dpid in t.flooded;
    }
    if expired == {} {
      assert t.flooded == s.flooded;
    }
  }

  lemma {:induction false} LaterSound(s: Detector, t: Detector)
    requires Sound(s) && s.clock <= t.clock
    requires t.times == s.times && t.heard == s.heard && t.flooded == s.flooded && t.floodActive == s.floodActive
    requires t.drops == s.drops
    ensures Sound(t)
  {
    forall d | d in t.times
      ensures WindowFits(t.times[d], t.heard[d], t.clock)
    {
      RisingLater(s.heard[d], s.times[d], s.clock, t.clock);
    }
    forall i | 0 <= i < |t.drops|
      ensures Accounted(t, t.drops[i])
    {
      assert Accounted(s, s.drops[i]);
    }
  }

  lemma {:induction false} StepSound(s: Detector, step: Step)
    requires Sound(s) && Timely(s, step)
    ensures Sound(Next(s, step))
  {
    match step
    case PacketIn(dpid, port, now, stamp, delay) => TrackSound(s, dpid, port, now, stamp, delay);
    case Cleanup(now) => CleanSound(s, now);
    case Exceeds(_, _, _) => LaterSound(s, Next(s, step));
    case DataCleanup(_) => LaterSound(s, Next(s, step));
  }

  /** Every reachable state is sound. */
  lemma {:induction false} RunSound(steps: seq<Step>, n: nat)
    requires n <= |steps| && TimelyRun(START, steps, n)
    ensures Sound(At(START, steps, n))
  {
    if n > 0 {
      RunSound(steps, n - 1);
      StepSound(At(START, steps, n - 1), steps[n - 1]);
    }
  }

  /** In every reachable state the window of a switch is exactly the packet-ins heard from
      it in the half second up to the last one. */
  lemma {:induction false} WindowIsHistory(steps: seq<Step>, n: nat, dpid: int)
    requires n <= |steps| && TimelyRun(START, steps, n)
    ensures var s := At(START, steps, n);
            && (dpid in s.times <==> dpid in s.heard)
            && (dpid in s.times ==>
                  s.heard[dpid] != []
                  && s.times[dpid] == Recent(s.heard[dpid], s.heard[dpid][|s.heard[dpid]| - 1] - WINDOW))
  {
    RunSound(steps, n);
    SoundWindow(At(START, steps, n), dpid);
  }

  lemma {:induction false} SoundWindow(s: Detector, dpid: int)
    requires Sound(s)
    ensures dpid in s.times <==> dpid in s.heard
    ensures dpid in s.times ==>
              s.heard[dpid] != []
              && s.times[dpid] == Recent(s.heard[dpid], s.heard[dpid][|s.heard[dpid]| - 1] - WINDOW)
  {
    assert dpid in s.times ==> WindowFits(s.times[dpid], s.heard[dpid], s.clock);
  }

  /** A packet-in installs a drop rule if and only if it is at least the seventy-fifth heard
      from its switch within half a second and the switch has no flood record. */
  lemma {:induction false} FloodDetected(steps: seq<Step>, n: nat)
    requires n < |steps| && TimelyRun(START, steps, n + 1) && steps[n].PacketIn?
    ensures var s, p := At(START, steps, n), steps[n];
            At(START, steps, n + 1).drops ==
            if |Recent(Window(s.heard, p.dpid) + [p.now], p.now - WINDOW)| >= 75 && p.dpid !in s.flooded
            then s.drops + [Drop(p.dpid, p.port, p.stamp, p.stamp + p.delay)]
            else s.drops
  {
    RunSound(steps, n);
    TrackedDrops(At(START, steps, n), steps[n]);
  }

  lemma {:induction false} TrackedDrops(s: Detector, p: Step)
    requires Sound(s) && Timely(s, p) && p.PacketIn?
    ensures Next(s, p).drops ==
            if |Recent(Window(s.heard, p.dpid) + [p.now], p.now - WINDOW)| >= 75 && p.dpid !in s.flooded
            then s.drops + [Drop(p.dpid, p.port, p.stamp, p.stamp + p.delay)]
            else s.drops
  {
    if p.dpid in s.times {
      HearOne(s.times[p.dpid], s.heard[p.dpid], s.clock, p.now, p.stamp);
    } else {
      HearFirst(p.now, p.stamp);
    }
    var times := Popped(Window(s.times, p.dpid) + [p.now], p.now - WINDOW);
    assert times == Recent(Window(s.heard, p.dpid) + [p.now], p.now - WINDOW);
    assert |times| as real / WINDOW >= THRESHOLD <==> |times| >= 75;
  }

  /** At most one flood rule is ever live on a switch: of two rules on one switch the first
      has timed out before the second is recorded. */
  lemma {:induction false} OneLiveRule(steps: seq<Step>, n: nat, i: nat, j: nat, t: real)
    requires n <= |steps| && TimelyRun(START, steps, n)
    requires i < j < |At(START, steps, n).drops|
    ensures var drops := At(START, steps, n).drops;
            drops[i].dpid == drops[j].dpid ==> !(Live(drops[i], t) && Live(drops[j], t))
  {
    RunSound(steps, n);
    var s := At(START, steps, n);
    assert Accounted(s, s.drops[i]) && Accounted(s, s.drops[j]);
  }

  /** A record is never removed before its rule's hard timeout: every rule that is live, or
      not even installed yet, has its record, and the flood flag is up. */
  lemma {:induction false} LiveRuleRecorded(steps: seq<Step>, n: nat, i: nat)
    requires n <= |steps| && TimelyRun(START, steps, n)
    requires i < |At(START, steps, n).drops|
    ensures var s := At(START, steps, n);
            s.clock < Until(s.drops[i]) ==>
              s.drops[i].dpid in s.flooded && s.flooded[s.drops[i].dpid] == s.drops[i].stamp && s.floodActive
  {
    RunSound(steps, n);
    var s := At(START, steps, n);
    assert Accounted(s, s.drops[i]);
  }

  // ----- The controller's own fields -----

  class FloodMonitor {
    var ctrlPktInTimes: map<int, seq<real>>
    var ctrlFloodSwitches: map<int, real>
    var ddosAttackerIps: map<int, real>
    var ctrlFloodActive: bool
    var ddosActive: bool
    var attackType: Option<string>
    ghost var heard: map<int, seq<real>>
    ghost var drops: seq<Drop>
    ghost var blocks: seq<Block>
    ghost var clock: real

    ghost function State(): Detector
      reads this
    {
      Detector(ctrlPktInTimes, ctrlFloodSwitches, ddosAttackerIps, ctrlFloodActive, ddosActive, attackType,
               heard, drops, blocks, clock)
    }

    constructor ()
      ensures State() == START
    {
      ctrlPktInTimes, ctrlFloodSwitches, ddosAttackerIps := map[], map[], map[];
      ctrlFloodActive, ddosActive, attackType := false, false, None;
      heard, drops, blocks, clock := map[], [], [], 0.0;
    }

    method TrackPacketIn(dpid: int, port: int, now: real, stamp: real, ghost delay: real)
      modifies this
      ensures State() == Tracked(old(State()), dpid, port, now, stamp, delay)
    {
      var times := if dpid in ctrlPktInTimes then ctrlPktInTimes[dpid] else [];
      times := times + [now];
      var cutoff := now - WINDOW;
      ghost var full := times;
      while times != [] && times[0] < cutoff
        invariant Popped(times, cutoff) == Popped(full, cutoff)
        decreases |times|
      {
        times := times[1..];
      }
      ctrlPktInTimes := ctrlPktInTimes[dpid := times];
      heard := heard[dpid := Window(heard, dpid) + [now]];
      clock := stamp;
      var rate := |times| as real / WINDOW;
      if rate >= THRESHOLD && dpid !in ctrlFloodSwitches {
        Mitigate(dpid, port, stamp, delay);
      }
    }

    method Mitigate(dpid: int, port: int, stamp: real, ghost delay: real)
      modifies this
      ensures State() == if dpid in old(ctrlFloodSwitches) then old(State())
          else Mitigated(old(State()), dpid, port, stamp, delay)
    {
      if dpid in ctrlFloodSwitches {
        return;
      }
      ctrlFloodSwitches := ctrlFloodSwitches[dpid := stamp];
      ctrlFloodActive := true;
      ddosActive := true;
      attackType := Some("ctrl_plane");
      drops := drops + [Drop(dpid, port, stamp, stamp + delay)];
    }

    method Forget(expired: set<int>)
      modifies `ctrlFloodSwitches, `ctrlPktInTimes, `heard
      ensures ctrlFloodSwitches == old(ctrlFloodSwitches) - expired
      ensures ctrlPktInTimes == old(ctrlPktInTimes) - expired
      ensures heard == old(heard) - expired
    {
      var todo := expired;
      assert expired - todo == {};
      while todo != {}
        invariant todo <= expired
        invariant ctrlFloodSwitches == old(ctrlFloodSwitches) - (expired - todo)
        invariant ctrlPktInTimes == old(ctrlPktInTimes) - (expired - todo)
        invariant heard == old(heard) - (expired - todo)
      {
        var dpid := Choose(todo);
        Removed(old(ctrlFloodSwitches), expired, todo, dpid);
        Removed(old(ctrlPktInTimes), expired, todo, dpid);
        Removed(old(heard), expired, todo, dpid);
        ctrlFloodSwitches := ctrlFloodSwitches - {dpid};
        ctrlPktInTimes := ctrlPktInTimes - {dpid};
        heard := heard - {dpid};
        todo := todo - {dpid};
      }
      assert expired - todo == expired;
    }

    method CleanupFloods(now: real)
      modifies this
      ensures State() == Cleaned(old(State()), now)
    {
      var expired := set d | d in ctrlFloodSwitches && now - ctrlFloodSwitches[d] >= RECORD_EXPIRY;
      assert expired == Expired(State(), now);
      Forget(expired);
      clock := now;
      if expired != {} {
        ctrlFloodActive := ctrlFloodSwitches != map[];
        if !ctrlFloodActive && !ddosActive {
          attackType := None;
        }
      }
    }

    /** The address is blocked on one switch, unless it is already. */
    method InstallDrop(dpid: int, ip: int, stamp: real)
      modifies this
      ensures ip in old(ddosAttackerIps) ==> State() == old(State())
      ensures ip !in old(ddosAttackerIps) ==> State() == Blocked(old(State()), [dpid], ip, stamp).(clock := old(clock))
    {
      if ip in ddosAttackerIps {
        return;
      }
      ddosAttackerIps := ddosAttackerIps[ip := stamp];
      ddosActive := true;
      if attackType.None? {
        attackType := Some("data_plane");
      }
      blocks := blocks + [Block(dpid, ip, stamp)];
    }

    /** The loop over all connected switches. */
    method BlockEverywhere(switches: seq<int>, ip: int, stamp: real)
      modifies this
      ensures State() == Blocked(old(State()), switches, ip, stamp)
    {
      if ip !in ddosAttackerIps {
        var i := 0;
        while i < |switches|
          invariant i <= |switches|
          invariant i == 0 ==> State() == old(State())
          invariant i > 0 ==> ip in ddosAttackerIps
          invariant i > 0 ==> State() == Blocked(old(State()), switches, ip, stamp).(clock := old(clock))
        {
          InstallDrop(switches[i], ip, stamp);
          i := i + 1;
        }
      }
      clock := stamp;
    }

    method CleanupAttackers(now: real)
      modifies this
      ensures State() == Unblocked(old(State()), now)
    {
      var lapsed := set ip | ip in ddosAttackerIps && now - ddosAttackerIps[ip] >= RECORD_EXPIRY;
      assert lapsed == Lapsed(State(), now);
      var was := ddosAttackerIps;
      var todo := lapsed;
      assert lapsed - todo == {};
      while todo != {}
        modifies `ddosAttackerIps
        invariant todo <= lapsed && ddosAttackerIps == was - (lapsed - todo)
      {
        var ip := Choose(todo);
        Removed(was, lapsed, todo, ip);
        ddosAttackerIps := ddosAttackerIps - {ip};
        todo := todo - {ip};
      }
      assert lapsed - todo == lapsed;
      clock := now;
      if lapsed != {} {
        ddosActive := ddosAttackerIps != map[];
        if !ddosActive && !ctrlFloodActive {
          attackType := None;
        }
      }
    }
  }

  lemma {:induction false} Removed<V>(m: map<int, V>, gone: set<int>, todo: set<int>, d: int)
    requires d in todo && todo <= gone
    ensures m - (gone - todo) - {d} == m - (gone - (todo - {d}))
  {
    SameMap(m - (gone - todo) - {d}, m - (gone - (todo - {d})));
  }
}
