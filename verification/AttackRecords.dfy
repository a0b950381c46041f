/** What the attack detectors remember, over all runs: which switches and addresses are
    recorded, where an address is blocked, and what kind of attack is announced. */
module AttackRecords {
  import opened Prelude
  import opened FloodDetector
  import opened AttackAlarm

  // ----- A record that a sweep removes -----

  /** Detection k made a record of this time, and no sweep since came 32 seconds later. */
  ghost predicate RecordedAt(found: seq<Option<real>>, sweeps: seq<Option<real>>, k: nat, n: nat, stamp: real)
    requires n <= |found| == |sweeps|
  {
    && k < n && found[k] == Some(stamp)
    && forall j :: k < j < n && sweeps[j].Some? ==> sweeps[j].value - stamp < 32.0
  }

  ghost predicate Recorded(found: seq<Option<real>>, sweeps: seq<Option<real>>, n: nat, stamp: real)
    requires n <= |found| == |sweeps|
  {
    exists k :: RecordedAt(found, sweeps, k, n, stamp)
  }

  /** The record after one more step. */
  function Kept(record: Option<real>, found: Option<real>, swept: Option<real>): Option<real> {
    if found.Some? then found
    else if record.Some? && swept.Some? && swept.value - record.value >= 32.0 then None
    else record
  }

  lemma {:induction false} RecordTold(
      records: seq<Option<real>>, found: seq<Option<real>>, sweeps: seq<Option<real>>, n: nat, stamp: real)
    requires n <= |found| == |sweeps| == |records| - 1 && records[0] == None
    requires forall i :: 0 <= i < |found| ==> records[i + 1] == Kept(records[i], found[i], sweeps[i])
    requires forall i :: 0 <= i < |found| ==> found[i] == None || (records[i] == None && sweeps[i] == None)
    ensures records[n] == Some(stamp) <==> Recorded(found, sweeps, n, stamp)
  {
    if n > 0 {
      RecordTold(records, found, sweeps, n - 1, stamp);
      assert records[n - 1 + 1] == Kept(records[n - 1], found[n - 1], sweeps[n - 1]);
      if found[n - 1] == Some(stamp) {
        assert RecordedAt(found, sweeps, n - 1, n, stamp);
      }
      if records[n] == records[n - 1] {
        var m := n - 1;
        if k: nat :| RecordedAt(found, sweeps, k, m, stamp) {
          assert RecordedAt(found, sweeps, k, n, stamp);
        }
      }
      if k: nat :| RecordedAt(found, sweeps, k, n, stamp) && k < n - 1 {
        assert RecordedAt(found, sweeps, k, n - 1, stamp);
      }
    }
  }

  function Entry(m: map<int, real>, key: int): Option<real> { if key in m then Some(m[key]) else None }

  // ----- Recorded floods and addresses -----

  function FloodFound(s: Detector, step: Step, dpid: int): Option<real> {
    if step.PacketIn? && step.dpid == dpid && Raises(s, step) then Some(step.stamp) else None
  }

  function Swept(step: Step): Option<real> { if step.Cleanup? then Some(step.now) else None }

  lemma {:induction false} FloodTracked(s: Detector, p: Step, dpid: int)
    requires p.PacketIn?
    ensures var found := FloodFound(s, p, dpid);
            && Entry(Next(s, p).flooded, dpid) == Kept(Entry(s.flooded, dpid), found, None)
            && (found == None || Entry(s.flooded, dpid) == None)
  {
  }

  lemma {:induction false} FloodCleaned(s: Detector, now: real, dpid: int)
    ensures Entry(Cleaned(s, now).flooded, dpid) == Kept(Entry(s.flooded, dpid), None, Some(now))
  {
    assert Cleaned(s, now).flooded == s.flooded - Expired(s, now);
  }

  lemma {:induction false} FloodStep(s: Detector, step: Step, dpid: int)
    ensures var found := FloodFound(s, step, dpid);
            && Entry(Next(s, step).flooded, dpid) == Kept(Entry(s.flooded, dpid), found, Swept(step))
            && (found == None || (Entry(s.flooded, dpid) == None && Swept(step) == None))
  {
    match step
    case PacketIn(_, _, _, _, _) => FloodTracked(s, step, dpid);
    case Cleanup(now) => FloodCleaned(s, now, dpid);
    case Exceeds(_, _, _) => assert Next(s, step).flooded == s.flooded;
    case DataCleanup(_) => assert Next(s, step).flooded == s.flooded;
  }

  /** The detections of a switch's flooding in a run, and the clean-ups of floods. */
  function FloodsFound(steps: seq<Step>, dpid: int): (r: seq<Option<real>>)
    ensures |r| == |steps|
    ensures forall k :: 0 <= k < |steps| ==> r[k] == FloodFound(At(START, steps, k), steps[k], dpid)
  {
    seq(|steps|, k requires 0 <= k < |steps| => FloodFound(At(START, steps, k), steps[k], dpid))
  }

  function Sweeps(steps: seq<Step>): (r: seq<Option<real>>)
    ensures |r| == |steps|
    ensures forall k :: 0 <= k < |steps| ==> r[k] == Swept(steps[k])
  {
    seq(|steps|, k requires 0 <= k < |steps| => Swept(steps[k]))
  }

  function FloodRecords(steps: seq<Step>, dpid: int): (r: seq<Option<real>>)
    ensures |r| == |steps| + 1
    ensures forall k :: 0 <= k <= |steps| ==> r[k] == Entry(At(START, steps, k).flooded, dpid)
  {
    seq(|steps| + 1, k requires 0 <= k <= |steps| => Entry(At(START, steps, k).flooded, dpid))
  }

  /** In every reachable state a switch has a flood record of some time if and only if a flood
      of it was detected then and no clean-up since came 32 seconds after that or later. */
  lemma {:induction false} FloodRecordedExactly(steps: seq<Step>, n: nat, dpid: int, stamp: real)
    requires n <= |steps|
    ensures Entry(At(START, steps, n).flooded, dpid) == Some(stamp) <==>
            Recorded(FloodsFound(steps, dpid), Sweeps(steps), n, stamp)
  {
    var records, found, sweeps := FloodRecords(steps, dpid), FloodsFound(steps, dpid), Sweeps(steps);
    forall i | 0 <= i < |steps|
      ensures records[i + 1] == Kept(records[i], found[i], sweeps[i])
      ensures found[i] == None || (records[i] == None && sweeps[i] == None)
    {
      FloodStep(At(START, steps, i), steps[i], dpid);
    }
    RecordTold(records, found, sweeps, n, stamp);
  }

  function AttackFound(s: Detector, step: Step, ip: int): Option<real> {
    if step.Exceeds? && step.ip == ip && Raises(s, step) then Some(step.stamp) else None
  }

  function DataSwept(step: Step): Option<real> { if step.DataCleanup? then Some(step.now) else None }

  lemma {:induction false} AttackBlocked(s: Detector, e: Step, ip: int)
    requires e.Exceeds?
    ensures var found := AttackFound(s, e, ip);
            && Entry(Next(s, e).attackers, ip) == Kept(Entry(s.attackers, ip), found, None)
            && (found == None || Entry(s.attackers, ip) == None)
  {
  }

  lemma {:induction false} AttackUnblocked(s: Detector, now: real, ip: int)
    ensures Entry(Unblocked(s, now).attackers, ip) == Kept(Entry(s.attackers, ip), None, Some(now))
  {
    assert Unblocked(s, now).attackers == s.attackers - Lapsed(s, now);
  }

  lemma {:induction false} AttackStep(s: Detector, step: Step, ip: int)
    ensures var found := AttackFound(s, step, ip);
            && Entry(Next(s, step).attackers, ip) == Kept(Entry(s.attackers, ip), found, DataSwept(step))
            && (found == None || (Entry(s.attackers, ip) == None && DataSwept(step) == None))
  {
    match step
    case PacketIn(_, _, _, _, _) => assert Next(s, step).attackers == s.attackers;
    case Cleanup(_) => assert Next(s, step).attackers == s.attackers;
    case Exceeds(_, _, _) => AttackBlocked(s, step, ip);
    case DataCleanup(now) => AttackUnblocked(s, now, ip);
  }

  function AttacksFound(steps: seq<Step>, ip: int): (r: seq<Option<real>>)
    ensures |r| == |steps|
    ensures forall k :: 0 <= k < |steps| ==> r[k] == AttackFound(At(START, steps, k), steps[k], ip)
  {
    seq(|steps|, k requires 0 <= k < |steps| => AttackFound(At(START, steps, k), steps[k], ip))
  }

  function DataSweeps(steps: seq<Step>): (r: seq<Option<real>>)
    ensures |r| == |steps|
    ensures forall k :: 0 <= k < |steps| ==> r[k] == DataSwept(steps[k])
  {
    seq(|steps|, k requires 0 <= k < |steps| => DataSwept(steps[k]))
  }

  function AttackRecordsOf(steps: seq<Step>, ip: int): (r: seq<Option<real>>)
    ensures |r| == |steps| + 1
    ensures forall k :: 0 <= k <= |steps| ==> r[k] == Entry(At(START, steps, k).attackers, ip)
  {
    seq(|steps| + 1, k requires 0 <= k <= |steps| => Entry(At(START, steps, k).attackers, ip))
  }

  /** The same of an attacking address and the clean-ups of addresses. */
  lemma {:induction false} AttackerRecordedExactly(steps: seq<Step>, n: nat, ip: int, stamp: real)
    requires n <= |steps|
    ensures Entry(At(START, steps, n).attackers, ip) == Some(stamp) <==>
            Recorded(AttacksFound(steps, ip), DataSweeps(steps), n, stamp)
  {
    var records, found, sweeps := AttackRecordsOf(steps, ip), AttacksFound(steps, ip), DataSweeps(steps);
    forall i | 0 <= i < |steps|
      ensures records[i + 1] == Kept(records[i], found[i], sweeps[i])
      ensures found[i] == None || (records[i] == None && sweeps[i] == None)
    {
      AttackStep(At(START, steps, i), steps[i], ip);
    }
    RecordTold(records, found, sweeps, n, stamp);
  }

  /** A detected flood shuts its port for thirty seconds, from no later than two after it was
      recorded. */
  lemma {:induction false} PortShut(steps: seq<Step>, n: nat, t: real)
    requires n < |steps| && TimelyRun(START, steps, n + 1) && steps[n].PacketIn?
    requires var s, p := At(START, steps, n), steps[n];
             |Recent(Window(s.heard, p.dpid) + [p.now], p.now - 0.5)| >= 75 && p.dpid !in s.flooded
    ensures var drops, p := At(START, steps, n + 1).drops, steps[n];
            && drops != [] && drops[|drops| - 1].dpid == p.dpid && drops[|drops| - 1].port == p.port
            && (Live(drops[|drops| - 1], t) <==> p.stamp + p.delay <= t < p.stamp + p.delay + 30.0)
            && p.stamp <= p.stamp + p.delay <= p.stamp + 2.0
  {
    FloodDetected(steps, n);
  }

  // ----- Where an address is blocked -----

  /** An address found unrecorded is blocked on the first of the connected switches. */
  function BlockPlaced(s: Detector, step: Step): Option<Block> {
    if step.Exceeds? && step.switches != [] && step.ip !in s.attackers
    then Some(Block(step.switches[0], step.ip, step.stamp)) else None
  }

  function BlocksPlaced(steps: seq<Step>): (r: seq<Option<Block>>)
    ensures |r| == |steps|
    ensures forall k :: 0 <= k < |steps| ==> r[k] == BlockPlaced(At(START, steps, k), steps[k])
  {
    seq(|steps|, k requires 0 <= k < |steps| => BlockPlaced(At(START, steps, k), steps[k]))
  }

  function Listed(b: Option<Block>): seq<Block> { if b.Some? then [b.value] else [] }

  lemma {:induction false} BlocksStep(s: Detector, step: Step)
    ensures Next(s, step).blocks == s.blocks + Listed(BlockPlaced(s, step))
  {
  }

  lemma {:induction false} BlocksTold(lists: seq<seq<Block>>, placed: seq<Option<Block>>, n: nat, b: Block)
    requires n <= |placed| == |lists| - 1 && lists[0] == []
    requires forall i :: 0 <= i < |placed| ==> lists[i + 1] == lists[i] + Listed(placed[i])
    ensures b in lists[n] <==> Some(b) in placed[..n]
  {
    if n > 0 {
      BlocksTold(lists, placed, n - 1, b);
      assert lists[n - 1 + 1] == lists[n - 1] + Listed(placed[n - 1]);
      assert placed[..n] == placed[..n - 1] + [placed[n - 1]];
    }
  }

  function BlockLists(steps: seq<Step>): (r: seq<seq<Block>>)
    ensures |r| == |steps| + 1
    ensures forall k :: 0 <= k <= |steps| ==> r[k] == At(START, steps, k).blocks
  {
    seq(|steps| + 1, k requires 0 <= k <= |steps| => At(START, steps, k).blocks)
  }

  /** The rules against addresses, at any time, are exactly those. */
  lemma {:induction false} BlocksExactly(steps: seq<Step>, n: nat, b: Block)
    requires n <= |steps|
    ensures b in At(START, steps, n).blocks <==> Some(b) in BlocksPlaced(steps)[..n]
  {
    var lists, placed := BlockLists(steps), BlocksPlaced(steps);
    forall i | 0 <= i < |steps|
      ensures lists[i + 1] == lists[i] + Listed(placed[i])
    {
      BlocksStep(At(START, steps, i), steps[i]);
    }
    BlocksTold(lists, placed, n, b);
  }

  // ----- The kind of attack announced -----

  predicate Alarmed(s: Detector) { s.floodActive || s.ddosActive }

  predicate FloodAlarm(s: Detector, step: Step) { step.PacketIn? && Raises(s, step) }

  predicate IsControlPlane(s: Detector) { s.attackType == Some("ctrl_plane") }

  ghost predicate KindSound(s: Detector) {
    && (s.attackType.None? <==> !Alarmed(s))
    && (s.attackType.Some? ==> s.attackType.value == "ctrl_plane" || s.attackType.value == "data_plane")
    && (s.flooded != map[] ==> s.floodActive)
    && (s.attackers != map[] ==> s.ddosActive)
  }

  ghost predicate KindMoves(s: Detector, step: Step, t: Detector) {
    KindSound(t) && (IsControlPlane(t) <==> FloodAlarm(s, step) || (IsControlPlane(s) && Alarmed(t)))
  }

  lemma {:induction false} KindCleaned(s: Detector, now: real)
    requires KindSound(s)
    ensures KindMoves(s, Cleanup(now), Cleaned(s, now))
  {
    NoneLeft(s.flooded, Expired(s, now));
  }

  lemma {:induction false} KindUnblocked(s: Detector, now: real)
    requires KindSound(s)
    ensures KindMoves(s, DataCleanup(now), Unblocked(s, now))
  {
    NoneLeft(s.attackers, Lapsed(s, now));
  }

  lemma {:induction false} KindTracked(s: Detector, p: Step)
    requires KindSound(s) && p.PacketIn?
    ensures KindMoves(s, p, Tracked(s, p.dpid, p.port, p.now, p.stamp, p.delay))
  {
  }

  lemma {:induction false} KindBlocked(s: Detector, e: Step)
    requires KindSound(s) && e.Exceeds?
    ensures KindMoves(s, e, Blocked(s, e.switches, e.ip, e.stamp))
  {
  }

  lemma {:induction false} KindStep(s: Detector, step: Step)
    requires KindSound(s)
    ensures KindMoves(s, step, Next(s, step))
  {
    match step
    case PacketIn(_, _, _, _, _) => KindTracked(s, step);
    case Cleanup(now) => KindCleaned(s, now);
    case Exceeds(_, _, _) => KindBlocked(s, step);
    case DataCleanup(now) => KindUnblocked(s, now);
  }

  lemma {:induction false} KindRun(steps: seq<Step>, n: nat)
    requires n <= |steps|
    ensures KindSound(At(START, steps, n))
  {
    if n > 0 {
      KindRun(steps, n - 1);
      KindStep(At(START, steps, n - 1), steps[n - 1]);
    }
  }

  function FloodAlarms(steps: seq<Step>): (r: seq<bool>)
    ensures |r| == |steps|
    ensures forall k :: 0 <= k < |steps| ==> r[k] == FloodAlarm(At(START, steps, k), steps[k])
  {
    seq(|steps|, k requires 0 <= k < |steps| => FloodAlarm(At(START, steps, k), steps[k]))
  }

  /** After which steps neither alarm is on. */
  function Quiet(steps: seq<Step>): (r: seq<bool>)
    ensures |r| == |steps|
    ensures forall k :: 0 <= k < |steps| ==> r[k] == !Alarmed(Next(At(START, steps, k), steps[k]))
  {
    seq(|steps|, k requires 0 <= k < |steps| => !Alarmed(Next(At(START, steps, k), steps[k])))
  }

  function Announced(steps: seq<Step>): (r: seq<bool>)
    ensures |r| == |steps| + 1
    ensures forall k :: 0 <= k <= |steps| ==> r[k] == IsControlPlane(At(START, steps, k))
  {
    seq(|steps| + 1, k requires 0 <= k <= |steps| => IsControlPlane(At(START, steps, k)))
  }

  lemma {:induction false} AnnouncedRecurs(steps: seq<Step>, i: nat)
    requires i < |steps|
    ensures Announced(steps)[i + 1] == (FloodAlarms(steps)[i] || (Announced(steps)[i] && !Quiet(steps)[i]))
  {
    KindRun(steps, i);
    KindStep(At(START, steps, i), steps[i]);
  }

  lemma {:induction false} AnnouncedLast(steps: seq<Step>, n: nat)
    requires n <= |steps|
    ensures Announced(steps)[n] <==> HitLast(FloodAlarms(steps), Quiet(steps), n)
  {
    forall i | 0 <= i < |steps|
      ensures Announced(steps)[i + 1] == (FloodAlarms(steps)[i] || (Announced(steps)[i] && !Quiet(steps)[i]))
    {
      AnnouncedRecurs(steps, i);
    }
    Latched(Announced(steps), FloodAlarms(steps), Quiet(steps), n);
  }

  lemma {:induction false} KindNamed(s: Detector)
    requires KindSound(s)
    ensures s.attackType == None <==> !s.floodActive && !s.ddosActive
    ensures s.attackType == None || s.attackType == Some("ctrl_plane") || s.attackType == Some("data_plane")
  {
  }

  /** In every reachable state: an attack is announced if and only if one of the alarms is on;
      it is a control-plane attack if and only if a flood has been detected and not both
      alarms were off since, and a data-plane attack otherwise. */
  lemma {:induction false} KindExactly(steps: seq<Step>, n: nat)
    requires n <= |steps|
    ensures var s := At(START, steps, n);
            && (s.attackType == None <==> !s.floodActive && !s.ddosActive)
            && (s.attackType == Some("ctrl_plane") <==> HitLast(FloodAlarms(steps), Quiet(steps), n))
            && (s.attackType == None || s.attackType == Some("ctrl_plane") || s.attackType == Some("data_plane"))
  {
    KindRun(steps, n);
    AnnouncedLast(steps, n);
    KindNamed(At(START, steps, n));
  }
}
