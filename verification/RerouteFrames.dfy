/** What the flows of the reroute policy do to a frame: redirected pings look to the client
    as if the primary server had answered, and throttled traffic keeps its way. */
module RerouteFrames {
  import opened Prelude
  import opened OpenFlow
  import opened Reroute
  import opened RerouteFlows

  /** A copy of a frame that leaves by a port, in a queue if one was set. */
  datatype Sent = Sent(port: int, queue: Option<int>, frame: Frame)

  /** What an action list does to a frame: field changes apply to the outputs behind them. */
  function Emit(f: Frame, queue: Option<int>, actions: seq<Action>): seq<Sent>
    decreases |actions|
  {
    if actions == [] then []
    else
      match actions[0]
      case Output(p) => [Sent(p, queue, f)] + Emit(f, queue, actions[1..])
      case SetQueue(q) => Emit(f, Some(q), actions[1..])
      case SetIpSrc(a) => Emit(f.(ipSrc := a), queue, actions[1..])
      case SetIpDst(a) => Emit(f.(ipDst := a), queue, actions[1..])
      case SetEthDst(m) => Emit(f.(ethDst := m), queue, actions[1..])
  }

  /** Some entry matches the frame, and all that win send this. */
  ghost predicate Handled(t: Table, f: Frame, sent: seq<Sent>) {
    (exists k :: Wins(t, f, k)) && forall k :: Wins(t, f, k) ==> Emit(f, None, t[k].actions) == sent
  }

  // ----- The rules, frame by frame -----

  predicate IsPing(site: Site, f: Frame) {
    f.ethType == 0x0800 && f.ipProto == 1 && f.ipDst == site.primary
  }

  predicate IsBackupReply(site: Site, f: Frame) {
    f.ethType == 0x0800 && f.ipProto == 1 && f.inPort == 4 && f.ipSrc == site.backup
  }

  /** The address of a client with its port. */
  predicate IsClient(site: Site, ip: Ip, port: int) { (ip, port) in site.wifiClients }

  /** A dictionary has distinct keys, and the server is none of them. */
  ghost predicate ValidClients(site: Site) {
    && (forall i :: 0 <= i < |site.wifiClients| ==> site.wifiClients[i].0 != site.primary)
    && (forall i, j :: 0 <= i < j < |site.wifiClients| ==> site.wifiClients[i].0 != site.wifiClients[j].0)
  }

  lemma {:induction false} PingEmits(site: Site, f: Frame)
    ensures Emit(f, None, [SetIpDst(site.backup), SetEthDst(site.backupMac), Output(1)])
            == [Sent(1, None, f.(ipDst := site.backup, ethDst := site.backupMac))]
  {
    var actions := [SetIpDst(site.backup), SetEthDst(site.backupMac), Output(1)];
    assert actions[1..] == [SetEthDst(site.backupMac), Output(1)] && actions[1..][1..] == [Output(1)];
    var f1 := f.(ipDst := site.backup);
    var f2 := f1.(ethDst := site.backupMac);
    assert Emit(f2, None, [Output(1)]) == [Sent(1, None, f2)] + Emit(f2, None, []);
  }

  lemma {:induction false} ReplyEmits(site: Site, f: Frame)
    ensures Emit(f, None, [SetIpSrc(site.primary), Output(1)]) == [Sent(1, None, f.(ipSrc := site.primary))]
  {
    var actions := [SetIpSrc(site.primary), Output(1)];
    assert actions[1..] == [Output(1)];
    var f1 := f.(ipSrc := site.primary);
    assert Emit(f1, None, [Output(1)]) == [Sent(1, None, f1)] + Emit(f1, None, []);
  }

  lemma {:induction false} QueueEmits(f: Frame, queue: int, port: int)
    ensures Emit(f, None, [SetQueue(queue), Output(port)]) == [Sent(port, Some(queue), f)]
  {
    var actions := [SetQueue(queue), Output(port)];
    assert actions[1..] == [Output(port)];
    assert Emit(f, Some(queue), [Output(port)]) == [Sent(port, Some(queue), f)] + Emit(f, Some(queue), []);
  }

  lemma {:induction false} InRerouteRules(site: Site, n: nat, r: Rule)
    requires n <= |site.itClients|
    ensures r in RerouteRules(site, n) <==> exists i :: 0 <= i < n && r == RerouteRule(site, site.itClients[i])
    ensures r in ReturnRules(site, n) <==> exists i :: 0 <= i < n && r == ReturnRule(site, site.itClients[i])
  {
    if n > 0 {
      InRerouteRules(site, n - 1, r);
    }
  }

  lemma {:induction false} InThrottleRules(site: Site, n: nat, r: Rule)
    requires n <= |site.wifiClients|
    ensures r in ThrottleRules(site, n) <==>
            exists i :: 0 <= i < n && (r == DownloadRule(site, site.wifiClients[i])
                || r == UploadRule(site, site.wifiClients[i]))
  {
    if n > 0 {
      InThrottleRules(site, n - 1, r);
    }
  }

  /** The frames that the policy's flows on a switch match, and what they send. */
  ghost predicate Sends(site: Site, dpid: int, f: Frame, sent: seq<Sent>) {
    || (dpid == 2 && IsPing(site, f) && sent == [Sent(1, None, f.(ipDst := site.backup, ethDst := site.backupMac))])
    || (dpid == 3 && IsBackupReply(site, f) && f.ipDst in site.itClients
        && sent == [Sent(1, None, f.(ipSrc := site.primary))])
    || (dpid == 5 && f.ethType == 0x0800 && f.ipSrc == site.primary
        && exists p :: IsClient(site, f.ipDst, p) && sent == [Sent(p, Some(2), f)])
    || (dpid == 5 && f.ethType == 0x0800 && f.ipDst == site.primary
        && (exists p :: IsClient(site, f.ipSrc, p)) && sent == [Sent(1, Some(2), f)])
  }

  lemma {:induction false} RedirectSends(site: Site, r: Rule, f: Frame)
    requires Ours(site, 2, r) && Covers(r.key.pattern, f)
    ensures Sends(site, 2, f, Emit(f, None, r.entry.actions))
  {
    InRerouteRules(site, |site.itClients|, r);
    PingEmits(site, f);
  }

  lemma {:induction false} ReturnSends(site: Site, r: Rule, f: Frame)
    requires Ours(site, 3, r) && Covers(r.key.pattern, f)
    ensures Sends(site, 3, f, Emit(f, None, r.entry.actions))
  {
    InRerouteRules(site, |site.itClients|, r);
    ReplyEmits(site, f);
  }

  lemma {:induction false} ThrottleSends(site: Site, r: Rule, f: Frame)
    requires Ours(site, 5, r) && Covers(r.key.pattern, f)
    ensures Sends(site, 5, f, Emit(f, None, r.entry.actions))
  {
    InThrottleRules(site, |site.wifiClients|, r);
    var i :| 0 <= i < |site.wifiClients|
             && (r == DownloadRule(site, site.wifiClients[i]) || r == UploadRule(site, site.wifiClients[i]));
    var client := site.wifiClients[i];
    assert IsClient(site, client.0, client.1);
    if r == DownloadRule(site, client) {
      QueueEmits(f, 2, client.1);
    } else {
      QueueEmits(f, 2, 1);
    }
  }

  lemma {:induction false} OursSends(site: Site, dpid: int, r: Rule, f: Frame)
    requires Ours(site, dpid, r) && Covers(r.key.pattern, f)
    ensures Sends(site, dpid, f, Emit(f, None, r.entry.actions))
  {
    assert dpid == 2 || dpid == 3 || dpid == 5 || PolicyRules(site, dpid) == [];
    if dpid == 2 {
      RedirectSends(site, r, f);
    } else if dpid == 3 {
      ReturnSends(site, r, f);
    } else if dpid == 5 {
      ThrottleSends(site, r, f);
    }
  }

  lemma {:induction false} OneClientPort(site: Site, ip: Ip, p: int, q: int)
    requires ValidClients(site) && IsClient(site, ip, p) && IsClient(site, ip, q)
    ensures p == q
  {
    var i :| 0 <= i < |site.wifiClients| && site.wifiClients[i] == (ip, p);
    var j :| 0 <= j < |site.wifiClients| && site.wifiClients[j] == (ip, q);
  }

  lemma {:induction false} NotTheServer(site: Site, p: int)
    requires ValidClients(site)
    ensures !IsClient(site, site.primary, p)
  {
  }

  lemma {:induction false} OneSending(site: Site, dpid: int, f: Frame, x: seq<Sent>, y: seq<Sent>)
    requires ValidClients(site) && Sends(site, dpid, f, x) && Sends(site, dpid, f, y)
    ensures x == y
  {
    if dpid == 5 {
      forall p
        ensures !IsClient(site, site.primary, p)
      {
        NotTheServer(site, p);
      }
      forall p, q | IsClient(site, f.ipDst, p) && IsClient(site, f.ipDst, q)
        ensures p == q
      {
        OneClientPort(site, f.ipDst, p, q);
      }
    }
  }

  // ----- In every reachable state -----

  ghost predicate LowerOthers(env: Table, f: Frame) {
    forall k :: k in env && Covers(k.pattern, f) ==> k.priority < 180
  }

  lemma {:induction false} PolicyHandles(
      site: Site, dpid: int, active: bool, t: Table, env: Table, f: Frame, k: Key) returns (sent: seq<Sent>)
    requires ValidClients(site) && FitsTable(site, dpid, active, t, env) && LowerOthers(env, f)
    requires k in t && t[k].cookie == POLICY_COOKIE && Covers(k.pattern, f)
    ensures Sends(site, dpid, f, sent) && Handled(t, f, sent)
  {
    sent := Emit(f, None, t[k].actions);
    OursSends(site, dpid, Rule(k, t[k]), f);
    OursIsPolicy(site, dpid, Rule(k, t[k]));
    WinnerExists(t, f, k);
    forall w | Wins(t, f, w)
      ensures Emit(f, None, t[w].actions) == sent
    {
      assert w.priority >= 180;
      assert t[w].cookie != POLICY_COOKIE ==> w in Others(t);
      OursSends(site, dpid, Rule(w, t[w]), f);
      OneSending(site, dpid, f, Emit(f, None, t[w].actions), sent);
    }
  }

  /** In every reachable state, for a frame that no other flow of priority 180 or more matches
      and some flow of the policy does. On switch 2 it is a ping to the primary server, and
      leaves by the core port addressed to the backup server. On switch 3 it is the backup
      server's reply to a client, and leaves by the core port as if it came from the primary
      server. On switch 5 it is traffic between the primary server and a client, and leaves
      unchanged in queue 2, by the client's port or the uplink. */
  lemma {:induction false} FramesTreated(
      cfg: Config, s: Ctl, steps: seq<Step>, n: nat, dpid: int, f: Frame, k: Key) returns (sent: seq<Sent>)
    requires Start(s) && n <= |steps| && forall i :: 0 <= i < n ==> Polite(steps[i])
    requires ValidClients(cfg.site) && dpid in At(cfg, s, steps, n).flows
    requires dpid in Environment(s.flows, steps, n) && LowerOthers(Environment(s.flows, steps, n)[dpid], f)
    requires var t := At(cfg, s, steps, n).flows[dpid];
             k in t && t[k].cookie == POLICY_COOKIE && Covers(k.pattern, f)
    ensures Sends(cfg.site, dpid, f, sent) && Handled(At(cfg, s, steps, n).flows[dpid], f, sent)
  {
    var c, env := At(cfg, s, steps, n), Environment(s.flows, steps, n);
    RunAgrees(cfg, s, steps, n);
    sent := PolicyHandles(cfg.site, dpid, c.active, c.flows[dpid], env[dpid], f, k);
  }

  // ----- Switching on -----

  lemma {:induction false} AddedOurs(site: Site, dpid: int, t: Table, rs: seq<Rule>, r: Rule)
    requires r in rs && forall q :: q in rs ==> q.entry.cookie == POLICY_COOKIE
    ensures r.key in AddAll(t, rs) && AddAll(t, rs)[r.key].cookie == POLICY_COOKIE
  {
    var n := |rs| - 1;
    if r != rs[n] {
      AddedOurs(site, dpid, t, rs[..n], r);
    }
  }

  lemma {:induction false} ActivatedHas(cfg: Config, s: Ctl, mbps: real, dpid: int, r: Rule)
    requires !s.active && dpid in s.flows && r in PolicyRules(cfg.site, dpid)
    ensures var t := SetReroute(cfg, s, true, mbps).flows;
            dpid in t && r.key in t[dpid] && t[dpid][r.key].cookie == POLICY_COOKIE
  {
    var rules := PolicyRules(cfg.site, dpid);
    forall q | q in rules
      ensures q.entry.cookie == POLICY_COOKIE
    {
      OursIsPolicy(cfg.site, dpid, q);
    }
    AddedOurs(cfg.site, dpid, s.flows[dpid], rules, r);
  }

  ghost predicate Switchable(cfg: Config, s: Ctl, env: map<int, Table>, dpid: int, f: Frame) {
    ValidClients(cfg.site) && !s.active && Agrees(cfg, s, env) && dpid in s.flows && LowerOthers(env[dpid], f)
  }

  lemma {:induction false} ActivatedHandles(
      cfg: Config, s: Ctl, env: map<int, Table>, mbps: real, dpid: int, f: Frame, r: Rule) returns (sent: seq<Sent>)
    requires Switchable(cfg, s, env, dpid, f) && r in PolicyRules(cfg.site, dpid) && Covers(r.key.pattern, f)
    ensures dpid in SetReroute(cfg, s, true, mbps).flows
    ensures Sends(cfg.site, dpid, f, sent) && Handled(SetReroute(cfg, s, true, mbps).flows[dpid], f, sent)
  {
    SetRerouteAgrees(cfg, s, true, mbps, env);
    ActivatedHas(cfg, s, mbps, dpid, r);
    var t := SetReroute(cfg, s, true, mbps);
    sent := PolicyHandles(cfg.site, dpid, true, t.flows[dpid], env[dpid], f, r.key);
  }

  /** Right after switching on, a client's ping to the primary server leaves switch 2 for the
      backup server. */
  lemma {:induction false} PingRedirected(
      cfg: Config, s: Ctl, env: map<int, Table>, mbps: real, f: Frame)
    requires Switchable(cfg, s, env, 2, f) && IsPing(cfg.site, f) && f.ipSrc in cfg.site.itClients
    ensures var t := SetReroute(cfg, s, true, mbps).flows;
            2 in t && Handled(t[2], f, [Sent(1, None, f.(ipDst := cfg.site.backup, ethDst := cfg.site.backupMac))])
  {
    InRerouteRules(cfg.site, |cfg.site.itClients|, RerouteRule(cfg.site, f.ipSrc));
    var sent := ActivatedHandles(cfg, s, env, mbps, 2, f, RerouteRule(cfg.site, f.ipSrc));
  }

  /** And the backup server's reply leaves switch 3 as the primary server's. */
  lemma {:induction false} ReplyDisguised(
      cfg: Config, s: Ctl, env: map<int, Table>, mbps: real, g: Frame)
    requires Switchable(cfg, s, env, 3, g) && IsBackupReply(cfg.site, g) && g.ipDst in cfg.site.itClients
    ensures var t := SetReroute(cfg, s, true, mbps).flows;
            3 in t && Handled(t[3], g, [Sent(1, None, g.(ipSrc := cfg.site.primary))])
  {
    InRerouteRules(cfg.site, |cfg.site.itClients|, ReturnRule(cfg.site, g.ipDst));
    var sent := ActivatedHandles(cfg, s, env, mbps, 3, g, ReturnRule(cfg.site, g.ipDst));
  }

  /** The two rewritings cancel for the client: a reply to the redirected ping, sent back to
      where it came from, reaches it from the address that it had pinged. */
  lemma {:induction false} PingAnswered(
      cfg: Config, s: Ctl, env: map<int, Table>, mbps: real, f: Frame, g: Frame) returns (out: Frame, back: Frame)
    requires Switchable(cfg, s, env, 2, f) && Switchable(cfg, s, env, 3, g)
    requires IsPing(cfg.site, f) && f.ipSrc in cfg.site.itClients
    requires g.ethType == 0x0800 && g.ipProto == 1 && g.inPort == 4
    requires g.ipSrc == cfg.site.backup && g.ipDst == f.ipSrc
    ensures var t := SetReroute(cfg, s, true, mbps).flows;
            2 in t && 3 in t && Handled(t[2], f, [Sent(1, None, out)]) && Handled(t[3], g, [Sent(1, None, back)])
    ensures out.ipDst == g.ipSrc && out.ipSrc == g.ipDst && back.ipSrc == f.ipDst && back.ipDst == f.ipSrc
  {
    PingRedirected(cfg, s, env, mbps, f);
    ReplyDisguised(cfg, s, env, mbps, g);
    out, back := f.(ipDst := cfg.site.backup, ethDst := cfg.site.backupMac), g.(ipSrc := cfg.site.primary);
  }

  /** A throttled client: downloads leave switch 5 by its port, uploads by the uplink, both in
      queue 2. */
  lemma {:induction false} ClientThrottled(
      cfg: Config, s: Ctl, env: map<int, Table>, mbps: real, ip: Ip, port: int, f: Frame)
    requires Switchable(cfg, s, env, 5, f) && IsClient(cfg.site, ip, port) && f.ethType == 0x0800
    ensures 5 in SetReroute(cfg, s, true, mbps).flows
    ensures var t := SetReroute(cfg, s, true, mbps).flows[5];
            && (f.ipSrc == cfg.site.primary && f.ipDst == ip ==> Handled(t, f, [Sent(port, Some(2), f)]))
            && (f.ipDst == cfg.site.primary && f.ipSrc == ip ==> Handled(t, f, [Sent(1, Some(2), f)]))
  {
    NotTheServer(cfg.site, port);
    if f.ipSrc == cfg.site.primary && f.ipDst == ip {
      InThrottleRules(cfg.site, |cfg.site.wifiClients|, DownloadRule(cfg.site, (ip, port)));
      var sent := ActivatedHandles(cfg, s, env, mbps, 5, f, DownloadRule(cfg.site, (ip, port)));
      OneSending(cfg.site, 5, f, sent, [Sent(port, Some(2), f)]);
    }
    if f.ipDst == cfg.site.primary && f.ipSrc == ip {
      InThrottleRules(cfg.site, |cfg.site.wifiClients|, UploadRule(cfg.site, (ip, port)));
      var sent := ActivatedHandles(cfg, s, env, mbps, 5, f, UploadRule(cfg.site, (ip, port)));
      OneSending(cfg.site, 5, f, sent, [Sent(1, Some(2), f)]);
    }
  }

  /** While the reroute is on, the fast path treats a client's ping that it is handed in the
      same way from then on. */
  lemma {:induction false} FastPathRedirects(
      cfg: Config, s: Ctl, env: map<int, Table>, f: Frame)
    requires ValidClients(cfg.site) && s.active && Agrees(cfg, s, env) && 2 in s.flows && LowerOthers(env[2], f)
    requires IsPing(cfg.site, f) && f.ipSrc in cfg.site.itClients
    ensures var t := Next(cfg, s, Packet(2, f, false)).flows;
            2 in t && Handled(t[2], f, [Sent(1, None, f.(ipDst := cfg.site.backup, ethDst := cfg.site.backupMac))])
  {
    PacketAgrees(cfg, s, 2, f, false, env);
    var t := PacketIn(cfg, s, 2, f, false);
    var r := FastRule(cfg.site, f.inPort, f.ipSrc);
    var sent := PolicyHandles(cfg.site, 2, true, t.flows[2], env[2], f, r.key);
  }
}
