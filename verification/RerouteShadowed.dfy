/** The reroute flows beside the policy engine's: when a flow of the adaptive policy handles
    a frame it matches, and that redirection and throttling of traffic to the primary server
    never do. */
module RerouteShadowed {
  import opened Prelude
  import opened OpenFlow
  import R = Reroute
  import F = RerouteFlows
  import Q = QueuePolicy

  const LOWEST_POLICY := 180

  /** Every switch that carries flows of the policy is one the engine has a mapping for. */
  lemma {:induction false} PolicySwitchesMapped(u: Q.Setup, site: R.Site, dpid: int, r: Rule)
    requires F.Ours(site, dpid, r)
    ensures Q.SiteOf(u, dpid).Some?
  {
    assert dpid == R.IT_DPID || dpid == R.NET_DPID || dpid == R.WIFI_DPID || R.PolicyRules(site, dpid) == [];
  }

  // ----- The flows beside the policy's -----

  /** As far as f is concerned: the engine's rules, if the switch has a mapping, and otherwise
      only flows below the policy's. */
  ghost predicate Beside(t: Table, s: Option<Q.Site>, f: Frame) {
    && (s.Some? ==> forall r :: r in Q.All(s.value) && Covers(r.key.pattern, f) ==> r.key in t && t[r.key] == r.entry)
    && (forall k :: k in t && Covers(k.pattern, f) && k.priority >= LOWEST_POLICY ==>
          s.Some? && Rule(k, t[k]) in Q.All(s.value))
  }

  lemma {:induction false} ProgrammedBeside(base: Table, u: Q.Setup, dpid: int, f: Frame)
    requires Q.SiteOf(u, dpid).Some? ==> Q.ValidSite(Q.SiteOf(u, dpid).value)
    requires forall k :: k in base && Covers(k.pattern, f) ==> k.priority < LOWEST_POLICY
    ensures Beside(Q.Programmed(u, dpid, base), Q.SiteOf(u, dpid), f)
  {
    if Q.SiteOf(u, dpid).Some? {
      var s := Q.SiteOf(u, dpid).value;
      Q.CompiledKeysDecide(s);
      AddAllContents(base, Q.All(s));
      var t := AddAll(base, Q.All(s));
      forall k | k in t && Covers(k.pattern, f) && k.priority >= LOWEST_POLICY
        ensures Rule(k, t[k]) in Q.All(s)
      {
        var r :| r in Q.All(s) && r.key == k;
        assert r == Rule(k, t[k]);
      }
    }
  }

  /** The rest of the controller, on this switch and for this frame: it adds no flow from the
      policy's priorities up, and the engine's flows, which have no timeouts, stay. */
  predicate Calm(dpid: int, f: Frame, step: R.Step) {
    match step
    case ForeignAdd(d, r) => d != dpid || !Covers(r.key.pattern, f) || r.key.priority < LOWEST_POLICY
    case ForeignDelete(d, cookie) => d != dpid || cookie != Q.POLICY_ENGINE_COOKIE
    case Expiry(d, k) => d != dpid || !Covers(k.pattern, f) || k.priority < LOWEST_POLICY
        || F.PolicyPriority(k.priority)
    case _ => true
  }

  lemma {:induction false} EngineCookie(s: Q.Site, r: Rule)
    requires r in Q.All(s)
    ensures r.entry.cookie == Q.POLICY_ENGINE_COOKIE && r.key.priority >= Q.DEFAULT_PRIORITY
  {
    var w := Q.RuleWay(s, r);
  }

  lemma {:induction false} CalmBeside(env: map<int, Table>, s: Option<Q.Site>, dpid: int, f: Frame, step: R.Step)
    requires dpid in env && Beside(env[dpid], s, f) && Calm(dpid, f, step)
    ensures dpid in R.Updated(env, step) && Beside(R.Updated(env, step)[dpid], s, f)
  {
    if s.Some? {
      forall r | r in Q.All(s.value)
        ensures r.entry.cookie == Q.POLICY_ENGINE_COOKIE && r.key.priority >= Q.DEFAULT_PRIORITY
      {
        EngineCookie(s.value, r);
      }
    }
  }

  lemma {:induction false} RunBeside(
      env: map<int, Table>, steps: seq<R.Step>, n: nat, s: Option<Q.Site>, dpid: int, f: Frame)
    requires n <= |steps| && dpid in env && Beside(env[dpid], s, f)
    requires forall k :: 0 <= k < n ==> Calm(dpid, f, steps[k])
    ensures dpid in F.Environment(env, steps, n) && Beside(F.Environment(env, steps, n)[dpid], s, f)
  {
    if n > 0 {
      RunBeside(env, steps, n - 1, s, dpid, f);
      CalmBeside(F.Environment(env, steps, n - 1), s, dpid, f, steps[n - 1]);
    }
  }

  // ----- One table -----

  ghost predicate Engaged(s: Option<Q.Site>, f: Frame) { s.Some? && Q.Concerns(s.value, f) }

  lemma {:induction false} EngineOutranks(
      site: R.Site, dpid: int, active: bool, t: Table, env: Table, s: Q.Site, f: Frame, k: Key)
    requires F.FitsTable(site, dpid, active, t, env) && Beside(env, Some(s), f) && Q.Concerns(s, f)
    requires Wins(t, f, k)
    ensures t[k].cookie != R.POLICY_COOKIE
  {
    var w := EngagedWay(s, f);
    Q.BelongsRules(s, w);
    var d := Q.DefaultRule(s, w).key;
    assert Q.DefaultRule(s, w) in Q.All(s);
    assert d in F.Others(t) && d in t;
    assert k.priority >= Q.DEFAULT_PRIORITY;
    if t[k].cookie == R.POLICY_COOKIE {
      F.OursIsPolicy(site, dpid, Rule(k, t[k]));
    }
  }

  lemma {:induction false} EngagedWay(s: Q.Site, f: Frame) returns (w: Q.Way)
    requires Q.Concerns(s, f)
    ensures Q.Belongs(s, w) && Q.Goes(s, w, f)
  {
    if Q.GoesUp(s, f) {
      w := Q.Up;
    } else {
      var i :| 0 <= i < |s.ports.clients| && Q.GoesDown(s, f, i);
      w := Q.Client(s, i);
    }
  }

  lemma {:induction false} PolicyOutranks(
      site: R.Site, dpid: int, active: bool, t: Table, env: Table, s: Option<Q.Site>, f: Frame, k: Key, w: Key)
    requires F.FitsTable(site, dpid, active, t, env) && Beside(env, s, f) && !Engaged(s, f)
    requires s.Some? ==> Q.ValidSite(s.value)
    requires k in t && t[k].cookie == R.POLICY_COOKIE && Covers(k.pattern, f) && Wins(t, f, w)
    ensures t[w].cookie == R.POLICY_COOKIE
  {
    F.OursIsPolicy(site, dpid, Rule(k, t[k]));
    assert w.priority >= LOWEST_POLICY;
    if t[w].cookie != R.POLICY_COOKIE {
      assert w in F.Others(t) && w in env && env[w] == t[w];
      Q.Unmatched(s.value, f, Rule(w, t[w]));
    }
  }

  // ----- Runs -----

  ghost predicate RunsBeside(
      cfg: R.Config, u: Q.Setup, s: R.Ctl, steps: seq<R.Step>, n: nat, dpid: int, base: Table, f: Frame)
    requires n <= |steps|
  {
    && F.Start(s) && dpid in s.flows && s.flows[dpid] == Q.Programmed(u, dpid, base)
    && (forall k :: k in base && Covers(k.pattern, f) ==> k.priority < LOWEST_POLICY)
    && (Q.SiteOf(u, dpid).Some? ==> Q.ValidSite(Q.SiteOf(u, dpid).value))
    && (forall k :: 0 <= k < n ==> F.Polite(steps[k]) && Calm(dpid, f, steps[k]))
  }

  lemma {:induction false} ReachableBeside(
      cfg: R.Config, u: Q.Setup, s: R.Ctl, steps: seq<R.Step>, n: nat, dpid: int, base: Table, f: Frame)
    requires n <= |steps| && RunsBeside(cfg, u, s, steps, n, dpid, base, f)
    ensures var t, env := R.At(cfg, s, steps, n), F.Environment(s.flows, steps, n);
            && dpid in t.flows && dpid in env
            && F.FitsTable(cfg.site, dpid, t.active, t.flows[dpid], env[dpid])
            && Beside(env[dpid], Q.SiteOf(u, dpid), f)
  {
    F.RunAgrees(cfg, s, steps, n);
    ProgrammedBeside(base, u, dpid, f);
    RunBeside(s.flows, steps, n, Q.SiteOf(u, dpid), dpid, f);
  }

  /** When a policy flow works. On a switch connected with flows of lower priority and
      programmed by the engine, in every reachable state: a frame that some flow of the
      policy matches is handled by a flow of the policy if and only if the switch has no
      mapping or the frame is none of the engine's business. */
  lemma {:induction false} PolicyWinsExactly(
      cfg: R.Config, u: Q.Setup, s: R.Ctl, steps: seq<R.Step>, n: nat, dpid: int, base: Table, f: Frame, k: Key)
    requires n <= |steps| && RunsBeside(cfg, u, s, steps, n, dpid, base, f)
    requires dpid in R.At(cfg, s, steps, n).flows
    requires var t := R.At(cfg, s, steps, n).flows[dpid];
             k in t && t[k].cookie == R.POLICY_COOKIE && Covers(k.pattern, f)
    ensures var t := R.At(cfg, s, steps, n).flows[dpid];
            && (exists w :: Wins(t, f, w))
            && ((forall w :: Wins(t, f, w) ==> t[w].cookie == R.POLICY_COOKIE) <==> !Engaged(Q.SiteOf(u, dpid), f))
  {
    ReachableBeside(cfg, u, s, steps, n, dpid, base, f);
    var c, env, site := R.At(cfg, s, steps, n), F.Environment(s.flows, steps, n), Q.SiteOf(u, dpid);
    WinsExactly(cfg.site, dpid, c.active, c.flows[dpid], env[dpid], site, f, k);
  }

  lemma {:induction false} WinsExactly(
      site: R.Site, dpid: int, active: bool, t: Table, env: Table, s: Option<Q.Site>, f: Frame, k: Key)
    requires F.FitsTable(site, dpid, active, t, env) && Beside(env, s, f)
    requires s.Some? ==> Q.ValidSite(s.value)
    requires k in t && t[k].cookie == R.POLICY_COOKIE && Covers(k.pattern, f)
    ensures exists w :: Wins(t, f, w)
    ensures (forall w :: Wins(t, f, w) ==> t[w].cookie == R.POLICY_COOKIE) <==> !Engaged(s, f)
  {
    WinnerExists(t, f, k);
    if Engaged(s, f) {
      var w :| Wins(t, f, w);
      EngineOutranks(site, dpid, active, t, env, s.value, f, w);
    } else {
      forall w | Wins(t, f, w)
        ensures t[w].cookie == R.POLICY_COOKIE
      {
        PolicyOutranks(site, dpid, active, t, env, s, f, k, w);
      }
    }
  }

  /** The adaptive policy's flows for traffic to the primary server. */
  ghost predicate IsServerFlow(site: R.Site, k: Key) {
    || (exists src :: k == R.RerouteRule(site, src).key)
    || (exists port, src :: k == R.FastRule(site, port, src).key)
    || (exists client :: k == R.UploadRule(site, client).key)
  }

  // ----- The server's flows, beside any others -----

  /** The engine's rule for all traffic to the server. */
  function ServerKey(s: Q.Site): Key { Q.DefaultRule(s, Q.Up).key }

  ghost predicate HasServerRule(t: Table, s: Option<Q.Site>) {
    s.Some? ==> ServerKey(s.value) in t && t[ServerKey(s.value)].cookie == Q.POLICY_ENGINE_COOKIE
  }

  /** Nobody but the engine deletes, overwrites or times out that rule. */
  predicate KeepsServerRule(u: Q.Setup, dpid: int, step: R.Step) {
    var s := Q.SiteOf(u, dpid);
    s.Some? ==>
      match step
      case ForeignAdd(d, r) =>
        d == dpid && r.key == ServerKey(s.value) ==> r.entry.cookie == Q.POLICY_ENGINE_COOKIE
      case ForeignDelete(d, cookie) => d != dpid || cookie != Q.POLICY_ENGINE_COOKIE
      case Expiry(d, k) => d != dpid || k != ServerKey(s.value)
      case _ => true
  }

  lemma {:induction false} AddedCookie(base: Table, rs: seq<Rule>, cookie: int, r: Rule)
    requires r in rs && forall q :: q in rs ==> q.entry.cookie == cookie
    ensures r.key in AddAll(base, rs) && AddAll(base, rs)[r.key].cookie == cookie
  {
    var n := |rs| - 1;
    if r != rs[n] {
      AddedCookie(base, rs[..n], cookie, r);
    }
  }

  lemma {:induction false} ProgrammedHasServerRule(base: Table, u: Q.Setup, dpid: int)
    ensures HasServerRule(Q.Programmed(u, dpid, base), Q.SiteOf(u, dpid))
  {
    if Q.SiteOf(u, dpid).Some? {
      var s := Q.SiteOf(u, dpid).value;
      forall r | r in Q.All(s)
        ensures r.entry.cookie == Q.POLICY_ENGINE_COOKIE
      {
        EngineCookie(s, r);
      }
      Q.BelongsRules(s, Q.Up);
      AddedCookie(base, Q.All(s), Q.POLICY_ENGINE_COOKIE, Q.DefaultRule(s, Q.Up));
    }
  }

  lemma {:induction false} ServerRuleStays(
      env: map<int, Table>, steps: seq<R.Step>, i: nat, n: nat, u: Q.Setup, dpid: int)
    requires i <= n <= |steps| && dpid in F.Environment(env, steps, i)
    requires HasServerRule(F.Environment(env, steps, i)[dpid], Q.SiteOf(u, dpid))
    requires forall j :: i <= j < n ==> KeepsServerRule(u, dpid, steps[j])
    ensures dpid in F.Environment(env, steps, n)
    ensures HasServerRule(F.Environment(env, steps, n)[dpid], Q.SiteOf(u, dpid))
    decreases n
  {
    if i < n {
      ServerRuleStays(env, steps, i, n - 1, u, dpid);
      assert KeepsServerRule(u, dpid, steps[n - 1]);
      StaysOneStep(F.Environment(env, steps, n - 1), u, dpid, steps[n - 1]);
    }
  }

  lemma {:induction false} StaysOneStep(env: map<int, Table>, u: Q.Setup, dpid: int, step: R.Step)
    requires dpid in env && HasServerRule(env[dpid], Q.SiteOf(u, dpid)) && KeepsServerRule(u, dpid, step)
    ensures dpid in R.Updated(env, step) && HasServerRule(R.Updated(env, step)[dpid], Q.SiteOf(u, dpid))
  {
  }

  /** A server flow of the policy matches only frames that the engine's rule matches, which
      has a higher priority. */
  lemma {:induction false} ServerRuleOutranks(
      site: R.Site, dpid: int, active: bool, t: Table, env: Table, s: Q.Site, f: Frame, k: Key)
    requires F.FitsTable(site, dpid, active, t, env) && HasServerRule(env, Some(s))
    requires s.primary == site.primary && IsServerFlow(site, k)
    ensures !Wins(t, f, k)
  {
    assert ServerKey(s) in F.Others(t);
    assert ServerKey(s) in t && ServerKey(s).priority > k.priority;
    assert Covers(k.pattern, f) ==> Covers(ServerKey(s).pattern, f);
  }

  /** Redirection and upload throttling never work: from the moment on at which the engine has
      programmed a switch, whatever flows of whatever priority others add, delete or let time
      out, in every reachable state, active or not, no frame is handled by one of them. */
  lemma {:induction false} RerouteNeverWins(
      cfg: R.Config, u: Q.Setup, s: R.Ctl, steps: seq<R.Step>, i: nat, n: nat, dpid: int, base: Table, f: Frame, k: Key)
    requires F.Start(s) && i <= n <= |steps| && forall j :: 0 <= j < n ==> F.Polite(steps[j])
    requires var env := F.Environment(s.flows, steps, i);
             dpid in env && env[dpid] == Q.Programmed(u, dpid, base)
    requires forall j :: i <= j < n ==> KeepsServerRule(u, dpid, steps[j])
    requires u.primary == cfg.site.primary && IsServerFlow(cfg.site, k)
    ensures dpid in R.At(cfg, s, steps, n).flows
    ensures var t := R.At(cfg, s, steps, n).flows[dpid];
            k in t && t[k].cookie == R.POLICY_COOKIE ==> Q.SiteOf(u, dpid).Some? && !Wins(t, f, k)
  {
    var c, env := R.At(cfg, s, steps, n), F.Environment(s.flows, steps, n);
    F.RunAgrees(cfg, s, steps, n);
    ProgrammedHasServerRule(base, u, dpid);
    ServerRuleStays(s.flows, steps, i, n, u, dpid);
    NeverInTable(cfg.site, u, dpid, c.active, c.flows[dpid], env[dpid], f, k);
  }

  lemma {:induction false} NeverInTable(
      site: R.Site, u: Q.Setup, dpid: int, active: bool, t: Table, env: Table, f: Frame, k: Key)
    requires F.FitsTable(site, dpid, active, t, env) && HasServerRule(env, Q.SiteOf(u, dpid))
    requires u.primary == site.primary && IsServerFlow(site, k)
    ensures k in t && t[k].cookie == R.POLICY_COOKIE ==> Q.SiteOf(u, dpid).Some? && !Wins(t, f, k)
  {
    if k in t && t[k].cookie == R.POLICY_COOKIE {
      PolicySwitchesMapped(u, site, dpid, Rule(k, t[k]));
      ServerRuleOutranks(site, dpid, active, t, env, Q.SiteOf(u, dpid).value, f, k);
    }
  }

  // ----- A run in which redirection is on and does not work -----

  const CLIENT: Ip := 0x0A01_010A
  const SERVER: Ip := 0x0A00_010A
  const PING := Frame(2, ETH_TYPE_IP, 2, CLIENT, SERVER, PROTO_ICMP, None, None)

  lemma {:induction false} RedirectRule(site: R.Site, n: nat, src: Ip)
    requires n <= |site.itClients| && src in site.itClients[..n]
    ensures R.RerouteRule(site, src) in R.RerouteRules(site, n)
  {
    if src != site.itClients[n - 1] {
      RedirectRule(site, n - 1, src);
    }
  }

  lemma {:induction false} SampleActivates(cfg: R.Config, s: R.Ctl, sample: R.Step)
    requires !cfg.dqn && !s.active && R.IT_DPID in s.flows
    requires sample.Sample? && R.IsCorePort(sample.key) && sample.mbps >= s.th.high
    ensures var t := R.Next(cfg, s, sample);
            && t.active && R.IT_DPID in t.flows
            && t.flows[R.IT_DPID] == AddAll(s.flows[R.IT_DPID], R.PolicyRules(cfg.site, R.IT_DPID))
  {
  }

  /** Without an agent one high core sample turns redirection on. */
  lemma {:induction false} OneSample(cfg: R.Config, s: R.Ctl, sample: R.Step, src: Ip)
    requires !cfg.dqn && F.Start(s) && R.IT_DPID in s.flows && src in cfg.site.itClients
    requires sample.Sample? && R.IsCorePort(sample.key) && sample.mbps >= s.th.high
    ensures var t, k := R.Next(cfg, s, sample), R.RerouteRule(cfg.site, src).key;
            t.active && R.IT_DPID in t.flows && k in t.flows[R.IT_DPID]
                && t.flows[R.IT_DPID][k].cookie == R.POLICY_COOKIE
  {
    SampleActivates(cfg, s, sample);
    var rules := R.PolicyRules(cfg.site, R.IT_DPID);
    RedirectRule(cfg.site, |cfg.site.itClients|, src);
    assert cfg.site.itClients[..|cfg.site.itClients|] == cfg.site.itClients;
    F.RerouteRulesPolicy(cfg.site, |cfg.site.itClients|);
    AddedCookie(s.flows[R.IT_DPID], rules, R.POLICY_COOKIE, R.RerouteRule(cfg.site, src));
  }

  /** Redirection is on, its flow for the client is in the table of the client's switch and
      matches the ping to the server, and the ping is handled by another flow. */
  lemma {:induction false} RedirectLoses() returns (cfg: R.Config, u: Q.Setup, s: R.Ctl, sample: R.Step)
    ensures F.Start(s) && R.IT_DPID in s.flows && s.flows[R.IT_DPID] == Q.Programmed(u, R.IT_DPID, map[])
    ensures var t, k := R.Next(cfg, s, sample), R.RerouteRule(cfg.site, CLIENT).key;
            && t.active && R.IT_DPID in t.flows && k in t.flows[R.IT_DPID] && Covers(k.pattern, PING)
            && t.flows[R.IT_DPID][k].cookie == R.POLICY_COOKIE && !Wins(t.flows[R.IT_DPID], PING, k)
  {
    u := Q.Setup(Q.Tables([], [], [], [], []), SERVER, [(CLIENT, 2)], [], [], []);
    cfg := R.Config(false, 10.0, R.Site([CLIENT], [], SERVER, SERVER + 1, 1));
    var table := Q.Programmed(u, R.IT_DPID, map[]);
    s := R.Ctl(R.Thresholds(40.0, 20.0, 80.0, 50.0), {}, false, false, false, 0.0, 0.0, None, 0.0, "normal",
               map[R.IT_DPID := table], []);
    sample := R.Sample((R.CORE_DPID, R.CORE_TO_PRIMARY_PORT), 0.0, 50.0, R.Env(1.0, None, None));
    ProgrammedFree(u, R.IT_DPID);
    OneSample(cfg, s, sample, CLIENT);
    var steps := [sample];
    RerouteNeverWins(cfg, u, s, steps, 0, 1, R.IT_DPID, map[], PING, R.RerouteRule(cfg.site, CLIENT).key);
    assert R.At(cfg, s, steps, 0) == s && R.At(cfg, s, steps, 1) == R.Next(cfg, s, sample);
  }

  lemma {:induction false} ProgrammedFree(u: Q.Setup, dpid: int)
    ensures F.PolicyFree(Q.Programmed(u, dpid, map[]))
  {
    if Q.SiteOf(u, dpid).Some? {
      var rules := Q.All(Q.SiteOf(u, dpid).value);
      forall i | 0 <= i < |rules|
        ensures rules[i].entry.cookie != R.POLICY_COOKIE && !F.PolicyPriority(rules[i].key.priority)
      {
        EngineCookie(Q.SiteOf(u, dpid).value, rules[i]);
      }
      AddedFree(map[], rules);
    }
  }

  lemma {:induction false} AddedFree(base: Table, rs: seq<Rule>)
    requires F.PolicyFree(base)
    requires forall i :: 0 <= i < |rs| ==>
               rs[i].entry.cookie != R.POLICY_COOKIE && !F.PolicyPriority(rs[i].key.priority)
    ensures F.PolicyFree(AddAll(base, rs))
  {
    if rs != [] {
      AddedFree(base, rs[..|rs| - 1]);
    }
  }
}
