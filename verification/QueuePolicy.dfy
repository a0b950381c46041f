/** The policy engine (examples/campus_controller.py): a compiler from port tables of traffic
    classes to prioritised flows that put traffic to and from the primary server into
    queues, and the proof that lookup in the compiled table is the direct classification. */
module QueuePolicy {
  import opened Prelude
  import opened OpenFlow

  const POLICY_ENGINE_COOKIE := 0xCAFE1001

  datatype Class = Academic | Auth | Realtime | Bulk | Normal

  const HIGH_QUEUE := 0
  const MEDIUM_QUEUE := 1
  const LOW_QUEUE := 2
  const DEFAULT_PRIORITY := 250

  function Priority(c: Class): int {
    match c
    case Academic => 340
    case Realtime => 335
    case Auth => 330
    case Bulk => 320
    case Normal => 310
  }

  function Queue(c: Class): int {
    match c
    case Academic => HIGH_QUEUE
    case Realtime => HIGH_QUEUE
    case Auth => HIGH_QUEUE
    case Bulk => LOW_QUEUE
    case Normal => MEDIUM_QUEUE
  }

  predicate OverTcp(c: Class) { c == Academic || c == Bulk || c == Normal }

  datatype Tables = Tables(academic: seq<int>, auth: seq<int>, realtime: seq<int>, bulk: seq<int>, normal: seq<int>)

  function Ports(t: Tables, c: Class): seq<int> {
    match c
    case Academic => t.academic
    case Auth => t.auth
    case Realtime => t.realtime
    case Bulk => t.bulk
    case Normal => t.normal
  }

  /** A switch: its uplink port, its clients with their ports, in the dictionary's order. */
  datatype Mapping = Mapping(uplink: int, clients: seq<(Ip, int)>)

  datatype Site = Site(tables: Tables, primary: Ip, ports: Mapping)

  /** A dictionary has distinct keys, and the primary server is not one of the clients. */
  ghost predicate ValidSite(s: Site) {
    && (forall i :: 0 <= i < |s.ports.clients| ==> s.ports.clients[i].0 != s.primary)
    && (forall i, j :: 0 <= i < j < |s.ports.clients| ==> s.ports.clients[i].0 != s.ports.clients[j].0)
  }

  /** The client dictionaries of the four zones. */
  datatype Setup = Setup(
    tables: Tables, primary: Ip,
    it: seq<(Ip, int)>, net: seq<(Ip, int)>, wifi: seq<(Ip, int)>, staff: seq<(Ip, int)>)

  /** The uplink and clients of a switch; a switch outside the campus has none. */
  function PolicyMap(u: Setup, dpid: int): Option<Mapping> {
    if dpid == 2 then Some(Mapping(1, u.it))
    else if dpid == 3 then Some(Mapping(1, u.net))
    else if dpid in {4, 5, 6, 9, 10} then Some(Mapping(1, u.it))
    else if dpid in {7, 8, 11, 12} then Some(Mapping(1, u.net))
    else if dpid == 13 then Some(Mapping(1, u.wifi))
    else if dpid == 14 then Some(Mapping(1, u.staff))
    else None
  }

  function SiteOf(u: Setup, dpid: int): Option<Site> {
    var m := PolicyMap(u, dpid);
    if m.Some? then Some(Site(u.tables, u.primary, m.value)) else None
  }

  // ----- The compiler -----

  /** Towards the server, or from it to a client. */
  datatype Way = Up | Down(ip: Ip, port: int)

  function Base(s: Site, w: Way): Match {
    match w
    case Up => ANY.(ethType := Some(ETH_TYPE_IP), ipDst := Some(s.primary))
    case Down(ip, _) =>
      ANY.(inPort := Some(s.ports.uplink), ethType := Some(ETH_TYPE_IP), ipSrc := Some(s.primary), ipDst := Some(ip))
  }

  function Out(s: Site, w: Way): int {
    match w
    case Up => s.ports.uplink
    case Down(_, port) => port
  }

  /** The server's port: destination on the way up, source on the way down. */
  function WithPort(m: Match, w: Way, c: Class, p: int): Match {
    if OverTcp(c) then
      (if w.Up? then m.(ipProto := Some(PROTO_TCP), tcpDst := Some(p))
       else m.(ipProto := Some(PROTO_TCP), tcpSrc := Some(p)))
    else
      (if w.Up? then m.(ipProto := Some(PROTO_UDP), udpDst := Some(p))
       else m.(ipProto := Some(PROTO_UDP), udpSrc := Some(p)))
  }

  function QueueOut(queue: int, port: int): Entry { Entry([SetQueue(queue), Output(port)], POLICY_ENGINE_COOKIE) }

  function ClassRule(s: Site, w: Way, c: Class, p: int): Rule {
    Rule(Key(Priority(c), WithPort(Base(s, w), w, c, p)), QueueOut(Queue(c), Out(s, w)))
  }

  function DefaultRule(s: Site, w: Way): Rule {
    Rule(Key(DEFAULT_PRIORITY, Base(s, w)), QueueOut(MEDIUM_QUEUE, Out(s, w)))
  }

  function ClassRules(done: seq<Rule>, s: Site, w: Way, c: Class, n: nat): seq<Rule>
    requires n <= |Ports(s.tables, c)|
  {
    if n == 0 then done else ClassRules(done, s, w, c, n - 1) + [ClassRule(s, w, c, Ports(s.tables, c)[n - 1])]
  }

  function AllOf(done: seq<Rule>, s: Site, w: Way, c: Class): seq<Rule> {
    ClassRules(done, s, w, c, |Ports(s.tables, c)|)
  }

  function WayRules(done: seq<Rule>, s: Site, w: Way): seq<Rule> {
    AllOf(AllOf(AllOf(AllOf(AllOf(done, s, w, Academic), s, w, Auth), s, w, Realtime), s, w, Bulk), s, w, Normal)
    + [DefaultRule(s, w)]
  }

  function Client(s: Site, i: nat): Way
    requires i < |s.ports.clients|
  {
    Down(s.ports.clients[i].0, s.ports.clients[i].1)
  }

  function Rules(s: Site, n: nat): seq<Rule>
    requires n <= |s.ports.clients|
  {
    if n == 0 then WayRules([], s, Up) else WayRules(Rules(s, n - 1), s, Client(s, n - 1))
  }

  function All(s: Site): seq<Rule> { Rules(s, |s.ports.clients|) }

  /** A table after the engine has programmed its switch. */
  function Programmed(u: Setup, dpid: int, t: Table): Table {
    if SiteOf(u, dpid).Some? then AddAll(t, All(SiteOf(u, dpid).value)) else t
  }

  /** The installer; a switch without a mapping gets no rules. */
  class Engine {
    const setup: Setup

    method PushClass(
        sw: Switch, s: Site, w: Way, c: Class, count: nat, ghost was: Table, ghost done: seq<Rule>) returns (n: nat)
      requires s.tables == setup.tables
      requires sw.table == AddAll(was, done) && count == |done|
      modifies sw
      ensures sw.table == AddAll(was, AllOf(done, s, w, c)) && n == |AllOf(done, s, w, c)|
    {
      n := count;
      var ports := Ports(setup.tables, c);
      var i := 0;
      while i < |ports|
        invariant i <= |ports|
        invariant sw.table == AddAll(was, ClassRules(done, s, w, c, i)) && n == |ClassRules(done, s, w, c, i)|
      {
        AddAllSnoc(was, ClassRules(done, s, w, c, i), ClassRule(s, w, c, ports[i]));
        sw.Push(ClassRule(s, w, c, ports[i]));
        n := n + 1;
        i := i + 1;
      }
    }

    method PushWay(sw: Switch, s: Site, w: Way, count: nat, ghost was: Table, ghost done: seq<Rule>) returns (n: nat)
      requires s.tables == setup.tables
      requires sw.table == AddAll(was, done) && count == |done|
      modifies sw
      ensures sw.table == AddAll(was, WayRules(done, s, w)) && n == |WayRules(done, s, w)|
    {
      n := PushClass(sw, s, w, Academic, count, was, done);
      ghost var rules := AllOf(done, s, w, Academic);
      n := PushClass(sw, s, w, Auth, n, was, rules);
      rules := AllOf(rules, s, w, Auth);
      n := PushClass(sw, s, w, Realtime, n, was, rules);
      rules := AllOf(rules, s, w, Realtime);
      n := PushClass(sw, s, w, Bulk, n, was, rules);
      rules := AllOf(rules, s, w, Bulk);
      n := PushClass(sw, s, w, Normal, n, was, rules);
      rules := AllOf(rules, s, w, Normal);
      AddAllSnoc(was, rules, DefaultRule(s, w));
      sw.Push(DefaultRule(s, w));
      n := n + 1;
    }

    method InstallPolicyEngineFlows(sw: Switch) returns (ruleCount: nat)
      modifies sw
      ensures sw.table == Programmed(setup, sw.dpid, old(sw.table))
      ensures ruleCount == if SiteOf(setup, sw.dpid).Some? then |All(SiteOf(setup, sw.dpid).value)| else 0
    {
      var mapping := PolicyMap(setup, sw.dpid);
      if mapping.None? {
        return 0;
      }
      var s := Site(setup.tables, setup.primary, mapping.value);
      ghost var was := sw.table;
      ruleCount := PushWay(sw, s, Up, 0, was, []);
      var i := 0;
      while i < |s.ports.clients|
        invariant i <= |s.ports.clients|
        invariant sw.table == AddAll(was, Rules(s, i)) && ruleCount == |Rules(s, i)|
      {
        ruleCount := PushWay(sw, s, Down(s.ports.clients[i].0, s.ports.clients[i].1), ruleCount, was, Rules(s, i));
        i := i + 1;
      }
    }
  }

  // ----- The direct classification -----

  function ServerTcp(f: Frame, up: bool): Option<int> {
    if f.ipProto == PROTO_TCP && f.tcp.Some? then Some(if up then f.tcp.value.dst else f.tcp.value.src) else None
  }

  function ServerUdp(f: Frame, up: bool): Option<int> {
    if f.ipProto == PROTO_UDP && f.udp.Some? then Some(if up then f.udp.value.dst else f.udp.value.src) else None
  }

  /** The queue of a frame by the server port it uses: a port listed twice counts for the
      first of academic, bulk, normal, or of realtime, auth. */
  function QueueOf(t: Tables, tcpPort: Option<int>, udpPort: Option<int>): int {
    if tcpPort.Some? && tcpPort.value in t.academic then HIGH_QUEUE
    else if udpPort.Some? && (udpPort.value in t.realtime || udpPort.value in t.auth) then HIGH_QUEUE
    else if tcpPort.Some? && tcpPort.value in t.bulk then LOW_QUEUE
    else MEDIUM_QUEUE
  }

  ghost predicate GoesUp(s: Site, f: Frame) { f.ethType == ETH_TYPE_IP && f.ipDst == s.primary }

  ghost predicate GoesDown(s: Site, f: Frame, i: nat)
    requires i < |s.ports.clients|
  {
    f.ethType == ETH_TYPE_IP && f.inPort == s.ports.uplink && f.ipSrc == s.primary && f.ipDst == s.ports.clients[i].0
  }

  // ----- Which rules there are -----

  ghost predicate IsWayRule(s: Site, w: Way, r: Rule) {
    r == DefaultRule(s, w) || exists c, p :: p in Ports(s.tables, c) && r == ClassRule(s, w, c, p)
  }

  ghost predicate OfClass(s: Site, w: Way, c: Class, n: nat, r: Rule)
    requires n <= |Ports(s.tables, c)|
  {
    exists i :: 0 <= i < n && r == ClassRule(s, w, c, Ports(s.tables, c)[i])
  }

  lemma {:induction false} ClassMembers(done: seq<Rule>, s: Site, w: Way, c: Class, n: nat, r: Rule)
    requires n <= |Ports(s.tables, c)|
    ensures r in ClassRules(done, s, w, c, n) <==> r in done || OfClass(s, w, c, n, r)
  {
    if n > 0 {
      ClassMembers(done, s, w, c, n - 1, r);
    }
  }

  lemma {:induction false} AllOfMembers(done: seq<Rule>, s: Site, w: Way, c: Class, r: Rule)
    ensures r in AllOf(done, s, w, c) <==>
            r in done || exists p :: p in Ports(s.tables, c) && r == ClassRule(s, w, c, p)
  {
    var ports := Ports(s.tables, c);
    ClassMembers(done, s, w, c, |ports|, r);
    if p :| p in ports && r == ClassRule(s, w, c, p) {
      var i :| 0 <= i < |ports| && ports[i] == p;
      assert OfClass(s, w, c, |ports|, r);
    }
  }

  lemma {:induction false} WayMembers(done: seq<Rule>, s: Site, w: Way, r: Rule)
    ensures r in WayRules(done, s, w) <==> r in done || IsWayRule(s, w, r)
  {
    var r1 := AllOf(done, s, w, Academic);
    var r2 := AllOf(r1, s, w, Auth);
    var r3 := AllOf(r2, s, w, Realtime);
    var r4 := AllOf(r3, s, w, Bulk);
    AllOfMembers(done, s, w, Academic, r);
    AllOfMembers(r1, s, w, Auth, r);
    AllOfMembers(r2, s, w, Realtime, r);
    AllOfMembers(r3, s, w, Bulk, r);
    AllOfMembers(r4, s, w, Normal, r);
    if c, p :| p in Ports(s.tables, c) && r == ClassRule(s, w, c, p) {
      assert c == Academic || c == Auth || c == Realtime || c == Bulk || c == Normal;
    }
  }

  ghost predicate IsRule(s: Site, n: nat, r: Rule)
    requires n <= |s.ports.clients|
  {
    IsWayRule(s, Up, r) || exists i :: 0 <= i < n && IsWayRule(s, Client(s, i), r)
  }

  lemma {:induction false} Members(s: Site, n: nat, r: Rule)
    requires n <= |s.ports.clients|
    ensures r in Rules(s, n) <==> IsRule(s, n, r)
  {
    if n == 0 {
      WayMembers([], s, Up, r);
    } else {
      Members(s, n - 1, r);
      WayMembers(Rules(s, n - 1), s, Client(s, n - 1), r);
    }
  }

  // ----- One key, one rule -----

  ghost predicate Belongs(s: Site, w: Way) {
    w == Up || exists i :: 0 <= i < |s.ports.clients| && w == Client(s, i)
  }

  lemma {:induction false} RuleWay(s: Site, r: Rule) returns (w: Way)
    requires r in All(s)
    ensures Belongs(s, w) && IsWayRule(s, w, r)
  {
    Members(s, |s.ports.clients|, r);
    if IsWayRule(s, Up, r) {
      w := Up;
    } else {
      var i :| 0 <= i < |s.ports.clients| && IsWayRule(s, Client(s, i), r);
      w := Client(s, i);
    }
  }

  lemma {:induction false} SameBase(s: Site, w: Way, v: Way)
    requires ValidSite(s) && Belongs(s, w) && Belongs(s, v)
    requires w.Up? <==> v.Up?
    requires w.Down? && v.Down? ==> w.ip == v.ip
    ensures w == v
  {
  }

  lemma {:induction false} OneRulePerKey(s: Site, w: Way, v: Way, q: Rule, r: Rule)
    requires ValidSite(s) && Belongs(s, w) && Belongs(s, v)
    requires IsWayRule(s, w, q) && IsWayRule(s, v, r) && q.key == r.key
    ensures q == r
  {
    assert w.Up? <==> q.key.pattern.inPort.None?;
    assert v.Up? <==> r.key.pattern.inPort.None?;
    assert w.Down? ==> q.key.pattern.ipDst == Some(w.ip);
    assert v.Down? ==> r.key.pattern.ipDst == Some(v.ip);
    SameBase(s, w, v);
  }

  lemma {:induction false} CompiledKeysDecide(s: Site)
    requires ValidSite(s)
    ensures KeysDecide(All(s))
  {
    var rs := All(s);
    forall q, r | q in rs && r in rs && q.key == r.key
      ensures q == r
    {
      var w := RuleWay(s, q);
      var v := RuleWay(s, r);
      OneRulePerKey(s, w, v, q, r);
    }
  }

  // ----- The winner -----

  /** The frame goes this way. */
  predicate Goes(s: Site, w: Way, f: Frame) { Covers(Base(s, w), f) }

  lemma {:induction false} OneWay(s: Site, w: Way, v: Way, f: Frame)
    requires ValidSite(s) && Belongs(s, w) && Belongs(s, v) && Goes(s, w, f) && Goes(s, v, f)
    ensures w == v
  {
    assert w.Up? ==> f.ipDst == s.primary;
    assert v.Up? ==> f.ipDst == s.primary;
    assert w.Down? ==> f.ipDst == w.ip && w.ip != s.primary;
    assert v.Down? ==> f.ipDst == v.ip && v.ip != s.primary;
    SameBase(s, w, v);
  }

  predicate UsesPort(w: Way, c: Class, p: int, f: Frame) {
    (if OverTcp(c) then ServerTcp(f, w.Up?) else ServerUdp(f, w.Up?)) == Some(p)
  }

  lemma {:induction false} ClassCovers(s: Site, w: Way, c: Class, p: int, f: Frame)
    ensures Covers(ClassRule(s, w, c, p).key.pattern, f) <==> Goes(s, w, f) && UsesPort(w, c, p, f)
  {
  }

  /** Any rule of a way that matches a frame of the way and has the highest priority among
      those of the way has the action of the direct classification. */
  lemma {:induction false} WayTop(s: Site, w: Way, f: Frame, top: Rule)
    requires Goes(s, w, f) && IsWayRule(s, w, top) && Covers(top.key.pattern, f)
    requires forall r :: IsWayRule(s, w, r) && Covers(r.key.pattern, f) ==> r.key.priority <= top.key.priority
    ensures top.entry == QueueOut(QueueOf(s.tables, ServerTcp(f, w.Up?), ServerUdp(f, w.Up?)), Out(s, w))
  {
    forall c, p | p in Ports(s.tables, c) && UsesPort(w, c, p, f)
      ensures Priority(c) <= top.key.priority
    {
      ClassCovers(s, w, c, p, f);
      assert IsWayRule(s, w, ClassRule(s, w, c, p));
    }
    if top != DefaultRule(s, w) {
      var c, p :| p in Ports(s.tables, c) && top == ClassRule(s, w, c, p);
      ClassCovers(s, w, c, p, f);
      TopClass(s, w, f, c, p);
    } else {
      NoClass(s, w, f);
    }
  }

  lemma {:induction false} TopClass(s: Site, w: Way, f: Frame, c: Class, p: int)
    requires p in Ports(s.tables, c) && UsesPort(w, c, p, f)
    requires forall d, q :: q in Ports(s.tables, d) && UsesPort(w, d, q, f) ==> Priority(d) <= Priority(c)
    ensures QueueOf(s.tables, ServerTcp(f, w.Up?), ServerUdp(f, w.Up?)) == Queue(c)
  {
    assert UsesPort(w, Academic, p, f) && p in Ports(s.tables, Academic) ==> Priority(Academic) <= Priority(c);
    assert UsesPort(w, Bulk, p, f) && p in Ports(s.tables, Bulk) ==> Priority(Bulk) <= Priority(c);
  }

  lemma {:induction false} NoClass(s: Site, w: Way, f: Frame)
    requires forall d, q :: q in Ports(s.tables, d) && UsesPort(w, d, q, f) ==> Priority(d) <= DEFAULT_PRIORITY
    ensures QueueOf(s.tables, ServerTcp(f, w.Up?), ServerUdp(f, w.Up?)) == MEDIUM_QUEUE
  {
    var tcp, udp := ServerTcp(f, w.Up?), ServerUdp(f, w.Up?);
    if tcp.Some? {
      assert UsesPort(w, Academic, tcp.value, f) && UsesPort(w, Bulk, tcp.value, f);
      assert tcp.value in Ports(s.tables, Academic) ==> Priority(Academic) <= DEFAULT_PRIORITY;
      assert tcp.value in Ports(s.tables, Bulk) ==> Priority(Bulk) <= DEFAULT_PRIORITY;
    }
    if udp.Some? {
      assert UsesPort(w, Realtime, udp.value, f) && UsesPort(w, Auth, udp.value, f);
      assert udp.value in Ports(s.tables, Realtime) ==> Priority(Realtime) <= DEFAULT_PRIORITY;
      assert udp.value in Ports(s.tables, Auth) ==> Priority(Auth) <= DEFAULT_PRIORITY;
    }
  }

  // ----- The winner in a table with other flows -----

  /** As far as f is concerned the table holds the compiled rules and, from their lowest
      priority up, no others. */
  ghost predicate Installed(t: Table, s: Site, f: Frame) {
    && (forall r :: r in All(s) && Covers(r.key.pattern, f) ==> r.key in t && t[r.key] == r.entry)
    && (forall k :: k in t && Covers(k.pattern, f) && k.priority >= DEFAULT_PRIORITY ==> Rule(k, t[k]) in All(s))
  }

  lemma {:induction false} ProgrammedInstalled(base: Table, s: Site, f: Frame)
    requires ValidSite(s) && forall k :: k in base && Covers(k.pattern, f) ==> k.priority < DEFAULT_PRIORITY
    ensures Installed(AddAll(base, All(s)), s, f)
  {
    CompiledKeysDecide(s);
    AddAllContents(base, All(s));
    var t := AddAll(base, All(s));
    forall k | k in t && Covers(k.pattern, f) && k.priority >= DEFAULT_PRIORITY
      ensures Rule(k, t[k]) in All(s)
    {
      var r :| r in All(s) && r.key == k;
      assert r == Rule(k, t[k]);
    }
  }

  lemma {:induction false} BelongsRules(s: Site, w: Way)
    requires Belongs(s, w)
    ensures forall r :: IsWayRule(s, w, r) ==> r in All(s)
  {
    forall r | IsWayRule(s, w, r)
      ensures r in All(s)
    {
      Members(s, |s.ports.clients|, r);
    }
  }

  lemma {:induction false} RuleGoes(s: Site, w: Way, r: Rule, f: Frame)
    requires IsWayRule(s, w, r) && Covers(r.key.pattern, f)
    ensures Goes(s, w, f)
  {
    if r != DefaultRule(s, w) {
      var c, p :| p in Ports(s.tables, c) && r == ClassRule(s, w, c, p);
      ClassCovers(s, w, c, p, f);
    }
  }

  function Queued(s: Site, w: Way, f: Frame): Entry {
    QueueOut(QueueOf(s.tables, ServerTcp(f, w.Up?), ServerUdp(f, w.Up?)), Out(s, w))
  }

  lemma {:induction false} WinnerClass(t: Table, s: Site, w: Way, f: Frame, k: Key)
    requires ValidSite(s) && Installed(t, s, f) && Belongs(s, w) && Goes(s, w, f) && Wins(t, f, k)
    ensures t[k] == Queued(s, w, f)
  {
    BelongsRules(s, w);
    assert DefaultRule(s, w) in All(s);
    assert k.priority >= DEFAULT_PRIORITY;
    var top := Rule(k, t[k]);
    var v := RuleWay(s, top);
    RuleGoes(s, v, top, f);
    OneWay(s, w, v, f);
    WayTop(s, w, f, top);
  }

  /** A frame that goes one way is matched by some rule, and every winning rule puts it into
      the queue of the direct classification and sends it out of the port of that way. */
  lemma {:induction false} WayMeaning(t: Table, s: Site, w: Way, f: Frame)
    requires ValidSite(s) && Installed(t, s, f) && Belongs(s, w) && Goes(s, w, f)
    ensures Treats(t, f, Queued(s, w, f).actions)
  {
    BelongsRules(s, w);
    assert DefaultRule(s, w) in All(s);
    WinnerExists(t, f, DefaultRule(s, w).key);
    forall k | Wins(t, f, k)
      ensures t[k] == Queued(s, w, f)
    {
      WinnerClass(t, s, w, f, k);
    }
  }

  lemma {:induction false} NoWay(s: Site, w: Way, f: Frame)
    requires Belongs(s, w) && Goes(s, w, f)
    ensures GoesUp(s, f) || exists i :: 0 <= i < |s.ports.clients| && GoesDown(s, f, i)
  {
    if w.Down? {
      var i :| 0 <= i < |s.ports.clients| && w == Client(s, i);
      assert GoesDown(s, f, i);
    }
  }

  /** The engine's business: traffic to the primary server, and from it by the uplink to a
      known client. */
  ghost predicate Concerns(s: Site, f: Frame) {
    GoesUp(s, f) || exists i :: 0 <= i < |s.ports.clients| && GoesDown(s, f, i)
  }

  lemma {:induction false} Unmatched(s: Site, f: Frame, r: Rule)
    requires ValidSite(s) && !Concerns(s, f) && r in All(s)
    ensures !Covers(r.key.pattern, f)
  {
    if Covers(r.key.pattern, f) {
      var w := RuleWay(s, r);
      RuleGoes(s, w, r, f);
      NoWay(s, w, f);
    }
  }

  /** The compiled rules refine the direct classification, on top of any flows of lower
      priority. A frame for the primary server is queued by its destination port and leaves
      by the uplink; a frame of the server that enters by the uplink for a known client is
      queued by its source port and leaves by the client's port; every other frame is left
      to the other flows. */
  lemma {:induction false} QueueMeaning(base: Table, s: Site, f: Frame)
    requires ValidSite(s) && forall k :: k in base && Covers(k.pattern, f) ==> k.priority < DEFAULT_PRIORITY
    ensures GoesUp(s, f) ==>
              Treats(AddAll(base, All(s)), f,
                     [SetQueue(QueueOf(s.tables, ServerTcp(f, true), ServerUdp(f, true))), Output(s.ports.uplink)])
    ensures forall i :: 0 <= i < |s.ports.clients| && GoesDown(s, f, i) ==>
              Treats(AddAll(base, All(s)), f,
                     [SetQueue(QueueOf(s.tables, ServerTcp(f, false), ServerUdp(f, false))),
                      Output(s.ports.clients[i].1)])
    ensures var t := AddAll(base, All(s));
            !Concerns(s, f) ==> forall k :: Wins(t, f, k) <==> Wins(base, f, k) && k in t && t[k] == base[k]
  {
    var t := AddAll(base, All(s));
    ProgrammedInstalled(base, s, f);
    if GoesUp(s, f) {
      WayMeaning(t, s, Up, f);
    }
    forall i | 0 <= i < |s.ports.clients| && GoesDown(s, f, i)
      ensures Treats(t, f, Queued(s, Client(s, i), f).actions)
    {
      WayMeaning(t, s, Client(s, i), f);
    }
    if !Concerns(s, f) {
      OthersWin(base, s, f);
    }
  }

  lemma {:induction false} OthersWin(base: Table, s: Site, f: Frame)
    requires ValidSite(s) && !Concerns(s, f)
    ensures var t := AddAll(base, All(s));
            forall k :: Wins(t, f, k) <==> Wins(base, f, k) && k in t && t[k] == base[k]
  {
    var t := AddAll(base, All(s));
    CompiledKeysDecide(s);
    AddAllContents(base, All(s));
    forall r | r in All(s)
      ensures !Covers(r.key.pattern, f)
    {
      Unmatched(s, f, r);
    }
    assert forall k :: k in t && Covers(k.pattern, f) ==> k in base && t[k] == base[k];
  }
}
