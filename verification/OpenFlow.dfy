/** The part of the OpenFlow 1.3 switch the controller relies on: flow entries keyed by
    priority and match, replacement of an entry by an add with the same key and deletion
    by cookie (section 6.4 of the OpenFlow Switch Specification), and lookup of the
    matching entry of highest priority (section 5.3), which the specification leaves
    undefined when several such entries have different actions. */
module OpenFlow {
  import opened Prelude

  type Mac = m: int | 0 <= m < 0x1_0000_0000_0000
  type Ip = i: int | 0 <= i < 0x1_0000_0000

  const BROADCAST: Mac := 0xFFFF_FFFF_FFFF
  const ETH_TYPE_IP := 0x0800
  const ETH_TYPE_ARP := 0x0806
  const PROTO_ICMP := 1
  const PROTO_TCP := 6
  const PROTO_UDP := 17

  datatype Action =
    | Output(port: int)
    | SetQueue(queue: int)
    | SetIpSrc(addr: Ip)
    | SetIpDst(addr: Ip)
    | SetEthDst(mac: Mac)

  datatype L4 = L4(src: int, dst: int)

  /** A frame as the match fields see it; a transport header may be absent even when
      the protocol number announces one (a fragment, a truncated packet). */
  datatype Frame = Frame(
    inPort: int, ethType: int, ethDst: Mac,
    ipSrc: Ip, ipDst: Ip, ipProto: int,
    tcp: Option<L4>, udp: Option<L4>)

  /** A match: None is a wildcard. */
  datatype Match = Match(
    inPort: Option<int>, ethType: Option<int>, ethDst: Option<Mac>,
    ipProto: Option<int>, ipSrc: Option<Ip>, ipDst: Option<Ip>,
    tcpSrc: Option<int>, tcpDst: Option<int>,
    udpSrc: Option<int>, udpDst: Option<int>)

  const ANY := Match(None, None, None, None, None, None, None, None, None, None)

  predicate Accepts<T(==)>(field: Option<T>, value: T) {
    field.None? || field.value == value
  }

  predicate Covers(m: Match, f: Frame) {
    && Accepts(m.inPort, f.inPort)
    && Accepts(m.ethType, f.ethType)
    && Accepts(m.ethDst, f.ethDst)
    && Accepts(m.ipProto, f.ipProto)
    && Accepts(m.ipSrc, f.ipSrc)
    && Accepts(m.ipDst, f.ipDst)
    && (m.tcpSrc.Some? ==> f.tcp.Some? && f.tcp.value.src == m.tcpSrc.value)
    && (m.tcpDst.Some? ==> f.tcp.Some? && f.tcp.value.dst == m.tcpDst.value)
    && (m.udpSrc.Some? ==> f.udp.Some? && f.udp.value.src == m.udpSrc.value)
    && (m.udpDst.Some? ==> f.udp.Some? && f.udp.value.dst == m.udpDst.value)
  }

  datatype Key = Key(priority: int, pattern: Match)
  datatype Entry = Entry(actions: seq<Action>, cookie: int)
  datatype Rule = Rule(key: Key, entry: Entry)

  type Table = map<Key, Entry>

  function AddFlow(t: Table, r: Rule): Table { t[r.key := r.entry] }

  function DeleteCookie(t: Table, cookie: int): Table {
    map k | k in t && t[k].cookie != cookie :: t[k]
  }

  function AddAll(t: Table, rs: seq<Rule>): Table {
    if rs == [] then t else AddFlow(AddAll(t, rs[..|rs| - 1]), rs[|rs| - 1])
  }

  ghost predicate Wins(t: Table, f: Frame, k: Key) {
    && k in t && Covers(k.pattern, f)
    && forall other :: other in t && Covers(other.pattern, f) ==> other.priority <= k.priority
  }

  /** Some entry matches the frame, and all that win have these actions. */
  ghost predicate Treats(t: Table, f: Frame, actions: seq<Action>) {
    (exists k :: Wins(t, f, k)) && forall k :: Wins(t, f, k) ==> t[k].actions == actions
  }

  /** Rules with the same priority and match are the same rule. */
  ghost predicate KeysDecide(rs: seq<Rule>) {
    forall r, s :: r in rs && s in rs && r.key == s.key ==> r == s
  }

  lemma {:induction false} AddAllSnoc(t: Table, rs: seq<Rule>, r: Rule)
    ensures AddAll(t, rs + [r]) == AddFlow(AddAll(t, rs), r)
  {
    assert (rs + [r])[..|rs|] == rs;
  }

  lemma {:induction false} AddAllAppend(t: Table, rs: seq<Rule>, more: seq<Rule>)
    ensures AddAll(t, rs + more) == AddAll(AddAll(t, rs), more)
  {
    if more == [] {
      assert rs + more == rs;
    } else {
      var n := |more| - 1;
      AddAllAppend(t, rs, more[..n]);
      assert rs + more == (rs + more[..n]) + [more[n]];
      AddAllSnoc(t, rs + more[..n], more[n]);
    }
  }

  /** What a table holds after a list of adds whose keys decide the rule. */
  lemma {:induction false} AddAllContents(t: Table, rs: seq<Rule>)
    requires KeysDecide(rs)
    ensures forall r :: r in rs ==> r.key in AddAll(t, rs) && AddAll(t, rs)[r.key] == r.entry
    ensures forall k :: k in AddAll(t, rs) ==>
              (exists r :: r in rs && r.key == k) || (k in t && AddAll(t, rs)[k] == t[k])
    ensures forall k :: k in t ==> k in AddAll(t, rs)
  {
    if rs != [] {
      var n := |rs| - 1;
      assert forall r :: r in rs <==> r in rs[..n] || r == rs[n];
      AddAllContents(t, rs[..n]);
    }
  }

  /** Lookup succeeds whenever some entry matches. */
  lemma {:induction false} WinnerExists(t: Table, f: Frame, some: Key)
    requires some in t && Covers(some.pattern, f)
    ensures exists k :: Wins(t, f, k)
  {
    var ks := set k | k in t && Covers(k.pattern, f);
    assert some in ks;
    var k := Highest(ks);
    assert Wins(t, f, k);
  }

  lemma {:induction false} Highest(ks: set<Key>) returns (top: Key)
    requires ks != {}
    ensures top in ks && forall k :: k in ks ==> k.priority <= top.priority
    decreases |ks|
  {
    top := Pick(ks);
    var rest := ks - {top};
    assert forall k :: k in ks ==> k == top || k in rest;
    if rest != {} {
      var other := Highest(rest);
      if other.priority > top.priority {
        top := other;
      }
    }
  }

  /** A switch: its datapath id and its flow table. */
  class Switch {
    const dpid: int
    var table: Table

    constructor (dpid: int)
      ensures this.dpid == dpid && table == map[]
    {
      this.dpid := dpid;
      table := map[];
    }

    method Push(r: Rule)
      modifies this
      ensures table == AddFlow(old(table), r)
    {
      table := table[r.key := r.entry];
    }

    method DeleteCookieFlows(cookie: int)
      modifies this
      ensures table == DeleteCookie(old(table), cookie)
    {
      table := map k | k in table && table[k].cookie != cookie :: table[k];
    }
  }
}
