/** The controller's reading of the stored VLAN policy
    (examples/campus_controller.py, `_normalize_network_automation`): whatever the file
    holds, the result is in normal form, and a file that stores a policy in normal form
    is read back as that policy. Text is given already trimmed and in lower case, and a
    number or hardware address already parsed, None when it does not parse. */
module VlanNormalizer {
  import opened Prelude
  import opened OpenFlow
  import opened Text
  import opened VlanPolicy

  datatype RawMember = NoMember | RawMember(device: string, text: string, port: Option<int>, mac: Option<Mac>)
  datatype RawLink = NoLink | RawLink(a: Option<int>, b: Option<int>)
  datatype RawVlan = RawVlan(id: Option<int>, members: seq<RawMember>)
  datatype RawSwitch = NoSwitch | RawSwitch(vlans: seq<RawVlan>, links: seq<RawLink>)
  datatype RawEntry = RawEntry(name: string, cfg: RawSwitch)

  /** The entries of the file in order; trimming may have made two names equal. */
  type Payload = seq<RawEntry>

  predicate IsSwitchName(s: string) {
    |s| >= 2 && s[0] == 's' && IsDigits(s[1..])
  }

  // ----- The normaliser as functions -----

  predicate GoodMember(m: RawMember, seen: set<int>) {
    m.RawMember? && m.port.Some? && m.port.value > 0 && m.port.value !in seen && m.mac.Some?
  }

  function Ports(ms: seq<Member>): set<int> { set m | m in ms :: m.port }

  function Members(raw: seq<RawMember>): seq<Member> {
    if raw == [] then []
    else
      var before := Members(raw[..|raw| - 1]);
      var m := raw[|raw| - 1];
      if GoodMember(m, Ports(before)) then before + [Member(m.device, m.text, m.port.value, m.mac.value)] else before
  }

  function Ordered(a: int, b: int): Link { Link(Min(a, b), Max(a, b)) }

  predicate GoodLink(l: RawLink, seen: seq<Link>) {
    && l.RawLink? && l.a.Some? && l.b.Some?
    && ValidVlan(l.a.value) && ValidVlan(l.b.value) && l.a.value != l.b.value
    && Ordered(l.a.value, l.b.value) !in seen
  }

  function Links(raw: seq<RawLink>): seq<Link> {
    if raw == [] then []
    else
      var before := Links(raw[..|raw| - 1]);
      var l := raw[|raw| - 1];
      if GoodLink(l, before) then before + [Ordered(l.a.value, l.b.value)] else before
  }

  function Vlans(raw: seq<RawVlan>): map<int, seq<Member>> {
    if raw == [] then map[]
    else
      var before := Vlans(raw[..|raw| - 1]);
      var v := raw[|raw| - 1];
      if v.id.Some? && ValidVlan(v.id.value) && Members(v.members) != [] then before[v.id.value := Members(v.members)]
      else before
  }

  function NormalizedSwitch(raw: RawSwitch): Option<SwitchCfg> {
    if raw.NoSwitch? then None
    else
      var cfg := SwitchCfg(Vlans(raw.vlans), Links(raw.links));
      if cfg.vlans == map[] && cfg.links == [] then None else Some(cfg)
  }

  function Normalized(p: Payload): PolicyState {
    if p == [] then map[]
    else
      var before := Normalized(p[..|p| - 1]);
      var e := p[|p| - 1];
      if IsSwitchName(e.name) && NormalizedSwitch(e.cfg).Some? then before[e.name := NormalizedSwitch(e.cfg).value]
      else before
  }

  // ----- The normaliser as the controller runs it -----

  method NormalizeMembers(raw: seq<RawMember>) returns (members: seq<Member>)
    ensures members == Members(raw)
  {
    members := [];
    var seenPorts: set<int> := {};
    for i := 0 to |raw|
      invariant members == Members(raw[..i]) && seenPorts == Ports(members)
    {
      assert raw[..i + 1][..i] == raw[..i];
      var m := raw[i];
      if m.RawMember? && m.port.Some? {
        if !(m.port.value <= 0 || m.port.value in seenPorts || m.mac.None?) {
          members := members + [Member(m.device, m.text, m.port.value, m.mac.value)];
          seenPorts := seenPorts + {m.port.value};
        }
      }
    }
    assert raw[..|raw|] == raw;
  }

  method NormalizeLinks(raw: seq<RawLink>) returns (links: seq<Link>)
    ensures links == Links(raw)
  {
    links := [];
    var seenPairs: set<Link> := {};
    for i := 0 to |raw|
      invariant links == Links(raw[..i]) && forall l :: l in seenPairs <==> l in links
    {
      assert raw[..i + 1][..i] == raw[..i];
      var l := raw[i];
      if l.RawLink? && l.a.Some? && l.b.Some? {
        var a, b := l.a.value, l.b.value;
        if !(a <= 0 || a > MAX_VLAN || b <= 0 || b > MAX_VLAN || a == b) {
          var pair := Link(Min(a, b), Max(a, b));
          if pair !in seenPairs {
            seenPairs := seenPairs + {pair};
            links := links + [pair];
          }
        }
      }
    }
    assert raw[..|raw|] == raw;
  }

  method NormalizeVlans(raw: seq<RawVlan>) returns (vlans: map<int, seq<Member>>)
    ensures vlans == Vlans(raw)
  {
    vlans := map[];
    for i := 0 to |raw|
      invariant vlans == Vlans(raw[..i])
    {
      assert raw[..i + 1][..i] == raw[..i];
      if raw[i].id.Some? && 0 < raw[i].id.value <= MAX_VLAN {
        var members := NormalizeMembers(raw[i].members);
        if members != [] {
          vlans := vlans[raw[i].id.value := members];
        }
      }
    }
    assert raw[..|raw|] == raw;
  }

  method NormalizeNetworkAutomation(p: Payload) returns (state: PolicyState)
    ensures state == Normalized(p)
  {
    state := map[];
    for i := 0 to |p|
      invariant state == Normalized(p[..i])
    {
      assert p[..i + 1][..i] == p[..i];
      if IsSwitchName(p[i].name) && p[i].cfg.RawSwitch? {
        var vlans := NormalizeVlans(p[i].cfg.vlans);
        var links := NormalizeLinks(p[i].cfg.links);
        if vlans != map[] || links != [] {
          state := state[p[i].name := SwitchCfg(vlans, links)];
        }
      }
    }
    assert p[..|p|] == p;
  }

  // ----- Normal form -----

  predicate NormalMembers(ms: seq<Member>) {
    && ms != []
    && (forall i :: 0 <= i < |ms| ==> ms[i].port > 0)
    && (forall i, j :: 0 <= i < j < |ms| ==> ms[i].port != ms[j].port)
  }

  predicate NormalLinks(ls: seq<Link>) {
    && (forall i :: 0 <= i < |ls| ==> 0 < ls[i].src < ls[i].dst <= MAX_VLAN)
    && (forall i, j :: 0 <= i < j < |ls| ==> ls[i] != ls[j])
  }

  predicate NormalCfg(cfg: SwitchCfg) {
    && (forall v :: v in cfg.vlans ==> ValidVlan(v) && NormalMembers(cfg.vlans[v]))
    && NormalLinks(cfg.links)
    && (cfg.vlans != map[] || cfg.links != [])
  }

  predicate NormalState(s: PolicyState) {
    forall sw :: sw in s ==> IsSwitchName(sw) && NormalCfg(s[sw])
  }

  lemma {:induction false} MembersNormal(raw: seq<RawMember>)
    ensures Members(raw) != [] ==> NormalMembers(Members(raw))
  {
    if raw != [] {
      MembersNormal(raw[..|raw| - 1]);
      var before := Members(raw[..|raw| - 1]);
      assert forall i :: 0 <= i < |before| ==> before[i] in before && before[i].port in Ports(before);
    }
  }

  lemma {:induction false} LinksNormal(raw: seq<RawLink>)
    ensures NormalLinks(Links(raw))
  {
    if raw != [] {
      LinksNormal(raw[..|raw| - 1]);
    }
  }

  lemma {:induction false} VlansNormal(raw: seq<RawVlan>)
    ensures forall v :: v in Vlans(raw) ==> ValidVlan(v) && NormalMembers(Vlans(raw)[v])
  {
    if raw != [] {
      VlansNormal(raw[..|raw| - 1]);
      MembersNormal(raw[|raw| - 1].members);
    }
  }

  /** Whatever the file holds, the controller works with a policy in normal form. */
  lemma {:induction false} NormalizedIsNormal(p: Payload)
    ensures NormalState(Normalized(p))
  {
    if p != [] {
      NormalizedIsNormal(p[..|p| - 1]);
      var cfg := p[|p| - 1].cfg;
      if cfg.RawSwitch? {
        VlansNormal(cfg.vlans);
        LinksNormal(cfg.links);
      }
    }
  }

  // ----- Reading back a stored policy -----

  function WriteMember(m: Member): RawMember { RawMember(m.device, m.text, Some(m.port), Some(m.mac)) }

  ghost predicate StoresMembers(raw: seq<RawMember>, ms: seq<Member>) {
    |raw| == |ms| && forall i :: 0 <= i < |ms| ==> raw[i] == WriteMember(ms[i])
  }

  ghost predicate StoresLinks(raw: seq<RawLink>, ls: seq<Link>) {
    |raw| == |ls| && forall i :: 0 <= i < |ls| ==> raw[i] == RawLink(Some(ls[i].src), Some(ls[i].dst))
  }

  /** The list holds each VLAN of the map once, in any order. */
  ghost predicate StoresVlans(raw: seq<RawVlan>, vlans: map<int, seq<Member>>) {
    && (forall i :: 0 <= i < |raw| ==>
          raw[i].id.Some? && raw[i].id.value in vlans && StoresMembers(raw[i].members, vlans[raw[i].id.value]))
    && (forall i, j :: 0 <= i < j < |raw| ==> raw[i].id != raw[j].id)
    && (forall v :: v in vlans ==> HasVlan(raw, |raw|, v))
  }

  ghost predicate HasVlan(raw: seq<RawVlan>, n: nat, v: int)
    requires n <= |raw|
  {
    exists i :: 0 <= i < n && raw[i].id == Some(v)
  }

  ghost predicate HasSwitch(p: Payload, n: nat, sw: string)
    requires n <= |p|
  {
    exists i :: 0 <= i < n && p[i].name == sw
  }

  ghost predicate StoresCfg(raw: RawSwitch, cfg: SwitchCfg) {
    raw.RawSwitch? && StoresVlans(raw.vlans, cfg.vlans) && StoresLinks(raw.links, cfg.links)
  }

  /** The file holds each switch of the policy once, in any order. */
  ghost predicate Stores(p: Payload, s: PolicyState) {
    && (forall i :: 0 <= i < |p| ==> p[i].name in s && StoresCfg(p[i].cfg, s[p[i].name]))
    && (forall i, j :: 0 <= i < j < |p| ==> p[i].name != p[j].name)
    && (forall sw :: sw in s ==> HasSwitch(p, |p|, sw))
  }

  lemma {:induction false} MembersReadBack(raw: seq<RawMember>, ms: seq<Member>)
    requires StoresMembers(raw, ms) && (ms != [] ==> NormalMembers(ms))
    ensures Members(raw) == ms
  {
    if raw != [] {
      var n := |raw| - 1;
      MembersReadBack(raw[..n], ms[..n]);
      assert ms == ms[..n] + [ms[n]];
      assert ms[n].port !in Ports(ms[..n]);
    }
  }

  lemma {:induction false} LinksReadBack(raw: seq<RawLink>, ls: seq<Link>)
    requires StoresLinks(raw, ls) && NormalLinks(ls)
    ensures Links(raw) == ls
  {
    if raw != [] {
      var n := |raw| - 1;
      LinksReadBack(raw[..n], ls[..n]);
      assert ls == ls[..n] + [ls[n]];
      assert ls[n] !in ls[..n];
    }
  }

  lemma {:induction false} VlansReadBack(raw: seq<RawVlan>, vlans: map<int, seq<Member>>, n: nat)
    requires StoresVlans(raw, vlans) && n <= |raw|
    requires forall v :: v in vlans ==> ValidVlan(v)
    requires forall v :: v in vlans ==> NormalMembers(vlans[v])
    ensures forall v :: v in Vlans(raw[..n]) <==> HasVlan(raw, n, v)
    ensures forall v :: v in Vlans(raw[..n]) ==> v in vlans && Vlans(raw[..n])[v] == vlans[v]
  {
    if n > 0 {
      VlansReadBack(raw, vlans, n - 1);
      assert raw[..n][..n - 1] == raw[..n - 1];
      var v := raw[n - 1].id.value;
      assert v in vlans && NormalMembers(vlans[v]);
      MembersReadBack(raw[n - 1].members, vlans[v]);
      assert Vlans(raw[..n]) == Vlans(raw[..n - 1])[v := vlans[v]];
    }
  }

  lemma {:induction false} CfgReadBack(raw: RawSwitch, cfg: SwitchCfg)
    requires StoresCfg(raw, cfg) && NormalCfg(cfg)
    ensures NormalizedSwitch(raw) == Some(cfg)
  {
    VlansReadBack(raw.vlans, cfg.vlans, |raw.vlans|);
    assert raw.vlans[..|raw.vlans|] == raw.vlans;
    var vlans := Vlans(raw.vlans);
    forall v | v in cfg.vlans
      ensures v in vlans
    {
      assert HasVlan(raw.vlans, |raw.vlans|, v);
    }
    assert forall v :: v in vlans ==> v in cfg.vlans;
    assert forall v :: v in vlans ==> vlans[v] == cfg.vlans[v];
    assert vlans.Keys == cfg.vlans.Keys;
    assert vlans == cfg.vlans;
    LinksReadBack(raw.links, cfg.links);
  }

  lemma {:induction false} HasMore(p: Payload, n: nat, sw: string)
    requires 0 < n <= |p|
    ensures HasSwitch(p, n, sw) <==> HasSwitch(p, n - 1, sw) || sw == p[n - 1].name
  {
  }

  lemma {:induction false} OneEntryMore(p: Payload, n: nat, cfg: SwitchCfg)
    requires 0 < n <= |p| && IsSwitchName(p[n - 1].name) && NormalizedSwitch(p[n - 1].cfg) == Some(cfg)
    ensures Normalized(p[..n]) == Normalized(p[..n - 1])[p[n - 1].name := cfg]
  {
    assert p[..n][..n - 1] == p[..n - 1];
  }

  lemma {:induction false} PrefixReadBack(p: Payload, s: PolicyState, n: nat)
    requires Stores(p, s) && n <= |p|
    requires forall i :: 0 <= i < |p| ==> IsSwitchName(p[i].name) && NormalizedSwitch(p[i].cfg) == Some(s[p[i].name])
    ensures forall sw :: sw in Normalized(p[..n]) <==> HasSwitch(p, n, sw)
    ensures forall sw :: sw in Normalized(p[..n]) ==> sw in s && Normalized(p[..n])[sw] == s[sw]
  {
    if n > 0 {
      PrefixReadBack(p, s, n - 1);
      OneEntryMore(p, n, s[p[n - 1].name]);
      forall sw
        ensures HasSwitch(p, n, sw) <==> HasSwitch(p, n - 1, sw) || sw == p[n - 1].name
      {
        HasMore(p, n, sw);
      }
    }
  }

  /** A stored policy in normal form is read back unchanged, in whatever order it was written. */
  lemma {:induction false} ReadBack(p: Payload, s: PolicyState)
    requires Stores(p, s) && NormalState(s)
    ensures Normalized(p) == s
  {
    forall i | 0 <= i < |p|
      ensures IsSwitchName(p[i].name) && NormalizedSwitch(p[i].cfg) == Some(s[p[i].name])
    {
      CfgReadBack(p[i].cfg, s[p[i].name]);
    }
    PrefixReadBack(p, s, |p|);
    assert p[..|p|] == p;
  }

  /** Normalising is idempotent: storing the result and reading it again changes nothing. */
  lemma {:induction false} NormalizeIdempotent(p: Payload, again: Payload)
    requires Stores(again, Normalized(p))
    ensures Normalized(again) == Normalized(p)
  {
    NormalizedIsNormal(p);
    ReadBack(again, Normalized(p));
  }
}
