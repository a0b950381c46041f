/** What the controller makes of any stored file, entry by entry: which members, links, VLANs
    and switches count, in which order, and which of several entries for the same wins.
    Whatever else the file holds changes nothing. */
module VlanReading {
  import opened Prelude
  import opened VlanPolicy
  import opened VlanNormalizer

  /** Positions in ascending order. */
  ghost predicate Climbing(at: seq<nat>) { forall i, j :: 0 <= i < j < |at| ==> at[i] < at[j] }

  // ----- Members -----

  /** A member entry with a positive port number and a hardware address. */
  ghost predicate UsableMember(m: RawMember) { m.RawMember? && m.port.Some? && m.port.value > 0 && m.mac.Some? }

  /** The first usable entry of its port. */
  ghost predicate FirstOfPort(raw: seq<RawMember>, i: int) {
    && 0 <= i < |raw| && UsableMember(raw[i])
    && forall j :: 0 <= j < i && UsableMember(raw[j]) ==> raw[j].port != raw[i].port
  }

  ghost predicate PortUsed(raw: seq<RawMember>, port: int) {
    exists j :: 0 <= j < |raw| && UsableMember(raw[j]) && raw[j].port == Some(port)
  }

  lemma {:induction false} PortsUsed(raw: seq<RawMember>, port: int)
    ensures port in Ports(Members(raw)) <==> PortUsed(raw, port)
  {
    if raw != [] {
      var n := |raw| - 1;
      PortsUsed(raw[..n], port);
      var before := Members(raw[..n]);
      if PortUsed(raw, port) {
        var j :| 0 <= j < |raw| && UsableMember(raw[j]) && raw[j].port == Some(port);
        assert j < n ==> raw[..n][j] == raw[j];
      }
      if PortUsed(raw[..n], port) {
        var j :| 0 <= j < n && UsableMember(raw[..n][j]) && raw[..n][j].port == Some(port);
        assert raw[j] == raw[..n][j];
      }
      if GoodMember(raw[n], Ports(before)) {
        var m := Member(raw[n].device, raw[n].text, raw[n].port.value, raw[n].mac.value);
        assert m in before + [m];
        assert forall p :: p in Ports(before + [m]) <==> p in Ports(before) || p == m.port;
      }
    }
  }

  lemma {:induction false} LastMember(raw: seq<RawMember>)
    requires raw != []
    ensures GoodMember(raw[|raw| - 1], Ports(Members(raw[..|raw| - 1]))) <==> FirstOfPort(raw, |raw| - 1)
  {
    var n := |raw| - 1;
    assert forall j :: 0 <= j < n ==> raw[..n][j] == raw[j];
    if UsableMember(raw[n]) {
      PortsUsed(raw[..n], raw[n].port.value);
    }
  }

  /** These are the members that the first usable entries of their ports hold, in the order of
      the list, found at these positions. */
  ghost predicate ReadAt(raw: seq<RawMember>, ms: seq<Member>, at: seq<nat>) {
    && |at| == |ms| && Climbing(at)
    && (forall k :: 0 <= k < |at| ==> FirstOfPort(raw, at[k]) && raw[at[k]] == WriteMember(ms[k]))
    && (forall i :: FirstOfPort(raw, i) ==> i in at)
  }

  lemma {:induction false} ReadOneMore(raw: seq<RawMember>, ms: seq<Member>, at: seq<nat>)
    requires raw != [] && ReadAt(raw[..|raw| - 1], ms, at)
    ensures !FirstOfPort(raw, |raw| - 1) ==> ReadAt(raw, ms, at)
    ensures forall m | FirstOfPort(raw, |raw| - 1) && raw[|raw| - 1] == WriteMember(m) ::
              ReadAt(raw, ms + [m], at + [|raw| - 1])
  {
    var n := |raw| - 1;
    forall i | 0 <= i < n
      ensures FirstOfPort(raw, i) <==> FirstOfPort(raw[..n], i)
    {
      FirstOfShorter(raw, i);
    }
    var more := at + [n];
    assert more[|at|] == n;
    assert forall i :: i in at ==> i in more;
  }

  /** The members read are exactly the first usable entries of their ports, in the order of
      the file and as written there. */
  lemma {:induction false} MembersExactly(raw: seq<RawMember>) returns (at: seq<nat>)
    ensures ReadAt(raw, Members(raw), at)
  {
    if raw == [] {
      at := [];
    } else {
      var n := |raw| - 1;
      var before := MembersExactly(raw[..n]);
      LastMember(raw);
      ReadOneMore(raw, Members(raw[..n]), before);
      at := if FirstOfPort(raw, n) then before + [n] else before;
    }
  }

  lemma {:induction false} FirstOfShorter(raw: seq<RawMember>, i: int)
    requires 0 <= i < |raw| - 1
    ensures FirstOfPort(raw, i) <==> FirstOfPort(raw[..|raw| - 1], i)
  {
    var short := raw[..|raw| - 1];
    assert forall j :: 0 <= j <= i ==> short[j] == raw[j];
  }

  // ----- Links -----

  ghost predicate InRange(v: Option<int>) { v.Some? && 1 <= v.value <= 4094 }

  /** Two different VLAN numbers in range. */
  ghost predicate UsableLink(l: RawLink) { l.RawLink? && InRange(l.a) && InRange(l.b) && l.a != l.b }

  /** The same two VLANs, in either order. */
  ghost predicate SamePair(l: RawLink, m: RawLink)
    requires l.RawLink? && m.RawLink?
  {
    (l.a == m.a && l.b == m.b) || (l.a == m.b && l.b == m.a)
  }

  ghost predicate FirstOfPair(raw: seq<RawLink>, i: int) {
    && 0 <= i < |raw| && UsableLink(raw[i])
    && forall j :: 0 <= j < i && UsableLink(raw[j]) ==> !SamePair(raw[j], raw[i])
  }

  /** The link joins the two VLANs of the entry, the smaller first. */
  ghost predicate Joins(l: Link, entry: RawLink) {
    && entry.RawLink? && l.src < l.dst
    && SamePair(entry, RawLink(Some(l.src), Some(l.dst)))
  }

  ghost predicate PairUsed(raw: seq<RawLink>, l: Link) {
    exists j :: 0 <= j < |raw| && UsableLink(raw[j]) && Joins(l, raw[j])
  }

  lemma {:induction false} JoinsOrdered(entry: RawLink, l: Link)
    requires UsableLink(entry)
    ensures Joins(l, entry) <==> l == Ordered(entry.a.value, entry.b.value)
  {
  }

  lemma {:induction false} PairsUsed(raw: seq<RawLink>, l: Link)
    ensures l in Links(raw) <==> PairUsed(raw, l)
  {
    if raw != [] {
      var n := |raw| - 1;
      PairsUsed(raw[..n], l);
      if PairUsed(raw, l) {
        var j :| 0 <= j < |raw| && UsableLink(raw[j]) && Joins(l, raw[j]);
        assert j < n ==> raw[..n][j] == raw[j];
      }
      if PairUsed(raw[..n], l) {
        var j :| 0 <= j < n && UsableLink(raw[..n][j]) && Joins(l, raw[..n][j]);
        assert raw[j] == raw[..n][j];
      }
      if UsableLink(raw[n]) {
        JoinsOrdered(raw[n], l);
      }
    }
  }

  lemma {:induction false} FirstPairShorter(raw: seq<RawLink>, i: int)
    requires 0 <= i < |raw| - 1
    ensures FirstOfPair(raw, i) <==> FirstOfPair(raw[..|raw| - 1], i)
  {
    var short := raw[..|raw| - 1];
    assert forall j :: 0 <= j <= i ==> short[j] == raw[j];
  }

  lemma {:induction false} LastPair(raw: seq<RawLink>)
    requires raw != []
    ensures GoodLink(raw[|raw| - 1], Links(raw[..|raw| - 1])) <==> FirstOfPair(raw, |raw| - 1)
  {
    var n := |raw| - 1;
    if UsableLink(raw[n]) {
      var l := Ordered(raw[n].a.value, raw[n].b.value);
      PairsUsed(raw[..n], l);
      if PairUsed(raw[..n], l) {
        var j :| 0 <= j < n && UsableLink(raw[..n][j]) && Joins(l, raw[..n][j]);
        assert raw[j] == raw[..n][j] && SamePair(raw[j], raw[n]);
      }
      forall j | 0 <= j < n && UsableLink(raw[j]) && SamePair(raw[j], raw[n])
        ensures PairUsed(raw[..n], l)
      {
        assert raw[..n][j] == raw[j] && Joins(l, raw[j]);
      }
    }
  }

  /** The same for links, each with the smaller number first. */
  ghost predicate LinksAt(raw: seq<RawLink>, ls: seq<Link>, at: seq<nat>) {
    && |at| == |ls| && Climbing(at)
    && (forall k :: 0 <= k < |at| ==> FirstOfPair(raw, at[k]) && Joins(ls[k], raw[at[k]]))
    && (forall i :: FirstOfPair(raw, i) ==> i in at)
  }

  lemma {:induction false} LinkOneMore(raw: seq<RawLink>, ls: seq<Link>, at: seq<nat>)
    requires raw != [] && LinksAt(raw[..|raw| - 1], ls, at)
    ensures !FirstOfPair(raw, |raw| - 1) ==> LinksAt(raw, ls, at)
    ensures forall l | FirstOfPair(raw, |raw| - 1) && Joins(l, raw[|raw| - 1]) ::
              LinksAt(raw, ls + [l], at + [|raw| - 1])
  {
    var n := |raw| - 1;
    forall i | 0 <= i < n
      ensures FirstOfPair(raw, i) <==> FirstOfPair(raw[..n], i)
    {
      FirstPairShorter(raw, i);
    }
    var more := at + [n];
    assert more[|at|] == n;
    assert forall i :: i in at ==> i in more;
  }

  /** The links read are exactly the first usable entries of their pairs, in the order of the
      file, each with the smaller number first. */
  lemma {:induction false} LinksExactly(raw: seq<RawLink>) returns (at: seq<nat>)
    ensures LinksAt(raw, Links(raw), at)
  {
    if raw == [] {
      at := [];
    } else {
      var n := |raw| - 1;
      var before := LinksExactly(raw[..n]);
      LastPair(raw);
      LinkOneMore(raw, Links(raw[..n]), before);
      at := if FirstOfPair(raw, n) then before + [n] else before;
      if FirstOfPair(raw, n) {
        JoinsOrdered(raw[n], Ordered(raw[n].a.value, raw[n].b.value));
      }
    }
  }

  // ----- VLANs -----

  /** A VLAN entry with a number in range and a usable member. */
  ghost predicate UsableVlan(raw: RawVlan) {
    InRange(raw.id) && exists i :: 0 <= i < |raw.members| && UsableMember(raw.members[i])
  }

  /** The last usable entry of the VLAN. */
  ghost predicate LastOfVlan(raw: seq<RawVlan>, i: int, v: int) {
    && 0 <= i < |raw| && UsableVlan(raw[i]) && raw[i].id == Some(v)
    && forall j :: i < j < |raw| && UsableVlan(raw[j]) ==> raw[j].id != Some(v)
  }

  lemma {:induction false} SomeMember(raw: seq<RawMember>)
    ensures Members(raw) != [] <==> exists i :: 0 <= i < |raw| && UsableMember(raw[i])
  {
    var ms := Members(raw);
    if ms != [] {
      assert ms[0] in ms;
      PortsUsed(raw, ms[0].port);
    }
    if i :| 0 <= i < |raw| && UsableMember(raw[i]) {
      PortsUsed(raw, raw[i].port.value);
    }
  }

  /** A VLAN is read if and only if it has a usable entry, and then its members are those of
      its last usable entry. */
  lemma {:induction false} VlansExactly(raw: seq<RawVlan>, v: int)
    ensures v in Vlans(raw) <==> exists i :: LastOfVlan(raw, i, v)
    ensures forall i :: LastOfVlan(raw, i, v) ==> Vlans(raw)[v] == Members(raw[i].members)
  {
    if raw != [] {
      var n := |raw| - 1;
      VlansExactly(raw[..n], v);
      SomeMember(raw[n].members);
      if UsableVlan(raw[n]) && raw[n].id == Some(v) {
        assert LastOfVlan(raw, n, v);
      } else {
        forall i
          ensures LastOfVlan(raw, i, v) <==> LastOfVlan(raw[..n], i, v)
        {
          LastOfShorter(raw, i, v);
        }
      }
    }
  }

  lemma {:induction false} LastOfShorter(raw: seq<RawVlan>, i: int, v: int)
    requires raw != [] && !(UsableVlan(raw[|raw| - 1]) && raw[|raw| - 1].id == Some(v))
    ensures LastOfVlan(raw, i, v) <==> LastOfVlan(raw[..|raw| - 1], i, v)
  {
    var n := |raw| - 1;
    var short := raw[..n];
    assert forall j :: 0 <= j < n ==> short[j] == raw[j];
    if LastOfVlan(short, i, v) {
      assert UsableVlan(raw[i]);
      forall j | i < j < |raw| && UsableVlan(raw[j])
        ensures raw[j].id != Some(v)
      {
        assert j < n ==> UsableVlan(short[j]);
      }
    }
    if LastOfVlan(raw, i, v) {
      forall j | i < j < n && UsableVlan(short[j])
        ensures short[j].id != Some(v)
      {
        assert UsableVlan(raw[j]);
      }
    }
  }

  // ----- Switches -----

  /** An entry for a switch with a usable VLAN or link. */
  ghost predicate UsableEntry(e: RawEntry) {
    && IsSwitchName(e.name) && e.cfg.RawSwitch?
    && ((exists i :: 0 <= i < |e.cfg.vlans| && UsableVlan(e.cfg.vlans[i]))
        || exists i :: 0 <= i < |e.cfg.links| && UsableLink(e.cfg.links[i]))
  }

  ghost predicate LastOfSwitch(p: Payload, i: int, sw: string) {
    && 0 <= i < |p| && UsableEntry(p[i]) && p[i].name == sw
    && forall j :: i < j < |p| && UsableEntry(p[j]) ==> p[j].name != sw
  }

  lemma {:induction false} SomeVlan(raw: seq<RawVlan>)
    ensures Vlans(raw) != map[] <==> exists i :: 0 <= i < |raw| && UsableVlan(raw[i])
  {
    if raw != [] {
      var n := |raw| - 1;
      SomeVlan(raw[..n]);
      SomeMember(raw[n].members);
      assert forall i :: 0 <= i < n ==> raw[..n][i] == raw[i];
      if UsableVlan(raw[n]) {
        assert raw[n].id.value in Vlans(raw);
      } else if i :| 0 <= i < |raw| && UsableVlan(raw[i]) {
        assert UsableVlan(raw[..n][i]);
      }
    }
  }

  lemma {:induction false} SomeLink(raw: seq<RawLink>)
    ensures Links(raw) != [] <==> exists i :: 0 <= i < |raw| && UsableLink(raw[i])
  {
    var ls := Links(raw);
    if ls != [] {
      assert ls[0] in ls;
      PairsUsed(raw, ls[0]);
    }
    if i :| 0 <= i < |raw| && UsableLink(raw[i]) {
      var l := Ordered(raw[i].a.value, raw[i].b.value);
      JoinsOrdered(raw[i], l);
      assert PairUsed(raw, l);
      PairsUsed(raw, l);
    }
  }

  lemma {:induction false} EntryCounts(e: RawEntry)
    ensures IsSwitchName(e.name) && NormalizedSwitch(e.cfg).Some? <==> UsableEntry(e)
    ensures UsableEntry(e) ==> NormalizedSwitch(e.cfg) == Some(SwitchCfg(Vlans(e.cfg.vlans), Links(e.cfg.links)))
  {
    if e.cfg.RawSwitch? {
      SomeVlan(e.cfg.vlans);
      SomeLink(e.cfg.links);
    }
  }

  lemma {:induction false} LastSwitchShorter(p: Payload, i: int, sw: string)
    requires p != [] && !(UsableEntry(p[|p| - 1]) && p[|p| - 1].name == sw)
    ensures LastOfSwitch(p, i, sw) <==> LastOfSwitch(p[..|p| - 1], i, sw)
  {
    var n := |p| - 1;
    var short := p[..n];
    assert forall j :: 0 <= j < n ==> short[j] == p[j];
    if LastOfSwitch(short, i, sw) {
      assert UsableEntry(p[i]);
      forall j | i < j < |p| && UsableEntry(p[j])
        ensures p[j].name != sw
      {
        assert j < n ==> UsableEntry(short[j]);
      }
    }
    if LastOfSwitch(p, i, sw) {
      forall j | i < j < n && UsableEntry(short[j])
        ensures short[j].name != sw
      {
        assert UsableEntry(p[j]);
      }
    }
  }

  /** A switch is in the policy read if and only if some entry of the file for it is usable,
      and its VLANs and links are those of the last such entry: every other entry of the
      file, wherever it stands, changes nothing. */
  lemma {:induction false} ReadExactly(p: Payload, sw: string)
    ensures sw in Normalized(p) <==> exists i :: LastOfSwitch(p, i, sw)
    ensures forall i :: LastOfSwitch(p, i, sw) ==>
              Normalized(p)[sw] == SwitchCfg(Vlans(p[i].cfg.vlans), Links(p[i].cfg.links))
  {
    if p != [] {
      var n := |p| - 1;
      ReadExactly(p[..n], sw);
      EntryCounts(p[n]);
      if UsableEntry(p[n]) && p[n].name == sw {
        assert LastOfSwitch(p, n, sw);
      } else {
        forall i
          ensures LastOfSwitch(p, i, sw) <==> LastOfSwitch(p[..n], i, sw)
        {
          LastSwitchShorter(p, i, sw);
        }
      }
    }
  }
}
