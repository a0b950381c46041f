/** What a security policy file comes to, entry by entry: which entries of its lists count and
    in which order, what an address is, and which number is taken for one out of range. */
module SecurityReading {
  import opened Prelude
  import opened Text
  import opened SecurityPolicy
  import opened SecurityNormalizer

  // ----- Addresses -----

  predicate IsGroup(s: string) { 1 <= |s| <= 3 && IsDigits(s) }

  predicate Dotted(s: string, a: string, b: string, c: string, d: string) {
    IsGroup(a) && IsGroup(b) && IsGroup(c) && IsGroup(d) && s == a + "." + b + "." + (c + "." + d)
  }

  lemma {:induction false} RunDigits(s: string)
    ensures forall i :: 0 <= i < DigitRun(s) ==> IsDigit(s[i])
  {
    if s != "" && IsDigit(s[0]) {
      RunDigits(s[1..]);
      assert forall i :: 0 < i < DigitRun(s) ==> s[i] == s[1..][i - 1];
    }
  }

  lemma {:induction false} FirstGroup(s: string) returns (head: string, rest: string)
    requires Groups(s).Some? && Groups(s).value > 1
    ensures IsGroup(head) && s == head + "." + rest && Groups(rest) == Some(Groups(s).value - 1)
  {
    var n := DigitRun(s);
    RunDigits(s);
    head, rest := s[..n], s[n + 1..];
    assert s == s[..n] + [s[n]] + s[n + 1..];
  }

  lemma {:induction false} OnlyGroup(s: string)
    requires Groups(s) == Some(1)
    ensures IsGroup(s)
  {
    RunDigits(s);
    NeverNone(s);
  }

  lemma {:induction false} NeverNone(s: string)
    ensures Groups(s) == Some(1) ==> DigitRun(s) == |s|
  {
    var n := DigitRun(s);
    assert n < |s| && s[n] == '.' ==> Groups(s[n + 1..]) != Some(0);
  }

  /** An address is a text of four groups of one to three digits with dots between them. */
  lemma {:induction false} AddressExactly(s: string)
    ensures IsAddress(s) <==> exists a, b, c, d :: Dotted(s, a, b, c, d)
  {
    if IsAddress(s) {
      var a, s1 := FirstGroup(s);
      var b, s2 := FirstGroup(s1);
      var c, d := FirstGroup(s2);
      OnlyGroup(d);
      Joined(a, b, c + "." + d);
      assert Dotted(s, a, b, c, d);
    }
    if a, b, c, d :| Dotted(s, a, b, c, d) {
      Quad(a, b, c, d);
    }
  }

  // ----- Lists -----

  /** The addresses read from the first n entries are the valid ones, each once, and those read
      from more entries only follow them: the order is that of first occurrence. */
  lemma {:induction false} IpsExactly(xs: seq<string>, n: nat, ip: string)
    requires n <= |xs|
    ensures ip in Ips(xs, n) <==> ip in xs[..n] && IsAddress(ip)
    ensures NoDup(Ips(xs, n)) && (n > 0 ==> Ips(xs, n - 1) <= Ips(xs, n))
  {
    IpsDistinct(xs, n);
  }

  /** The same of zones. */
  lemma {:induction false} ZonesExactly(xs: seq<string>, n: nat, zone: string)
    requires n <= |xs|
    ensures zone in Zones(xs, n) <==> zone in xs[..n] && zone in ZONES
    ensures NoDup(Zones(xs, n)) && (n > 0 ==> Zones(xs, n - 1) <= Zones(xs, n))
  {
    ZonesDistinct(xs, n);
  }

  /** A pair of known zones. */
  ghost predicate UsablePair(x: RawPair) { x.RawPair? && x.src in ZONES && x.dst in ZONES }

  /** Entry i is the first usable one of its pair of zones, in that order. */
  ghost predicate FirstPair(xs: seq<RawPair>, i: int) {
    && 0 <= i < |xs| && UsablePair(xs[i])
    && forall j :: 0 <= j < i && UsablePair(xs[j]) ==> xs[j].src != xs[i].src || xs[j].dst != xs[i].dst
  }

  ghost predicate FromEntry(xs: seq<RawPair>, n: nat, pair: ZonePair) {
    exists i :: 0 <= i < n && FirstPair(xs, i) && xs[i] == RawPair(pair.src, pair.dst, pair.reason)
  }

  lemma {:induction false} SeenExactly(xs: seq<RawPair>, n: nat, src: string, dst: string)
    requires n <= |xs|
    ensures Seen(Pairs(xs, n), src, dst) <==>
            exists i :: 0 <= i < n && UsablePair(xs[i]) && xs[i].src == src && xs[i].dst == dst
  {
    if n > 0 {
      SeenExactly(xs, n - 1, src, dst);
      SeenMore(xs, n, src, dst);
    }
  }

  lemma {:induction false} SeenMore(xs: seq<RawPair>, n: nat, src: string, dst: string)
    requires 0 < n <= |xs|
    ensures Seen(Pairs(xs, n), src, dst) <==>
            Seen(Pairs(xs, n - 1), src, dst) || (UsablePair(xs[n - 1]) && xs[n - 1].src == src && xs[n - 1].dst == dst)
  {
    var done, all := Pairs(xs, n - 1), Pairs(xs, n);
    if Seen(done, src, dst) {
      var i :| 0 <= i < |done| && done[i].src == src && done[i].dst == dst;
      assert all[i] == done[i];
    }
    if |all| > |done| {
      assert all[|done|] == ZonePair(xs[n - 1].src, xs[n - 1].dst, xs[n - 1].reason);
    }
  }

  /** The pair that an entry adds, if it adds one. */
  ghost function Added(xs: seq<RawPair>, i: nat): seq<ZonePair>
    requires i < |xs|
  {
    if FirstPair(xs, i) then [ZonePair(xs[i].src, xs[i].dst, xs[i].reason)] else []
  }

  lemma {:induction false} PairsMore(xs: seq<RawPair>, n: nat)
    requires 0 < n <= |xs|
    ensures Pairs(xs, n) == Pairs(xs, n - 1) + Added(xs, n - 1)
  {
    var x := xs[n - 1];
    if UsablePair(x) {
      SeenExactly(xs, n - 1, x.src, x.dst);
      assert Seen(Pairs(xs, n - 1), x.src, x.dst) <==> !FirstPair(xs, n - 1);
    }
  }

  lemma {:induction false} FromMore(xs: seq<RawPair>, n: nat, pair: ZonePair)
    requires 0 < n <= |xs|
    ensures FromEntry(xs, n, pair) <==> FromEntry(xs, n - 1, pair) || pair in Added(xs, n - 1)
  {
    if FromEntry(xs, n - 1, pair) {
      var i :| 0 <= i < n - 1 && FirstPair(xs, i) && xs[i] == RawPair(pair.src, pair.dst, pair.reason);
      assert 0 <= i < n;
    }
  }

  lemma {:induction false} InMore(before: seq<ZonePair>, added: seq<ZonePair>, all: seq<ZonePair>, pair: ZonePair)
    requires all == before + added
    ensures (pair in all <==> pair in before || pair in added) && before <= all
  {
  }

  /** The pairs read are the first usable entries of their pairs of zones, source before
      destination, with their reasons and in their order. */
  lemma {:induction false} PairsExactly(xs: seq<RawPair>, n: nat, pair: ZonePair)
    requires n <= |xs|
    ensures pair in Pairs(xs, n) <==> FromEntry(xs, n, pair)
    ensures n > 0 ==> Pairs(xs, n - 1) <= Pairs(xs, n)
  {
    if n > 0 {
      PairsExactly(xs, n - 1, pair);
      PairsMore(xs, n);
      FromMore(xs, n, pair);
      InMore(Pairs(xs, n - 1), Added(xs, n - 1), Pairs(xs, n), pair);
    }
  }

  // ----- Numbers -----

  /** Of the numbers in the range, the one nearest to what was asked for. */
  ghost predicate NearestIn(asked: int, low: int, high: int, r: int) {
    low <= r <= high && forall x :: low <= x <= high ==> Distance(asked, r) <= Distance(asked, x)
  }

  function Distance(a: int, b: int): nat { if a <= b then b - a else a - b }

  function Asked(raw: Option<RawNumber>, default: int): int {
    if raw.Some? && raw.value.Number? then raw.value.n else default
  }

  predicate Unreadable(raw: Option<RawNumber>) { raw == Some(NotANumber) }

  /** The priority is the nearest to the one asked for in 300 to 390, with 360 for a missing or
      unreadable one; the idle timeout likewise in 10 to 900, with 120; and the hard timeout
      between the idle one and 1800, with 300 if it is missing. Only an unreadable hard
      timeout is taken as 300 whatever the idle one is. */
  lemma {:induction false} NumbersExactly(raw: RawPolicy)
    ensures var p := Normalized(raw);
            && NearestIn(Asked(raw.priority, 360), 300, 390, p.priority)
            && NearestIn(Asked(raw.idle, 120), 10, 900, p.idle)
            && (if Unreadable(raw.hard) then p.hard == 300 else NearestIn(Asked(raw.hard, 300), p.idle, 1800, p.hard))
  {
    ClampedNearest(raw.priority, 300, 390, 360);
    ClampedNearest(raw.idle, 10, 900, 120);
    ClampedNearest(raw.hard, Normalized(raw).idle, 1800, 300);
  }

  lemma {:induction false} ClampedNearest(raw: Option<RawNumber>, low: int, high: int, default: int)
    requires low <= high
    ensures if Unreadable(raw) then Clamped(raw, low, high, default) == default
            else NearestIn(Asked(raw, default), low, high, Clamped(raw, low, high, default))
  {
  }

  // ----- Ports -----

  const NO_FILE := RawPolicy(false, "", None, None, None, [], None, None, None, None, None, None)

  /** The ports that every file leaves open: those of the default policy, and no others. */
  lemma {:induction false} AlwaysOpen(p: int)
    ensures (forall raw :: p in Normalized(raw).tcpPorts) <==>
            p in {80, 443, 8080, 8443, 8008, 8088, 9443, 5201, 5202, 5203, 5204}
    ensures (forall raw :: p in Normalized(raw).udpPorts) <==> p in {67, 68, 1812, 1813, 5204}
  {
    DefaultPorts(p);
    forall raw
      ensures p in TCP_PORTS ==> p in Normalized(raw).tcpPorts
      ensures p in UDP_PORTS ==> p in Normalized(raw).udpPorts
    {
      PortsNormal(raw.tcpPorts, TCP_PORTS);
      PortsNormal(raw.udpPorts, UDP_PORTS);
    }
    assert Normalized(NO_FILE).tcpPorts == TCP_PORTS && Normalized(NO_FILE).udpPorts == UDP_PORTS;
  }

  lemma {:induction false} DefaultPorts(p: int)
    ensures p in TCP_PORTS <==> p in {80, 443, 8080, 8443, 8008, 8088, 9443, 5201, 5202, 5203, 5204}
    ensures p in UDP_PORTS <==> p in {67, 68, 1812, 1813, 5204}
  {
  }

  // ----- The whole file -----

  lemma {:induction false} AddressesRead(raw: Option<seq<string>>, default: seq<string>, ip: string)
    ensures ip in AllIps(raw, default) <==>
            if raw.Some? && (exists x :: x in raw.value && IsAddress(x)) then ip in raw.value && IsAddress(ip)
            else ip in default
  {
    if raw.Some? {
      var xs := raw.value;
      IpsDistinct(xs, |xs|);
      assert xs[..|xs|] == xs;
      var ips := Ips(xs, |xs|);
      if ips != [] {
        assert ips[0] in ips;
      }
    }
  }

  lemma {:induction false} ZonesRead(raw: Option<seq<string>>, zone: string)
    ensures zone in Sources(raw) <==>
            if raw.Some? && (exists x :: x in raw.value && x in ZONES) then zone in raw.value && zone in ZONES
            else zone == "student_lab" || zone == "incubation"
  {
    if raw.Some? {
      var xs := raw.value;
      ZonesDistinct(xs, |xs|);
      assert xs[..|xs|] == xs;
      var zones := Zones(xs, |xs|);
      if zones != [] {
        assert zones[0] in zones;
      }
    }
  }

  /** The protected addresses and restricted zones are the valid ones of the file's lists; a
      list without a valid entry stands for the default. */
  lemma {:induction false} ListsExactly(raw: RawPolicy, ip: string, zone: string)
    ensures var p := Normalized(raw);
            && (ip in p.staff <==>
                  if raw.staff.Some? && (exists x :: x in raw.staff.value && IsAddress(x))
                  then ip in raw.staff.value && IsAddress(ip) else ip in STAFF)
            && (ip in p.servers <==>
                  if raw.servers.Some? && (exists x :: x in raw.servers.value && IsAddress(x))
                  then ip in raw.servers.value && IsAddress(ip) else ip in SERVERS)
            && (zone in p.restricted <==>
                  if raw.restricted.Some? && (exists x :: x in raw.restricted.value && x in ZONES)
                  then zone in raw.restricted.value && zone in ZONES
                  else zone == "student_lab" || zone == "incubation")
  {
    AddressesRead(raw.staff, STAFF, ip);
    AddressesRead(raw.servers, SERVERS, ip);
    ZonesRead(raw.restricted, zone);
  }
}
