/** Normalisation of a security policy file (examples/campus_controller.py): defaults for what
    is missing, junk skipped, duplicates removed, numbers clamped. */
module SecurityNormalizer {
  import opened Prelude
  import opened OpenFlow
  import opened Text
  import opened SecurityPolicy

  // ----- What a file may hold -----

  datatype RawNumber = Number(n: int) | NotANumber

  datatype RawPair = RawPair(src: string, dst: string, reason: string) | NotAPair

  /** None is a missing key. */
  datatype RawPolicy = RawPolicy(
    enabled: bool,
    source: string,
    staff: Option<seq<string>>,
    servers: Option<seq<string>>,
    restricted: Option<seq<string>>,
    pairs: seq<RawPair>,
    tcpPorts: Option<seq<RawNumber>>,
    udpPorts: Option<seq<RawNumber>>,
    allowIcmp: Option<bool>,
    priority: Option<RawNumber>,
    idle: Option<RawNumber>,
    hard: Option<RawNumber>)

  /** n addresses in a row. */
  function Range(first: nat, n: nat): (r: seq<string>)
    requires first + n <= 0x1_0000_0000
    ensures |r| == n && forall i :: 0 <= i < n ==> r[i] == IpText(first + i)
  {
    seq(n, i requires 0 <= i < n => IpText(first + i))
  }

  /** 10.4.1.1 to 10.4.1.3, and 10.0.1.10 and 10.0.1.11. */
  const STAFF := Range(0x0A04_0101, 3)
  const SERVERS := Range(0x0A00_010A, 2)
  const RESTRICTED := ["student_lab", "incubation"]
  const TCP_PORTS := [80, 443, 8080, 8443, 8008, 8088, 9443, 5201, 5202, 5203, 5204]
  const UDP_PORTS := [67, 68, 1812, 1813, 5204]
  const ZONES := {"student_lab", "admin_zone", "academic_zone", "incubation", "server_zone", "backup_service",
                  "student_wifi", "staff_lan", "it_lab", "network_lab"}

  // ----- The lists -----

  /** `base` followed by what the first n elements add to it. */
  function Union<T(==)>(base: seq<T>, xs: seq<T>, n: nat): seq<T>
    requires n <= |xs|
  {
    if n == 0 then base
    else
      var done := Union(base, xs, n - 1);
      if xs[n - 1] in done then done else done + [xs[n - 1]]
  }

  /** The digits in front. */
  function DigitRun(s: string): (n: nat)
    ensures n <= |s|
  {
    if s != "" && IsDigit(s[0]) then 1 + DigitRun(s[1..]) else 0
  }

  /** The number of groups if the text is made of groups of one to three digits with dots
      between them, whatever the size of the numbers; None for other texts. */
  function Groups(s: string): Option<nat>
    decreases |s|
  {
    var n := DigitRun(s);
    if !(1 <= n <= 3) then None
    else if n == |s| then Some(1)
    else if s[n] != '.' then None
    else
      var rest := Groups(s[n + 1..]);
      if rest.None? then None else Some(rest.value + 1)
  }

  predicate IsAddress(s: string) { Groups(s) == Some(4) }

  function Ips(xs: seq<string>, n: nat): seq<string>
    requires n <= |xs|
  {
    if n == 0 then []
    else
      var done := Ips(xs, n - 1);
      if IsAddress(xs[n - 1]) && xs[n - 1] !in done then done + [xs[n - 1]] else done
  }

  function Zones(xs: seq<string>, n: nat): seq<string>
    requires n <= |xs|
  {
    if n == 0 then []
    else
      var done := Zones(xs, n - 1);
      if xs[n - 1] in ZONES && xs[n - 1] !in done then done + [xs[n - 1]] else done
  }

  predicate Seen(done: seq<ZonePair>, src: string, dst: string) {
    exists i :: 0 <= i < |done| && done[i].src == src && done[i].dst == dst
  }

  function Pairs(xs: seq<RawPair>, n: nat): seq<ZonePair>
    requires n <= |xs|
  {
    if n == 0 then []
    else
      var done := Pairs(xs, n - 1);
      match xs[n - 1]
      case RawPair(src, dst, reason) =>
        if src in ZONES && dst in ZONES && !Seen(done, src, dst) then done + [ZonePair(src, dst, reason)] else done
      case NotAPair => done
  }

  predicate IsPort(x: RawNumber) { x.Number? && 0 < x.n <= 65535 }

  function Ports(xs: seq<RawNumber>, n: nat): seq<int>
    requires n <= |xs|
  {
    if n == 0 then []
    else
      var done := Ports(xs, n - 1);
      if IsPort(xs[n - 1]) && xs[n - 1].n !in done then done + [xs[n - 1].n] else done
  }

  function OrElse<T(==)>(xs: seq<T>, default: seq<T>): seq<T> { if xs == [] then default else xs }

  function AllIps(raw: Option<seq<string>>, default: seq<string>): seq<string> {
    if raw.None? then default else OrElse(Ips(raw.value, |raw.value|), default)
  }

  function Sources(raw: Option<seq<string>>): seq<string> {
    if raw.None? then RESTRICTED else OrElse(Zones(raw.value, |raw.value|), RESTRICTED)
  }

  function AllPorts(raw: Option<seq<RawNumber>>, default: seq<int>): seq<int> {
    if raw.None? then default
    else
      var ports := Ports(raw.value, |raw.value|);
      Union(default, ports, |ports|)
  }

  function Clamped(raw: Option<RawNumber>, low: int, high: int, default: int): int {
    if raw.None? then Max(low, Min(high, default))
    else if raw.value.NotANumber? then default
    else Max(low, Min(high, raw.value.n))
  }

  function Normalized(raw: RawPolicy): Policy {
    var idle := Clamped(raw.idle, 10, 900, 120);
    Policy(
      raw.enabled,
      if raw.source == "" then "external" else raw.source,
      AllIps(raw.staff, STAFF),
      AllIps(raw.servers, SERVERS),
      Sources(raw.restricted),
      Pairs(raw.pairs, |raw.pairs|),
      AllPorts(raw.tcpPorts, TCP_PORTS),
      AllPorts(raw.udpPorts, UDP_PORTS),
      if raw.allowIcmp.Some? then raw.allowIcmp.value else true,
      Clamped(raw.priority, 300, 390, 360),
      idle,
      Clamped(raw.hard, idle, 1800, 300))
  }

  // ----- A policy written back to a file -----

  function RawNumbers(ns: seq<int>): seq<RawNumber> { seq(|ns|, i requires 0 <= i < |ns| => Number(ns[i])) }

  function RawPairs(ps: seq<ZonePair>): seq<RawPair> {
    seq(|ps|, i requires 0 <= i < |ps| => RawPair(ps[i].src, ps[i].dst, ps[i].reason))
  }

  function Written(p: Policy): RawPolicy {
    RawPolicy(p.enabled, p.source, Some(p.staff), Some(p.servers), Some(p.restricted), RawPairs(p.blocked),
              Some(RawNumbers(p.tcpPorts)), Some(RawNumbers(p.udpPorts)), Some(p.allowIcmp),
              Some(Number(p.priority)), Some(Number(p.idle)), Some(Number(p.hard)))
  }

  // ----- Facts about the lists -----

  lemma {:induction false} IpsDistinct(xs: seq<string>, n: nat)
    requires n <= |xs|
    ensures NoDup(Ips(xs, n))
    ensures forall ip :: ip in Ips(xs, n) <==> ip in xs[..n] && IsAddress(ip)
  {
    if n > 0 {
      IpsDistinct(xs, n - 1);
      assert xs[..n] == xs[..n - 1] + [xs[n - 1]];
    }
  }

  lemma {:induction false} IpsAgain(ips: seq<string>, n: nat)
    requires NoDup(ips) && n <= |ips| && forall i :: 0 <= i < |ips| ==> IsAddress(ips[i])
    ensures Ips(ips, n) == ips[..n]
  {
    if n > 0 {
      IpsAgain(ips, n - 1);
      assert ips[..n] == ips[..n - 1] + [ips[n - 1]];
    }
  }

  lemma {:induction false} ZonesDistinct(xs: seq<string>, n: nat)
    requires n <= |xs|
    ensures NoDup(Zones(xs, n))
    ensures forall z :: z in Zones(xs, n) <==> z in xs[..n] && z in ZONES
  {
    if n > 0 {
      ZonesDistinct(xs, n - 1);
      assert xs[..n] == xs[..n - 1] + [xs[n - 1]];
    }
  }

  lemma {:induction false} ZonesAgain(zs: seq<string>, n: nat)
    requires NoDup(zs) && n <= |zs| && forall i :: 0 <= i < |zs| ==> zs[i] in ZONES
    ensures Zones(zs, n) == zs[..n]
  {
    if n > 0 {
      ZonesAgain(zs, n - 1);
      assert zs[..n] == zs[..n - 1] + [zs[n - 1]];
    }
  }

  ghost predicate DistinctPairs(ps: seq<ZonePair>) {
    && (forall i :: 0 <= i < |ps| ==> ps[i].src in ZONES && ps[i].dst in ZONES)
    && (forall i, j :: 0 <= i < j < |ps| ==> !(ps[i].src == ps[j].src && ps[i].dst == ps[j].dst))
  }

  lemma {:induction false} PairsDistinct(xs: seq<RawPair>, n: nat)
    requires n <= |xs|
    ensures DistinctPairs(Pairs(xs, n))
    ensures forall src, dst :: Seen(Pairs(xs, n), src, dst) ==> src in ZONES && dst in ZONES
    ensures forall i :: 0 <= i < n && xs[i].RawPair? && xs[i].src in ZONES && xs[i].dst in ZONES ==>
              Seen(Pairs(xs, n), xs[i].src, xs[i].dst)
  {
    if n > 0 {
      PairsDistinct(xs, n - 1);
      var done, all := Pairs(xs, n - 1), Pairs(xs, n);
      assert forall src, dst :: Seen(done, src, dst) ==> Seen(all, src, dst) by {
        assert done <= all;
      }
      if xs[n - 1].RawPair? && xs[n - 1].src in ZONES && xs[n - 1].dst in ZONES
          && !Seen(done, xs[n - 1].src, xs[n - 1].dst) {
        assert all[|done|] == ZonePair(xs[n - 1].src, xs[n - 1].dst, xs[n - 1].reason);
        assert Seen(all, xs[n - 1].src, xs[n - 1].dst);
      }
    }
  }

  lemma {:induction false} PairsAgain(ps: seq<ZonePair>, n: nat)
    requires DistinctPairs(ps) && n <= |ps|
    ensures Pairs(RawPairs(ps), n) == ps[..n]
  {
    if n > 0 {
      PairsAgain(ps, n - 1);
      NotSeen(ps, n - 1);
      PairsOneMore(RawPairs(ps), ps, n);
    }
  }

  lemma {:induction false} NotSeen(ps: seq<ZonePair>, n: nat)
    requires DistinctPairs(ps) && n < |ps|
    ensures ps[n].src in ZONES && ps[n].dst in ZONES && !Seen(ps[..n], ps[n].src, ps[n].dst)
  {
  }

  lemma {:induction false} PairsOneMore(xs: seq<RawPair>, ps: seq<ZonePair>, n: nat)
    requires 0 < n <= |ps| == |xs| && Pairs(xs, n - 1) == ps[..n - 1]
    requires xs[n - 1] == RawPair(ps[n - 1].src, ps[n - 1].dst, ps[n - 1].reason)
    requires ps[n - 1].src in ZONES && ps[n - 1].dst in ZONES && !Seen(ps[..n - 1], ps[n - 1].src, ps[n - 1].dst)
    ensures Pairs(xs, n) == ps[..n]
  {
    assert ps[..n] == ps[..n - 1] + [ps[n - 1]];
  }

  lemma {:induction false} PortsDistinct(xs: seq<RawNumber>, n: nat)
    requires n <= |xs|
    ensures NoDup(Ports(xs, n)) && forall i :: 0 <= i < |Ports(xs, n)| ==> 0 < Ports(xs, n)[i] <= 65535
    ensures forall p :: p in Ports(xs, n) <==> Number(p) in xs[..n] && IsPort(Number(p))
  {
    if n > 0 {
      PortsDistinct(xs, n - 1);
      assert xs[..n] == xs[..n - 1] + [xs[n - 1]];
    }
  }

  lemma {:induction false} PortsAgain(ports: seq<int>, n: nat)
    requires NoDup(ports) && n <= |ports| && forall i :: 0 <= i < |ports| ==> 0 < ports[i] <= 65535
    ensures Ports(RawNumbers(ports), n) == ports[..n]
  {
    if n > 0 {
      PortsAgain(ports, n - 1);
      assert ports[..n] == ports[..n - 1] + [ports[n - 1]];
    }
  }

  lemma {:induction false} UnionMeaning<T>(base: seq<T>, xs: seq<T>, n: nat)
    requires n <= |xs| && NoDup(base)
    ensures NoDup(Union(base, xs, n)) && base <= Union(base, xs, n)
    ensures forall x :: x in Union(base, xs, n) <==> x in base || x in xs[..n]
  {
    if n > 0 {
      UnionMeaning(base, xs, n - 1);
      assert xs[..n] == xs[..n - 1] + [xs[n - 1]];
    }
  }

  /** Adding a list that begins with the base gives the list. */
  lemma {:induction false} UnionAgain<T>(base: seq<T>, xs: seq<T>, n: nat)
    requires NoDup(xs) && base <= xs && n <= |xs|
    ensures Union(base, xs, n) == if n <= |base| then base else xs[..n]
  {
    if n > 0 {
      UnionAgain(base, xs, n - 1);
      if n > |base| {
        assert xs[..n] == xs[..n - 1] + [xs[n - 1]];
      } else {
        assert base[n - 1] == xs[n - 1];
      }
    } else if |base| == 0 {
      assert base == xs[..0];
    }
  }

  // ----- What a normalised policy is -----

  ghost predicate GoodPorts(ports: seq<int>, default: seq<int>) {
    NoDup(ports) && default <= ports && forall i :: 0 <= i < |ports| ==> 0 < ports[i] <= 65535
  }

  ghost predicate GoodSources(zones: seq<string>) {
    NoDup(zones) && zones != [] && forall i :: 0 <= i < |zones| ==> zones[i] in ZONES
  }

  ghost predicate GoodIps(ips: seq<string>) {
    NoDup(ips) && ips != [] && forall i :: 0 <= i < |ips| ==> IsAddress(ips[i])
  }

  /** The result of normalisation, whatever the file holds. The default ports are always
      allowed: a file can add ports but not withdraw one. */
  ghost predicate IsNormal(p: Policy) {
    && p.source != ""
    && GoodIps(p.staff) && GoodIps(p.servers)
    && GoodSources(p.restricted)
    && DistinctPairs(p.blocked)
    && GoodPorts(p.tcpPorts, TCP_PORTS) && GoodPorts(p.udpPorts, UDP_PORTS)
    && 300 <= p.priority <= 390 && 10 <= p.idle <= 900
  }

  lemma {:induction false} PortsNormal(raw: Option<seq<RawNumber>>, default: seq<int>)
    requires GoodPorts(default, default)
    ensures GoodPorts(AllPorts(raw, default), default)
    ensures forall p :: p in AllPorts(raw, default) <==>
              p in default || (raw.Some? && Number(p) in raw.value && IsPort(Number(p)))
  {
    if raw.Some? {
      PortsDistinct(raw.value, |raw.value|);
      var ports := Ports(raw.value, |raw.value|);
      UnionMeaning(default, ports, |ports|);
      assert raw.value[..|raw.value|] == raw.value && ports[..|ports|] == ports;
      var all := AllPorts(raw, default);
      forall i | 0 <= i < |all|
        ensures 0 < all[i] <= 65535
      {
        assert all[i] in all;
      }
    }
  }

  lemma {:induction false} IpsNormal(raw: Option<seq<string>>, default: seq<string>)
    requires GoodIps(default)
    ensures GoodIps(AllIps(raw, default))
  {
    if raw.Some? {
      IpsDistinct(raw.value, |raw.value|);
      var ips := Ips(raw.value, |raw.value|);
      forall i | 0 <= i < |ips|
        ensures IsAddress(ips[i])
      {
        assert ips[i] in ips;
      }
    }
  }

  lemma {:induction false} RunOf(head: string, rest: string)
    requires (forall i :: 0 <= i < |head| ==> IsDigit(head[i])) && (rest != "" ==> !IsDigit(rest[0]))
    ensures DigitRun(head + rest) == |head|
  {
    if head == "" {
      assert head + rest == rest;
    } else {
      RunOf(head[1..], rest);
      assert (head + rest)[1..] == head[1..] + rest;
    }
  }

  lemma {:induction false} OneGroup(head: string, rest: string)
    requires 1 <= |head| <= 3 && IsDigits(head) && Groups(rest).Some?
    ensures Groups(head + "." + rest) == Some(Groups(rest).value + 1)
  {
    var s := head + "." + rest;
    RunOf(head, "." + rest);
    assert s == head + ("." + rest);
    assert s[|head|] == '.' && s[|head| + 1..] == rest;
  }

  lemma {:induction false} LastGroup(s: string)
    requires 1 <= |s| <= 3 && IsDigits(s)
    ensures Groups(s) == Some(1)
  {
    RunOf(s, "");
    assert s + "" == s;
  }

  lemma {:induction false} ShortDecimal(n: nat)
    requires n < 0x100
    ensures 1 <= |Decimal(n)| <= 3
  {
    assert n / 10 < 26 && n / 10 / 10 < 10;
    assert |Decimal(n / 10 / 10)| == 1;
    assert |Decimal(n / 10)| <= 2;
  }

  /** The text of an address is a valid address. */
  lemma {:induction false} IpTextIsAddress(ip: Ip)
    ensures IsAddress(IpText(ip))
  {
    var a, b, c, d := Decimal(ip / 0x100_0000), Decimal(ip / 0x1_0000 % 0x100), Decimal(ip / 0x100 % 0x100),
        Decimal(ip % 0x100);
    ShortDecimal(ip / 0x100_0000);
    ShortDecimal(ip / 0x1_0000 % 0x100);
    ShortDecimal(ip / 0x100 % 0x100);
    ShortDecimal(ip % 0x100);
    Quad(a, b, c, d);
    Joined(a + "." + b, c, d);
  }

  lemma {:induction false} Quad(a: string, b: string, c: string, d: string)
    requires 1 <= |a| <= 3 && IsDigits(a) && 1 <= |b| <= 3 && IsDigits(b)
    requires 1 <= |c| <= 3 && IsDigits(c) && 1 <= |d| <= 3 && IsDigits(d)
    ensures IsAddress(a + "." + b + "." + (c + "." + d))
  {
    LastGroup(d);
    OneGroup(c, d);
    OneGroup(b, c + "." + d);
    OneGroup(a, b + "." + (c + "." + d));
    Joined(b, c, d);
    Joined(a, b, c + "." + d);
  }

  lemma {:induction false} Joined(a: string, b: string, c: string)
    ensures a + "." + b + "." + c == a + "." + (b + "." + c)
  {
  }

  function Front(h: nat): string {
    Decimal(h / 0x1_0000) + "." + Decimal(h / 0x100 % 0x100) + "." + Decimal(h % 0x100) + "."
  }

  lemma {:induction false} IpTextSplit(ip: Ip)
    ensures IpText(ip) == Front(ip / 0x100) + Decimal(ip % 0x100)
  {
    assert ip / 0x1_0000 == ip / 0x100 / 0x100 && ip / 0x100_0000 == ip / 0x100 / 0x1_0000;
  }

  lemma {:induction false} DecimalsDiffer(front: string, m: nat, n: nat)
    requires m != n
    ensures front + Decimal(m) != front + Decimal(n)
  {
    DecimalRoundTrip(m);
    DecimalRoundTrip(n);
    assert (front + Decimal(m))[|front|..] == Decimal(m) && (front + Decimal(n))[|front|..] == Decimal(n);
  }

  predicate TextsDiffer(x: Ip, y: Ip) { IpText(x) != IpText(y) }

  /** Addresses that differ in the last byte have different texts. */
  lemma {:induction false} LastByteTells(x: Ip, y: Ip)
    requires x / 0x100 == y / 0x100 && x != y
    ensures TextsDiffer(x, y)
  {
    IpTextSplit(x);
    IpTextSplit(y);
    DecimalsDiffer(Front(x / 0x100), x % 0x100, y % 0x100);
  }

  lemma {:induction false} RangeGood(first: nat, n: nat)
    requires 0 < n && first % 0x100 + n <= 0x100 && first + n <= 0x1_0000_0000
    ensures GoodIps(Range(first, n))
  {
    var r := Range(first, n);
    forall i | 0 <= i < n
      ensures IsAddress(r[i])
    {
      IpTextIsAddress(first + i);
    }
    RangeDistinct(first, n);
  }

  lemma {:induction false} RangeDistinct(first: nat, n: nat)
    requires first % 0x100 + n <= 0x100 && first + n <= 0x1_0000_0000
    ensures NoDup(Range(first, n))
  {
    var r := Range(first, n);
    forall i, j | 0 <= i < j < |r|
      ensures r[i] != r[j]
    {
      var x := InBlock(first, i);
      var y := InBlock(first, j);
      LastByteTells(x, y);
      assert TextsDiffer(x, y);
    }
  }

  lemma {:induction false} InBlock(first: nat, i: nat) returns (x: Ip)
    requires first % 0x100 + i < 0x100 && first + i < 0x1_0000_0000
    ensures x == first + i && x / 0x100 == first / 0x100
  {
    x := first + i;
  }

  lemma {:induction false} StaffNormal(raw: Option<seq<string>>)
    ensures GoodIps(AllIps(raw, STAFF))
  {
    RangeGood(0x0A04_0101, 3);
    IpsNormal(raw, STAFF);
  }

  lemma {:induction false} ServersNormal(raw: Option<seq<string>>)
    ensures GoodIps(AllIps(raw, SERVERS))
  {
    RangeGood(0x0A00_010A, 2);
    IpsNormal(raw, SERVERS);
  }

  lemma {:induction false} SourcesNormal(raw: Option<seq<string>>)
    ensures GoodSources(Sources(raw))
  {
    if raw.Some? {
      var zones := Zones(raw.value, |raw.value|);
      ZonesDistinct(raw.value, |raw.value|);
      forall i | 0 <= i < |zones|
        ensures zones[i] in ZONES
      {
        assert zones[i] in zones;
      }
    }
  }

  lemma {:induction false} PortFieldsNormal(raw: RawPolicy)
    ensures GoodPorts(Normalized(raw).tcpPorts, TCP_PORTS) && GoodPorts(Normalized(raw).udpPorts, UDP_PORTS)
  {
    PortsNormal(raw.tcpPorts, TCP_PORTS);
    PortsNormal(raw.udpPorts, UDP_PORTS);
  }

  lemma {:induction false} ZoneFieldsNormal(raw: RawPolicy)
    ensures GoodSources(Normalized(raw).restricted) && DistinctPairs(Normalized(raw).blocked)
  {
    SourcesNormal(raw.restricted);
    PairsDistinct(raw.pairs, |raw.pairs|);
  }

  lemma {:induction false} AddressFieldsNormal(raw: RawPolicy)
    ensures GoodIps(Normalized(raw).staff) && GoodIps(Normalized(raw).servers)
  {
    StaffNormal(raw.staff);
    ServersNormal(raw.servers);
  }

  lemma {:induction false} NormalizedIsNormal(raw: RawPolicy)
    ensures IsNormal(Normalized(raw))
  {
    AddressFieldsNormal(raw);
    ZoneFieldsNormal(raw);
    PortFieldsNormal(raw);
  }

  lemma {:induction false} PortsIdempotent(ports: seq<int>, default: seq<int>)
    requires GoodPorts(ports, default)
    ensures AllPorts(Some(RawNumbers(ports)), default) == ports
  {
    PortsAgain(ports, |ports|);
    assert ports[..|ports|] == ports;
    UnionAgain(default, ports, |ports|);
  }

  lemma {:induction false} IpsIdempotent(ips: seq<string>, default: seq<string>)
    requires GoodIps(ips)
    ensures AllIps(Some(ips), default) == ips
  {
    IpsAgain(ips, |ips|);
    assert ips[..|ips|] == ips;
  }

  lemma {:induction false} ZonesIdempotent(zones: seq<string>, pairs: seq<ZonePair>)
    requires GoodSources(zones) && DistinctPairs(pairs)
    ensures Sources(Some(zones)) == zones && Pairs(RawPairs(pairs), |pairs|) == pairs
  {
    ZonesAgain(zones, |zones|);
    PairsAgain(pairs, |pairs|);
    assert zones[..|zones|] == zones && pairs[..|pairs|] == pairs;
  }

  /** Normalising a normal policy once more only raises its hard timeout to its idle one. */
  lemma {:induction false} NormalAgain(p: Policy)
    requires IsNormal(p)
    ensures Normalized(Written(p)) == p.(hard := Max(p.idle, Min(1800, p.hard)))
  {
    IpsIdempotent(p.staff, STAFF);
    IpsIdempotent(p.servers, SERVERS);
    ZonesIdempotent(p.restricted, p.blocked);
    PortsIdempotent(p.tcpPorts, TCP_PORTS);
    PortsIdempotent(p.udpPorts, UDP_PORTS);
  }

  lemma {:induction false} HardAgain(raw: RawPolicy)
    ensures var p := Normalized(raw);
            Max(p.idle, Min(1800, p.hard)) == p.hard
            <==> !(raw.hard == Some(NotANumber) && Clamped(raw.idle, 10, 900, 120) > 300)
  {
  }

  /** Normalisation is idempotent except on one family of files: an unreadable hard timeout
      falls back to 300 seconds even when the idle timeout is longer, and a second pass
      raises it. */
  lemma {:induction false} IdempotentExactly(raw: RawPolicy)
    ensures Normalized(Written(Normalized(raw))) == Normalized(raw)
            <==> !(raw.hard == Some(NotANumber) && Clamped(raw.idle, 10, 900, 120) > 300)
  {
    NormalizedIsNormal(raw);
    HardAgain(raw);
    SameUnlessHard(Normalized(raw));
  }

  /** Such a file: the second pass doubles the hard timeout. */
  lemma {:induction false} SecondPassRaises(raw: RawPolicy)
    requires raw.idle == Some(Number(600)) && raw.hard == Some(NotANumber)
    ensures Normalized(raw).hard == 300 && Normalized(Written(Normalized(raw))).hard == 600
  {
    NormalizedIsNormal(raw);
    NormalAgain(Normalized(raw));
  }

  lemma {:induction false} SameUnlessHard(p: Policy)
    requires IsNormal(p)
    ensures Normalized(Written(p)) == p <==> Max(p.idle, Min(1800, p.hard)) == p.hard
  {
    NormalAgain(p);
  }

  // ----- The normaliser as it runs -----

  method NormalizeIps(raw: Option<seq<string>>, default: seq<string>) returns (out: seq<string>)
    ensures out == AllIps(raw, default)
  {
    if raw.None? {
      return default;
    }
    out := [];
    var i := 0;
    while i < |raw.value|
      invariant i <= |raw.value| && out == Ips(raw.value, i)
    {
      if IsAddress(raw.value[i]) && raw.value[i] !in out {
        out := out + [raw.value[i]];
      }
      i := i + 1;
    }
    if out == [] {
      out := default;
    }
  }

  method NormalizeZones(raw: seq<string>) returns (out: seq<string>)
    ensures out == Zones(raw, |raw|)
  {
    out := [];
    var i := 0;
    while i < |raw|
      invariant i <= |raw| && out == Zones(raw, i)
    {
      if raw[i] in ZONES && raw[i] !in out {
        out := out + [raw[i]];
      }
      i := i + 1;
    }
  }

  method NormalizePairs(raw: seq<RawPair>) returns (out: seq<ZonePair>)
    ensures out == Pairs(raw, |raw|)
  {
    out := [];
    var seen: set<(string, string)> := {};
    var i := 0;
    while i < |raw|
      invariant i <= |raw| && out == Pairs(raw, i)
      invariant forall src, dst :: (src, dst) in seen <==> Seen(out, src, dst)
    {
      if raw[i].RawPair? && raw[i].src in ZONES && raw[i].dst in ZONES && (raw[i].src, raw[i].dst) !in seen {
        ghost var before := out;
        seen := seen + {(raw[i].src, raw[i].dst)};
        out := out + [ZonePair(raw[i].src, raw[i].dst, raw[i].reason)];
        SeenMore(before, ZonePair(raw[i].src, raw[i].dst, raw[i].reason));
      }
      i := i + 1;
    }
  }

  lemma {:induction false} SeenMore(done: seq<ZonePair>, p: ZonePair)
    ensures forall src, dst :: Seen(done + [p], src, dst) <==> Seen(done, src, dst) || (src == p.src && dst == p.dst)
  {
    forall src, dst
      ensures Seen(done + [p], src, dst) <==> Seen(done, src, dst) || (src == p.src && dst == p.dst)
    {
      if src == p.src && dst == p.dst {
        assert (done + [p])[|done|] == p;
      }
      if Seen(done, src, dst) {
        var i :| 0 <= i < |done| && done[i].src == src && done[i].dst == dst;
        assert (done + [p])[i] == done[i];
      }
    }
  }

  method NormalizePorts(raw: Option<seq<RawNumber>>, default: seq<int>) returns (merged: seq<int>)
    ensures merged == AllPorts(raw, default)
  {
    if raw.None? {
      return default;
    }
    var ports := [];
    var i := 0;
    while i < |raw.value|
      invariant i <= |raw.value| && ports == Ports(raw.value, i)
    {
      if raw.value[i].Number? && 0 < raw.value[i].n <= 65535 && raw.value[i].n !in ports {
        ports := ports + [raw.value[i].n];
      }
      i := i + 1;
    }
    merged := default;
    i := 0;
    while i < |ports|
      invariant i <= |ports| && merged == Union(default, ports, i)
    {
      if ports[i] !in merged {
        merged := merged + [ports[i]];
      }
      i := i + 1;
    }
  }

  method NormalizePolicy(raw: RawPolicy) returns (p: Policy)
    ensures p == Normalized(raw)
  {
    var staff := NormalizeIps(raw.staff, STAFF);
    var servers := NormalizeIps(raw.servers, SERVERS);
    var restricted := RESTRICTED;
    if raw.restricted.Some? {
      restricted := NormalizeZones(raw.restricted.value);
      if restricted == [] {
        restricted := RESTRICTED;
      }
    }
    var pairs := NormalizePairs(raw.pairs);
    var tcp := NormalizePorts(raw.tcpPorts, TCP_PORTS);
    var udp := NormalizePorts(raw.udpPorts, UDP_PORTS);
    var idle := Clamped(raw.idle, 10, 900, 120);
    p := Policy(raw.enabled, if raw.source == "" then "external" else raw.source,
                staff, servers, restricted, pairs, tcp, udp,
                raw.allowIcmp.None? || raw.allowIcmp.value, Clamped(raw.priority, 300, 390, 360), idle,
                Clamped(raw.hard, idle, 1800, 300));
  }
}
