/** Names and addresses for hosts added at run time (examples/campus_topology.py): host
    identifiers made from display names, short interface names, and campus addresses. */
module HostNames {
  import opened Prelude
  import opened Text

  // ----- Cleaning a display name -----

  predicate IsLetter(c: char) { 'a' <= c <= 'z' }

  predicate IsNameChar(c: char) { IsLetter(c) || IsDigit(c) || c == '_' }

  function Lower(c: char): char { if 'A' <= c <= 'Z' then (c as int + 32) as char else c }

  /** The first n characters in lower case, each run of others or of underscores as one
      underscore. */
  function Collapsed(text: string, n: nat): (r: string)
    requires n <= |text|
    ensures forall i :: 0 <= i < |r| ==> IsNameChar(r[i])
    ensures forall i :: 0 < i < |r| ==> !(r[i - 1] == '_' && r[i] == '_')
  {
    if n == 0 then ""
    else
      var r := Collapsed(text, n - 1);
      var c := Lower(text[n - 1]);
      if IsLetter(c) || IsDigit(c) then r + [c]
      else if r != "" && r[|r| - 1] == '_' then r
      else r + ['_']
  }

  /** Without the underscore at either end; runs have been collapsed, so one is enough. */
  function Trimmed(s: string): string {
    var front := if s != "" && s[0] == '_' then s[1..] else s;
    if front != "" && front[|front| - 1] == '_' then front[..|front| - 1] else front
  }

  function Cut(s: string, n: nat): string { if |s| <= n then s else s[..n] }

  function Base(display: string): string {
    var cleaned := Trimmed(Collapsed(display, |display|));
    var named := if cleaned == "" then "device" else cleaned;
    Cut(if IsLetter(named[0]) then named else "d_" + named, 20)
  }

  predicate IsHostId(s: string) {
    s != "" && IsLetter(s[0]) && forall i :: 0 <= i < |s| ==> IsNameChar(s[i])
  }

  lemma {:induction false} BaseIsHostId(display: string)
    ensures IsHostId(Base(display)) && |Base(display)| <= 20
  {
    var c := Collapsed(display, |display|);
    var t := Trimmed(c);
    assert forall i :: 0 <= i < |t| ==> t[i] in c;
    assert forall x :: x in c ==> IsNameChar(x);
    var named := if t == "" then "device" else t;
    assert forall i :: 0 <= i < |named| ==> IsNameChar(named[i]);
    var full := if IsLetter(named[0]) then named else "d_" + named;
    assert forall i :: 0 <= i < |full| ==> IsNameChar(full[i]);
  }

  predicate IsWordChar(c: char) { IsLetter(Lower(c)) || IsDigit(Lower(c)) }

  /** The words among the first n characters, in lower case: the maximal runs of letters and
      digits. */
  function Words(text: string, n: nat): (ws: seq<string>)
    requires n <= |text|
    ensures forall i :: 0 <= i < |ws| ==> ws[i] != ""
    ensures n > 0 && IsWordChar(text[n - 1]) ==> ws != []
  {
    if n == 0 then []
    else
      var ws := Words(text, n - 1);
      var c := Lower(text[n - 1]);
      if !IsWordChar(text[n - 1]) then ws
      else if n > 1 && IsWordChar(text[n - 2]) then ws[..|ws| - 1] + [ws[|ws| - 1] + [c]]
      else ws + [[c]]
  }

  function Joined(ws: seq<string>): string {
    if ws == [] then "" else if |ws| == 1 then ws[0] else Joined(ws[..|ws| - 1]) + "_" + ws[|ws| - 1]
  }

  /** An underscore in front for leading other characters, and one behind for trailing ones. */
  function Lead(text: string, n: nat): string
    requires n <= |text|
  {
    if n > 0 && !IsWordChar(text[0]) then "_" else ""
  }

  function Trail(text: string, n: nat): string
    requires n <= |text|
  {
    if n > 0 && Words(text, n) != [] && !IsWordChar(text[n - 1]) then "_" else ""
  }

  lemma {:induction false} JoinedMore(ws: seq<string>, w: string)
    ensures Joined(ws + [w]) == if ws == [] then w else Joined(ws) + "_" + w
  {
    assert (ws + [w])[..|ws|] == ws;
  }

  lemma {:induction false} JoinedLonger(ws: seq<string>, c: char)
    requires ws != []
    ensures Joined(ws[..|ws| - 1] + [ws[|ws| - 1] + [c]]) == Joined(ws) + [c]
  {
    var front, w := ws[..|ws| - 1], ws[|ws| - 1];
    assert ws == front + [w];
    JoinedMore(front, w);
    JoinedMore(front, w + [c]);
    if front != [] {
      assert Joined(front) + "_" + (w + [c]) == Joined(front) + "_" + w + [c];
    }
  }

  lemma {:induction false} JoinedEnds(text: string, n: nat)
    requires n <= |text| && Words(text, n) != []
    ensures var j := Joined(Words(text, n)); j != "" && j[0] != '_' && j[|j| - 1] != '_'
  {
    var ws := Words(text, n);
    WordsClean(text, n);
    JoinedClean(ws);
  }

  lemma {:induction false} WordsClean(text: string, n: nat)
    requires n <= |text|
    ensures forall i :: 0 <= i < |Words(text, n)| ==> CleanWord(Words(text, n)[i])
  {
    if n > 0 {
      WordsClean(text, n - 1);
    }
  }

  predicate CleanWord(w: string) { w != "" && forall i :: 0 <= i < |w| ==> IsLetter(w[i]) || IsDigit(w[i]) }

  lemma {:induction false} JoinedClean(ws: seq<string>)
    requires ws != [] && forall i :: 0 <= i < |ws| ==> CleanWord(ws[i])
    ensures Joined(ws) != "" && Joined(ws)[0] != '_' && Joined(ws)[|Joined(ws)| - 1] != '_'
  {
    var front, w := ws[..|ws| - 1], ws[|ws| - 1];
    assert ws == front + [w] && CleanWord(w);
    JoinedMore(front, w);
    if front != [] {
      JoinedClean(front);
    }
  }

  lemma {:induction false} CollapsedIs(text: string, n: nat)
    requires n <= |text|
    ensures Collapsed(text, n) == Lead(text, n) + Joined(Words(text, n)) + Trail(text, n)
  {
    if n > 0 {
      CollapsedIs(text, n - 1);
      if IsWordChar(text[n - 1]) {
        CollapsedWord(text, n);
      } else {
        CollapsedOther(text, n);
      }
    }
  }

  lemma {:induction false} CollapsedWord(text: string, n: nat)
    requires 0 < n <= |text| && IsWordChar(text[n - 1])
    requires Collapsed(text, n - 1) == Lead(text, n - 1) + Joined(Words(text, n - 1)) + Trail(text, n - 1)
    ensures Collapsed(text, n) == Lead(text, n) + Joined(Words(text, n)) + Trail(text, n)
  {
    var ws := Words(text, n - 1);
    var c := CollapsedLetter(text, n);
    var r, lead, trail := Collapsed(text, n - 1), Lead(text, n - 1), Trail(text, n - 1);
    if n > 1 && IsWordChar(text[n - 2]) {
      JoinedLonger(ws, c);
      LongerWord(r, lead, Joined(ws), c);
    } else {
      JoinedMore(ws, [c]);
      NewWord(r, lead, Joined(ws), trail, c);
      if ws == [] && n > 1 {
        NoWords(text, n - 1);
      }
    }
  }

  lemma {:induction false} LongerWord(r: string, lead: string, joined: string, c: char)
    requires r == lead + joined + ""
    ensures r + [c] == lead + (joined + [c]) + ""
  {
  }

  lemma {:induction false} NewWord(r: string, lead: string, joined: string, trail: string, c: char)
    requires r == lead + joined + trail
    ensures trail == "_" ==> r + [c] == lead + (joined + "_" + [c]) + ""
    ensures trail == "" && joined == "" ==> r + [c] == lead + [c] + ""
  {
  }

  lemma {:induction false} CollapsedLetter(text: string, n: nat) returns (c: char)
    requires 0 < n <= |text| && IsWordChar(text[n - 1])
    ensures Collapsed(text, n) == Collapsed(text, n - 1) + [c] && Trail(text, n) == ""
    ensures n > 1 ==> Lead(text, n) == Lead(text, n - 1)
    ensures n == 1 ==> Lead(text, n) == "" && Lead(text, n - 1) == ""
    ensures var ws := Words(text, n - 1);
            if n > 1 && IsWordChar(text[n - 2])
            then ws != [] && Words(text, n) == ws[..|ws| - 1] + [ws[|ws| - 1] + [c]] && Trail(text, n - 1) == ""
            else Words(text, n) == ws + [[c]] && Trail(text, n - 1) == (if ws == [] then "" else "_")
  {
    c := Lower(text[n - 1]);
    if n == 1 {
      assert Words(text, 0) == [];
    }
  }

  lemma {:induction false} CollapsedOther(text: string, n: nat)
    requires 0 < n <= |text| && !IsWordChar(text[n - 1])
    requires Collapsed(text, n - 1) == Lead(text, n - 1) + Joined(Words(text, n - 1)) + Trail(text, n - 1)
    ensures Collapsed(text, n) == Lead(text, n) + Joined(Words(text, n)) + Trail(text, n)
  {
    var r, ws := Collapsed(text, n - 1), Words(text, n - 1);
    CollapsedSpace(text, n);
    if ws != [] {
      JoinedEnds(text, n - 1);
      EndOf(r, Lead(text, n - 1), Joined(ws), Trail(text, n - 1));
    } else {
      NoWords(text, n - 1);
      assert r == Lead(text, n - 1);
    }
  }

  lemma {:induction false} CollapsedSpace(text: string, n: nat)
    requires 0 < n <= |text| && !IsWordChar(text[n - 1])
    ensures var r := Collapsed(text, n - 1);
            Collapsed(text, n) == if r != "" && r[|r| - 1] == '_' then r else r + "_"
    ensures Words(text, n) == Words(text, n - 1)
    ensures Words(text, n) == [] ==> Trail(text, n) == ""
    ensures Words(text, n) != [] ==> Trail(text, n) == "_"
    ensures n > 1 ==> Lead(text, n) == Lead(text, n - 1)
  {
  }

  lemma {:induction false} EndOf(s: string, lead: string, joined: string, trail: string)
    requires joined != "" && joined[|joined| - 1] != '_' && (trail == "" || trail == "_")
    requires s == lead + joined + trail
    ensures s != "" && (s[|s| - 1] == '_' <==> trail == "_")
    ensures (if s != "" && s[|s| - 1] == '_' then s else s + "_") == lead + joined + "_"
  {
  }

  lemma {:induction false} NoWords(text: string, n: nat)
    requires n <= |text| && Words(text, n) == []
    ensures n > 0 ==> !IsWordChar(text[0])
  {
    if n > 1 {
      NoWords(text, n - 1);
    }
  }

  /** The identifier is made of the words of the display name, joined by underscores, cut to
      twenty characters; without a word it is "device", and a digit in front gets "d_". */
  lemma {:induction false} BaseExactly(display: string)
    ensures var ws := Words(display, |display|);
            var joined := Joined(ws);
            Base(display) ==
            if ws == [] then "device"
            else if IsLetter(joined[0]) then Cut(joined, 20)
            else Cut("d_" + joined, 20)
  {
    var n, ws := |display|, Words(display, |display|);
    CollapsedIs(display, n);
    if ws == [] {
      assert Collapsed(display, n) == "" || Collapsed(display, n) == "_";
      assert |"device"| == 6 && IsLetter("device"[0]);
    } else {
      JoinedEnds(display, n);
      TrimmedBoth(Lead(display, n), Joined(ws), Trail(display, n));
    }
  }

  lemma {:induction false} TrimmedBoth(a: string, j: string, b: string)
    requires (a == "" || a == "_") && (b == "" || b == "_") && j != "" && j[0] != '_' && j[|j| - 1] != '_'
    ensures Trimmed(a + j + b) == j
  {
    var s := a + j + b;
    var front := if s != "" && s[0] == '_' then s[1..] else s;
    assert front == j + b;
    assert b == "_" ==> (j + b)[..|j + b| - 1] == j;
  }

  /** A name that is clean already is kept. */
  lemma {:induction false} CleanKept(s: string)
    requires s != "" && IsLetter(s[0]) && |s| <= 20 && forall i :: 0 <= i < |s| ==> IsLetter(s[i]) || IsDigit(s[i])
    ensures Base(s) == s
  {
    CleanCollapsed(s, |s|);
    assert s[..|s|] == s;
  }

  lemma {:induction false} CleanCollapsed(s: string, n: nat)
    requires n <= |s| && forall i :: 0 <= i < |s| ==> IsLetter(s[i]) || IsDigit(s[i])
    ensures Collapsed(s, n) == s[..n]
  {
    if n > 0 {
      CleanCollapsed(s, n - 1);
      assert s[..n] == s[..n - 1] + [s[n - 1]];
    }
  }

  // ----- Numbered candidates -----

  datatype Namer = HostId(base: string) | Interface

  /** The candidate with number idx. */
  function Candidate(k: Namer, idx: nat): string {
    match k
    case HostId(base) =>
      var suffix := "_" + Decimal(idx);
      Cut(base, Max(1, 20 - |suffix|)) + suffix
    case Interface => "dh" + Decimal(idx) + "-eth0"
  }

  /** The text after the last underscore is the number. */
  lemma {:induction false} LastUnderscore(p: string, q: string, d: string, e: string)
    requires forall i :: 0 <= i < |d| ==> IsDigit(d[i])
    requires forall i :: 0 <= i < |e| ==> IsDigit(e[i])
    requires p + "_" + d == q + "_" + e
    ensures d == e
  {
    var s, t := p + "_" + d, q + "_" + e;
    assert s[|p|] == '_' && t[|q|] == '_';
    assert forall i :: |p| < i < |s| ==> s[i] == d[i - |p| - 1];
    assert forall i :: |q| < i < |t| ==> t[i] == e[i - |q| - 1];
    assert |p| == |q|;
    assert s[|p| + 1..] == d && t[|q| + 1..] == e;
  }

  lemma {:induction false} NumeralsDiffer(i: nat, j: nat)
    requires Decimal(i) == Decimal(j)
    ensures i == j
  {
    DecimalRoundTrip(i);
    DecimalRoundTrip(j);
  }

  /** Different numbers give different candidates, even when the base is cut. */
  lemma {:induction false} CandidatesDiffer(k: Namer, i: nat, j: nat)
    requires Candidate(k, i) == Candidate(k, j)
    ensures i == j
  {
    match k
    case HostId(base) =>
      var p, q := Cut(base, Max(1, 20 - |"_" + Decimal(i)|)), Cut(base, Max(1, 20 - |"_" + Decimal(j)|));
      assert p + ("_" + Decimal(i)) == p + "_" + Decimal(i);
      assert q + ("_" + Decimal(j)) == q + "_" + Decimal(j);
      LastUnderscore(p, q, Decimal(i), Decimal(j));
      NumeralsDiffer(i, j);
    case Interface =>
      var s, t := Candidate(k, i), Candidate(k, j);
      assert s[2..|s| - 5] == Decimal(i) && t[2..|t| - 5] == Decimal(j);
      NumeralsDiffer(i, j);
  }

  /** The candidates with the numbers from `first` up to `last`. */
  function Tried(k: Namer, first: nat, last: nat): set<string>
    requires first <= last
    decreases last
  {
    if last == first then {} else Tried(k, first, last - 1) + {Candidate(k, last - 1)}
  }

  lemma {:induction false} TriedNumber(k: Namer, first: nat, last: nat, c: string) returns (i: nat)
    requires first <= last && c in Tried(k, first, last)
    ensures first <= i < last && c == Candidate(k, i)
    decreases last
  {
    if c in Tried(k, first, last - 1) {
      i := TriedNumber(k, first, last - 1, c);
    } else {
      i := last - 1;
    }
  }

  lemma {:induction false} TriedTaken(k: Namer, first: nat, last: nat, existing: set<string>)
    requires first <= last && forall i :: first <= i < last ==> Candidate(k, i) in existing
    ensures Tried(k, first, last) <= existing
    decreases last
  {
    if first < last {
      TriedTaken(k, first, last - 1, existing);
    }
  }

  lemma {:induction false} TriedSize(k: Namer, first: nat, last: nat)
    requires first <= last
    ensures |Tried(k, first, last)| == last - first
    decreases last
  {
    if first < last {
      TriedSize(k, first, last - 1);
      NotTried(k, first, last - 1);
    }
  }

  lemma {:induction false} NotTried(k: Namer, first: nat, last: nat)
    requires first <= last
    ensures Candidate(k, last) !in Tried(k, first, last)
  {
    if Candidate(k, last) in Tried(k, first, last) {
      var i := TriedNumber(k, first, last, Candidate(k, last));
      CandidatesDiffer(k, last, i);
    }
  }

  lemma {:induction false} SubsetSize<T>(a: set<T>, b: set<T>)
    requires a <= b
    ensures |a| <= |b|
    decreases |b|
  {
    if b != {} {
      var x := Pick(b);
      SubsetSize(a - {x}, b - {x});
    }
  }

  /** Pigeonhole: no more candidates can be taken than there are names. */
  lemma {:induction false} TakenBounded(k: Namer, first: nat, last: nat, existing: set<string>)
    requires first <= last && forall i :: first <= i < last ==> Candidate(k, i) in existing
    ensures last - first <= |existing|
  {
    TriedSize(k, first, last);
    TriedTaken(k, first, last, existing);
    SubsetSize(Tried(k, first, last), existing);
  }

  /** The number of the first free candidate from `first` on. */
  ghost predicate IsFirstFree(k: Namer, first: nat, idx: nat, existing: set<string>) {
    first <= idx && Candidate(k, idx) !in existing && forall i :: first <= i < idx ==> Candidate(k, i) in existing
  }

  /** The unbounded search ends, with the first free candidate. */
  method FirstFree(k: Namer, first: nat, existing: set<string>) returns (idx: nat)
    ensures IsFirstFree(k, first, idx, existing)
    ensures idx - first <= |existing|
  {
    idx := first;
    TakenBounded(k, first, idx, existing);
    while Candidate(k, idx) in existing
      invariant first <= idx && idx - first <= |existing|
      invariant forall i :: first <= i < idx ==> Candidate(k, i) in existing
      decreases |existing| + first - idx
    {
      TakenBounded(k, first, idx + 1, existing);
      idx := idx + 1;
    }
  }

  lemma {:induction false} FirstFreeUnique(k: Namer, first: nat, i: nat, j: nat, existing: set<string>)
    requires IsFirstFree(k, first, i, existing) && IsFirstFree(k, first, j, existing)
    ensures i == j
  {
    assert i < j ==> Candidate(k, i) in existing;
    assert j < i ==> Candidate(k, j) in existing;
  }

  /** A numbered identifier is well-formed, and within 20 characters just as long as its
      suffix is within 19. */
  lemma {:induction false} CandidateShape(base: string, idx: nat)
    requires IsHostId(base) && |base| <= 20
    ensures IsHostId(Candidate(HostId(base), idx))
    ensures |Candidate(HostId(base), idx)| <= 20 <==> |Decimal(idx)| + 1 <= 19
  {
    var suffix := "_" + Decimal(idx);
    var front := Cut(base, Max(1, 20 - |suffix|));
    assert forall i :: 0 <= i < |suffix| ==> IsNameChar(suffix[i]);
    var c := Candidate(HostId(base), idx);
    forall i | 0 <= i < |c|
      ensures IsNameChar(c[i])
    {
      if i >= |front| {
        assert c[i] == suffix[i - |front|];
      }
    }
  }

  /** A numbered identifier is the base and the suffix where that fits, and otherwise fills
      the twenty characters with as much of the base as there is room for. */
  lemma {:induction false} CandidateFills(base: string, idx: nat)
    requires IsHostId(base) && |base| <= 20 && |Decimal(idx)| + 1 <= 19
    ensures var suffix, c := "_" + Decimal(idx), Candidate(HostId(base), idx);
            if |base| + |suffix| <= 20 then c == base + suffix
            else |c| == 20 && c == base[..20 - |suffix|] + suffix
  {
  }

  // ----- The topology -----

  datatype Host = Host(name: string, ifname: string, ip: int)

  const SUBNET := 0x0A05_0000

  function Names(hosts: seq<Host>): set<string> { set h | h in hosts :: h.name }

  function Interfaces(hosts: seq<Host>): set<string> { set h | h in hosts :: h.ifname }

  function Addresses(hosts: seq<Host>): set<int> { set h | h in hosts :: h.ip }

  ghost predicate IsNewName(display: string, existing: set<string>, name: string) {
    if Base(display) !in existing then name == Base(display)
    else exists idx :: IsFirstFree(HostId(Base(display)), 2, idx, existing)
                       && name == Candidate(HostId(Base(display)), idx)
  }

  /** The addresses of the subnet before host number n. */
  function Before(n: nat): set<int> {
    if n <= 1 then {} else Before(n - 1) + {SUBNET + n - 1}
  }

  lemma {:induction false} BeforeMembers(n: nat)
    requires n >= 1
    ensures |Before(n)| == n - 1
    ensures forall ip :: ip in Before(n) <==> SUBNET < ip < SUBNET + n
  {
    if n > 1 {
      BeforeMembers(n - 1);
    }
  }

  /** The name a display name gets is determined. */
  lemma {:induction false} NewNameUnique(display: string, existing: set<string>, x: string, y: string)
    requires IsNewName(display, existing, x) && IsNewName(display, existing, y)
    ensures x == y && x !in existing
  {
    if Base(display) in existing {
      var k := HostId(Base(display));
      var i :| IsFirstFree(k, 2, i, existing) && x == Candidate(k, i);
      var j :| IsFirstFree(k, 2, j, existing) && y == Candidate(k, j);
      FirstFreeUnique(k, 2, i, j, existing);
    }
  }

  lemma {:induction false} NumberedUnderscore(base: string, idx: nat)
    ensures '_' in Candidate(HostId(base), idx)
  {
    var suffix := "_" + Decimal(idx);
    var front := Cut(base, Max(1, 20 - |suffix|));
    assert Candidate(HostId(base), idx) == front + suffix;
    assert (front + suffix)[|front|] == suffix[0] == '_';
  }

  /** The allocator looks at hosts only: the new name is another node's if and only if the
      base is such a name and no host has it yet, or the first free candidate is such a name;
      the latter is not possible when no node's name has an underscore, as in the campus. */
  lemma {:induction false} NodeNameExactly(nodes: set<string>, display: string, existing: set<string>, name: string)
    requires IsNewName(display, existing, name)
    ensures name in nodes <==>
            || (Base(display) in nodes && Base(display) !in existing)
            || (Base(display) in existing
                && exists idx :: IsFirstFree(HostId(Base(display)), 2, idx, existing)
                                 && Candidate(HostId(Base(display)), idx) in nodes)
    ensures (forall x :: x in nodes ==> '_' !in x) ==>
              (name in nodes <==> Base(display) in nodes && Base(display) !in existing)
  {
    if Base(display) in existing {
      var k := HostId(Base(display));
      var idx :| IsFirstFree(k, 2, idx, existing) && name == Candidate(k, idx);
      NumberedUnderscore(Base(display), idx);
      forall j | IsFirstFree(k, 2, j, existing)
        ensures j == idx
      {
        FirstFreeUnique(k, 2, j, idx, existing);
      }
    }
  }

  /** Linux limits interface names to 15 characters. */
  predicate IsShort(name: string) { |name| + |"-eth0"| <= 15 }

  ghost predicate IsNewInterface(hosts: seq<Host>, name: string, ifname: string) {
    if IsShort(name) then ifname == name + "-eth0"
    else exists idx :: IsFirstFree(Interface, 1, idx, Interfaces(hosts)) && ifname == Candidate(Interface, idx)
  }

  predicate IsFreeAddress(hosts: seq<Host>, ip: int) {
    SUBNET < ip < SUBNET + 255 && ip !in Addresses(hosts)
  }

  ghost predicate IsNewAddress(hosts: seq<Host>, asked: Option<int>, ip: int) {
    if asked.Some? then ip == asked.value
    else IsFreeAddress(hosts, ip) && forall x :: SUBNET < x < ip ==> !IsFreeAddress(hosts, x)
  }

  /** The host that a request adds. */
  ghost predicate IsAdded(hosts: seq<Host>, display: string, asked: Option<int>, h: Host) {
    && IsNewName(display, Names(hosts), h.name)
    && IsNewInterface(hosts, h.name, h.ifname)
    && IsNewAddress(hosts, asked, h.ip)
  }

  /** The check of a hardware address, in lower case; an empty one is not checked. */
  predicate IsMacText(s: string) {
    |s| == 17 && forall i :: 0 <= i < 17 ==> if i % 3 == 2 then s[i] == ':' else IsDigit(s[i]) || 'a' <= s[i] <= 'f'
  }

  class Topology {
    /** The names of the nodes that are not hosts. */
    const nodes: set<string>
    var hosts: seq<Host>

    constructor (nodes: set<string>)
      ensures this.nodes == nodes && hosts == []
    {
      this.nodes := nodes;
      hosts := [];
    }

    /** The identifier is new, well-formed, and the base itself or its first free number. */
    method AllocateHostId(display: string) returns (name: string)
      ensures name !in Names(hosts) && IsHostId(name)
      ensures IsNewName(display, Names(hosts), name)
      ensures |hosts| < 1_000 ==> |name| <= 20
    {
      var existing := Names(hosts);
      name := Base(display);
      BaseIsHostId(display);
      if name in existing {
        var base := name;
        var idx := FirstFree(HostId(base), 2, existing);
        name := Candidate(HostId(base), idx);
        CandidateShape(base, idx);
        NamesSize(hosts);
        if |hosts| < 1_000 {
          ShortNumeral(idx);
        }
      }
    }

    method NextDynamicIfname() returns (name: string)
      ensures name !in Interfaces(hosts)
      ensures exists idx :: IsFirstFree(Interface, 1, idx, Interfaces(hosts)) && name == Candidate(Interface, idx)
    {
      var idx := FirstFree(Interface, 1, Interfaces(hosts));
      name := Candidate(Interface, idx);
    }

    /** The first free address of 10.5.0.0/24, or none exactly when all 254 are used. */
    method NextAvailableCampusIp() returns (ip: Option<int>)
      ensures ip.Some? ==> SUBNET < ip.value < SUBNET + 255 && ip.value !in Addresses(hosts)
                           && forall x :: SUBNET < x < ip.value ==> x in Addresses(hosts)
      ensures ip.None? ==> forall x :: !IsFreeAddress(hosts, x)
      ensures ip.None? <==> forall x :: SUBNET < x < SUBNET + 255 ==> x in Addresses(hosts)
      ensures |hosts| < 254 ==> ip.Some?
    {
      var used := Addresses(hosts);
      var n := 1;
      while n < 255
        invariant 1 <= n <= 255
        invariant forall x :: SUBNET < x < SUBNET + n ==> x in used
      {
        if SUBNET + n !in used {
          return Some(SUBNET + n);
        }
        n := n + 1;
      }
      BeforeMembers(255);
      SubsetSize(Before(255), used);
      AddressesSize(hosts);
      return None;
    }

    /** Adds a host, unless the name is missing, the node to attach it to is unknown, an
        address is missing and may not or cannot be chosen, the bandwidth is not positive or
        the hardware address is malformed; a refused request changes nothing. */
    method AddHost(display: string, attach: string, ip: Option<int>, autoAssign: bool, bandwidth: real, mac: string)
      returns (ok: bool)
      modifies this
      ensures ok <==> && display != "" && (attach in nodes || attach in Names(old(hosts)))
                      && (ip.Some? || (autoAssign && exists x :: IsFreeAddress(old(hosts), x)))
                      && bandwidth > 0.0 && (mac == "" || IsMacText(mac))
      ensures !ok ==> hosts == old(hosts)
      ensures ok ==> exists h :: hosts == old(hosts) + [h] && IsAdded(old(hosts), display, ip, h)
    {
      if display == "" {
        return false;
      }
      var name := AllocateHostId(display);
      if attach !in nodes && attach !in Names(hosts) {
        return false;
      }
      var address := ip;
      if ip.None? {
        if !autoAssign {
          return false;
        }
        address := NextAvailableCampusIp();
        if address.None? {
          return false;
        }
      }
      assert ip.Some? || (autoAssign && IsFreeAddress(hosts, address.value));
      if bandwidth <= 0.0 {
        return false;
      }
      if mac != "" && !IsMacText(mac) {
        return false;
      }
      var ifname := name + "-eth0";
      if |name| + |"-eth0"| > 15 {
        ifname := NextDynamicIfname();
      }
      var h := Host(name, ifname, address.value);
      assert IsAdded(hosts, display, ip, h);
      hosts := hosts + [h];
      return true;
    }
  }

  predicate IsHexPair(s: string) {
    |s| == 2 && forall i :: 0 <= i < 2 ==> '0' <= s[i] <= '9' || 'a' <= s[i] <= 'f'
  }

  predicate SixPairs(s: string, a: string, b: string, c: string, d: string, e: string, f: string) {
    && IsHexPair(a) && IsHexPair(b) && IsHexPair(c) && IsHexPair(d) && IsHexPair(e) && IsHexPair(f)
    && s == a + ":" + b + ":" + c + ":" + d + ":" + e + ":" + f
  }

  /** A hardware address is a text of six pairs of hexadecimal digits with colons between. */
  lemma {:induction false} MacTextExactly(s: string)
    ensures IsMacText(s) <==> exists a, b, c, d, e, f :: SixPairs(s, a, b, c, d, e, f)
  {
    if IsMacText(s) {
      var a, b, c, d, e, f := s[0..2], s[3..5], s[6..8], s[9..11], s[12..14], s[15..17];
      assert s[2] == ':' && s[5] == ':' && s[8] == ':' && s[11] == ':' && s[14] == ':';
      assert s == a + ":" + b + ":" + c + ":" + d + ":" + e + ":" + f;
      assert SixPairs(s, a, b, c, d, e, f);
    }
    if a, b, c, d, e, f :| SixPairs(s, a, b, c, d, e, f) {
      PairsAreMac(s, a, b, c, d, e, f);
    }
  }

  lemma {:induction false} PairsAreMac(s: string, a: string, b: string, c: string, d: string, e: string, f: string)
    requires SixPairs(s, a, b, c, d, e, f)
    ensures IsMacText(s)
  {
    assert |s| == 17;
    assert s[0..2] == a && s[3..5] == b && s[6..8] == c && s[9..11] == d && s[12..14] == e && s[15..17] == f;
    assert s[2] == ':' && s[5] == ':' && s[8] == ':' && s[11] == ':' && s[14] == ':';
    assert a[0] == s[0] && a[1] == s[1] && b[0] == s[3] && b[1] == s[4] && c[0] == s[6] && c[1] == s[7];
    assert d[0] == s[9] && d[1] == s[10] && e[0] == s[12] && e[1] == s[13] && f[0] == s[15] && f[1] == s[16];
  }

  function Power(k: nat): nat { if k == 0 then 1 else 10 * Power(k - 1) }

  lemma {:induction false} DecimalLength(n: nat, k: nat)
    requires k >= 1 && n < Power(k)
    ensures |Decimal(n)| <= k
  {
    if n >= 10 {
      assert Power(k) == 10 * Power(k - 1);
      assert n / 10 < Power(k - 1);
      DecimalLength(n / 10, k - 1);
    }
  }

  /** The fifteen characters a network interface may have: a host's name is part of it up to
      ten characters, a longer name gets a numbered one, and either fits as long as there are
      fewer than 99 999 999 hosts. */
  lemma {:induction false} InterfaceFits(hosts: seq<Host>, name: string, ifname: string)
    requires IsNewInterface(hosts, name, ifname) && |hosts| < 99_999_999
    ensures |ifname| <= 15
    ensures |name| <= 10 ==> ifname == name + "-eth0"
    ensures |name| > 10 ==> ifname !in Interfaces(hosts) && exists idx: nat :: ifname == "dh" + Decimal(idx) + "-eth0"
  {
    if |name| > 10 {
      var idx :| IsFirstFree(Interface, 1, idx, Interfaces(hosts)) && ifname == Candidate(Interface, idx);
      TakenBounded(Interface, 1, idx, Interfaces(hosts));
      InterfacesSize(hosts);
      assert Power(8) == 100_000_000 by { EighthPower(); }
      DecimalLength(idx, 8);
    }
  }

  lemma {:induction false} EighthPower()
    ensures Power(8) == 100_000_000
  {
    assert Power(2) == 100 && Power(4) == 10_000 && Power(6) == 1_000_000;
  }

  lemma {:induction false} InterfacesSize(hosts: seq<Host>)
    ensures |Interfaces(hosts)| <= |hosts|
  {
    if hosts != [] {
      var n := |hosts| - 1;
      InterfacesSize(hosts[..n]);
      assert forall h :: h in hosts <==> h in hosts[..n] || h == hosts[n];
      assert Interfaces(hosts) == Interfaces(hosts[..n]) + {hosts[n].ifname};
    }
  }

  /** An address given out is the first unused one from 10.5.0.1 to 10.5.0.254, and there is
      one if and only if not all 254 are used. */
  lemma {:induction false} CampusAddress(hosts: seq<Host>, ip: int)
    ensures IsNewAddress(hosts, None, ip) <==>
            && 0x0A05_0001 <= ip <= 0x0A05_00FE && ip !in Addresses(hosts)
            && forall x :: 0x0A05_0001 <= x < ip ==> x in Addresses(hosts)
    ensures (exists x :: IsFreeAddress(hosts, x)) <==>
            !(forall x :: 0x0A05_0001 <= x <= 0x0A05_00FE ==> x in Addresses(hosts))
  {
    if x :| 0x0A05_0001 <= x <= 0x0A05_00FE && x !in Addresses(hosts) {
      assert IsFreeAddress(hosts, x);
    }
    forall x | 0x0A05_0001 <= x <= 0x0A05_00FE
      ensures IsFreeAddress(hosts, x) <==> x !in Addresses(hosts)
    {
    }
  }

  lemma {:induction false} NamesSize(hosts: seq<Host>)
    ensures |Names(hosts)| <= |hosts|
  {
    if hosts != [] {
      var n := |hosts| - 1;
      NamesSize(hosts[..n]);
      assert forall h :: h in hosts <==> h in hosts[..n] || h == hosts[n];
      assert Names(hosts) == Names(hosts[..n]) + {hosts[n].name};
    }
  }

  lemma {:induction false} AddressesSize(hosts: seq<Host>)
    ensures |Addresses(hosts)| <= |hosts|
  {
    if hosts != [] {
      var n := |hosts| - 1;
      AddressesSize(hosts[..n]);
      assert forall h :: h in hosts <==> h in hosts[..n] || h == hosts[n];
      var all, front := Addresses(hosts), Addresses(hosts[..n]);
      forall x
        ensures x in all <==> x in front || x == hosts[n].ip
      {
      }
      assert all == front + {hosts[n].ip};
    }
  }

  lemma {:induction false} ShortNumeral(idx: nat)
    requires idx < 10_000
    ensures |Decimal(idx)| <= 4
  {
    assert idx / 10 < 1_000;
    assert idx / 10 / 10 < 100;
    assert idx / 10 / 10 / 10 < 10;
    assert |Decimal(idx / 10 / 10 / 10)| == 1;
    assert |Decimal(idx / 10 / 10)| <= 2;
    assert |Decimal(idx / 10)| <= 3;
  }

  // ----- Interface names -----

  /** A host with a short name has its own interface name, another a numbered one. */
  ghost predicate Named(hosts: seq<Host>) {
    forall h :: h in hosts ==> if IsShort(h.name) then h.ifname == h.name + "-eth0" else IsNumbered(h.ifname)
  }

  ghost predicate IsNumbered(ifname: string) { exists idx: nat :: ifname == Candidate(Interface, idx) }

  lemma {:induction false} AddingKeepsNamed(hosts: seq<Host>, display: string, asked: Option<int>, h: Host)
    requires Named(hosts) && IsAdded(hosts, display, asked, h)
    ensures Named(hosts + [h])
  {
  }

  /** Some host with a long name has the numbered interface that a host of this name would get. */
  ghost predicate TakenByNumber(hosts: seq<Host>, name: string) {
    exists h, idx: nat :: h in hosts && !IsShort(h.name) && h.ifname == Candidate(Interface, idx)
        && name == "dh" + Decimal(idx)
  }

  lemma {:induction false} SameStem(x: string, y: string)
    requires x + "-eth0" == y + "-eth0"
    ensures x == y
  {
    assert |x + "-eth0"| == |y + "-eth0"|;
    assert (x + "-eth0")[..|x|] == x && (y + "-eth0")[..|y|] == y;
  }

  lemma {:induction false} StemOfNumbered(name: string, idx: nat)
    ensures name + "-eth0" == Candidate(Interface, idx) <==> name == "dh" + Decimal(idx)
  {
    var stem := "dh" + Decimal(idx);
    assert Candidate(Interface, idx) == stem + "-eth0";
    if name + "-eth0" == stem + "-eth0" {
      SameStem(name, stem);
    }
  }

  /** The interface name of an added host is taken if and only if its name is short and is the
      stem of a numbered interface that some host with a long name has. */
  lemma {:induction false} InterfaceTakenExactly(hosts: seq<Host>, display: string, asked: Option<int>, h: Host)
    requires Named(hosts) && IsAdded(hosts, display, asked, h)
    ensures h.ifname in Interfaces(hosts) <==> IsShort(h.name) && TakenByNumber(hosts, h.name)
  {
    NewNameUnique(display, Names(hosts), h.name, h.name);
    if IsShort(h.name) && h.ifname in Interfaces(hosts) {
      var g :| g in hosts && g.ifname == h.ifname;
      if IsShort(g.name) {
        assert g.name in Names(hosts);
        SameStem(g.name, h.name);
      } else {
        var idx: nat :| g.ifname == Candidate(Interface, idx);
        StemOfNumbered(h.name, idx);
      }
    }
    if IsShort(h.name) && TakenByNumber(hosts, h.name) {
      var g, idx: nat :| g in hosts && !IsShort(g.name) && g.ifname == Candidate(Interface, idx)
          && h.name == "dh" + Decimal(idx);
      StemOfNumbered(h.name, idx);
      assert g.ifname in Interfaces(hosts);
    }
  }

  /** Two calls are enough: a host with a long name gets the first numbered interface, and
      then a host called dh1 the same one. */
  method InterfaceClash() returns (t: Topology)
    ensures fresh(t) && |t.hosts| == 2 && t.hosts[0].name != t.hosts[1].name
    ensures t.hosts[0].ifname == t.hosts[1].ifname == "dh1-eth0"
  {
    t := new Topology({"s4"});
    var ok := t.AddHost("laboratory12", "s4", Some(1), false, 10.0, "");
    var first := t.hosts[0];
    assert t.hosts == [first];
    FirstAdded(first);
    ok := t.AddHost("dh1", "s4", Some(2), false, 10.0, "");
    var second := t.hosts[1];
    assert t.hosts == [first, second];
    SecondAdded(first, second);
  }

  lemma {:induction false} FirstAdded(h: Host)
    requires IsAdded([], "laboratory12", Some(1), h)
    ensures h.name == "laboratory12" && h.ifname == "dh1-eth0"
  {
    CleanKept("laboratory12");
    assert Names([]) == {} && Interfaces([]) == {};
    var idx :| IsFirstFree(Interface, 1, idx, {}) && h.ifname == Candidate(Interface, idx);
    assert Candidate(Interface, 1) !in {};
    assert IsFirstFree(Interface, 1, 1, {});
    FirstFreeUnique(Interface, 1, 1, idx, {});
    assert Decimal(1) == "1";
    assert "dh" + "1" + "-eth0" == "dh1-eth0";
  }

  lemma {:induction false} SecondAdded(first: Host, h: Host)
    requires first.name == "laboratory12" && IsAdded([first], "dh1", Some(2), h)
    ensures h.name == "dh1" && h.ifname == "dh1-eth0"
  {
    CleanKept("dh1");
    assert Names([first]) == {"laboratory12"};
    assert |"laboratory12"| != |"dh1"|;
    assert "dh1" + "-eth0" == "dh1-eth0";
  }

  /** A host called like a switch gets the switch's name. */
  method NodeClash() returns (t: Topology)
    ensures fresh(t) && |t.hosts| == 1 && t.hosts[0].name in t.nodes
  {
    t := new Topology({"s4"});
    var ok := t.AddHost("s4", "s4", Some(1), false, 10.0, "");
    var h := t.hosts[0];
    assert t.hosts == [h];
    CleanKept("s4");
    assert Names([]) == {};
    assert h.name == "s4";
  }
}
