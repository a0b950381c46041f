/** The dashboard's editor of the VLAN policy (examples/campus_dashboard.py): every
    operation as a function on the stored policy, None when the operation is refused. */
module Dashboard {
  import opened Prelude
  import opened OpenFlow
  import opened VlanPolicy
  import opened VlanNormalizer

  datatype Device = Device(name: string, text: string, port: int, mac: Mac)

  /** The endpoints attached to each switch, by ascending port. */
  type Topology = map<string, seq<Device>>

  function AttachedTo(topo: Topology, sw: string): seq<Device> {
    if sw in topo then topo[sw] else []
  }

  function MemberOf(d: Device): Member { Member(d.name, d.text, d.port, d.mac) }

  // ----- Cleaning one switch's configuration -----

  function Devices(ms: seq<Member>): set<string> { set m | m in ms :: m.device }

  /** The first member of each named device among the first n. */
  function CleanMembers(ms: seq<Member>, n: nat): seq<Member>
    requires n <= |ms|
  {
    if n == 0 then []
    else
      var before := CleanMembers(ms, n - 1);
      if ms[n - 1].device == "" || ms[n - 1].device in Devices(before) then before else before + [ms[n - 1]]
  }

  function CleanVlans(vlans: map<int, seq<Member>>): map<int, seq<Member>> {
    map v | v in vlans && CleanMembers(vlans[v], |vlans[v]|) != [] :: CleanMembers(vlans[v], |vlans[v]|)
  }

  predicate KeepsLink(l: Link, vlans: set<int>) {
    0 < Min(l.src, l.dst) && Max(l.src, l.dst) <= MAX_VLAN && l.src != l.dst && l.src in vlans && l.dst in vlans
  }

  /** The usable links among the first n, smaller VLAN first, each once. */
  function CleanLinks(links: seq<Link>, vlans: set<int>, n: nat): seq<Link>
    requires n <= |links|
  {
    if n == 0 then []
    else
      var before := CleanLinks(links, vlans, n - 1);
      var l := links[n - 1];
      if KeepsLink(l, vlans) && Ordered(l.src, l.dst) !in before then before + [Ordered(l.src, l.dst)] else before
  }

  function Cleaned(cfg: SwitchCfg): SwitchCfg {
    var vlans := CleanVlans(cfg.vlans);
    SwitchCfg(vlans, CleanLinks(cfg.links, vlans.Keys, |cfg.links|))
  }

  predicate IsEmpty(cfg: SwitchCfg) { cfg.vlans == map[] && cfg.links == [] }

  /** A cleaned configuration, or None when nothing is left of it. */
  function Kept(cfg: SwitchCfg): Option<SwitchCfg> {
    if IsEmpty(Cleaned(cfg)) then None else Some(Cleaned(cfg))
  }

  // ----- Edits of one switch -----

  datatype Edit =
    | DropDevice(device: string)
    | DropVlan(vlan: int)
    | SetLink(a: int, b: int, enabled: bool)

  function WithoutDevice(ms: seq<Member>, device: string): (r: seq<Member>)
    ensures forall m :: m in r <==> m in ms && m.device != device
  {
    if ms == [] then []
    else
      var before := WithoutDevice(ms[..|ms| - 1], device);
      if ms[|ms| - 1].device != device then before + [ms[|ms| - 1]] else before
  }

  function VlansWithout(vlans: map<int, seq<Member>>, device: string): map<int, seq<Member>> {
    map v | v in vlans && WithoutDevice(vlans[v], device) != [] :: WithoutDevice(vlans[v], device)
  }

  function LinksWithout(links: seq<Link>, vlan: int): (r: seq<Link>)
    ensures forall l :: l in r <==> l in links && l.src != vlan && l.dst != vlan
  {
    if links == [] then []
    else
      var before := LinksWithout(links[..|links| - 1], vlan);
      var l := links[|links| - 1];
      if l.src != vlan && l.dst != vlan then before + [l] else before
  }

  function LinksExcept(links: seq<Link>, link: Link): (r: seq<Link>)
    ensures forall l :: l in r <==> l in links && l != link
  {
    if links == [] then []
    else
      var before := LinksExcept(links[..|links| - 1], link);
      if links[|links| - 1] != link then before + [links[|links| - 1]] else before
  }

  /** Insertion behind the links that are not greater, as a stable sort places it. */
  function InsertLink(links: seq<Link>, l: Link): seq<Link> {
    if links == [] then [l]
    else
      var last := links[|links| - 1];
      if last.src < l.src || (last.src == l.src && last.dst <= l.dst) then links + [l]
      else InsertLink(links[..|links| - 1], l) + [last]
  }

  function SortedLinks(links: seq<Link>): seq<Link> {
    if links == [] then [] else InsertLink(SortedLinks(links[..|links| - 1]), links[|links| - 1])
  }

  function Relinked(links: seq<Link>, a: int, b: int, enabled: bool): seq<Link> {
    var others := LinksExcept(links, Ordered(a, b));
    if enabled then SortedLinks(others + [Ordered(a, b)]) else others
  }

  function Edited(cfg: SwitchCfg, e: Edit): Option<SwitchCfg> {
    match e
    case DropDevice(device) => Kept(SwitchCfg(VlansWithout(cfg.vlans, device), cfg.links))
    case DropVlan(v) =>
      if v in cfg.vlans then Kept(SwitchCfg(cfg.vlans - {v}, LinksWithout(cfg.links, v))) else Some(cfg)
    case SetLink(a, b, enabled) =>
      if a in cfg.vlans && b in cfg.vlans then Kept(cfg.(links := Relinked(cfg.links, a, b, enabled))) else Some(cfg)
  }

  /** The edit on every switch; switches it leaves empty disappear. */
  function EditedAll(s: PolicyState, e: Edit): PolicyState {
    map sw | sw in s && Edited(s[sw], e).Some? :: Edited(s[sw], e).value
  }

  // ----- The operations -----

  datatype Op =
    | Assign(sw: string, device: string, vlan: int)
    | AutoSwitch(sw: string, vlanIds: seq<Option<int>>, allow: seq<RawLink>)
    | AutoAll(vlanIds: seq<Option<int>>, allow: seq<RawLink>)
    | ClearSwitch(sw: string)
    | ClearAll
    | Restore(only: Option<string>)
    | RemoveEverywhere(vlan: int)
    | RemoveAssignment(sw: string, vlan: int, member: Option<string>)
    | Interconnect(sw: string, a: int, b: int, enabled: bool)
    | InterconnectScope(a: int, b: int, enabled: bool, only: Option<string>)

  function FindDevice(devices: seq<Device>, name: string): Option<Device> {
    if devices == [] then None
    else if devices[0].name == name then Some(devices[0])
    else FindDevice(devices[1..], name)
  }

  /** Insertion behind the members whose port is not greater, as a stable sort places it. */
  function InsertMember(ms: seq<Member>, m: Member): seq<Member> {
    if ms == [] then [m]
    else if ms[|ms| - 1].port <= m.port then ms + [m]
    else InsertMember(ms[..|ms| - 1], m) + [ms[|ms| - 1]]
  }

  function SortedMembers(ms: seq<Member>): seq<Member> {
    if ms == [] then [] else InsertMember(SortedMembers(ms[..|ms| - 1]), ms[|ms| - 1])
  }

  function CfgIn(s: PolicyState, sw: string): SwitchCfg { if sw in s then s[sw] else EMPTY_CFG }

  function VlanIn(vlans: map<int, seq<Member>>, v: int): seq<Member> { if v in vlans then vlans[v] else [] }

  /** The configuration after the device was appended to the VLAN. */
  function WithMember(cfg: SwitchCfg, vlan: int, m: Member): SwitchCfg {
    Cleaned(cfg.(vlans := cfg.vlans[vlan := SortedMembers(VlanIn(cfg.vlans, vlan) + [m])]))
  }

  function Assigned(topo: Topology, s: PolicyState, sw: string, device: string, vlan: int): Option<PolicyState> {
    var live := FindDevice(AttachedTo(topo, sw), device);
    if !IsSwitchName(sw) || !ValidVlan(vlan) || live.None? then None
    else
      var s1 := EditedAll(s, DropDevice(device));
      var cfg := CfgIn(s1, sw);
      Some(s1[sw := WithMember(cfg.(vlans := VlansWithout(cfg.vlans, device)), vlan, MemberOf(live.value))])
  }

  /** The valid VLAN numbers among the first n, each once. */
  function UsableVlans(raw: seq<Option<int>>, n: nat): seq<int>
    requires n <= |raw|
  {
    if n == 0 then []
    else
      var before := UsableVlans(raw, n - 1);
      if raw[n - 1].Some? && ValidVlan(raw[n - 1].value) && raw[n - 1].value !in before then before + [raw[n - 1].value]
      else before
  }

  /** One VLAN for each of the first n devices. */
  function OneVlanEach(devices: seq<Device>, vlans: seq<int>, n: nat): map<int, seq<Member>>
    requires n <= |devices| && n <= |vlans|
  {
    if n == 0 then map[]
    else
      var before := OneVlanEach(devices, vlans, n - 1);
      before[vlans[n - 1] := VlanIn(before, vlans[n - 1]) + [MemberOf(devices[n - 1])]]
  }

  /** The parsable requests among the first n. */
  function ParsedLinks(raw: seq<RawLink>, n: nat): seq<Link>
    requires n <= |raw|
  {
    if n == 0 then []
    else
      var before := ParsedLinks(raw, n - 1);
      var l := raw[n - 1];
      if l.RawLink? && l.a.Some? && l.b.Some? then before + [Link(l.a.value, l.b.value)] else before
  }

  function AutoCfg(devices: seq<Device>, vlans: seq<int>, allow: seq<RawLink>): SwitchCfg
    requires |devices| <= |vlans|
  {
    var members := OneVlanEach(devices, vlans, |devices|);
    var links := ParsedLinks(allow, |allow|);
    Cleaned(SwitchCfg(members, CleanLinks(links, members.Keys, |links|)))
  }

  function AutoSwitched(
      topo: Topology, s: PolicyState, sw: string, raw: seq<Option<int>>, allow: seq<RawLink>): Option<PolicyState> {
    var vlans := UsableVlans(raw, |raw|);
    var devices := AttachedTo(topo, sw);
    if !IsSwitchName(sw) || vlans == [] || devices == [] || |vlans| < |devices| then None
    else Some(s[sw := AutoCfg(devices, vlans, allow)])
  }

  predicate FitsAll(topo: Topology, vlans: seq<int>) {
    forall sw :: sw in topo ==> |topo[sw]| <= |vlans|
  }

  function AutoState(topo: Topology, vlans: seq<int>, allow: seq<RawLink>): PolicyState
    requires FitsAll(topo, vlans)
  {
    map sw | sw in topo && topo[sw] != [] && !IsEmpty(AutoCfg(topo[sw], vlans, allow)) ::
      AutoCfg(topo[sw], vlans, allow)
  }

  function AutoAlled(topo: Topology, raw: seq<Option<int>>, allow: seq<RawLink>): Option<PolicyState> {
    var vlans := UsableVlans(raw, |raw|);
    if vlans == [] || topo == map[] || !FitsAll(topo, vlans) then None
    else Some(AutoState(topo, vlans, allow))
  }

  function Replaced(s: PolicyState, sw: string, cfg: Option<SwitchCfg>): PolicyState {
    if cfg.Some? then s[sw := cfg.value] else s - {sw}
  }

  function RemovedEverywhere(s: PolicyState, vlan: int): Option<PolicyState> {
    if exists sw :: sw in s && vlan in s[sw].vlans then Some(EditedAll(s, DropVlan(vlan))) else None
  }

  function RemovedAssignment(s: PolicyState, sw: string, vlan: int, device: Option<string>): Option<PolicyState> {
    if sw !in s || vlan !in s[sw].vlans then None
    else
      var cfg := s[sw];
      var rest := if device.Some? then WithoutDevice(cfg.vlans[vlan], device.value) else [];
      var vlans := if rest != [] then cfg.vlans[vlan := rest] else cfg.vlans - {vlan};
      Some(Replaced(s, sw, Kept(SwitchCfg(vlans, LinksWithout(cfg.links, vlan)))))
  }

  function Interconnected(s: PolicyState, sw: string, a: int, b: int, enabled: bool): Option<PolicyState> {
    if !IsSwitchName(sw) || a == b || !ValidVlan(a) || !ValidVlan(b) then None
    else if sw !in s || a !in s[sw].vlans || b !in s[sw].vlans then None
    else Some(Replaced(s, sw, Edited(s[sw], SetLink(a, b, enabled))))
  }

  function InterconnectedScope(
      s: PolicyState, a: int, b: int, enabled: bool, only: Option<string>): Option<PolicyState> {
    if only.Some? && only.value != "" then Interconnected(s, only.value, a, b, enabled)
    else if exists sw :: sw in s && a in s[sw].vlans && b in s[sw].vlans then Some(EditedAll(s, SetLink(a, b, enabled)))
    else None
  }

  /** The stored policy after the operation; None when the operation is refused. */
  function Applied(topo: Topology, s: PolicyState, op: Op): Option<PolicyState> {
    match op
    case Assign(sw, device, vlan) => Assigned(topo, s, sw, device, vlan)
    case AutoSwitch(sw, vlans, allow) => AutoSwitched(topo, s, sw, vlans, allow)
    case AutoAll(vlans, allow) => AutoAlled(topo, vlans, allow)
    case ClearSwitch(sw) => if IsSwitchName(sw) && sw in s then Some(s - {sw}) else None
    case ClearAll => Some(map[])
    case Restore(only) => Some(if only.Some? && only.value != "" then s - {only.value} else map[])
    case RemoveEverywhere(vlan) => RemovedEverywhere(s, vlan)
    case RemoveAssignment(sw, vlan, device) =>
      RemovedAssignment(s, sw, vlan, if device == Some("") then None else device)
    case Interconnect(sw, a, b, enabled) => Interconnected(s, sw, a, b, enabled)
    case InterconnectScope(a, b, enabled, only) => InterconnectedScope(s, a, b, enabled, only)
  }

  /** A refused operation leaves the stored policy as it was. */
  function After(topo: Topology, s: PolicyState, op: Op): PolicyState {
    if Applied(topo, s, op).Some? then Applied(topo, s, op).value else s
  }

  function Run(topo: Topology, s: PolicyState, ops: seq<Op>): PolicyState {
    if ops == [] then s else After(topo, Run(topo, s, ops[..|ops| - 1]), ops[|ops| - 1])
  }
}
