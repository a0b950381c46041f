/** The VLAN policy shared by the dashboard, which edits it, and the controller, which
    compiles it: for each switch, the members of each VLAN and the pairs of VLANs that
    may talk to each other. */
module VlanPolicy {
  import opened OpenFlow
  import opened Text

  datatype Member = Member(device: string, text: string, port: int, mac: Mac)
  datatype Link = Link(src: int, dst: int)
  datatype SwitchCfg = SwitchCfg(vlans: map<int, seq<Member>>, links: seq<Link>)

  type PolicyState = map<string, SwitchCfg>

  const EMPTY_CFG := SwitchCfg(map[], [])

  const MAX_VLAN := 4094

  predicate ValidVlan(v: int) { 0 < v <= MAX_VLAN }

  /** The controller's name for a datapath: s1, s2, ... */
  function SwitchName(dpid: nat): string { "s" + Decimal(dpid) }

  function CfgOf(state: PolicyState, dpid: int): SwitchCfg {
    if 0 <= dpid && SwitchName(dpid) in state then state[SwitchName(dpid)] else EMPTY_CFG
  }
}
