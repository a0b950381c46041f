/** A switch that is reprogrammed again and again while other parts of the controller change
    their flows: the VLAN rules in its table are those of the last policy, and all other
    flows are as if there had never been a VLAN rule. */
module VlanHistory {
  import opened OpenFlow
  import opened VlanPolicy
  import opened VlanCompiler
  import opened VlanMeaning

  datatype Step =
    | Reprogram(cfg: SwitchCfg)
    | Add(rule: Rule)
    | Delete(cookie: int)
    | Timeout(flow: Key)

  function Reprogrammed(t: Table, cfg: SwitchCfg, dpid: int): Table {
    AddAll(DeleteCookie(t, VLAN_AUTOMATION_COOKIE), Compile(cfg, dpid))
  }

  function Others(t: Table, step: Step): Table {
    match step
    case Reprogram(_) => t
    case Add(r) => AddFlow(t, r)
    case Delete(cookie) => DeleteCookie(t, cookie)
    case Timeout(k) => t - {k}
  }

  function TableAt(t: Table, dpid: int, steps: seq<Step>, n: nat): Table
    requires n <= |steps|
  {
    if n == 0 then t
    else
      var before := TableAt(t, dpid, steps, n - 1);
      if steps[n - 1].Reprogram? then Reprogrammed(before, steps[n - 1].cfg, dpid) else Others(before, steps[n - 1])
  }

  /** The table if the switch were never reprogrammed. */
  function OthersAt(t: Table, steps: seq<Step>, n: nat): Table
    requires n <= |steps|
  {
    if n == 0 then t else Others(OthersAt(t, steps, n - 1), steps[n - 1])
  }

  /** The policy the switch was programmed with last. */
  function LastCfg(steps: seq<Step>, n: nat): SwitchCfg
    requires n <= |steps|
  {
    if n == 0 then EMPTY_CFG else if steps[n - 1].Reprogram? then steps[n - 1].cfg else LastCfg(steps, n - 1)
  }

  /** The form of the keys of VLAN rules: one ingress port and no layer-3 field. */
  predicate IsVlanKey(k: Key) {
    && k.priority in {ALLOW_PRIORITY, ARP_PRIORITY, BLOCK_PRIORITY, ARP_BLOCK_PRIORITY, CLOSED_PRIORITY}
    && k.pattern == ANY.(inPort := k.pattern.inPort, ethType := k.pattern.ethType, ethDst := k.pattern.ethDst)
  }

  ghost predicate VlanFree(t: Table) {
    forall k :: k in t ==> !IsVlanKey(k) && t[k].cookie != VLAN_AUTOMATION_COOKIE
  }

  /** Other parts of the controller use neither the cookie nor the keys of VLAN rules, which
      have no timeouts. */
  predicate Apart(step: Step) {
    match step
    case Reprogram(_) => true
    case Add(r) => !IsVlanKey(r.key) && r.entry.cookie != VLAN_AUTOMATION_COOKIE
    case Delete(cookie) => cookie != VLAN_AUTOMATION_COOKIE
    case Timeout(k) => !IsVlanKey(k)
  }

  predicate AllApart(steps: seq<Step>, n: nat)
    requires n <= |steps|
  {
    n > 0 ==> AllApart(steps, n - 1) && Apart(steps[n - 1])
  }

  predicate IsVlanRule(r: Rule) { IsVlanKey(r.key) && r.entry.cookie == VLAN_AUTOMATION_COOKIE }

  lemma {:induction false} CompiledVlanRules(cfg: SwitchCfg, dpid: int)
    ensures forall i :: 0 <= i < |Compile(cfg, dpid)| ==> IsVlanRule(Compile(cfg, dpid)[i])
  {
    var vm := ManagedVlans(cfg, KnownPorts(dpid));
    if vm != map[] {
      var ports := GuardedPorts(vm, KnownPorts(dpid));
      forall r | r in CompileVlans(vm, cfg.links, ports)
        ensures IsVlanRule(r)
      {
        RuleShape(vm, cfg.links, ports, r);
      }
    }
  }

  // ----- Other flows beside a list of VLAN rules -----

  /** Deleting by the cookie takes the rules away again and nothing else. */
  lemma {:induction false} NoResidue(env: Table, rs: seq<Rule>)
    requires VlanFree(env) && forall i :: 0 <= i < |rs| ==> IsVlanRule(rs[i])
    ensures DeleteCookie(AddAll(env, rs), VLAN_AUTOMATION_COOKIE) == env
  {
    if rs == [] {
      assert DeleteCookie(env, VLAN_AUTOMATION_COOKIE) == env;
    } else {
      var n := |rs| - 1;
      NoResidue(env, rs[..n]);
      var t := AddAll(env, rs[..n]);
      assert IsVlanRule(rs[n]) && rs[n].key !in DeleteCookie(t, VLAN_AUTOMATION_COOKIE);
      assert DeleteCookie(AddFlow(t, rs[n]), VLAN_AUTOMATION_COOKIE) == DeleteCookie(t, VLAN_AUTOMATION_COOKIE);
    }
  }

  lemma {:induction false} AddCommutes(env: Table, rs: seq<Rule>, r: Rule)
    requires !IsVlanKey(r.key) && forall i :: 0 <= i < |rs| ==> IsVlanRule(rs[i])
    ensures AddFlow(AddAll(env, rs), r) == AddAll(AddFlow(env, r), rs)
  {
    if rs != [] {
      var n := |rs| - 1;
      AddCommutes(env, rs[..n], r);
      assert IsVlanRule(rs[n]) && rs[n].key != r.key;
      assert AddFlow(AddFlow(AddAll(env, rs[..n]), rs[n]), r) == AddFlow(AddFlow(AddAll(env, rs[..n]), r), rs[n]);
    }
  }

  lemma {:induction false} DeleteCommutes(env: Table, rs: seq<Rule>, cookie: int)
    requires cookie != VLAN_AUTOMATION_COOKIE && VlanFree(env) && forall i :: 0 <= i < |rs| ==> IsVlanRule(rs[i])
    ensures DeleteCookie(AddAll(env, rs), cookie) == AddAll(DeleteCookie(env, cookie), rs)
  {
    if rs != [] {
      var n := |rs| - 1;
      DeleteCommutes(env, rs[..n], cookie);
      var t := AddAll(env, rs[..n]);
      assert IsVlanRule(rs[n]);
      assert DeleteCookie(AddFlow(t, rs[n]), cookie) == AddFlow(DeleteCookie(t, cookie), rs[n]);
    }
  }

  lemma {:induction false} TimeoutCommutes(env: Table, rs: seq<Rule>, k: Key)
    requires !IsVlanKey(k) && forall i :: 0 <= i < |rs| ==> IsVlanRule(rs[i])
    ensures AddAll(env, rs) - {k} == AddAll(env - {k}, rs)
  {
    if rs != [] {
      var n := |rs| - 1;
      TimeoutCommutes(env, rs[..n], k);
      assert IsVlanRule(rs[n]) && rs[n].key != k;
      assert AddFlow(AddAll(env, rs[..n]), rs[n]) - {k} == AddFlow(AddAll(env, rs[..n]) - {k}, rs[n]);
    }
  }

  lemma {:induction false} NothingCompiled(dpid: int)
    ensures Compile(EMPTY_CFG, dpid) == []
  {
    assert EMPTY_CFG.vlans.Keys == {};
  }

  lemma {:induction false} StepBeside(env: Table, cfg: SwitchCfg, dpid: int, step: Step)
    requires VlanFree(env) && Apart(step) && !step.Reprogram?
    ensures Others(AddAll(env, Compile(cfg, dpid)), step) == AddAll(Others(env, step), Compile(cfg, dpid))
    ensures VlanFree(Others(env, step))
  {
    CompiledVlanRules(cfg, dpid);
    match step
    case Add(r) => AddCommutes(env, Compile(cfg, dpid), r);
    case Delete(cookie) => DeleteCommutes(env, Compile(cfg, dpid), cookie);
    case Timeout(k) => TimeoutCommutes(env, Compile(cfg, dpid), k);
  }

  lemma {:induction false} StepForgets(env: Table, cfg: SwitchCfg, dpid: int, step: Step)
    requires VlanFree(env) && Apart(step)
    ensures VlanFree(Others(env, step))
    ensures var t := AddAll(env, Compile(cfg, dpid));
            (if step.Reprogram? then Reprogrammed(t, step.cfg, dpid) else Others(t, step))
            == AddAll(Others(env, step), Compile(if step.Reprogram? then step.cfg else cfg, dpid))
  {
    if step.Reprogram? {
      CompiledVlanRules(cfg, dpid);
      NoResidue(env, Compile(cfg, dpid));
    } else {
      StepBeside(env, cfg, dpid, step);
    }
  }

  /** After any history of reprogramming and changes by others, the table is what programming
      the last policy once, on top of the others' flows, would have made. */
  lemma {:induction false} HistoryForgotten(t: Table, dpid: int, steps: seq<Step>, n: nat)
    requires n <= |steps| && VlanFree(t) && AllApart(steps, n)
    ensures TableAt(t, dpid, steps, n) == AddAll(OthersAt(t, steps, n), Compile(LastCfg(steps, n), dpid))
    ensures VlanFree(OthersAt(t, steps, n))
  {
    if n == 0 {
      NothingCompiled(dpid);
    } else {
      HistoryForgotten(t, dpid, steps, n - 1);
      StepForgets(OthersAt(t, steps, n - 1), LastCfg(steps, n - 1), dpid, steps[n - 1]);
    }
  }
}
