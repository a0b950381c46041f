/** Every policy can be stored: a file that holds it exists, and reads back as the policy. */
module VlanWriter {
  import opened Prelude
  import opened VlanPolicy
  import opened VlanNormalizer

  function WrittenMembers(ms: seq<Member>): (raw: seq<RawMember>)
    ensures StoresMembers(raw, ms)
  {
    seq(|ms|, i requires 0 <= i < |ms| => WriteMember(ms[i]))
  }

  function WrittenLinks(ls: seq<Link>): (raw: seq<RawLink>)
    ensures StoresLinks(raw, ls)
  {
    seq(|ls|, i requires 0 <= i < |ls| => RawLink(Some(ls[i].src), Some(ls[i].dst)))
  }

  /** The VLANs in ascending order. */
  function WrittenVlans(vlans: map<int, seq<Member>>): seq<RawVlan> {
    var vs := Ascending(vlans.Keys);
    seq(|vs|, i requires 0 <= i < |vs| =>
      assert vs[i] in vs;
      RawVlan(Some(vs[i]), WrittenMembers(vlans[vs[i]])))
  }

  lemma {:induction false} WrittenVlansStored(vlans: map<int, seq<Member>>)
    ensures StoresVlans(WrittenVlans(vlans), vlans)
  {
    var vs, raw := Ascending(vlans.Keys), WrittenVlans(vlans);
    forall i | 0 <= i < |raw|
      ensures raw[i].id.Some? && raw[i].id.value in vlans && StoresMembers(raw[i].members, vlans[raw[i].id.value])
    {
      assert vs[i] in vs;
    }
    forall v | v in vlans
      ensures HasVlan(raw, |raw|, v)
    {
      assert v in vlans.Keys && v in vs;
      var i :| 0 <= i < |vs| && vs[i] == v;
      assert raw[i].id == Some(v);
    }
  }

  function WrittenCfg(cfg: SwitchCfg): RawSwitch { RawSwitch(WrittenVlans(cfg.vlans), WrittenLinks(cfg.links)) }

  lemma {:induction false} StoredOneMore(p: Payload, s: PolicyState, sw: string)
    requires sw in s && Stores(p, s - {sw})
    ensures Stores(p + [RawEntry(sw, WrittenCfg(s[sw]))], s)
  {
    var more := p + [RawEntry(sw, WrittenCfg(s[sw]))];
    WrittenVlansStored(s[sw].vlans);
    forall i | 0 <= i < |more|
      ensures more[i].name in s && StoresCfg(more[i].cfg, s[more[i].name])
    {
      if i < |p| {
        assert more[i] == p[i] && p[i].name in s - {sw};
      }
    }
    forall other | other in s
      ensures HasSwitch(more, |more|, other)
    {
      if other == sw {
        assert more[|p|].name == sw;
      } else {
        assert other in s - {sw};
        var i :| 0 <= i < |p| && p[i].name == other;
        assert more[i].name == other;
      }
    }
  }

  /** Some file stores the policy. */
  lemma {:induction false} Storable(s: PolicyState) returns (p: Payload)
    ensures Stores(p, s)
    decreases |s|
  {
    if s == map[] {
      p := [];
    } else {
      var sw := Pick(s.Keys);
      var rest := s - {sw};
      assert rest.Keys == s.Keys - {sw};
      assert |rest.Keys| < |s.Keys|;
      var before := Storable(rest);
      StoredOneMore(before, s, sw);
      p := before + [RawEntry(sw, WrittenCfg(s[sw]))];
    }
  }

  /** Round trip: every policy in normal form is what some file is read as. */
  lemma {:induction false} ReadsSomeFile(s: PolicyState) returns (p: Payload)
    requires NormalState(s)
    ensures Stores(p, s) && Normalized(p) == s
  {
    p := Storable(s);
    ReadBack(p, s);
  }
}
