/** The planner as the source runs it: loops that append operations to a list. */
module PlanLoops {
  import opened Basics
  import opened Model
  import opened Kernel
  import opened Deletion
  import opened Planner

  // ----- VLAN tables -----

  method AddVlans(dev: Name, vids: seq<Vid>, have: Table, want: Table) returns (ops: seq<Op>)
    requires forall v :: v in vids ==> v in want
    ensures ops == Flat(vids, AddMissing(dev, have, want))
  {
    ops := [];
    ghost var f := AddMissing(dev, have, want);
    for i := 0 to |vids|
      invariant ops == Flat(vids[..i], f)
    {
      FlatStep(vids, i, f);
      var v := vids[i];
      if !(v in have && have[v] == want[v]) { ops := ops + [AddBridgeVlan(dev, v, want[v])]; }
    }
    assert vids[..|vids|] == vids;
  }

  method DelVlans(dev: Name, vids: seq<Vid>) returns (ops: seq<Op>)
    ensures ops == Flat(vids, DelVid(dev))
  {
    ops := [];
    for i := 0 to |vids|
      invariant ops == Flat(vids[..i], DelVid(dev))
    {
      FlatStep(vids, i, DelVid(dev));
      ops := ops + [DelBridgeVlan(dev, vids[i])];
    }
    assert vids[..|vids|] == vids;
  }

  /** Adds missing entries, the PVID entry first, then deletes the ones not wanted. */
  method SyncVlans(dev: Name, have: Table, want: Table) returns (ops: seq<Op>)
    ensures ops == SyncOps(dev, have, want)
  {
    var adds := AddVlans(dev, PvidFirst(want), have, want);
    var dels := DelVlans(dev, Numbers(have.Keys - want.Keys));
    return adds + dels;
  }

  // ----- stale VLAN links -----

  /** Two ascending listings of one set are the same. */
  lemma {:induction false} OneAscending(a: seq<Name>, b: seq<Name>)
    requires forall x :: x in a <==> x in b
    requires forall i, j :: 0 <= i < j < |a| ==> a[i] != a[j] && StringLe(a[i].text, a[j].text)
    requires forall i, j :: 0 <= i < j < |b| ==> b[i] != b[j] && StringLe(b[i].text, b[j].text)
    ensures a == b
    decreases |a|
  {
    if a == [] {
      assert forall i :: 0 <= i < |b| ==> b[i] in b;
    } else {
      assert a[0] in a && a[0] in b;
      assert b[0] in b && b[0] in a;
      var i :| 0 <= i < |b| && b[i] == a[0];
      var j :| 0 <= j < |a| && a[j] == b[0];
      StringLeTotal(a[0].text, b[0].text);
      assert a[0] == b[0];
      forall x ensures x in a[1..] <==> x in b[1..] {
        assert x in a <==> x == a[0] || x in a[1..];
        assert x in b <==> x == b[0] || x in b[1..];
      }
      OneAscending(a[1..], b[1..]);
      assert a == [a[0]] + a[1..] && b == [b[0]] + b[1..];
    }
  }

  lemma NamesAscend(s: set<Name>)
    ensures forall i, j :: 0 <= i < j < |Names(s)| ==> StringLe(Names(s)[i].text, Names(s)[j].text)
  {
    NameOrder();
  }

  /** One pass over the links finds the VLAN links that stay and those that go. */
  method SplitSvis(d: Desired, s: State, names: seq<Name>) returns (kept: set<Name>, stale: seq<Name>)
    requires !Fresh(s) && Lists(names, s.links.Keys)
    requires forall i, j :: 0 <= i < j < |names| ==> StringLe(names[i].text, names[j].text)
    ensures forall n :: n in kept <==> Kept(d, s, n)
    ensures forall n :: n in stale <==> Stale(d, s, n)
    ensures forall a, b :: 0 <= a < b < |stale| ==> stale[a] != stale[b] && StringLe(stale[a].text, stale[b].text)
  {
    kept, stale := {}, [];
    for i := 0 to |names|
      invariant forall n :: n in kept <==> n in names[..i] && Kept(d, s, n)
      invariant forall n :: n in stale <==> n in names[..i] && Stale(d, s, n)
      invariant forall a, b :: 0 <= a < b < |stale| ==> stale[a] != stale[b] && StringLe(stale[a].text, stale[b].text)
      invariant forall a, j ::
                0 <= a < |stale| && i <= j < |names| ==> stale[a] != names[j] && StringLe(stale[a].text, names[j].text)
    {
      var n := names[i];
      assert names[..i + 1] == names[..i] + [n];
      if IsChild(s, n, BR) {
        if n in d.svis && d.svis[n].vlan == s.links[n].kind.id {
          kept := kept + {n};
        } else {
          stale := stale + [n];
        }
      }
    }
    assert names[..|names|] == names;
  }

  method PlanStale(d: Desired, s: State) returns (kept: set<Name>, ops: seq<Op>)
    ensures forall n :: n in kept <==> Kept(d, s, n)
    ensures ops == Deletes(Names(StaleLinks(d, s)))
  {
    if Fresh(s) {
      assert StaleLinks(d, s) == {} && Names(StaleLinks(d, s)) == [];
      return {}, [];
    }
    NamesAscend(s.links.Keys);
    var stale;
    kept, stale := SplitSvis(d, s, Names(s.links.Keys));
    NamesAscend(StaleLinks(d, s));
    OneAscending(stale, Names(StaleLinks(d, s)));
    ops := Deletes(stale);
  }

  // ----- addresses -----

  method DelAddrs(dev: Name, ps: seq<Prefix>) returns (ops: seq<Op>)
    ensures ops == Flat(ps, DelAddr(dev))
  {
    ops := [];
    for i := 0 to |ps|
      invariant ops == Flat(ps[..i], DelAddr(dev))
    {
      FlatStep(ps, i, DelAddr(dev));
      ops := ops + [DelAddress(dev, ps[i])];
    }
    assert ps[..|ps|] == ps;
  }

  method AddAddrs(dev: Name, ps: seq<Prefix>, dhcp: map<Prefix, nat>) returns (ops: seq<Op>)
    ensures ops == Flat(ps, AddAddr(dev, dhcp))
  {
    ops := [];
    ghost var f := AddAddr(dev, dhcp);
    for i := 0 to |ps|
      invariant ops == Flat(ps[..i], f)
    {
      FlatStep(ps, i, f);
      if ps[i] in dhcp { ops := ops + [DelAddress(dev, ps[i])]; }
      ops := ops + [AddAddress(dev, ps[i])];
    }
    assert ps[..|ps|] == ps;
  }

  method SyncAddrs(dev: Name, svi: Svi, have: set<Prefix>, dhcp: map<Prefix, nat>) returns (ops: seq<Op>)
    ensures ops == AddrOps(dev, svi, have, dhcp)
  {
    var adds := AddAddrs(dev, Prefixes(svi.addresses - have), dhcp);
    var dels := DelAddrs(dev, Prefixes(have - svi.addresses));
    var leases := [];
    if !svi.dhcpClient { leases := DelAddrs(dev, Prefixes(dhcp.Keys - svi.addresses)); }
    return adds + dels + leases;
  }

  // ----- ports, SVIs, leftovers -----

  method PlanPort(d: Desired, s: State, n: Name) returns (ops: seq<Op>)
    requires n in s.links
    ensures ops == PortOps(d, s, n)
  {
    var link := s.links[n];
    if !link.kind.Dsa? { return []; }
    var enslaved := !Fresh(s) && link.master == Some(BR);
    if n in d.ports {
      var port := d.ports[n];
      ops := if enslaved then [] else [SetMaster(n, Some(BR))];
      var sync := SyncVlans(n, if enslaved then VlansOf(s, n) else map[], PortTable(port));
      ops := ops + sync;
      ops := ops + if link.up != port.enabled then [SetUp(n, port.enabled)] else [];
    } else {
      ops := if link.master.Some? then [SetMaster(n, None)] else [];
      ops := ops + if link.up then [SetUp(n, false)] else [];
    }
  }

  method PlanPorts(d: Desired, s: State, names: seq<Name>) returns (ops: seq<Op>)
    requires forall n :: n in names ==> n in s.links
    ensures ops == Flat(names, EachPort(d, s))
  {
    ops := [];
    for i := 0 to |names|
      invariant ops == Flat(names[..i], EachPort(d, s))
    {
      FlatStep(names, i, EachPort(d, s));
      var more := PlanPort(d, s, names[i]);
      ops := ops + more;
    }
    assert names[..|names|] == names;
  }

  method PlanSvi(d: Desired, s: State, n: Name, existing: bool) returns (ops: seq<Op>)
    requires n in d.svis && existing == Kept(d, s, n)
    ensures ops == SviOps(d, s, n)
  {
    var svi := d.svis[n];
    ops := if existing then [] else [CreateVlan(n, BR, svi.vlan)];
    var addrs := SyncAddrs(n, svi, if existing then AddrsOf(s, n) else {}, if existing then DhcpOf(s, n) else map[]);
    ops := ops + addrs;
    var up := existing && s.links[n].up;
    ops := ops + if up != svi.enabled then [SetUp(n, svi.enabled)] else [];
  }

  method PlanSvis(d: Desired, s: State, kept: set<Name>, names: seq<Name>) returns (ops: seq<Op>)
    requires forall n :: n in kept <==> Kept(d, s, n)
    requires forall n :: n in names ==> n in d.svis
    ensures ops == Flat(names, EachSvi(d, s))
  {
    ops := [];
    for i := 0 to |names|
      invariant ops == Flat(names[..i], EachSvi(d, s))
    {
      FlatStep(names, i, EachSvi(d, s));
      var more := PlanSvi(d, s, names[i], names[i] in kept);
      ops := ops + more;
    }
    assert names[..|names|] == names;
  }

  method LeftStaticOps(s: State, devs: seq<Name>) returns (ops: seq<Op>)
    ensures ops == Flat(devs, LeftStatic(s))
  {
    ops := [];
    for i := 0 to |devs|
      invariant ops == Flat(devs[..i], LeftStatic(s))
    {
      FlatStep(devs, i, LeftStatic(s));
      if Owned(s, devs[i]) {
        var more := DelAddrs(devs[i], Prefixes(AddrsOf(s, devs[i])));
        ops := ops + more;
      }
    }
    assert devs[..|devs|] == devs;
  }

  method LeftDhcpOps(s: State, devs: seq<Name>) returns (ops: seq<Op>)
    ensures ops == Flat(devs, LeftDhcp(s))
  {
    ops := [];
    for i := 0 to |devs|
      invariant ops == Flat(devs[..i], LeftDhcp(s))
    {
      FlatStep(devs, i, LeftDhcp(s));
      if Owned(s, devs[i]) {
        var more := DelAddrs(devs[i], Prefixes(DhcpOf(s, devs[i]).Keys));
        ops := ops + more;
      }
    }
    assert devs[..|devs|] == devs;
  }

  // ----- the bridge, and the whole -----

  method PlanBridge(d: Desired, s: State) returns (ops: seq<Op>)
    ensures ops == RepairOps(s) + BridgeOps(d, s)
  {
    var isNew := Fresh(s);
    var hands := if isNew || (BR in s.links && !s.links[BR].up) then [SetUp(BR, true)] else [];
    var stp := if !isNew && IsBridge(s, BR) then s.links[BR].kind.stp else Off;
    if stp.InKernel? { hands := hands + [SetBridgeStp(BR, false)]; }
    if d.stp.Some? != stp.User? { hands := hands + [SetBridgeStp(BR, d.stp.Some?)]; }
    return RepairOps(s) + hands;
  }

  method FindTaken(d: Desired, s: State, names: seq<Name>) returns (taken: Option<Name>)
    ensures taken == FirstTaken(d, s, names)
  {
    for i := 0 to |names|
      invariant FirstTaken(d, s, names) == FirstTaken(d, s, names[i..])
    {
      assert names[i..][1..] == names[i + 1..];
      if Taken(d, s, names[i]) { return Some(names[i]); }
    }
    return None;
  }

  method PlanTail(d: Desired, s: State, kept: set<Name>) returns (ops: seq<Op>)
    requires forall n :: n in kept <==> Kept(d, s, n)
    ensures ops == TailOps(d, s)
  {
    var ports := PlanPorts(d, s, Names(s.links.Keys));
    var self := SyncVlans(BR, if Fresh(s) then map[] else VlansOf(s, BR), SelfTable(d));
    var svis := PlanSvis(d, s, kept, Names(d.svis.Keys));
    var left := LeftStaticOps(s, Names(s.addrs.Keys));
    var leases := LeftDhcpOps(s, Names(s.dhcp.Keys));
    return ports + self + svis + (left + leases);
  }

  /** The planner: the operations of `Plan`, in their order. */
  method PlanInPlace(d: Desired, s: State) returns (r: Result<seq<Op>, PlanError>)
    ensures r == Plan(d, s)
  {
    var taken := FindTaken(d, s, Names(d.svis.Keys));
    if taken.Some? { return Err(NameTaken(taken.value)); }
    var bridge := PlanBridge(d, s);
    var kept, stale := PlanStale(d, s);
    var tail := PlanTail(d, s, kept);
    return Ok(bridge + stale + tail);
  }
}
