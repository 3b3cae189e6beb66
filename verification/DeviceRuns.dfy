/** What the planned operations of one device do to it, in full and part of the way. */
module DeviceRuns {
  import opened Basics
  import opened Model
  import opened Kernel
  import opened Devices
  import opened Planner
  import opened Matching

  // ----- VLAN tables -----

  ghost predicate OnePvid(t: Table) { forall x, y :: x in t && y in t && t[x].pvid && t[y].pvid ==> x == y }

  ghost function Pvids(t: Table): set<Vid> { set x | x in t && t[x].pvid }

  ghost predicate Missing(have: Table, want: Table, x: Vid) { x in want && !(x in have && have[x] == want[x]) }

  /** `t` with the entries of `want` for `vs`. */
  ghost function Over(t: Table, vs: set<Vid>, want: Table): Table
    requires vs <= want.Keys
  {
    map x | x in t.Keys + vs :: if x in vs then want[x] else t[x]
  }

  ghost function Needed(vs: seq<Vid>, have: Table, want: Table): (r: set<Vid>)
    ensures forall x :: x in r <==> x in vs && Missing(have, want, x)
  {
    if vs == [] then {} else (if Missing(have, want, vs[0]) then {vs[0]} else {}) + Needed(vs[1..], have, want)
  }

  lemma OverStep(t: Table, vs: set<Vid>, want: Table, x: Vid)
    requires vs <= want.Keys && x in want
    ensures Over(t[x := want[x]], vs, want) == Over(t, {x} + vs, want)
  {
  }

  lemma RunOneAdd(v: Device, dev: Name, x: Vid, have: Table, want: Table)
    requires TakesVlans(v) && x in want
    ensures RunLocal(v, AddMissing(dev, have, want)(x)) ==
            Some(if Missing(have, want, x) then v.(vlans := Insert(v.vlans, x, want[x])) else v)
  {
    if Missing(have, want, x) {
      assert RunLocal(v, [AddBridgeVlan(dev, x, want[x])]) == LocalStep(v, AddBridgeVlan(dev, x, want[x]));
    }
  }

  lemma {:induction false} RunTaggedAdds(v: Device, dev: Name, vs: seq<Vid>, have: Table, want: Table)
    requires TakesVlans(v)
    requires forall x :: x in vs ==> x in want && !want[x].pvid
    ensures RunLocal(v, Flat(vs, AddMissing(dev, have, want))) ==
            Some(v.(vlans := Over(v.vlans, Needed(vs, have, want), want)))
    decreases vs
  {
    var f := AddMissing(dev, have, want);
    if vs == [] {
      assert Over(v.vlans, {}, want) == v.vlans;
    } else {
      var x := vs[0];
      var v1 := if Missing(have, want, x) then v.(vlans := v.vlans[x := want[x]]) else v;
      RunOneAdd(v, dev, x, have, want);
      RunLocalAppend(v, f(x), Flat(vs[1..], f));
      RunTaggedAdds(v1, dev, vs[1..], have, want);
      OverStep(v.vlans, Needed(vs[1..], have, want), want, x);
      assert Needed(vs, have, want) == if Missing(have, want, x) then {x} + Needed(vs[1..], have, want)
             else Needed(vs[1..], have, want);
    }
  }

  lemma {:induction false} RunDels(v: Device, dev: Name, vs: seq<Vid>)
    requires forall i, j :: 0 <= i < j < |vs| ==> vs[i] != vs[j]
    ensures RunLocal(v, Flat(vs, DelVid(dev))) ==
            if Elems(vs) <= v.vlans.Keys then Some(v.(vlans := v.vlans - Elems(vs))) else None
    decreases vs
  {
    if vs == [] {
      assert v.vlans - {} == v.vlans;
    } else {
      var v1 := v.(vlans := v.vlans - {vs[0]});
      RunLocalAppend(v, [DelBridgeVlan(dev, vs[0])], Flat(vs[1..], DelVid(dev)));
      RunDels(v1, dev, vs[1..]);
      assert vs[0] in Elems(vs) && vs[0] !in Elems(vs[1..]);
      assert v1.vlans - Elems(vs[1..]) == v.vlans - Elems(vs);
    }
  }

  /** The table after the PVID entry went in, if it had to. */
  ghost function AfterPvid(t: Table, q: Option<Vid>, have: Table, want: Table): Table
    requires q.Some? ==> q.value in want
  {
    if q.Some? && Missing(have, want, q.value) then Insert(t, q.value, want[q.value]) else t
  }

  ghost function PvidOf(want: Table): (q: Option<Vid>)
    requires OnePvid(want)
    ensures q.Some? ==> q.value in want && want[q.value].pvid
    ensures forall x :: x in want && want[x].pvid ==> q == Some(x)
  {
    if exists x :: x in want && want[x].pvid then var x :| x in want && want[x].pvid; Some(x) else None
  }

  lemma PvidFirstSplits(want: Table, l: seq<Vid>)
    requires OnePvid(want) && Lists(l, set x | x in want && want[x].pvid)
    ensures l == if PvidOf(want).Some? then [PvidOf(want).value] else []
  {
    var q, s := PvidOf(want), set x | x in want && want[x].pvid;
    ListsLength(l, s);
    if q.Some? {
      assert s == {q.value};
      assert l[0] in l;
    } else {
      assert s == {};
    }
  }

  /** Entries the plan takes for present, though they are not. */
  ghost function Lost(cur: Table, have: Table, want: Table): set<Vid> {
    set x | x in want && !Missing(have, want, x) && x !in cur
  }

  /** The adding half of a sync, which the kernel always accepts. */
  ghost function Added(cur: Table, have: Table, want: Table): Table
    requires OnePvid(want)
  {
    Over(AfterPvid(cur, PvidOf(want), have, want), (set x | x in want && !want[x].pvid && Missing(have, want, x)), want)
  }

  lemma RunAddLists(v: Device, dev: Name, q: Option<Vid>, others: seq<Vid>, have: Table, want: Table)
    requires TakesVlans(v)
    requires q.Some? ==> q.value in want
    requires forall x :: x in others ==> x in want && !want[x].pvid
    ensures RunLocal(v, Flat((if q.Some? then [q.value] else []) + others, AddMissing(dev, have, want))) ==
            Some(v.(vlans := Over(AfterPvid(v.vlans, q, have, want), Needed(others, have, want), want)))
  {
    var f := AddMissing(dev, have, want);
    if q.Some? {
      assert ([q.value] + others)[1..] == others;
      RunOneAdd(v, dev, q.value, have, want);
      RunLocalAppend(v, f(q.value), Flat(others, f));
    } else {
      assert [] + others == others;
    }
    RunTaggedAdds(v.(vlans := AfterPvid(v.vlans, q, have, want)), dev, others, have, want);
  }

  lemma NeededAll(others: seq<Vid>, have: Table, want: Table)
    requires forall x :: x in others <==> x in want && !want[x].pvid
    ensures Needed(others, have, want) == set x | x in want && !want[x].pvid && Missing(have, want, x)
  {
  }

  lemma RunAdds(v: Device, dev: Name, have: Table, want: Table)
    requires TakesVlans(v) && OnePvid(want)
    ensures RunLocal(v, Flat(PvidFirst(want), AddMissing(dev, have, want))) ==
            Some(v.(vlans := Added(v.vlans, have, want)))
  {
    var first, others := Numbers(set x | x in want && want[x].pvid), Numbers(set x | x in want && !want[x].pvid);
    PvidFirstSplits(want, first);
    RunAddLists(v, dev, PvidOf(want), others, have, want);
    NeededAll(others, have, want);
  }

  /** `cur` holds what was observed, or less. */
  ghost predicate Within(cur: Table, have: Table) { forall x :: x in cur ==> x in have && cur[x] == have[x] }

  lemma AddedThenDeleted(cur: Table, have: Table, want: Table, dels: set<Vid>)
    requires OnePvid(want) && Within(cur, have)
    requires dels == have.Keys - want.Keys
    ensures dels <= Added(cur, have, want).Keys <==> dels <= cur.Keys
    ensures dels <= cur.Keys ==> Added(cur, have, want) - dels == want - Lost(cur, have, want)
  {
    var t := Added(cur, have, want);
    assert forall x :: x in t <==> x in cur || Missing(have, want, x);
    if dels <= cur.Keys {
      assert forall x :: x in t && x !in dels <==> x in want && x !in Lost(cur, have, want);
      forall x | x in want && x !in Lost(cur, have, want) ensures t[x] == want[x] {
        if !Missing(have, want, x) { assert cur[x] == want[x]; }
      }
    }
  }

  /**
   * A sync of a table that is as observed, or has lost entries: it is refused exactly when an entry
   * to delete is lost.
   */
  lemma RunSync(v: Device, dev: Name, have: Table, want: Table)
    requires TakesVlans(v) && OnePvid(want) && Within(v.vlans, have)
    ensures RunLocal(v, SyncOps(dev, have, want)) ==
            if have.Keys - want.Keys <= v.vlans.Keys then Some(v.(vlans := want - Lost(v.vlans, have, want))) else None
  {
    var f, dels := AddMissing(dev, have, want), Numbers(have.Keys - want.Keys);
    RunAdds(v, dev, have, want);
    var v1 := v.(vlans := Added(v.vlans, have, want));
    RunLocalAppend(v, Flat(PvidFirst(want), f), Flat(dels, DelVid(dev)));
    RunDels(v1, dev, dels);
    assert Elems(dels) == have.Keys - want.Keys;
    AddedThenDeleted(v.vlans, have, want, have.Keys - want.Keys);
  }

  /** While operations leave the PVID entry alone, it stays the only one. */
  ghost predicate LeavesPvid(op: Op, q: Vid) {
    match op
    case AddBridgeVlan(_, x, flags) => x != q && !flags.pvid
    case DelBridgeVlan(_, x) => x != q
    case SetMaster(_, _) => false
    case _ => true
  }

  lemma {:induction false} PvidStays(v: Device, ops: seq<Op>, q: Vid)
    requires Pvids(v.vlans) == {q}
    requires forall op :: op in ops ==> LeavesPvid(op, q)
    requires RunLocal(v, ops).Some?
    ensures Pvids(RunLocal(v, ops).value.vlans) == {q}
    decreases ops
  {
    if ops != [] {
      var v1 := LocalStep(v, ops[0]).value;
      assert LeavesPvid(ops[0], q);
      assert q in Pvids(v.vlans);
      PvidStaysOnce(v, ops[0], q);
      PvidStays(v1, ops[1..], q);
    }
  }

  lemma PvidStaysOnce(v: Device, op: Op, q: Vid)
    requires Pvids(v.vlans) == {q} && LeavesPvid(op, q) && LocalStep(v, op).Some?
    ensures Pvids(LocalStep(v, op).value.vlans) == {q}
  {
    assert q in Pvids(v.vlans);
    assert forall x :: x in v.vlans && v.vlans[x].pvid ==> x in Pvids(v.vlans);
  }

  /**
   * Part of the way through a sync from `have` to `want`, a port with PVID p that shall have PVID q
   * has one of the two.
   */
  lemma PvidDuringSync(v: Device, dev: Name, want: Table, rest: seq<Op>, ops: seq<Op>, p: Vid, q: Vid, j: nat)
    requires TakesVlans(v) && OnePvid(want) && q in want && want[q].pvid
    requires Pvids(v.vlans) == {p}
    requires forall op :: op in rest ==> LeavesPvid(op, q)
    requires ops == SyncOps(dev, v.vlans, want) + rest
    requires j <= |ops| && RunLocal(v, ops[..j]).Some?
    ensures var t := RunLocal(v, ops[..j]).value.vlans; Pvids(t) == {p} || Pvids(t) == {q}
  {
    var head := AddMissing(dev, v.vlans, want)(q);
    var tail := SyncTail(dev, v.vlans, want, q);
    assert head + tail + rest == head + (tail + rest);
    PvidFirstMoves(v, dev, want, tail + rest, ops, p, q, j);
  }

  lemma PvidFirstMoves(v: Device, dev: Name, want: Table, tail: seq<Op>, ops: seq<Op>, p: Vid, q: Vid, j: nat)
    requires TakesVlans(v) && q in want && want[q].pvid
    requires Pvids(v.vlans) == {p}
    requires forall op :: op in tail ==> LeavesPvid(op, q)
    requires ops == AddMissing(dev, v.vlans, want)(q) + tail
    requires j <= |ops| && RunLocal(v, ops[..j]).Some?
    ensures var t := RunLocal(v, ops[..j]).value.vlans; Pvids(t) == {p} || Pvids(t) == {q}
  {
    var have := v.vlans;
    assert p in Pvids(have);
    if !Missing(have, want, q) {
      assert q in Pvids(have) && q == p;
      assert forall op :: op in ops[..j] ==> op in tail;
      PvidStays(v, ops[..j], q);
    } else if j > 0 {
      assert ops[0] == AddBridgeVlan(dev, q, want[q]);
      var v1 := LocalStep(v, ops[0]).value;
      assert Pvids(v1.vlans) == {q};
      assert ops[..j][0] == ops[0] && ops[..j][1..] == tail[..j - 1];
      PvidStays(v1, tail[..j - 1], q);
    }
  }

  lemma FlatCons(q: Vid, others: seq<Vid>, f: Vid -> seq<Op>)
    ensures Flat([q] + others, f) == f(q) + Flat(others, f)
  {
    assert ([q] + others)[1..] == others;
  }

  /** A sync after its PVID entry. */
  lemma SyncTail(dev: Name, have: Table, want: Table, q: Vid) returns (tail: seq<Op>)
    requires OnePvid(want) && q in want && want[q].pvid
    ensures SyncOps(dev, have, want) == AddMissing(dev, have, want)(q) + tail
    ensures forall op :: op in tail ==> LeavesPvid(op, q)
  {
    var f := AddMissing(dev, have, want);
    var others, dels := Numbers(set x | x in want && !want[x].pvid), Numbers(have.Keys - want.Keys);
    PvidFirstSplits(want, Numbers(set x | x in want && want[x].pvid));
    FlatCons(q, others, f);
    tail := Flat(others, f) + Flat(dels, DelVid(dev));
    Join(f(q), Flat(others, f), Flat(dels, DelVid(dev)));
    TailLeavesPvid(dev, others, dels, have, want, q);
  }

  lemma TailLeavesPvid(dev: Name, others: seq<Vid>, dels: seq<Vid>, have: Table, want: Table, q: Vid)
    requires forall x :: x in others ==> x != q && x in want && !want[x].pvid
    requires forall x :: x in dels ==> x != q
    ensures forall op :: op in Flat(others, AddMissing(dev, have, want)) + Flat(dels, DelVid(dev)) ==> LeavesPvid(op, q)
  {
    var f := AddMissing(dev, have, want);
    forall op | op in Flat(others, f) + Flat(dels, DelVid(dev)) ensures LeavesPvid(op, q) {
      FlatIn(others, f, op);
      FlatIn(dels, DelVid(dev), op);
    }
  }

  // ----- addresses -----

  lemma {:induction false} RunDelAddrs(v: Device, dev: Name, ps: seq<Prefix>)
    requires forall i, j :: 0 <= i < j < |ps| ==> ps[i] != ps[j]
    requires Elems(ps) <= v.addrs + v.dhcp.Keys
    ensures RunLocal(v, Flat(ps, DelAddr(dev))) == Some(v.(addrs := v.addrs - Elems(ps), dhcp := v.dhcp - Elems(ps)))
    decreases ps
  {
    if ps == [] {
      assert v.addrs - {} == v.addrs && v.dhcp - {} == v.dhcp;
    } else {
      assert ps[0] in Elems(ps) && ps[0] !in Elems(ps[1..]);
      var v1 := v.(addrs := v.addrs - {ps[0]}, dhcp := v.dhcp - {ps[0]});
      RunLocalAppend(v, [DelAddress(dev, ps[0])], Flat(ps[1..], DelAddr(dev)));
      RunDelAddrs(v1, dev, ps[1..]);
      assert v1.addrs - Elems(ps[1..]) == v.addrs - Elems(ps);
      assert v1.dhcp - Elems(ps[1..]) == v.dhcp - Elems(ps);
    }
  }

  lemma RunOneAddr(v: Device, dev: Name, p: Prefix, dhcp: map<Prefix, nat>)
    requires v.link.Some? && p !in v.addrs && (p in dhcp <==> p in v.dhcp)
    ensures RunLocal(v, AddAddr(dev, dhcp)(p)) == Some(v.(addrs := v.addrs + {p}, dhcp := v.dhcp - {p}))
  {
    if p in dhcp {
      var del, add := DelAddress(dev, p), AddAddress(dev, p);
      assert AddAddr(dev, dhcp)(p) == [del, add];
      var v1 := LocalStep(v, del).value;
      assert v1.addrs == v.addrs;
      assert RunLocal(v1, [add]) == LocalStep(v1, add);
      assert [del, add][1..] == [add];
    } else {
      assert RunLocal(v, [AddAddress(dev, p)]) == LocalStep(v, AddAddress(dev, p));
      assert v.dhcp - {p} == v.dhcp;
    }
  }

  lemma {:induction false} RunAddAddrs(v: Device, dev: Name, ps: seq<Prefix>, dhcp: map<Prefix, nat>)
    requires forall i, j :: 0 <= i < j < |ps| ==> ps[i] != ps[j]
    requires v.link.Some? && Elems(ps) !! v.addrs
    requires forall p :: p in ps ==> (p in dhcp <==> p in v.dhcp)
    ensures RunLocal(v, Flat(ps, AddAddr(dev, dhcp))) ==
            Some(v.(addrs := v.addrs + Elems(ps), dhcp := v.dhcp - Elems(ps)))
    decreases ps
  {
    var f := AddAddr(dev, dhcp);
    if ps == [] {
      assert v.addrs + {} == v.addrs && v.dhcp - {} == v.dhcp;
    } else {
      var p := ps[0];
      assert p in Elems(ps) && p !in Elems(ps[1..]) && p !in v.addrs;
      var v1 := v.(addrs := v.addrs + {p}, dhcp := v.dhcp - {p});
      RunOneAddr(v, dev, p, dhcp);
      RunLocalAppend(v, f(p), Flat(ps[1..], f));
      RunAddAddrs(v1, dev, ps[1..], dhcp);
      assert v1.addrs + Elems(ps[1..]) == v.addrs + Elems(ps);
      assert v1.dhcp - Elems(ps[1..]) == v.dhcp - Elems(ps);
    }
  }

  lemma RunAddrLists(v: Device, dev: Name, want: set<Prefix>, adds: seq<Prefix>, dels: seq<Prefix>)
    requires v.link.Some? && v.addrs !! v.dhcp.Keys
    requires Lists(adds, want - v.addrs) && Lists(dels, v.addrs - want)
    ensures RunLocal(v, Flat(adds, AddAddr(dev, v.dhcp)) + Flat(dels, DelAddr(dev))) ==
            Some(v.(addrs := want, dhcp := v.dhcp - want))
  {
    assert Elems(adds) == want - v.addrs && Elems(dels) == v.addrs - want;
    RunAddAddrs(v, dev, adds, v.dhcp);
    var v1 := v.(addrs := v.addrs + Elems(adds), dhcp := v.dhcp - Elems(adds));
    RunLocalAppend(v, Flat(adds, AddAddr(dev, v.dhcp)), Flat(dels, DelAddr(dev)));
    RunDelAddrs(v1, dev, dels);
    assert v1.addrs - Elems(dels) == want;
    assert v1.dhcp - Elems(dels) == v.dhcp - want;
  }

  lemma RunLeases(v: Device, dev: Name, leases: seq<Prefix>)
    requires v.addrs !! v.dhcp.Keys && Lists(leases, v.dhcp.Keys)
    ensures RunLocal(v, Flat(leases, DelAddr(dev))) == Some(v.(dhcp := map[]))
  {
    RunDelAddrs(v, dev, leases);
    assert Elems(leases) == v.dhcp.Keys;
    assert v.addrs - Elems(leases) == v.addrs;
    assert v.dhcp - Elems(leases) == map[];
  }

  /** An SVI gets exactly its static addresses, and keeps its other leases if it runs the DHCP client. */
  lemma RunAddrs(v: Device, dev: Name, svi: Svi)
    requires v.link.Some? && v.addrs !! v.dhcp.Keys
    ensures RunLocal(v, AddrOps(dev, svi, v.addrs, v.dhcp)) ==
            Some(v.(addrs := svi.addresses, dhcp := if svi.dhcpClient then v.dhcp - svi.addresses else map[]))
  {
    var adds, dels := Prefixes(svi.addresses - v.addrs), Prefixes(v.addrs - svi.addresses);
    var ops := Flat(adds, AddAddr(dev, v.dhcp)) + Flat(dels, DelAddr(dev));
    var leases := Prefixes(v.dhcp.Keys - svi.addresses);
    RunAddrLists(v, dev, svi.addresses, adds, dels);
    if svi.dhcpClient {
      assert ops + [] == ops;
    } else {
      var v1 := v.(addrs := svi.addresses, dhcp := v.dhcp - svi.addresses);
      RunLocalAppend(v, ops, Flat(leases, DelAddr(dev)));
      RunLeases(v1, dev, leases);
    }
  }

  // ----- addresses on the way -----

  ghost predicate Guarded(ops: seq<Op>, keep: set<Prefix>) {
    forall op :: op in ops ==> !(op.DelAddress? && op.prefix in keep)
  }

  /** Addresses no operation deletes stay. */
  lemma {:induction false} GuardedStay(v: Device, ops: seq<Op>, keep: set<Prefix>)
    requires Guarded(ops, keep) && RunLocal(v, ops).Some?
    ensures var w := RunLocal(v, ops).value;
            && (forall p :: p in keep && p in v.addrs ==> p in w.addrs)
            && (forall p :: p in keep && p in v.dhcp ==> p in w.dhcp && w.dhcp[p] == v.dhcp[p])
    decreases ops
  {
    if ops != [] {
      assert ops[0] in ops;
      GuardedStay(LocalStep(v, ops[0]).value, ops[1..], keep);
    }
  }

  lemma AddsGuarded(dev: Name, ps: seq<Prefix>, dhcp: map<Prefix, nat>, keep: set<Prefix>)
    requires forall p :: p in ps ==> p !in keep
    ensures Guarded(Flat(ps, AddAddr(dev, dhcp)), keep)
  {
    forall op | op in Flat(ps, AddAddr(dev, dhcp)) ensures !(op.DelAddress? && op.prefix in keep)
    {
      FlatIn(ps, AddAddr(dev, dhcp), op);
    }
  }

  lemma DelsGuarded(dev: Name, ps: seq<Prefix>, keep: set<Prefix>)
    requires forall p :: p in ps ==> p !in keep
    ensures Guarded(Flat(ps, DelAddr(dev)), keep)
  {
    forall op | op in Flat(ps, DelAddr(dev)) ensures !(op.DelAddress? && op.prefix in keep)
    {
      FlatIn(ps, DelAddr(dev), op);
    }
  }

  lemma AddrsPartWay(v: Device, a: seq<Op>, b: seq<Op>, want: set<Prefix>, keep: set<Prefix>, j: nat)
    requires RunLocal(v, a).Some? && want <= RunLocal(v, a).value.addrs
    requires Guarded(a, v.addrs) && Guarded(b, want) && Guarded(a, keep) && Guarded(b, keep)
    requires j <= |a + b| && RunLocal(v, (a + b)[..j]).Some?
    ensures var w := RunLocal(v, (a + b)[..j]).value;
            && (v.addrs <= w.addrs || want <= w.addrs)
            && (forall p :: p in keep && p in v.dhcp ==> p in w.dhcp && w.dhcp[p] == v.dhcp[p])
  {
    GuardedStay(v, (a + b)[..j], keep);
    if j <= |a| {
      assert (a + b)[..j] == a[..j];
      GuardedStay(v, a[..j], v.addrs);
    } else {
      assert (a + b)[..j] == a + b[..j - |a|];
      RunLocalAppend(v, a, b[..j - |a|]);
      GuardedStay(RunLocal(v, a).value, b[..j - |a|], want);
    }
  }

  /** The part of an SVI's address operations after the new addresses went in. */
  function AddrTail(dev: Name, svi: Svi, have: set<Prefix>, dhcp: map<Prefix, nat>): seq<Op> {
    Flat(Prefixes(have - svi.addresses), DelAddr(dev))
    + (if svi.dhcpClient then [] else Flat(Prefixes(dhcp.Keys - svi.addresses), DelAddr(dev)))
  }

  lemma AddrTailGuarded(dev: Name, svi: Svi, have: set<Prefix>, dhcp: map<Prefix, nat>)
    requires have !! dhcp.Keys
    ensures Guarded(AddrTail(dev, svi, have, dhcp), svi.addresses)
    ensures svi.dhcpClient ==> Guarded(AddrTail(dev, svi, have, dhcp), dhcp.Keys - svi.addresses)
  {
    DelsGuarded(dev, Prefixes(have - svi.addresses), svi.addresses);
    DelsGuarded(dev, Prefixes(have - svi.addresses), dhcp.Keys - svi.addresses);
    DelsGuarded(dev, Prefixes(dhcp.Keys - svi.addresses), svi.addresses);
  }

  lemma AddrOpsSplit(dev: Name, svi: Svi, have: set<Prefix>, dhcp: map<Prefix, nat>)
    ensures AddrOps(dev, svi, have, dhcp) ==
            Flat(Prefixes(svi.addresses - have), AddAddr(dev, dhcp)) + AddrTail(dev, svi, have, dhcp)
  {
    Join(Flat(Prefixes(svi.addresses - have), AddAddr(dev, dhcp)), Flat(Prefixes(have - svi.addresses), DelAddr(dev)),
         if svi.dhcpClient then [] else Flat(Prefixes(dhcp.Keys - svi.addresses), DelAddr(dev)));
  }

  lemma Join<T>(a: seq<T>, b: seq<T>, c: seq<T>)
    ensures a + b + c == a + (b + c)
  {
  }

  /**
   * On the way from the old to the wanted addresses an SVI has all of one or all of the other; a
   * DHCP client's leases stay.
   */
  lemma AddrsOnTheWay(v: Device, dev: Name, svi: Svi, rest: seq<Op>, ops: seq<Op>, j: nat)
    requires v.link.Some? && v.addrs !! v.dhcp.Keys
    requires ops == AddrOps(dev, svi, v.addrs, v.dhcp) + rest
    requires forall op :: op in rest ==> !op.DelAddress?
    requires j <= |ops| && RunLocal(v, ops[..j]).Some?
    ensures var w := RunLocal(v, ops[..j]).value;
            && (v.addrs <= w.addrs || svi.addresses <= w.addrs)
            && (svi.dhcpClient ==>
               forall p :: p in v.dhcp && p !in svi.addresses ==> p in w.dhcp && w.dhcp[p] == v.dhcp[p])
  {
    var adds := Prefixes(svi.addresses - v.addrs);
    var a, tail := Flat(adds, AddAddr(dev, v.dhcp)), AddrTail(dev, svi, v.addrs, v.dhcp);
    var keep := if svi.dhcpClient then v.dhcp.Keys - svi.addresses else {};
    AddrOpsSplit(dev, svi, v.addrs, v.dhcp);
    Join(a, tail, rest);
    AddsGuarded(dev, adds, v.dhcp, v.addrs);
    AddsGuarded(dev, adds, v.dhcp, keep);
    AddrTailGuarded(dev, svi, v.addrs, v.dhcp);
    RunAddAddrs(v, dev, adds, v.dhcp);
    assert svi.addresses <= v.addrs + Elems(adds);
    AddrsPartWay(v, a, tail + rest, svi.addresses, keep, j);
  }

  // ----- links on the way -----

  predicate TableOrAddress(op: Op) { op.AddBridgeVlan? || op.DelBridgeVlan? || op.AddAddress? || op.DelAddress? }

  lemma {:induction false} LinkStays(v: Device, ops: seq<Op>)
    requires (forall op :: op in ops ==> TableOrAddress(op)) && RunLocal(v, ops).Some?
    ensures RunLocal(v, ops).value.link == v.link
    decreases ops
  {
    if ops != [] {
      assert ops[0] in ops;
      LinkStays(LocalStep(v, ops[0]).value, ops[1..]);
    }
  }
}
