/** One round of planning and applying: which operations are accepted, and what the kernel is like afterwards. */
module Round {
  import opened Basics
  import opened Model
  import opened Kernel
  import opened Devices
  import opened Deletion
  import opened Invariant
  import opened Planner
  import opened Matching
  import opened DeviceRuns
  import opened Opening
  import opened Closing

  /** The operations of a round, as `reconcile` applies them. */
  function RoundOps(d: Desired, s: State): seq<Op> { PlatformOps(s) + PlanOps(d, s) }

  /** The default PVID that in-place reconfiguration drops, or 0. */
  function DroppedPvid(s: State): Vid {
    if RepairOf(s).Reconfigure? then s.links[BR].kind.defaultPvid else 0
  }

  /** A configured port of the bridge that has the dropped PVID as it was given by default. */
  predicate Loses(d: Desired, s: State, n: Name) {
    && IsPort(s, n) && n in d.ports && Enslaved(s, n)
    && DroppedPvid(s) != 0 && DroppedPvid(s) in VlansOf(s, n) && VlansOf(s, n)[DroppedPvid(s)] == ACCESS
  }

  /** The plan deletes an entry that reconfiguration has already deleted. */
  predicate Conflict(d: Desired, s: State, n: Name) {
    Loses(d, s, n) && DroppedPvid(s) !in PortTable(d.ports[n])
  }

  /** The plan takes a wanted entry for present that reconfiguration has deleted. */
  predicate Relapse(d: Desired, s: State, n: Name) {
    Loses(d, s, n) && d.ports[n].native == Some(DroppedPvid(s))
  }

  // ----- leftovers -----

  lemma RunDelAll(v: Device, n: Name, ps: seq<Prefix>, qs: seq<Prefix>)
    requires v.addrs !! v.dhcp.Keys && Lists(ps, v.addrs) && Lists(qs, v.dhcp.Keys)
    ensures RunLocal(v, Flat(ps, DelAddr(n)) + Flat(qs, DelAddr(n))) == Some(v.(addrs := {}, dhcp := map[]))
  {
    assert Elems(ps) == v.addrs;
    RunDelAddrs(v, n, ps);
    var v1 := v.(addrs := {});
    assert v.addrs - Elems(ps) == {} && v.dhcp - Elems(ps) == v.dhcp;
    RunLocalAppend(v, Flat(ps, DelAddr(n)), Flat(qs, DelAddr(n)));
    RunLeases(v1, n, qs);
  }

  lemma RunLeftovers(v: Device, s: State, n: Name)
    requires v.addrs == AddrsOf(s, n) && v.dhcp == DhcpOf(s, n) && v.addrs !! v.dhcp.Keys
    ensures RunLocal(v, Leftovers(s, n)) == Some(if Owned(s, n) then v.(addrs := {}, dhcp := map[]) else v)
  {
    if Owned(s, n) { RunDelAll(v, n, Prefixes(v.addrs), Prefixes(v.dhcp.Keys)); }
  }

  // ----- ports -----

  lemma PortTablePvid(p: Port)
    ensures OnePvid(PortTable(p))
    ensures forall v :: v in PortTable(p) <==> p.Carries(v)
    ensures forall v :: v in PortTable(p) ==> PortTable(p)[v] == if p.native == Some(v) then ACCESS else TAGGED
  {
  }

  /** A port's table at the end of the round. */
  ghost function EndTable(d: Desired, s: State, n: Name): Table
    requires n in d.ports
  {
    if Relapse(d, s, n) then PortTable(d.ports[n]) - {DroppedPvid(s)} else PortTable(d.ports[n])
  }

  /** A sync of a table that may have lost one default entry since it was observed. */
  lemma SyncLosing(v: Device, n: Name, have: Table, want: Table, dflt: Vid, loses: bool)
    requires TakesVlans(v) && OnePvid(want)
    requires v.vlans == if loses then have - {dflt} else have
    requires loses ==> dflt in have && have[dflt] == ACCESS
    ensures RunLocal(v, SyncOps(n, have, want)) ==
            if loses && dflt !in want then None
            else Some(v.(vlans := if loses && want[dflt] == ACCESS then want - {dflt} else want))
  {
    LosingTables(v.vlans, have, want, dflt, loses);
    RunSync(v, n, have, want);
  }

  lemma LosingTables(cur: Table, have: Table, want: Table, dflt: Vid, loses: bool)
    requires cur == if loses then have - {dflt} else have
    requires loses ==> dflt in have && have[dflt] == ACCESS
    ensures Within(cur, have)
    ensures have.Keys - want.Keys <= cur.Keys <==> !(loses && dflt !in want)
    ensures !(loses && dflt !in want) ==>
              want - Lost(cur, have, want) == if loses && want[dflt] == ACCESS then want - {dflt} else want
  {
    if loses {
      assert dflt !in want ==> dflt in have.Keys - want.Keys;
      assert dflt in want ==> Lost(cur, have, want) == if want[dflt] == ACCESS then {dflt} else {};
    } else {
      assert Lost(cur, have, want) == {};
    }
    assert want - {} == want;
  }

  lemma SyncPort(d: Desired, s: State, n: Name, v: Device)
    requires IsPort(s, n) && n in d.ports && TakesVlans(v)
    requires v.vlans == if Enslaved(s, n) then CurVlans(s, n) else map[]
    ensures RunLocal(v, SyncOps(n, HaveVlans(s, n), PortTable(d.ports[n]))) ==
            if Conflict(d, s, n) then None else Some(v.(vlans := EndTable(d, s, n)))
  {
    PortTablePvid(d.ports[n]);
    SyncLosing(v, n, HaveVlans(s, n), PortTable(d.ports[n]), DroppedPvid(s), Loses(d, s, n));
  }

  lemma RunOptional(v: Device, c: bool, op: Op)
    ensures RunLocal(v, if c then [op] else []) == if c then LocalStep(v, op) else Some(v)
  {
    assert RunLocal(v, [op]) == LocalStep(v, op);
  }

  lemma FinishConfigured(d: Desired, s: State, n: Name)
    requires Sound(s) && IsPort(s, n) && n in d.ports
    ensures var v := Base(d, s, n);
            var link := Link(s.links[n].kind, d.ports[n].enabled, Some(BR));
            RunLocal(v, PortOps(d, s, n)) ==
            if Conflict(d, s, n) then None else Some(Device(Some(link), EndTable(d, s, n), v.addrs, v.dhcp))
  {
    var v := Base(d, s, n);
    BasePort(d, s, n);
    var a := if Enslaved(s, n) then [] else [SetMaster(n, Some(BR))];
    var b := SyncOps(n, HaveVlans(s, n), PortTable(d.ports[n]));
    var c := if s.links[n].up != d.ports[n].enabled then [SetUp(n, d.ports[n].enabled)] else [];
    RunOptional(v, !Enslaved(s, n), SetMaster(n, Some(BR)));
    var v1 := RunLocal(v, a).value;
    SyncPort(d, s, n, v1);
    RunLocalAppend(v, a, b);
    RunLocalAppend(v, a + b, c);
    if !Conflict(d, s, n) {
      var v2 := v1.(vlans := EndTable(d, s, n));
      RunOptional(v2, s.links[n].up != d.ports[n].enabled, SetUp(n, d.ports[n].enabled));
    }
  }

  lemma FinishUnconfigured(d: Desired, s: State, n: Name)
    requires Sound(s) && IsPort(s, n) && n !in d.ports
    ensures var v := Base(d, s, n);
            && RunLocal(v, PortOps(d, s, n)).Some?
            && var w := RunLocal(v, PortOps(d, s, n)).value;
               w.link == Some(Link(s.links[n].kind, false, None)) && w.addrs == v.addrs && w.dhcp == v.dhcp
  {
    var v := Base(d, s, n);
    BasePort(d, s, n);
    var a := if s.links[n].master.Some? then [SetMaster(n, None)] else [];
    var b := if s.links[n].up then [SetUp(n, false)] else [];
    RunOptional(v, s.links[n].master.Some?, SetMaster(n, None));
    var v1 := RunLocal(v, a).value;
    RunOptional(v1, s.links[n].up, SetUp(n, false));
    RunLocalAppend(v, a, b);
  }

  lemma MinePort(d: Desired, s: State, n: Name)
    requires Sound(s) && Free(d, s) && IsPort(s, n)
    ensures Mine(d, s, n) == PortOps(d, s, n) + Leftovers(s, n)
  {
    assert n != BR && !Taken(d, s, n) && n !in d.svis;
    assert PortOps(d, s, n) + [] + [] == PortOps(d, s, n);
  }

  lemma FinishPort(d: Desired, s: State, n: Name)
    requires Sound(s) && Free(d, s) && IsPort(s, n)
    ensures RunLocal(Base(d, s, n), Mine(d, s, n)).None? <==> Conflict(d, s, n)
    ensures !Conflict(d, s, n) ==>
              var w := RunLocal(Base(d, s, n), Mine(d, s, n)).value;
              && w.addrs == {} && w.dhcp == map[]
              && w.link == Some(Link(s.links[n].kind, n in d.ports && d.ports[n].enabled,
                                     if n in d.ports then Some(BR) else None))
              && (n in d.ports ==> w.vlans == EndTable(d, s, n))
  {
    var v := Base(d, s, n);
    MinePort(d, s, n);
    BasePort(d, s, n);
    RunLocalAppend(v, PortOps(d, s, n), Leftovers(s, n));
    if n in d.ports { FinishConfigured(d, s, n); } else { FinishUnconfigured(d, s, n); }
    if !Conflict(d, s, n) {
      assert DeviceOk(View(s, n));
      RunLeftovers(RunLocal(v, PortOps(d, s, n)).value, s, n);
    }
  }

  // ----- the bridge -----

  lemma SelfTablePvid(d: Desired)
    ensures OnePvid(SelfTable(d))
  {
  }

  lemma MineBridge(d: Desired, s: State)
    requires Sound(s) && Free(d, s)
    ensures Mine(d, s, BR) == SyncOps(BR, if Fresh(s) then map[] else VlansOf(s, BR), SelfTable(d)) + Leftovers(s, BR)
  {
    var b := SyncOps(BR, if Fresh(s) then map[] else VlansOf(s, BR), SelfTable(d));
    assert [] + b + [] == b;
  }

  lemma FinishBridge(d: Desired, s: State)
    requires Sound(s) && Free(d, s)
    ensures RunLocal(Base(d, s, BR), Mine(d, s, BR)) == Some(Device(Base(d, s, BR).link, SelfTable(d), {}, map[]))
  {
    var v, have := Base(d, s, BR), if Fresh(s) then map[] else VlansOf(s, BR);
    BaseBridge(d, s);
    MineBridge(d, s);
    SelfTablePvid(d);
    SyncLosing(v, BR, have, SelfTable(d), 0, false);
    RunLocalAppend(v, SyncOps(BR, have, SelfTable(d)), Leftovers(s, BR));
    var v1 := v.(vlans := SelfTable(d));
    if Fresh(s) {
      assert !Owned(s, BR) && Leftovers(s, BR) == [];
    } else {
      assert Owned(s, BR) && DeviceOk(View(s, BR));
      RunLeftovers(v1, s, BR);
    }
  }

  // ----- SVIs -----

  lemma RunSvi(v: Device, n: Name, svi: Svi, kept: bool, up: bool)
    requires v.addrs !! v.dhcp.Keys
    requires kept ==> v.link.Some? && v.link.value.kind == Vlan(BR, svi.vlan)
    requires kept ==> v.link.value.up == up || (v.link.value.up && svi.enabled)
    requires !kept ==> v == BLANK && !up
    ensures var ops := (if kept then [] else [CreateVlan(n, BR, svi.vlan)]) + AddrOps(n, svi, v.addrs, v.dhcp)
                       + (if up != svi.enabled then [SetUp(n, svi.enabled)] else []);
            && RunLocal(v, ops).Some?
            && var w := RunLocal(v, ops).value;
            && w.link.Some? && w.link.value.kind == Vlan(BR, svi.vlan) && w.link.value.up == svi.enabled
            && w.addrs == svi.addresses && w.dhcp == (if svi.dhcpClient then v.dhcp - svi.addresses else map[])
  {
    var a := if !kept then [CreateVlan(n, BR, svi.vlan)] else [];
    var b := AddrOps(n, svi, v.addrs, v.dhcp);
    var c := if up != svi.enabled then [SetUp(n, svi.enabled)] else [];
    RunOptional(v, !kept, CreateVlan(n, BR, svi.vlan));
    var v1 := RunLocal(v, a).value;
    RunAddrs(v1, n, svi);
    RunLocalAppend(v, a, b);
    RunLocalAppend(v, a + b, c);
    RunOptional(RunLocal(v1, b).value, up != svi.enabled, SetUp(n, svi.enabled));
  }

  lemma FinishSvi(d: Desired, s: State, n: Name)
    requires Sound(s) && Free(d, s) && n in d.svis
    ensures RunLocal(Base(d, s, n), Mine(d, s, n)).Some?
    ensures var w := RunLocal(Base(d, s, n), Mine(d, s, n)).value;
            && w.link.Some? && w.link.value.kind == Vlan(BR, d.svis[n].vlan) && w.link.value.up == d.svis[n].enabled
            && w.addrs == d.svis[n].addresses
            && w.dhcp == (if d.svis[n].dhcpClient then Base(d, s, n).dhcp - d.svis[n].addresses else map[])
  {
    BaseSvi(d, s, n);
    MineSvi(d, s, n);
    assert DeviceOk(View(s, n));
    RunSvi(Base(d, s, n), n, d.svis[n], Kept(d, s, n), Kept(d, s, n) && s.links[n].up);
  }

  lemma MineSvi(d: Desired, s: State, n: Name)
    requires Sound(s) && Free(d, s) && n in d.svis
    ensures Mine(d, s, n) == SviOps(d, s, n)
  {
    assert n != BR && !Taken(d, s, n) && !IsPort(s, n);
    assert !Owned(s, n) && Leftovers(s, n) == [];
    assert [] + [] + SviOps(d, s, n) + [] == SviOps(d, s, n);
  }

  lemma FinishOther(d: Desired, s: State, n: Name)
    requires n != BR && !IsPort(s, n) && n !in d.svis
    ensures Mine(d, s, n) == []
    ensures RunLocal(Base(d, s, n), Mine(d, s, n)) == Some(Base(d, s, n))
  {
    assert !Owned(s, n) && Leftovers(s, n) == [];
  }
}
