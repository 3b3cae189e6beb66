/**
 * The second part of a round: ports, the bridge's own VLAN entries, SVIs, leftover
 * addresses. All its operations are local, so it is told device by device.
 */
module Closing {
  import opened Basics
  import opened Model
  import opened Kernel
  import opened Devices
  import opened Deletion
  import opened Invariant
  import opened Planner
  import opened Matching
  import opened DeviceRuns
  import opened Opening

  // ----- what the first part leaves -----

  /** A link that is no VLAN link falls only with itself. */
  lemma Stands(s: State, roots: set<Name>, m: Name)
    requires m !in StackOf(s) && m !in roots
    ensures m !in Fallen(s, roots)
  {
    var up := StackOf(s);
    forall r, k: nat | r in roots ensures !Above(up, m, r, k) { }
  }

  /** Deleting VLAN links leaves masters alone. */
  lemma MasterStands(s: State, roots: set<Name>, m: Name)
    requires WellFormed(s) && m in s.links && s.links[m].master.Some?
    requires s.links[m].master.value !in roots
    ensures s.links[m].master.value !in Fallen(s, roots)
  {
    assert MasterOk(s, m);
    Stands(s, roots, s.links[m].master.value);
  }

  /** Entries of a port that the bridge still has when the port's turn comes. */
  ghost function CurVlans(s: State, m: Name): Table {
    if RepairOf(s).Reconfigure? then DropDefault(VlansOf(s, m), s.links[BR].kind.defaultPvid) else VlansOf(s, m)
  }

  lemma BasePort(d: Desired, s: State, m: Name)
    requires Sound(s) && IsPort(s, m)
    ensures var v := Base(d, s, m);
            && v.link.Some? && v.link.value.kind == s.links[m].kind && v.link.value.up == s.links[m].up
            && v.addrs == AddrsOf(s, m) && v.dhcp == DhcpOf(s, m)
            && (s.links[m].master.None? ==> v.link.value.master.None?)
            && (Enslaved(s, m) ==> v.link == Some(s.links[m]) && v.vlans == CurVlans(s, m))
  {
    assert m !in Platform(s) && m != BR && m !in StackOf(s);
    Stands(s, {BR}, m);
    Stands(s, StaleLinks(d, s), m);
    if Enslaved(s, m) { MasterStands(s, StaleLinks(d, s), m); }
  }

  lemma BaseSvi(d: Desired, s: State, n: Name)
    requires Sound(s) && Free(d, s) && n in d.svis
    ensures Kept(d, s, n) ==>
              var v := Base(d, s, n);
              && v.link.Some? && v.link.value.kind == s.links[n].kind
              && (v.link.value.up == s.links[n].up || (v.link.value.up && d.svis[n].enabled))
              && v.addrs == AddrsOf(s, n) && v.dhcp == DhcpOf(s, n)
    ensures !Kept(d, s, n) ==> Base(d, s, n) == BLANK
  {
    assert n != BR && !Taken(d, s, n);
    if Kept(d, s, n) {
      KeptStands(d, s, n);
      if s.links[n].master.Some? { MasterStands(s, StaleLinks(d, s), n); }
    } else {
      assert DeviceOk(View(s, n));
      if n in s.links { BaseStray(d, s, n); }
    }
  }

  lemma KeptStands(d: Desired, s: State, n: Name)
    requires Sound(s) && Kept(d, s, n)
    ensures n !in Fallen(s, StaleLinks(d, s))
  {
    var up, roots := StackOf(s), StaleLinks(d, s);
    assert IsBridge(s, BR) && up[n] == BR && BR !in up;
    forall r, k: nat | r in roots ensures !Above(up, n, r, k) {
      if k > 0 { assert !Above(up, BR, r, k - 1); }
    }
  }

  /** A VLAN link on the bridge that is not kept is gone. */
  lemma BaseStray(d: Desired, s: State, n: Name)
    requires Sound(s) && IsChild(s, n, BR) && n != BR && !Kept(d, s, n)
    ensures Base(d, s, n) == BLANK
  {
    var up := StackOf(s);
    assert ParentOk(s, n);
    if Fresh(s) {
      assert Above(up, BR, BR, 0) && Above(up, n, BR, 1);
      assert Rests(up, n, BR) && n in Fallen(s, {BR});
    } else {
      assert n in StaleLinks(d, s) && Above(up, n, n, 0) && Rests(up, n, n);
      assert n in Fallen(s, StaleLinks(d, s));
    }
  }

  lemma BaseBridge(d: Desired, s: State)
    requires Sound(s)
    ensures var v := Base(d, s, BR);
            && v.link.Some? && v.link.value.kind == Bridge(true, 0, true, WantedStp(d)) && v.link.value.up
            && v.link.value.master != Some(BR)
            && v.vlans == (if Fresh(s) then map[] else VlansOf(s, BR))
            && v.addrs == (if Fresh(s) then {} else AddrsOf(s, BR))
            && v.dhcp == (if Fresh(s) then map[] else DhcpOf(s, BR))
  {
    RepairedBridge(s);
    if !Fresh(s) { BridgeStays(d, s); }
  }

  // ----- the operations of each device -----

  lemma FlatNames<K(!new)>(ks: seq<K>, f: K -> seq<Op>, n: Name)
    requires forall k, op :: op in f(k) ==> op.name == n && Local(op)
    ensures forall op :: op in Flat(ks, f) ==> op.name == n && Local(op)
  {
    forall op | op in Flat(ks, f) ensures op.name == n && Local(op) {
      FlatIn(ks, f, op);
      var k :| k in ks && op in f(k);
    }
  }

  lemma SyncNames(n: Name, have: Table, want: Table)
    ensures forall op :: op in SyncOps(n, have, want) ==> op.name == n && Local(op)
  {
    FlatNames(PvidFirst(want), AddMissing(n, have, want), n);
    FlatNames(Numbers(have.Keys - want.Keys), DelVid(n), n);
  }

  predicate TableOp(op: Op) { op.AddBridgeVlan? || op.DelBridgeVlan? }

  lemma SyncTables(n: Name, have: Table, want: Table)
    ensures forall op :: op in SyncOps(n, have, want) ==> TableOp(op)
  {
    forall op | op in SyncOps(n, have, want) ensures TableOp(op) {
      FlatIn(PvidFirst(want), AddMissing(n, have, want), op);
      FlatIn(Numbers(have.Keys - want.Keys), DelVid(n), op);
    }
  }

  /** Ports join, leave, go up or down and change their tables, and no more. */
  predicate PortOp(op: Op) { op.SetMaster? || op.SetUp? || TableOp(op) }

  lemma PortsOnly(d: Desired, s: State, ns: seq<Name>)
    ensures forall op :: op in Flat(ns, EachPort(d, s)) ==> PortOp(op)
  {
    forall op | op in Flat(ns, EachPort(d, s)) ensures PortOp(op) {
      FlatIn(ns, EachPort(d, s), op);
      var n :| n in ns && op in EachPort(d, s)(n);
      if n in d.ports { SyncTables(n, HaveVlans(s, n), PortTable(d.ports[n])); }
    }
  }

  lemma AddrsOnly(n: Name, svi: Svi, have: set<Prefix>, dhcp: map<Prefix, nat>)
    ensures forall op :: op in AddrOps(n, svi, have, dhcp) ==> op.AddAddress? || op.DelAddress?
  {
    forall op | op in AddrOps(n, svi, have, dhcp) ensures op.AddAddress? || op.DelAddress? {
      FlatIn(Prefixes(svi.addresses - have), AddAddr(n, dhcp), op);
      FlatIn(Prefixes(have - svi.addresses), DelAddr(n), op);
      FlatIn(Prefixes(dhcp.Keys - svi.addresses), DelAddr(n), op);
    }
  }

  lemma AddrNames(n: Name, svi: Svi, have: set<Prefix>, dhcp: map<Prefix, nat>)
    ensures forall op :: op in AddrOps(n, svi, have, dhcp) ==> op.name == n && Local(op)
  {
    FlatNames(Prefixes(svi.addresses - have), AddAddr(n, dhcp), n);
    FlatNames(Prefixes(have - svi.addresses), DelAddr(n), n);
    FlatNames(Prefixes(dhcp.Keys - svi.addresses), DelAddr(n), n);
  }

  lemma PortNames(d: Desired, s: State, n: Name)
    ensures forall op :: op in PortOps(d, s, n) ==> op.name == n && Local(op)
  {
    if IsPort(s, n) && n in d.ports {
      var join := if Enslaved(s, n) then [] else [SetMaster(n, Some(BR))];
      var sync := SyncOps(n, HaveVlans(s, n), PortTable(d.ports[n]));
      var up := if s.links[n].up != d.ports[n].enabled then [SetUp(n, d.ports[n].enabled)] else [];
      SyncNames(n, HaveVlans(s, n), PortTable(d.ports[n]));
      AllNamed(join, sync, up, n);
    }
  }

  lemma AllNamed(a: seq<Op>, b: seq<Op>, c: seq<Op>, n: Name)
    requires (forall op :: op in a ==> op.name == n && Local(op))
             && (forall op :: op in b ==> op.name == n && Local(op))
    requires forall op :: op in c ==> op.name == n && Local(op)
    ensures forall op :: op in a + b + c ==> op.name == n && Local(op)
  {
  }

  lemma SviNames(d: Desired, s: State, n: Name)
    requires BR !in d.svis
    ensures forall op :: op in SviOps(d, s, n) ==> op.name == n && Local(op)
  {
    if n in d.svis {
      AddrNames(n, d.svis[n], AddrsOf(s, n), DhcpOf(s, n));
      AddrNames(n, d.svis[n], {}, map[]);
    }
  }

  /** Leftover addresses of one device. */
  function Leftovers(s: State, n: Name): seq<Op> { LeftStatic(s)(n) + LeftDhcp(s)(n) }

  lemma LeftNames(s: State, n: Name)
    ensures forall op :: op in LeftStatic(s)(n) ==> op.name == n && Local(op)
    ensures forall op :: op in LeftDhcp(s)(n) ==> op.name == n && Local(op)
  {
    FlatNames(Prefixes(AddrsOf(s, n)), DelAddr(n), n);
    FlatNames(Prefixes(DhcpOf(s, n).Keys), DelAddr(n), n);
  }

  /** The operations of the second part on device `m`. */
  function Mine(d: Desired, s: State, m: Name): seq<Op> {
    PortOps(d, s, m)
    + (if m == BR then SyncOps(BR, if Fresh(s) then map[] else VlansOf(s, BR), SelfTable(d)) else [])
    + SviOps(d, s, m)
    + Leftovers(s, m)
  }

  lemma OnLeftovers(s: State, m: Name)
    ensures On(LeftoverOps(s), m) == Leftovers(s, m)
  {
    var f, g := LeftStatic(s), LeftDhcp(s);
    forall n ensures forall op :: op in f(n) || op in g(n) ==> op.name == n { LeftNames(s, n); }
    OnFlat(Names(s.addrs.Keys), f, m);
    OnFlat(Names(s.dhcp.Keys), g, m);
    OnAppend(Flat(Names(s.addrs.Keys), f), Flat(Names(s.dhcp.Keys), g), m);
    NoLeftovers(s, m);
  }

  lemma NoLeftovers(s: State, m: Name)
    ensures m !in s.addrs ==> LeftStatic(s)(m) == []
    ensures m !in s.dhcp ==> LeftDhcp(s)(m) == []
  {
    if m !in s.addrs { assert Prefixes({}) == []; }
    if m !in s.dhcp { assert DhcpOf(s, m).Keys == {} && Prefixes({}) == []; }
  }

  lemma OnPorts(d: Desired, s: State, m: Name, ns: seq<Name>)
    requires Lists(ns, s.links.Keys)
    ensures On(Flat(ns, EachPort(d, s)), m) == PortOps(d, s, m)
  {
    var f := EachPort(d, s);
    forall n ensures forall op :: op in f(n) ==> op.name == n { PortNames(d, s, n); }
    OnFlat(ns, f, m);
  }

  lemma OnSvis(d: Desired, s: State, m: Name, ns: seq<Name>)
    requires Lists(ns, d.svis.Keys) && BR !in d.svis
    ensures On(Flat(ns, EachSvi(d, s)), m) == SviOps(d, s, m)
  {
    var f := EachSvi(d, s);
    forall n ensures forall op :: op in f(n) ==> op.name == n { SviNames(d, s, n); }
    OnFlat(ns, f, m);
  }

  lemma OnSelf(d: Desired, have: Table, m: Name)
    ensures On(SyncOps(BR, have, SelfTable(d)), m) == if m == BR then SyncOps(BR, have, SelfTable(d)) else []
  {
    SyncNames(BR, have, SelfTable(d));
    if m == BR { OnOne(SyncOps(BR, have, SelfTable(d)), m); } else { OnNone(SyncOps(BR, have, SelfTable(d)), m); }
  }

  lemma OnFour(a: seq<Op>, b: seq<Op>, c: seq<Op>, e: seq<Op>, m: Name)
    ensures On(a + b + c + e, m) == On(a, m) + On(b, m) + On(c, m) + On(e, m)
  {
    OnAppend(a, b, m);
    OnAppend(a + b, c, m);
    OnAppend(a + b + c, e, m);
  }

  lemma OnTail(d: Desired, s: State, m: Name)
    requires BR !in d.svis
    ensures On(TailOps(d, s), m) == Mine(d, s, m)
  {
    var have := if Fresh(s) then map[] else VlansOf(s, BR);
    OnFour(Flat(Names(s.links.Keys), EachPort(d, s)), SyncOps(BR, have, SelfTable(d)),
           Flat(Names(d.svis.Keys), EachSvi(d, s)), LeftoverOps(s), m);
    OnPorts(d, s, m, Names(s.links.Keys));
    OnSelf(d, have, m);
    OnSvis(d, s, m, Names(d.svis.Keys));
    OnLeftovers(s, m);
  }

  lemma TailLocal(d: Desired, s: State)
    requires BR !in d.svis
    ensures forall op :: op in TailOps(d, s) ==> Local(op)
  {
    forall op | op in TailOps(d, s) ensures Local(op) {
      var m := op.name;
      OnTail(d, s, m);
      assert op in On(TailOps(d, s), m);
      MineNames(d, s, m);
    }
  }

  lemma MineNames(d: Desired, s: State, m: Name)
    requires BR !in d.svis
    ensures forall op :: op in Mine(d, s, m) ==> op.name == m && Local(op)
  {
    PortNames(d, s, m);
    SyncNames(BR, if Fresh(s) then map[] else VlansOf(s, BR), SelfTable(d));
    SviNames(d, s, m);
    LeftNames(s, m);
  }
}
