/**
 * The first part of a round: platform links up, the bridge repaired, spanning tree
 * handed over, stale VLAN links deleted. These are the operations with effects beyond
 * the device they name.
 */
module Opening {
  import opened Basics
  import opened Model
  import opened Kernel
  import opened Devices
  import opened Deletion
  import opened Invariant
  import opened Planner

  /** Kernel states of a switch: well-formed, conduits and loopback are other links, or SVIs of the same name. */
  ghost predicate Sound(s: State) {
    && WellFormed(s)
    && !IsPort(s, BR) && BR !in Platform(s) && !InBridge(s, BR, BR)
    && forall n :: n in Platform(s) && n in s.links ==> s.links[n].kind.Other? || IsChild(s, n, BR)
  }

  /** The names of the SVIs are not taken by other links. One named like a conduit is always put up. */
  ghost predicate Free(d: Desired, s: State) {
    && (forall n :: !Taken(d, s, n))
    && BR !in d.svis
    && forall n :: n in d.svis && n in Platform(s) ==> d.svis[n].enabled
  }

  // ----- in-place reconfiguration -----

  /** The planner re-creates a bridge without MST exactly when the kernel would refuse to reconfigure it. */
  lemma RemainIffRefused(s: State)
    requires WellFormed(s) && IsBridge(s, BR) && !s.links[BR].kind.mst
    ensures PortVlansRemain(s, s.links[BR].kind.defaultPvid) <==> !Configure(s, BR).Accepted()
  {
    var dflt := s.links[BR].kind.defaultPvid;
    var vlans := DropDefaults(s, BR, dflt);
    forall n ensures Keeps(s, dflt, n) <==> Carries(s, BR, vlans, n) { KeepsIffCarries(s, dflt, n); }
    if PortVlansIn(s, BR, vlans) {
      var n :| n in s.links && Carries(s, BR, vlans, n);
      assert Keeps(s, dflt, n);
    }
    if PortVlansRemain(s, dflt) {
      var n :| n in s.links && Keeps(s, dflt, n);
      assert Carries(s, BR, vlans, n);
    }
  }

  lemma KeepsIffCarries(s: State, dflt: Vid, n: Name)
    requires WellFormed(s)
    ensures Keeps(s, dflt, n) <==> Carries(s, BR, DropDefaults(s, BR, dflt), n)
  {
    var t := VlansOf(s, n);
    var left := DropDefault(t, dflt);
    assert DeviceOk(View(s, n));
    if left != map[] {
      var v :| v in left;
      assert v in t && (v != dflt || t[v] != ACCESS);
    }
    if v :| v in t && (v != dflt || t[v] != ACCESS) {
      assert v in left;
    }
  }

  lemma ConfigureView(s: State, m: Name)
    requires IsBridge(s, BR) && !InBridge(s, BR, BR) && Configure(s, BR).Accepted()
    ensures View(Configure(s, BR).state, m) ==
            if m == BR then
              var kind := s.links[BR].kind.(filtering := true, defaultPvid := 0, mst := true);
              View(s, m).(link := Some(s.links[BR].(kind := kind)))
            else View(s, m).(vlans := Dropped(s, BR, s.links[BR].kind.defaultPvid, m))
  {
  }

  // ----- platform links up -----

  ghost function Raised(s: State, m: Name): Device {
    var v := View(s, m);
    if m in Platform(s) && v.link.Some? then v.(link := Some(v.link.value.(up := true))) else v
  }

  lemma RunPutUp(s: State, m: Name)
    ensures RunLocal(View(s, m), PutUp(s)(m)) ==
            Some(if m in s.links then View(s, m).(link := Some(s.links[m].(up := true))) else View(s, m))
  {
    if m in s.links && !s.links[m].up {
      assert RunLocal(View(s, m), [SetUp(m, true)]) == LocalStep(View(s, m), SetUp(m, true));
    }
  }

  lemma RunPutUps(s: State, ns: seq<Name>)
    requires Lists(ns, Platform(s))
    ensures Run(s, Flat(ns, PutUp(s))).Accepted()
    ensures forall m :: View(Run(s, Flat(ns, PutUp(s))).state, m) == Raised(s, m)
  {
    var f := PutUp(s);
    var ops := Flat(ns, f);
    forall op | op in ops ensures Safe(s, op) { FlatIn(ns, f, op); }
    RunByDevice(s, ops);
    forall m ensures RunLocal(View(s, m), On(ops, m)) == Some(Raised(s, m)) {
      OnFlat(ns, f, m);
      RunPutUp(s, m);
    }
  }

  lemma RunPlatform(s: State)
    ensures Run(s, PlatformOps(s)).Accepted()
    ensures forall m :: View(Run(s, PlatformOps(s)).state, m) == Raised(s, m)
  {
    RunPutUps(s, Names(Platform(s)));
  }

  ghost predicate Raises(s: State, t: State) { forall m :: View(t, m) == Raised(s, m) }

  lemma RaisesKeeps(s: State, t: State)
    requires Raises(s, t)
    ensures t.links.Keys == s.links.Keys && StackOf(t) == StackOf(s)
    ensures forall m :: m in s.links ==> t.links[m].kind == s.links[m].kind && t.links[m].master == s.links[m].master
    ensures forall m, b :: InBridge(t, m, b) <==> InBridge(s, m, b)
  {
    forall m
      ensures m in t.links <==> m in s.links
      ensures m in s.links ==> t.links[m].kind == s.links[m].kind && t.links[m].master == s.links[m].master
    {
      assert View(t, m) == Raised(s, m);
    }
  }

  // ----- the bridge repaired -----

  ghost function Fallen(s: State, roots: set<Name>): set<Name> { set m | m in s.links && RestsOn(StackOf(s), m, roots) }

  lemma FallenExactly(s: State, s': State, roots: set<Name>, gone: set<Name>)
    requires Removes(s, s', gone) && Falls(StackOf(s), roots, gone)
    ensures gone == Fallen(s, roots)
  {
    forall m ensures m in gone <==> m in Fallen(s, roots) { FallsExactly(StackOf(s), roots, gone, m); }
  }

  ghost function Repaired(s: State, m: Name): Device {
    match RepairOf(s)
    case Keep => Raised(s, m)
    case Reconfigure =>
      if m == BR then
        var kind := s.links[BR].kind.(filtering := true, defaultPvid := 0, mst := true);
        View(s, m).(link := Some(s.links[BR].(kind := kind)))
      else Raised(s, m).(vlans := Dropped(s, BR, s.links[BR].kind.defaultPvid, m))
    case Replace => if m == BR then NewBridge() else Without(Raised(s, m), m, Fallen(s, {BR}))
    case Create => if m == BR then NewBridge() else Raised(s, m)
  }

  ghost function NewBridge(): Device { Device(Some(Down(Bridge(true, 0, true, Off))), map[], {}, map[]) }

  lemma DeleteBridgeView(s: State, t: State)
    requires Raises(s, t) && BR in s.links
    ensures Delete(t, BR).Accepted()
    ensures forall m :: View(Delete(t, BR).state, m) == Without(Raised(s, m), m, Fallen(s, {BR}))
    ensures View(Delete(t, BR).state, BR) == BLANK
  {
    RaisesKeeps(s, t);
    var gone := DeleteFalls(t, BR);
    var t1 := Delete(t, BR).state;
    FallenExactly(t, t1, {BR}, gone);
    assert Fallen(t, {BR}) == Fallen(s, {BR});
    forall m ensures View(t1, m) == Without(Raised(s, m), m, Fallen(s, {BR})) {
      assert View(t1, m) == Without(View(t, m), m, gone);
    }
    assert BR in gone;
  }

  lemma RunReplace(s: State, t: State)
    requires Raises(s, t) && BR in s.links
    ensures Run(t, [DeleteLink(BR), CreateBridge(BR)]).Accepted()
    ensures forall m :: View(Run(t, [DeleteLink(BR), CreateBridge(BR)]).state, m) ==
                        if m == BR then NewBridge() else Without(Raised(s, m), m, Fallen(s, {BR}))
  {
    DeleteBridgeView(s, t);
    var t1 := Delete(t, BR).state;
    CreateBridgeView(t1);
    RunTwo(t, DeleteLink(BR), CreateBridge(BR));
  }

  lemma RunTwo(t: State, a: Op, b: Op)
    requires Step(t, a).Accepted()
    ensures Run(t, [a, b]) == Step(Step(t, a).state, b)
  {
    assert [a, b][1..] == [b];
    assert Run(Step(t, a).state, [b]) == Step(Step(t, a).state, b);
  }

  lemma CreateBridgeView(t: State)
    requires View(t, BR) == BLANK
    ensures Step(t, CreateBridge(BR)).Accepted()
    ensures forall m :: View(Step(t, CreateBridge(BR)).state, m) == if m == BR then NewBridge() else View(t, m)
  {
  }

  lemma RunConfigure(s: State, t: State)
    requires Sound(s) && Raises(s, t) && RepairOf(s).Reconfigure?
    ensures Configure(t, BR).Accepted()
    ensures forall m :: View(Configure(t, BR).state, m) == Repaired(s, m)
  {
    RaisesKeeps(s, t);
    var dflt := s.links[BR].kind.defaultPvid;
    forall m ensures View(t, m) == Raised(s, m) && VlansOf(t, m) == VlansOf(s, m) { }
    if !Configure(s, BR).Accepted() { RemainIffRefused(s); }
    ConfigureSame(s, t);
    forall m ensures View(Configure(t, BR).state, m) == Repaired(s, m) {
      ConfigureView(t, m);
      assert VlansOf(t, m) == VlansOf(s, m) && InBridge(t, m, BR) == InBridge(s, m, BR);
    }
  }

  lemma ConfigureSame(s: State, t: State)
    requires IsBridge(s, BR) && IsBridge(t, BR) && s.links[BR].kind == t.links[BR].kind
    requires forall m :: VlansOf(t, m) == VlansOf(s, m) && InBridge(t, m, BR) == InBridge(s, m, BR)
    ensures Configure(s, BR).Accepted() ==> Configure(t, BR).Accepted()
  {
    var dflt := s.links[BR].kind.defaultPvid;
    forall m ensures Carries(t, BR, DropDefaults(t, BR, dflt), m) ==> Carries(s, BR, DropDefaults(s, BR, dflt), m) {
      assert VlansOf(t, m) == VlansOf(s, m);
    }
  }

  lemma RunRepair(s: State, t: State)
    requires Sound(s) && Raises(s, t)
    ensures Run(t, RepairOps(s)).Accepted()
    ensures forall m :: View(Run(t, RepairOps(s)).state, m) == Repaired(s, m)
  {
    RaisesKeeps(s, t);
    match RepairOf(s)
    case Keep =>
    case Reconfigure =>
      RunConfigure(s, t);
      assert Run(t, [ConfigureBridge(BR)]) == Step(t, ConfigureBridge(BR));
    case Replace => RunReplace(s, t);
    case Create =>
      assert View(t, BR) == Raised(s, BR) && DeviceOk(View(s, BR));
      CreateBridgeView(t);
      assert Run(t, [CreateBridge(BR)]) == Step(t, CreateBridge(BR));
  }

  // ----- the bridge up, spanning tree handed over -----

  function WantedStp(d: Desired): BridgeStp { if d.stp.Some? then User else Off }

  ghost function InHands(d: Desired, v: Device): Device {
    match v.link
    case Some(Link(Bridge(f, p, mst, _), _, master)) =>
        v.(link := Some(Link(Bridge(f, p, mst, WantedStp(d)), true, master)))
    case _ => v
  }

  ghost function Opened(d: Desired, s: State, m: Name): Device {
    if m == BR then InHands(d, Repaired(s, m)) else Repaired(s, m)
  }

  ghost predicate IsReady(v: Device) { v.link.Some? && v.link.value.kind.Bridge? && v.link.value.kind.defaultPvid == 0 }

  lemma RepairedBridge(s: State)
    requires Sound(s)
    ensures IsReady(Repaired(s, BR))
    ensures Repaired(s, BR).link.value.kind.stp == StpOf(s)
    ensures Repaired(s, BR).link.value.up == (!Fresh(s) && s.links[BR].up)
    ensures Repaired(s, BR).link.value.kind == Bridge(true, 0, true, StpOf(s))
  {
  }

  lemma RunHandOver(d: Desired, s: State)
    requires Sound(s)
    ensures RunLocal(Repaired(s, BR), BridgeOps(d, s)) == Some(Opened(d, s, BR))
  {
    RepairedBridge(s);
    var up := if Fresh(s) || (BR in s.links && !s.links[BR].up) then [SetUp(BR, true)] else [];
    var off := if StpOf(s).InKernel? then [SetBridgeStp(BR, false)] else [];
    var on := if d.stp.Some? != StpOf(s).User? then [SetBridgeStp(BR, d.stp.Some?)] else [];
    var v := Repaired(s, BR);
    var l := v.link.value;
    var v1 := v.(link := Some(l.(up := true)));
    assert up != [] ==> RunLocal(v, up) == LocalStep(v, SetUp(BR, true));
    RunLocalAppend(v, up, off);
    var v2 := if off == [] then v1 else v1.(link := Some(l.(up := true, kind := l.kind.(stp := Off))));
    assert off != [] ==> RunLocal(v1, off) == LocalStep(v1, SetBridgeStp(BR, false));
    RunLocalAppend(v, up + off, on);
    assert on != [] ==> RunLocal(v2, on) == LocalStep(v2, SetBridgeStp(BR, d.stp.Some?));
  }

  lemma RunBridgeOps(d: Desired, s: State, t: State)
    requires Sound(s) && forall m :: View(t, m) == Repaired(s, m)
    ensures Run(t, BridgeOps(d, s)).Accepted()
    ensures forall m :: View(Run(t, BridgeOps(d, s)).state, m) == Opened(d, s, m)
  {
    RepairedBridge(s);
    assert View(t, BR) == Repaired(s, BR);
    assert Ready(t);
    forall op | op in BridgeOps(d, s) ensures Safe(t, op) && op.name == BR { }
    RunByDevice(t, BridgeOps(d, s));
    forall m ensures RunLocal(View(t, m), On(BridgeOps(d, s), m)) == Some(Opened(d, s, m)) {
      if m == BR {
        OnOne(BridgeOps(d, s), m);
        RunHandOver(d, s);
      } else {
        OnNone(BridgeOps(d, s), m);
      }
    }
  }

  // ----- stale VLAN links deleted -----

  /** A device when the second part of the round begins. */
  ghost function Base(d: Desired, s: State, m: Name): Device {
    if Fresh(s) then Opened(d, s, m) else Without(Opened(d, s, m), m, Fallen(s, StaleLinks(d, s)))
  }

  lemma OpenedStack(d: Desired, s: State, t: State)
    requires Sound(s) && !Fresh(s) && forall m :: View(t, m) == Opened(d, s, m)
    ensures t.links.Keys == s.links.Keys && StackOf(t) == StackOf(s)
  {
    RepairedBridge(s);
    forall m
      ensures m in t.links <==> m in s.links
      ensures m in s.links && m != BR ==> t.links[m].kind == s.links[m].kind
      ensures m in t.links && m == BR ==> t.links[m].kind.Bridge? && s.links[m].kind.Bridge?
    {
      assert View(t, m) == Opened(d, s, m);
    }
  }

  lemma RunStale(d: Desired, s: State, t: State, ns: seq<Name>)
    requires Sound(s) && !Fresh(s) && forall m :: View(t, m) == Opened(d, s, m)
    requires Lists(ns, StaleLinks(d, s))
    ensures Run(t, Deletes(ns)).Accepted()
    ensures forall m :: View(Run(t, Deletes(ns)).state, m) == Base(d, s, m)
  {
    OpenedStack(d, s, t);
    assert IsBridge(s, BR);
    assert Siblings(t, ns, BR);
    var gone := DeleteAllFalls(t, ns, BR);
    RunIsDeleteAll(t, ns);
    FallenExactly(t, DeleteAll(t, ns).state, Elems(ns), gone);
    assert Elems(ns) == StaleLinks(d, s);
    assert Fallen(t, Elems(ns)) == Fallen(s, Elems(ns));
  }

  lemma ReadyAfter(d: Desired, s: State, t: State)
    requires Sound(s) && forall m :: View(t, m) == Base(d, s, m)
    ensures Ready(t)
  {
    assert View(t, BR) == Base(d, s, BR);
    RepairedBridge(s);
    if !Fresh(s) { BridgeStays(d, s); }
  }

  lemma BridgeStays(d: Desired, s: State)
    requires Sound(s) && !Fresh(s)
    ensures BR !in Fallen(s, StaleLinks(d, s))
    ensures Base(d, s, BR) == Opened(d, s, BR)
  {
    var up, roots := StackOf(s), StaleLinks(d, s);
    assert IsBridge(s, BR) && BR !in up;
    forall r, k: nat | r in roots ensures !Above(up, BR, r, k) { }
    assert BR !in Fallen(s, roots);
    RepairedBridge(s);
    assert Opened(d, s, BR).link.value.master == s.links[BR].master;
    if s.links[BR].master.Some? {
      var b := s.links[BR].master.value;
      assert MasterOk(s, BR) && b !in up;
      forall r, k: nat | r in roots ensures !Above(up, b, r, k) { }
    }
  }

  function OpeningOps(d: Desired, s: State): seq<Op> {
    PlatformOps(s) + RepairOps(s) + BridgeOps(d, s) + Deletes(Names(StaleLinks(d, s)))
  }

  lemma RunOpening(d: Desired, s: State) returns (t: State)
    requires Sound(s)
    ensures Run(s, OpeningOps(d, s)) == Fine(t)
    ensures forall m :: View(t, m) == Base(d, s, m)
    ensures Ready(t)
  {
    var a, b, c, e := PlatformOps(s), RepairOps(s), BridgeOps(d, s), Deletes(Names(StaleLinks(d, s)));
    RunPlatform(s);
    var t1 := Run(s, a).state;
    RunRepair(s, t1);
    var t2 := Run(t1, b).state;
    RunBridgeOps(d, s, t2);
    var t3 := Run(t2, c).state;
    t := Run(t3, e).state;
    if Fresh(s) {
      assert StaleLinks(d, s) == {} && Names(StaleLinks(d, s)) == [];
      assert e == [];
    } else {
      RunStale(d, s, t3, Names(StaleLinks(d, s)));
    }
    RunAppend(s, a, b);
    RunAppend(s, a + b, c);
    RunAppend(s, a + b + c, e);
    ReadyAfter(d, s, t);
  }
}
