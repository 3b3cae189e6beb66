/** What every kernel state satisfies, and every operation keeps. */
module Invariant {
  import opened Basics
  import opened Model
  import opened Kernel
  import opened Devices
  import opened Deletion

  ghost predicate TableOk(t: Table) {
    && (forall x :: x in t ==> ValidVid(x))
    && (forall x, y :: x in t && y in t && t[x].pvid && t[y].pvid ==> x == y)
  }

  lemma InsertOk(t: Table, x: Vid, flags: Flags)
    requires TableOk(t) && ValidVid(x)
    ensures TableOk(Insert(t, x, flags))
  {
  }

  /** Per device: tables only on links, VLAN entries only on bridges and their ports, one PVID, valid ids. */
  ghost predicate DeviceOk(v: Device) {
    && (v.link.None? ==> v == BLANK)
    && (v.vlans != map[] ==> TakesVlans(v))
    && TableOk(v.vlans)
    && v.addrs !! v.dhcp.Keys
    && (v.link.Some? && v.link.value.kind.Bridge? ==> v.link.value.kind.defaultPvid <= 4094)
    && (v.link.Some? && v.link.value.kind.Vlan? ==> ValidVid(v.link.value.kind.id))
  }

  /** Between devices: masters are bridges, and VLAN links stand on existing links. */
  ghost predicate MasterOk(s: State, n: Name)
    requires n in s.links
  {
    s.links[n].master.Some? ==> IsBridge(s, s.links[n].master.value)
  }

  ghost predicate ParentOk(s: State, n: Name)
    requires n in s.links
  {
    s.links[n].kind.Vlan? ==> s.links[n].kind.parent in s.links
  }

  ghost predicate WellFormed(s: State) {
    && (forall n :: DeviceOk(View(s, n)))
    && (forall n :: n in s.links ==> MasterOk(s, n) && ParentOk(s, n))
  }

  /** Operations carry VLAN ids the kernel can represent. */
  predicate ValidOp(op: Op) {
    match op
    case CreateVlan(_, _, id) => ValidVid(id)
    case AddBridgeVlan(_, vid, _) => ValidVid(vid)
    case _ => true
  }

  /** A step that only changes device `n`, and leaves a bridge a bridge. */
  lemma OneDevice(s: State, s': State, n: Name)
    requires WellFormed(s)
    requires forall m :: m != n ==> View(s', m) == View(s, m)
    requires DeviceOk(View(s', n))
    requires n in s.links ==> n in s'.links && (s.links[n].kind.Bridge? ==> s'.links[n].kind.Bridge?)
    requires n in s'.links ==>
               && (s'.links[n].master.Some? ==> IsBridge(s, s'.links[n].master.value))
               && (s'.links[n].kind.Vlan? ==> s'.links[n].kind.parent in s.links)
    ensures WellFormed(s')
  {
    forall m
      ensures m != n ==> LinkOf(s', m) == LinkOf(s, m)
      ensures m in s.links ==> m in s'.links
      ensures IsBridge(s, m) ==> IsBridge(s', m)
    {
      if m != n { assert View(s', m) == View(s, m); }
    }
    forall m | m in s'.links ensures MasterOk(s', m) && ParentOk(s', m) {
      if m != n { assert LinkOf(s', m) == LinkOf(s, m) && m in s.links && MasterOk(s, m) && ParentOk(s, m); }
    }
  }

  predicate Simple(op: Op) { !op.ConfigureBridge? && !op.DeleteLink? }

  lemma SimpleStep(s: State, op: Op, m: Name)
    requires Simple(op) && Step(s, op).Accepted() && m != op.name
    ensures View(Step(s, op).state, m) == View(s, m)
  {
  }

  lemma TableOpOk(s: State, op: Op)
    requires WellFormed(s) && ValidOp(op) && Step(s, op).Accepted()
    requires op.AddBridgeVlan? || op.DelBridgeVlan?
    ensures DeviceOk(View(Step(s, op).state, op.name))
  {
    assert DeviceOk(View(s, op.name));
    if op.AddBridgeVlan? { InsertOk(VlansOf(s, op.name), op.vid, op.flags); }
    else { assert TableOk(VlansOf(s, op.name) - {op.vid}); }
  }

  lemma MasterOpOk(s: State, op: Op)
    requires WellFormed(s) && Step(s, op).Accepted() && op.SetMaster?
    ensures DeviceOk(View(Step(s, op).state, op.name))
  {
    assert DeviceOk(View(s, op.name));
    if op.master.Some? { assert DeviceOk(View(s, op.master.value)); }
  }

  lemma AddressOpOk(s: State, op: Op)
    requires WellFormed(s) && Step(s, op).Accepted()
    requires op.AddAddress? || op.DelAddress?
    ensures DeviceOk(View(Step(s, op).state, op.name))
  {
    assert DeviceOk(View(s, op.name));
  }

  lemma LinkOpOk(s: State, op: Op)
    requires WellFormed(s) && ValidOp(op) && Step(s, op).Accepted()
    requires op.CreateBridge? || op.CreateVlan? || op.SetUp? || op.SetBridgeStp?
    ensures DeviceOk(View(Step(s, op).state, op.name))
  {
    assert DeviceOk(View(s, op.name));
  }

  lemma SimpleDeviceOk(s: State, op: Op)
    requires WellFormed(s) && ValidOp(op) && Simple(op) && Step(s, op).Accepted()
    ensures DeviceOk(View(Step(s, op).state, op.name))
  {
    if op.AddBridgeVlan? || op.DelBridgeVlan? { TableOpOk(s, op); }
    else if op.SetMaster? { MasterOpOk(s, op); }
    else if op.AddAddress? || op.DelAddress? { AddressOpOk(s, op); }
    else { LinkOpOk(s, op); }
  }

  lemma SimpleKeeps(s: State, op: Op)
    requires WellFormed(s) && ValidOp(op) && Simple(op) && Step(s, op).Accepted()
    ensures WellFormed(Step(s, op).state)
  {
    var s' := Step(s, op).state;
    forall m | m != op.name ensures View(s', m) == View(s, m) { SimpleStep(s, op, m); }
    SimpleDeviceOk(s, op);
    assert op.name in s.links ==> MasterOk(s, op.name) && ParentOk(s, op.name);
    OneDevice(s, s', op.name);
  }

  lemma ConfigureKeeps(s: State, n: Name)
    requires WellFormed(s) && Configure(s, n).Accepted()
    ensures WellFormed(Configure(s, n).state)
  {
    var s' := Configure(s, n).state;
    forall m ensures DeviceOk(View(s', m)) {
      assert DeviceOk(View(s, m));
      assert VlansOf(s', m) == VlansOf(s, m) || exists x :: VlansOf(s', m) == VlansOf(s, m) - {x};
    }
    forall m | m in s'.links ensures MasterOk(s', m) && ParentOk(s', m) {
      assert m in s.links && MasterOk(s, m) && ParentOk(s, m);
    }
  }

  lemma RemovalKeepsDevice(v: Device, n: Name, gone: set<Name>)
    requires DeviceOk(v)
    ensures DeviceOk(Without(v, n, gone))
  {
  }

  lemma RemovalKeepsLink(s: State, s': State, gone: set<Name>, m: Name)
    requires WellFormed(s) && Removes(s, s', gone) && Closed(StackOf(s), gone) && m in s'.links
    ensures MasterOk(s', m) && ParentOk(s', m)
  {
    assert View(s', m) == Without(View(s, m), m, gone);
    assert m in s.links && MasterOk(s, m) && ParentOk(s, m);
    if s'.links[m].master.Some? {
      var b := s'.links[m].master.value;
      assert View(s', b) == Without(View(s, b), b, gone);
    }
    if s'.links[m].kind.Vlan? {
      var p := s'.links[m].kind.parent;
      assert m in StackOf(s) && p !in gone;
      assert View(s', p) == Without(View(s, p), p, gone);
    }
  }

  lemma DeleteKeeps(s: State, n: Name)
    requires WellFormed(s) && Delete(s, n).Accepted()
    ensures WellFormed(Delete(s, n).state)
  {
    var s' := Delete(s, n).state;
    var gone := DeleteFalls(s, n);
    forall m ensures DeviceOk(View(s', m)) {
      assert View(s', m) == Without(View(s, m), m, gone);
      RemovalKeepsDevice(View(s, m), m, gone);
    }
    forall m | m in s'.links ensures MasterOk(s', m) && ParentOk(s', m) { RemovalKeepsLink(s, s', gone, m); }
  }

  /** The in-memory kernel keeps well-formedness under every operation it accepts. */
  lemma StepKeeps(s: State, op: Op)
    requires WellFormed(s) && ValidOp(op) && Step(s, op).Accepted()
    ensures WellFormed(Step(s, op).state)
  {
    if op.ConfigureBridge? { ConfigureKeeps(s, op.name); }
    else if op.DeleteLink? { DeleteKeeps(s, op.name); }
    else { SimpleKeeps(s, op); }
  }

  lemma {:induction false} RunKeeps(s: State, ops: seq<Op>)
    requires WellFormed(s) && (forall op :: op in ops ==> ValidOp(op)) && Run(s, ops).Accepted()
    ensures WellFormed(Run(s, ops).state)
    decreases ops
  {
    if ops != [] {
      StepKeeps(s, ops[0]);
      RunKeeps(Step(s, ops[0]).state, ops[1..]);
    }
  }
}
