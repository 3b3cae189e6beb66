/**
 * The kernel one device at a time. Most operations read and change only the device
 * they name, so a run of them is, on each device, a run of that device's operations.
 */
module Devices {
  import opened Basics
  import opened Model
  import opened Kernel

  datatype Device = Device(link: Option<Link>, vlans: Table, addrs: set<Prefix>, dhcp: map<Prefix, nat>)

  const BLANK := Device(None, map[], {}, map[])

  function LinkOf(s: State, n: Name): Option<Link> { if n in s.links then Some(s.links[n]) else None }

  /** Everything the kernel knows about `n`. */
  function View(s: State, n: Name): Device { Device(LinkOf(s, n), VlansOf(s, n), AddrsOf(s, n), DhcpOf(s, n)) }

  /** Operations that change one device only, given a configured bridge. */
  predicate Local(op: Op) {
    match op
    case CreateVlan(n, parent, _) => parent == BR && n != BR
    case SetMaster(_, master) => master.Some? ==> master.value == BR
    case CreateBridge(_) => false
    case ConfigureBridge(_) => false
    case DeleteLink(_) => false
    case _ => true
  }

  /** Such an operation on the device alone. */
  function LocalStep(v: Device, op: Op): Option<Device> {
    match op
    case CreateBridge(_) => None
    case ConfigureBridge(_) => None
    case DeleteLink(_) => None
    case SetBridgeStp(_, on) =>
      if v.link.None? || !v.link.value.kind.Bridge? then None else
        Some(v.(link := Some(v.link.value.(kind := v.link.value.kind.(stp := if on then User else Off)))))
    case CreateVlan(_, parent, id) =>
      if v.link.Some? then None else Some(v.(link := Some(Down(Vlan(parent, id)))))
    case SetMaster(_, master) =>
      if v.link.None? then None else Some(v.(link := Some(v.link.value.(master := master)), vlans := map[]))
    case SetUp(_, up) =>
      if v.link.None? then None else Some(v.(link := Some(v.link.value.(up := up))))
    case AddBridgeVlan(_, vid, flags) =>
      if TakesVlans(v) then Some(v.(vlans := Insert(v.vlans, vid, flags))) else None
    case DelBridgeVlan(_, vid) =>
      if vid in v.vlans then Some(v.(vlans := v.vlans - {vid})) else None
    case AddAddress(_, p) =>
      if v.link.None? || p in v.dhcp || p in v.addrs then None else Some(v.(addrs := v.addrs + {p}))
    case DelAddress(_, p) =>
      if p in v.addrs || p in v.dhcp then Some(v.(addrs := v.addrs - {p}, dhcp := v.dhcp - {p})) else None
  }

  predicate TakesVlans(v: Device) {
    v.link.Some? && (v.link.value.kind.Bridge? || v.link.value.master.Some?)
  }

  function RunLocal(v: Device, ops: seq<Op>): Option<Device>
    decreases |ops|
  {
    if ops == [] then Some(v) else
      var r := LocalStep(v, ops[0]);
      if r.None? then None else RunLocal(r.value, ops[1..])
  }

  lemma {:induction false} RunLocalAppend(v: Device, a: seq<Op>, b: seq<Op>)
    ensures RunLocal(v, a + b) == if RunLocal(v, a).Some? then RunLocal(RunLocal(v, a).value, b) else None
    decreases a
  {
    if a == [] {
      assert a + b == b;
    } else {
      assert (a + b)[0] == a[0] && (a + b)[1..] == a[1..] + b;
      var r := LocalStep(v, a[0]);
      if r.Some? { RunLocalAppend(r.value, a[1..], b); }
    }
  }

  /** The operations on device `n`. */
  function On(ops: seq<Op>, n: Name): (r: seq<Op>)
    ensures forall op :: op in r <==> op in ops && op.name == n
    decreases |ops|
  {
    if ops == [] then [] else (if ops[0].name == n then [ops[0]] else []) + On(ops[1..], n)
  }

  lemma {:induction false} OnAppend(a: seq<Op>, b: seq<Op>, n: Name)
    ensures On(a + b, n) == On(a, n) + On(b, n)
    decreases a
  {
    if a == [] {
      assert a + b == b;
    } else {
      assert (a + b)[0] == a[0] && (a + b)[1..] == a[1..] + b;
      OnAppend(a[1..], b, n);
    }
  }

  lemma {:induction false} OnOne(ops: seq<Op>, n: Name)
    requires forall op :: op in ops ==> op.name == n
    ensures On(ops, n) == ops
    decreases ops
  {
    if ops != [] { OnOne(ops[1..], n); }
  }

  lemma {:induction false} OnNone(ops: seq<Op>, n: Name)
    requires forall op :: op in ops ==> op.name != n
    ensures On(ops, n) == []
    decreases ops
  {
    if ops != [] { OnNone(ops[1..], n); }
  }

  /** A loop that emits, for each device of a list, operations on that device. */
  lemma {:induction false} OnFlat(ns: seq<Name>, f: Name -> seq<Op>, n: Name)
    requires forall m, op :: op in f(m) ==> op.name == m
    requires forall i, j :: 0 <= i < j < |ns| ==> ns[i] != ns[j]
    ensures On(Flat(ns, f), n) == if n in ns then f(n) else []
    decreases ns
  {
    if ns != [] {
      OnFlat(ns[1..], f, n);
      OnAppend(f(ns[0]), Flat(ns[1..], f), n);
      if ns[0] == n { OnOne(f(n), n); } else { OnNone(f(ns[0]), n); }
    }
  }

  /** A prefix of a run is, on each device, a prefix of its operations. */
  lemma OnPrefix(ops: seq<Op>, k: nat, n: Name)
    requires k <= |ops|
    ensures |On(ops[..k], n)| <= |On(ops, n)|
    ensures On(ops[..k], n) == On(ops, n)[..|On(ops[..k], n)|]
  {
    assert ops == ops[..k] + ops[k..];
    OnAppend(ops[..k], ops[k..], n);
  }

  /** The bridge takes ports without giving them a default VLAN. */
  predicate Ready(s: State) { IsBridge(s, BR) && s.links[BR].kind.defaultPvid == 0 }

  /** An operation that needs no bridge, or runs once there is one. */
  predicate Safe(s: State, op: Op) { Local(op) && (Ready(s) || op.SetUp?) }

  lemma StepIsLocalAt(s: State, op: Op, n: Name)
    requires Safe(s, op)
    ensures Step(s, op).Accepted() <==> LocalStep(View(s, op.name), op).Some?
    ensures Step(s, op).Accepted() ==>
              View(Step(s, op).state, n) == if n == op.name then LocalStep(View(s, n), op).value else View(s, n)
  {
    if op.CreateVlan? || op.SetMaster? { LinkStepLocal(s, op, n); }
    else if op.AddBridgeVlan? || op.DelBridgeVlan? { VlanStepLocal(s, op, n); }
    else if op.AddAddress? || op.DelAddress? { AddressStepLocal(s, op, n); }
  }

  /** What a step does is what it does to its own device. */
  ghost predicate OwnOnly(s: State, op: Op, n: Name) {
    && (Step(s, op).Accepted() <==> LocalStep(View(s, op.name), op).Some?)
    && (Step(s, op).Accepted() ==>
       View(Step(s, op).state, n) == if n == op.name then LocalStep(View(s, n), op).value else View(s, n))
  }

  lemma LinkStepLocal(s: State, op: Op, n: Name)
    requires Safe(s, op) && (op.CreateVlan? || op.SetMaster?)
    ensures OwnOnly(s, op, n)
  {
  }

  lemma VlanStepLocal(s: State, op: Op, n: Name)
    requires Safe(s, op) && (op.AddBridgeVlan? || op.DelBridgeVlan?)
    ensures OwnOnly(s, op, n)
  {
  }

  lemma AddressStepLocal(s: State, op: Op, n: Name)
    requires Safe(s, op) && (op.AddAddress? || op.DelAddress?)
    ensures OwnOnly(s, op, n)
  {
  }

  lemma StepIsLocal(s: State, op: Op)
    requires Safe(s, op)
    ensures Step(s, op).Accepted() <==> LocalStep(View(s, op.name), op).Some?
    ensures Step(s, op).Accepted() ==>
              forall n ::
                View(Step(s, op).state, n) == if n == op.name then LocalStep(View(s, n), op).value else View(s, n)
    ensures Step(s, op).Accepted() && Ready(s) ==> Ready(Step(s, op).state)
  {
    forall n { StepIsLocalAt(s, op, n); }
    if Step(s, op).Accepted() && Ready(s) {
      assert View(Step(s, op).state, BR) == if BR == op.name then LocalStep(View(s, BR), op).value else View(s, BR);
    }
  }

  lemma RunOn(v: Device, ops: seq<Op>, n: Name)
    requires ops != []
    ensures RunLocal(v, On(ops, n)) ==
            if ops[0].name != n then RunLocal(v, On(ops[1..], n))
            else if LocalStep(v, ops[0]).None? then None
            else RunLocal(LocalStep(v, ops[0]).value, On(ops[1..], n))
  {
    if ops[0].name == n {
      assert On(ops, n)[0] == ops[0] && On(ops, n)[1..] == On(ops[1..], n);
    } else {
      assert On(ops, n) == On(ops[1..], n);
    }
  }

  /** A run of local operations, told device by device. */
  lemma {:induction false} RunByDevice(s: State, ops: seq<Op>)
    requires forall op :: op in ops ==> Safe(s, op)
    ensures Run(s, ops).Accepted() <==> forall n :: RunLocal(View(s, n), On(ops, n)).Some?
    ensures Run(s, ops).Accepted() ==>
              forall n :: View(Run(s, ops).state, n) == RunLocal(View(s, n), On(ops, n)).value
    ensures Run(s, ops).Accepted() && Ready(s) ==> Ready(Run(s, ops).state)
    decreases ops
  {
    if ops != [] {
      var op, rest := ops[0], ops[1..];
      StepIsLocal(s, op);
      var r := Step(s, op);
      if r.Accepted() {
        forall o | o in rest ensures Safe(r.state, o) { assert o in ops && Safe(s, o); }
        RunByDevice(r.state, rest);
        forall n
          ensures RunLocal(View(s, n), On(ops, n)) == RunLocal(View(r.state, n), On(rest, n))
        {
          RunOn(View(s, n), ops, n);
        }
      } else {
        RunOn(View(s, op.name), ops, op.name);
        assert RunLocal(View(s, op.name), On(ops, op.name)).None?;
      }
    }
  }
}
