/** Whether an SVI has an address before, during and after its turn in a round. */
module SviTurns {
  import opened Basics
  import opened Model
  import opened Kernel
  import opened Devices
  import opened Deletion
  import opened Invariant
  import opened Planner
  import opened Matching
  import opened DeviceRuns
  import opened Opening
  import opened Closing
  import opened Round
  import opened Transitions

  predicate Addressed(s: State, n: Name) { AddrsOf(s, n) != {} || DhcpOf(s, n) != map[] }

  predicate HasAny(v: Device) { v.addrs != {} || v.dhcp != map[] }

  // ----- operations on one device -----

  predicate AddressOp(op: Op) { op.AddAddress? || op.DelAddress? || op.SetUp? }

  lemma {:induction false} KindLocal(v: Device, ops: seq<Op>)
    requires (forall op :: op in ops ==> AddressOp(op)) && RunLocal(v, ops).Some? && v.link.Some?
    ensures var w := RunLocal(v, ops).value; w.link.Some? && w.link.value.kind == v.link.value.kind
    decreases ops
  {
    if ops != [] {
      assert ops[0] in ops;
      KindLocal(LocalStep(v, ops[0]).value, ops[1..]);
    }
  }

  lemma {:induction false} AddrsLocal(v: Device, ops: seq<Op>)
    requires (forall op :: op in ops ==> PortOp(op)) && RunLocal(v, ops).Some?
    ensures var w := RunLocal(v, ops).value; w.addrs == v.addrs && w.dhcp == v.dhcp
    decreases ops
  {
    if ops != [] {
      assert ops[0] in ops;
      AddrsLocal(LocalStep(v, ops[0]).value, ops[1..]);
    }
  }

  // ----- the turn of a kept SVI -----

  /** Its only address is a lease, and that becomes static first. */
  predicate SwapsOn(v: Device, svi: Svi) {
    v.addrs == {} && svi.addresses != {} && v.dhcp.Keys == {Prefixes(svi.addresses)[0]}
  }

  predicate EndsWith(v: Device, svi: Svi) { svi.addresses != {} || (svi.dhcpClient && v.dhcp != map[]) }

  /** The first new address, where there is no static one yet. */
  lemma FirstAdd(dev: Name, svi: Svi, dhcp: map<Prefix, nat>, rest: seq<Op>, ops: seq<Op>)
    returns (p: Prefix, tail: seq<Op>)
    requires svi.addresses != {} && ops == AddrOps(dev, svi, {}, dhcp) + rest
    requires forall op :: op in rest ==> !op.DelAddress?
    ensures p == Prefixes(svi.addresses)[0] && p in svi.addresses
    ensures ops == AddAddr(dev, dhcp)(p) + tail && Guarded(tail, {p})
  {
    var adds := Prefixes(svi.addresses - {});
    assert svi.addresses - {} == svi.addresses;
    assert adds != [] by { assert exists q :: q in svi.addresses; }
    p := adds[0];
    assert p in adds;
    tail := Flat(adds[1..], AddAddr(dev, dhcp)) + (AddrTail(dev, svi, {}, dhcp) + rest);
    AddrOpsSplit(dev, svi, {}, dhcp);
    FourJoin(AddAddr(dev, dhcp)(p), Flat(adds[1..], AddAddr(dev, dhcp)), AddrTail(dev, svi, {}, dhcp), rest);
    AddsGuarded(dev, adds[1..], dhcp, {p});
    AddrTailGuarded(dev, svi, {}, dhcp);
  }

  lemma FourJoin<T>(a: seq<T>, b: seq<T>, c: seq<T>, e: seq<T>)
    ensures a + b + c + e == a + (b + (c + e))
  {
  }

  /** From leases alone to static addresses: there is an address throughout unless the only lease is swapped. */
  lemma LeasesThroughout(v: Device, dev: Name, svi: Svi, rest: seq<Op>, ops: seq<Op>, j: nat)
    requires v.link.Some? && v.addrs == {} && v.dhcp != map[] && svi.addresses != {} && !SwapsOn(v, svi)
    requires ops == AddrOps(dev, svi, {}, v.dhcp) + rest && forall op :: op in rest ==> !op.DelAddress?
    requires j <= |ops| && RunLocal(v, ops[..j]).Some?
    ensures HasAny(RunLocal(v, ops[..j]).value)
  {
    var p, tail := FirstAdd(dev, svi, v.dhcp, rest, ops);
    var head := AddAddr(dev, v.dhcp)(p);
    if j < |head| {
      HeadPart(v, dev, p, tail, ops, j);
    } else {
      assert ops[..j] == head + tail[..j - |head|];
      RunLocalAppend(v, head, tail[..j - |head|]);
      AfterHead(v, dev, p);
      assert forall op :: op in tail[..j - |head|] ==> op in tail;
      GuardedStay(RunLocal(v, head).value, tail[..j - |head|], {p});
    }
  }

  lemma AfterHead(v: Device, dev: Name, p: Prefix)
    requires v.link.Some? && RunLocal(v, AddAddr(dev, v.dhcp)(p)).Some?
    ensures p in RunLocal(v, AddAddr(dev, v.dhcp)(p)).value.addrs
  {
    if p in v.dhcp {
      assert AddAddr(dev, v.dhcp)(p) == [DelAddress(dev, p)] + [AddAddress(dev, p)];
      RunLocalAppend(v, [DelAddress(dev, p)], [AddAddress(dev, p)]);
      OneLocal(v, DelAddress(dev, p));
      OneLocal(LocalStep(v, DelAddress(dev, p)).value, AddAddress(dev, p));
    } else {
      assert AddAddr(dev, v.dhcp)(p) == [AddAddress(dev, p)];
      OneLocal(v, AddAddress(dev, p));
    }
  }

  lemma OneLocal(v: Device, op: Op)
    ensures RunLocal(v, [op]) == LocalStep(v, op)
  {
  }

  lemma HeadPart(v: Device, dev: Name, p: Prefix, tail: seq<Op>, ops: seq<Op>, j: nat)
    requires ops == AddAddr(dev, v.dhcp)(p) + tail && j < |AddAddr(dev, v.dhcp)(p)|
    requires v.dhcp.Keys != {p} && v.dhcp != map[] && RunLocal(v, ops[..j]).Some?
    ensures HasAny(RunLocal(v, ops[..j]).value)
  {
    if j == 0 {
      assert ops[..0] == [];
    } else {
      assert ops[..1] == [DelAddress(dev, p)];
      OneLocal(v, DelAddress(dev, p));
      var q :| q in v.dhcp && q != p;
      assert q in v.dhcp - {p};
    }
  }

  /** An SVI that has an address and will have one has one throughout, unless its only lease is swapped. */
  lemma TurnThroughout(v: Device, dev: Name, svi: Svi, rest: seq<Op>, ops: seq<Op>, j: nat)
    requires v.link.Some? && v.addrs !! v.dhcp.Keys && HasAny(v) && EndsWith(v, svi) && !SwapsOn(v, svi)
    requires ops == AddrOps(dev, svi, v.addrs, v.dhcp) + rest && forall op :: op in rest ==> !op.DelAddress?
    requires j <= |ops| && RunLocal(v, ops[..j]).Some?
    ensures HasAny(RunLocal(v, ops[..j]).value)
  {
    if v.addrs == {} && svi.addresses != {} {
      LeasesThroughout(v, dev, svi, rest, ops, j);
    } else {
      AddrsOnTheWay(v, dev, svi, rest, ops, j);
      LeaseLeft(v, svi, RunLocal(v, ops[..j]).value);
    }
  }

  lemma LeaseLeft(v: Device, svi: Svi, w: Device)
    requires HasAny(v) && EndsWith(v, svi) && (v.addrs != {} || svi.addresses == {})
    requires v.addrs <= w.addrs || svi.addresses <= w.addrs
    requires svi.dhcpClient ==> forall p :: p in v.dhcp && p !in svi.addresses ==> p in w.dhcp && w.dhcp[p] == v.dhcp[p]
    ensures HasAny(w)
  {
    if svi.addresses == {} {
      assert v.dhcp != map[] ==> exists p :: p in v.dhcp;
    } else if v.addrs <= w.addrs {
      assert exists p :: p in v.addrs;
    } else {
      assert exists p :: p in svi.addresses;
    }
  }

  /** Where it is swapped, it is gone after the first operation. */
  lemma SwapGap(v: Device, dev: Name, svi: Svi, rest: seq<Op>, ops: seq<Op>)
    requires v.link.Some? && SwapsOn(v, svi)
    requires ops == AddrOps(dev, svi, v.addrs, v.dhcp) + rest && forall op :: op in rest ==> !op.DelAddress?
    ensures |ops| >= 1 && RunLocal(v, ops[..1]).Some? && !HasAny(RunLocal(v, ops[..1]).value)
  {
    var p, tail := FirstAdd(dev, svi, v.dhcp, rest, ops);
    assert p in v.dhcp.Keys && ops[..1] == [DelAddress(dev, p)];
    OneLocal(v, DelAddress(dev, p));
    assert v.dhcp - {p} == map[];
  }

  // ----- before, during and after the turn -----

  /** It is kept with an address. */
  predicate Old(d: Desired, s: State, n: Name) { Kept(d, s, n) && Addressed(s, n) }

  /** It will have an address. */
  predicate New(d: Desired, s: State, n: Name) {
    n in d.svis && (d.svis[n].addresses != {} || (Kept(d, s, n) && d.svis[n].dhcpClient && DhcpOf(s, n) != map[]))
  }

  /** Its only address is a lease, and that becomes static first. */
  predicate Swaps(d: Desired, s: State, n: Name)
    requires n in d.svis
  {
    SwapsOn(View(s, n), d.svis[n])
  }

  lemma SviStart(d: Desired, s: State, n: Name)
    requires Sound(s) && Free(d, s) && n in d.svis
    ensures HasAny(Base(d, s, n)) <==> Old(d, s, n)
    ensures Old(d, s, n) ==> Base(d, s, n).link.Some? && Base(d, s, n).link.value.kind == s.links[n].kind
  {
    BaseSvi(d, s, n);
  }

  lemma SviEnd(d: Desired, s: State, n: Name)
    requires Sound(s) && Free(d, s) && n in d.svis
    ensures RunLocal(Base(d, s, n), SviOps(d, s, n)).Some?
    ensures HasAny(RunLocal(Base(d, s, n), SviOps(d, s, n)).value) <==> New(d, s, n)
    ensures RunLocal(Base(d, s, n), SviOps(d, s, n)).value.link.Some?
    ensures RunLocal(Base(d, s, n), SviOps(d, s, n)).value.link.value.kind == Vlan(BR, d.svis[n].vlan)
  {
    MineSvi(d, s, n);
    FinishSvi(d, s, n);
    EndHas(Base(d, s, n), d.svis[n], RunLocal(Base(d, s, n), SviOps(d, s, n)).value);
    EndsIff(d, s, n);
  }

  lemma EndHas(v: Device, svi: Svi, w: Device)
    requires w.addrs == svi.addresses && w.dhcp == if svi.dhcpClient then v.dhcp - svi.addresses else map[]
    ensures HasAny(w) <==> EndsWith(v, svi)
  {
    if svi.addresses == {} { assert v.dhcp - {} == v.dhcp; }
  }

  lemma EndsIff(d: Desired, s: State, n: Name)
    requires Sound(s) && Free(d, s) && n in d.svis
    ensures EndsWith(Base(d, s, n), d.svis[n]) <==> New(d, s, n)
  {
    BaseSvi(d, s, n);
  }

  lemma SviMiddle(d: Desired, s: State, n: Name, i: nat)
    requires Sound(s) && Free(d, s) && Old(d, s, n) && New(d, s, n) && !Swaps(d, s, n)
    requires i <= |SviOps(d, s, n)| && RunLocal(Base(d, s, n), SviOps(d, s, n)[..i]).Some?
    ensures var w := RunLocal(Base(d, s, n), SviOps(d, s, n)[..i]).value;
            HasAny(w) && w.link.Some? && w.link.value.kind == s.links[n].kind
  {
    BaseSvi(d, s, n);
    MineSvi(d, s, n);
    var v, rest, ops := SviStage(d, s, n);
    TurnThroughout(v, n, d.svis[n], rest, ops, i);
    TurnOps(d, s, n, i);
    KindLocal(v, ops[..i]);
  }

  lemma TurnOps(d: Desired, s: State, n: Name, i: nat)
    requires Kept(d, s, n) && i <= |SviOps(d, s, n)|
    ensures forall op :: op in SviOps(d, s, n)[..i] ==> AddressOp(op)
  {
    AddrsOnly(n, d.svis[n], AddrsOf(s, n), DhcpOf(s, n));
    assert forall op :: op in SviOps(d, s, n)[..i] ==> op in SviOps(d, s, n);
  }

  lemma SviSwap(d: Desired, s: State, n: Name)
    requires Sound(s) && Free(d, s) && Kept(d, s, n) && Swaps(d, s, n)
    ensures |SviOps(d, s, n)| >= 1 && RunLocal(Base(d, s, n), SviOps(d, s, n)[..1]).Some?
    ensures !HasAny(RunLocal(Base(d, s, n), SviOps(d, s, n)[..1]).value)
  {
    BaseSvi(d, s, n);
    MineSvi(d, s, n);
    var v, rest, ops := SviStage(d, s, n);
    SwapGap(v, n, d.svis[n], rest, ops);
  }
}
