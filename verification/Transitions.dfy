/**
 * What holds after every single operation of a round, not only at its end: ports keep a
 * PVID, SVIs keep an address, spanning tree is on before ports join.
 */
module Transitions {
  import opened Basics
  import opened Model
  import opened Kernel
  import opened Devices
  import opened Deletion
  import opened Invariant
  import opened Planner
  import opened Matching
  import opened DeviceRuns
  import opened Opening
  import opened Closing
  import opened Round
  import opened Convergence
  import opened Stages

  // ----- part of the way through a run -----

  lemma LocalPart(t: State, ops: seq<Op>, j: nat, m: Name) returns (i: nat)
    requires Ready(t) && j <= |ops| && (forall op :: op in ops ==> Local(op)) && Run(t, ops[..j]).Accepted()
    ensures i <= |On(ops, m)| && On(ops[..j], m) == On(ops, m)[..i]
    ensures RunLocal(View(t, m), On(ops, m)[..i]) == Some(View(Run(t, ops[..j]).state, m))
  {
    assert forall op :: op in ops[..j] ==> op in ops;
    RunByDevice(t, ops[..j]);
    OnPrefix(ops, j, m);
    i := |On(ops[..j], m)|;
  }

  lemma TwoParts(s: State, t: State, a: seq<Op>, b: seq<Op>, k: nat, m: Name) returns (i: nat)
    requires Run(s, a) == Fine(t) && Ready(t) && (forall op :: op in b ==> Local(op))
    requires |a| <= k <= |a| + |b| && Run(s, (a + b)[..k]).Accepted()
    ensures i <= |On(b, m)| && On(b[..k - |a|], m) == On(b, m)[..i]
    ensures RunLocal(View(t, m), On(b, m)[..i]) == Some(View(Run(s, (a + b)[..k]).state, m))
  {
    PrefixOfConcat(a, b, k);
    RunAppend(s, a, b[..k - |a|]);
    i := LocalPart(t, b, k - |a|, m);
  }

  /** A state inside the second part of the round: each device is part of the way through its operations. */
  lemma PartWay(d: Desired, s: State, k: nat, m: Name) returns (i: nat)
    requires Sound(s) && Free(d, s) && |OpeningOps(d, s)| <= k <= |RoundOps(d, s)|
    requires Run(s, RoundOps(d, s)[..k]).Accepted()
    ensures i <= |Mine(d, s, m)|
    ensures RunLocal(Base(d, s, m), Mine(d, s, m)[..i]) == Some(View(Run(s, RoundOps(d, s)[..k]).state, m))
  {
    var t := RunOpening(d, s);
    RoundSplits(d, s);
    TailLocal(d, s);
    OnTail(d, s, m);
    i := TwoParts(s, t, OpeningOps(d, s), TailOps(d, s), k, m);
    assert View(t, m) == Base(d, s, m);
  }

  // ----- ports and kept SVIs while the first part of the round runs -----

  /** They keep their addresses, and all but the default VLAN entry that reconfiguring the bridge drops. */
  lemma DuringOpening(d: Desired, s: State, k: nat, m: Name)
    requires Sound(s) && m in s.links && m != BR && !Fresh(s) && k <= |OpeningOps(d, s)|
    requires IsPort(s, m) || Kept(d, s, m)
    ensures k <= |RoundOps(d, s)|
    ensures var v := View(Run(s, RoundOps(d, s)[..k]).state, m);
            && v.link.Some? && v.link.value.kind == s.links[m].kind
            && v.addrs == AddrsOf(s, m) && v.dhcp == DhcpOf(s, m)
            && (Enslaved(s, m) ==> v.vlans == VlansOf(s, m) || v.vlans == CurVlans(s, m))
  {
    var stage := EarlyStage(d, s, k, m);
    StageKeeps(d, s, m, stage);
  }

  lemma StageKeeps(d: Desired, s: State, m: Name, stage: Stage)
    requires Sound(s) && m in s.links && m != BR && !Fresh(s)
    requires IsPort(s, m) || Kept(d, s, m)
    ensures var v := Passing(d, s, m, stage);
            && v.link.Some? && v.link.value.kind == s.links[m].kind
            && v.addrs == AddrsOf(s, m) && v.dhcp == DhcpOf(s, m)
            && (Enslaved(s, m) ==> v.vlans == VlansOf(s, m) || v.vlans == CurVlans(s, m))
  {
    if stage.LinksDeleted? { LinkKeeps(d, s, m); }
  }

  lemma LinkKeeps(d: Desired, s: State, m: Name)
    requires Sound(s) && m in s.links && m != BR && !Fresh(s) && (IsPort(s, m) || Kept(d, s, m))
    ensures Base(d, s, m) == Repaired(s, m)
  {
    if Kept(d, s, m) { KeptStands(d, s, m); } else { Stands(s, StaleLinks(d, s), m); }
    if s.links[m].master.Some? { MasterStands(s, StaleLinks(d, s), m); }
  }

  // ----- ports keep a PVID -----

  lemma LeftLeavesPvid(s: State, n: Name, q: Vid)
    ensures forall op :: op in Leftovers(s, n) ==> LeavesPvid(op, q)
  {
    forall op | op in Leftovers(s, n) ensures LeavesPvid(op, q) {
      FlatIn(Prefixes(AddrsOf(s, n)), DelAddr(n), op);
      FlatIn(Prefixes(DhcpOf(s, n).Keys), DelAddr(n), op);
    }
  }

  /** A port's operations once it is in the bridge, after its sync. */
  function PortRest(d: Desired, s: State, n: Name): seq<Op>
    requires n in s.links && n in d.ports
  {
    (if s.links[n].up != d.ports[n].enabled then [SetUp(n, d.ports[n].enabled)] else []) + Leftovers(s, n)
  }

  lemma MineSplits(d: Desired, s: State, n: Name)
    requires Sound(s) && Free(d, s) && IsPort(s, n) && n in d.ports && Enslaved(s, n)
    ensures Mine(d, s, n) == SyncOps(n, VlansOf(s, n), PortTable(d.ports[n])) + PortRest(d, s, n)
  {
    MinePort(d, s, n);
    RegroupPort(SyncOps(n, VlansOf(s, n), PortTable(d.ports[n])),
                if s.links[n].up != d.ports[n].enabled then [SetUp(n, d.ports[n].enabled)] else [], Leftovers(s, n));
  }

  lemma RegroupPort<T>(b: seq<T>, c: seq<T>, e: seq<T>)
    ensures [] + b + c + e == b + (c + e)
  {
  }

  /**
   * A port that stays in a bridge that stays, with PVID p before and q wanted: after every
   * operation of the round it has exactly one PVID, p or q, unless p is the default PVID that
   * reconfiguring the bridge drops.
   */
  lemma PvidKept(d: Desired, s: State, k: nat, n: Name, p: Vid, q: Vid)
    requires Sound(s) && Free(d, s) && !Fresh(s) && !Loses(d, s, n)
    requires IsPort(s, n) && Enslaved(s, n) && n in d.ports
    requires Pvids(VlansOf(s, n)) == {p} && d.ports[n].native == Some(q)
    requires k <= |RoundOps(d, s)|
    ensures (forall m :: !Conflict(d, s, m)) ==> Run(s, RoundOps(d, s)[..k]).Accepted()
    ensures Run(s, RoundOps(d, s)[..k]).Accepted() ==>
              var t := VlansOf(Run(s, RoundOps(d, s)[..k]).state, n); Pvids(t) == {p} || Pvids(t) == {q}
  {
    if forall m :: !Conflict(d, s, m) { RoundPrefixAccepted(d, s, k); }
    if k <= |OpeningOps(d, s)| {
      DuringOpening(d, s, k, n);
    } else if Run(s, RoundOps(d, s)[..k]).Accepted() {
      PvidInTail(d, s, k, n, p, q);
    }
  }

  /** Where it is, the port has no PVID right after the bridge is reconfigured. */
  lemma PvidLost(d: Desired, s: State, n: Name, p: Vid)
    requires Sound(s) && Loses(d, s, n) && Pvids(VlansOf(s, n)) == {p}
    ensures p == DroppedPvid(s) && |PlatformOps(s)| < |RoundOps(d, s)|
            && RoundOps(d, s)[|PlatformOps(s)|] == ConfigureBridge(BR)
    ensures Run(s, RoundOps(d, s)[..|PlatformOps(s)| + 1]).Accepted()
    ensures Pvids(VlansOf(Run(s, RoundOps(d, s)[..|PlatformOps(s)| + 1]).state, n)) == {}
  {
    assert RepairOps(s)[0] == ConfigureBridge(BR);
    RepairNext(d, s);
    var t := Reconfigured(s);
    assert View(t, n) == Repaired(s, n);
    assert VlansOf(s, n)[DroppedPvid(s)].pvid;
    assert DroppedPvid(s) in Pvids(VlansOf(s, n));
  }

  lemma Reconfigured(s: State) returns (t: State)
    requires Sound(s) && RepairOf(s).Reconfigure?
    ensures Run(s, PlatformOps(s) + [ConfigureBridge(BR)]) == Fine(t) && forall m :: View(t, m) == Repaired(s, m)
  {
    RunPlatform(s);
    var t1 := Run(s, PlatformOps(s)).state;
    RunConfigure(s, t1);
    RunAppend(s, PlatformOps(s), [ConfigureBridge(BR)]);
    RunOne(t1, ConfigureBridge(BR));
    t := Configure(t1, BR).state;
  }

  lemma RoundPrefixAccepted(d: Desired, s: State, k: nat)
    requires Sound(s) && Free(d, s) && (forall m :: !Conflict(d, s, m)) && k <= |RoundOps(d, s)|
    ensures Run(s, RoundOps(d, s)[..k]).Accepted()
  {
    RunRound(d, s);
    AcceptedPrefix(s, RoundOps(d, s), k);
  }

  lemma PvidInTail(d: Desired, s: State, k: nat, n: Name, p: Vid, q: Vid)
    requires Sound(s) && Free(d, s) && !Loses(d, s, n)
    requires IsPort(s, n) && Enslaved(s, n) && n in d.ports
    requires Pvids(VlansOf(s, n)) == {p} && d.ports[n].native == Some(q)
    requires |OpeningOps(d, s)| <= k <= |RoundOps(d, s)| && Run(s, RoundOps(d, s)[..k]).Accepted()
    ensures var t := VlansOf(Run(s, RoundOps(d, s)[..k]).state, n); Pvids(t) == {p} || Pvids(t) == {q}
  {
    var i := PartWay(d, s, k, n);
    PvidInMine(d, s, n, p, q, i);
  }

  /** What the second part of the round does with a port that stays in the bridge. */
  lemma PortStage(d: Desired, s: State, n: Name, q: Vid) returns (v: Device, rest: seq<Op>, ops: seq<Op>)
    requires Sound(s) && Free(d, s) && !Loses(d, s, n)
    requires IsPort(s, n) && Enslaved(s, n) && n in d.ports
    ensures v == Base(d, s, n) && ops == Mine(d, s, n)
    ensures TakesVlans(v) && v.vlans == VlansOf(s, n)
    ensures ops == SyncOps(n, v.vlans, PortTable(d.ports[n])) + rest
    ensures forall op :: op in rest ==> LeavesPvid(op, q)
  {
    BasePort(d, s, n);
    MineSplits(d, s, n);
    LeftLeavesPvid(s, n, q);
    v, rest, ops := Base(d, s, n), PortRest(d, s, n), Mine(d, s, n);
  }

  lemma PvidInMine(d: Desired, s: State, n: Name, p: Vid, q: Vid, i: nat)
    requires Sound(s) && Free(d, s) && !Loses(d, s, n)
    requires IsPort(s, n) && Enslaved(s, n) && n in d.ports
    requires Pvids(VlansOf(s, n)) == {p} && d.ports[n].native == Some(q)
    requires i <= |Mine(d, s, n)| && RunLocal(Base(d, s, n), Mine(d, s, n)[..i]).Some?
    ensures var t := RunLocal(Base(d, s, n), Mine(d, s, n)[..i]).value.vlans; Pvids(t) == {p} || Pvids(t) == {q}
  {
    var v, rest, ops := PortStage(d, s, n, q);
    PortTablePvid(d.ports[n]);
    PvidDuringSync(v, n, PortTable(d.ports[n]), rest, ops, p, q, i);
  }

  // ----- SVIs keep their addresses -----

  lemma SviStage(d: Desired, s: State, n: Name) returns (v: Device, rest: seq<Op>, ops: seq<Op>)
    requires Sound(s) && Free(d, s) && Kept(d, s, n)
    ensures v == Base(d, s, n) && ops == Mine(d, s, n)
    ensures v.link.Some? && v.addrs == AddrsOf(s, n) && v.dhcp == DhcpOf(s, n) && v.addrs !! v.dhcp.Keys
    ensures ops == AddrOps(n, d.svis[n], v.addrs, v.dhcp) + rest
    ensures forall op :: op in rest ==> !op.DelAddress?
  {
    BaseSvi(d, s, n);
    MineSvi(d, s, n);
    assert DeviceOk(View(s, n));
    v, ops := Base(d, s, n), Mine(d, s, n);
    rest := if s.links[n].up != d.svis[n].enabled then [SetUp(n, d.svis[n].enabled)] else [];
    assert [] + AddrOps(n, d.svis[n], v.addrs, v.dhcp) == AddrOps(n, d.svis[n], v.addrs, v.dhcp);
  }

  /**
   * A kept SVI has, after every operation of the round, all its old or all its wanted static
   * addresses; and if it runs the DHCP client, leases that are not also static are never touched.
   */
  lemma AddressesKept(d: Desired, s: State, k: nat, n: Name)
    requires Sound(s) && Free(d, s) && Kept(d, s, n)
    requires k <= |RoundOps(d, s)| && Run(s, RoundOps(d, s)[..k]).Accepted()
    ensures var t := Run(s, RoundOps(d, s)[..k]).state;
            && (AddrsOf(s, n) <= AddrsOf(t, n) || d.svis[n].addresses <= AddrsOf(t, n))
            && (d.svis[n].dhcpClient ==>
                  forall p :: p in DhcpOf(s, n) && p !in d.svis[n].addresses ==>
                    p in DhcpOf(t, n) && DhcpOf(t, n)[p] == DhcpOf(s, n)[p])
  {
    assert n != BR;
    if k <= |OpeningOps(d, s)| {
      DuringOpening(d, s, k, n);
    } else {
      var i := PartWay(d, s, k, n);
      var v, rest, ops := SviStage(d, s, n);
      AddrsOnTheWay(v, n, d.svis[n], rest, ops, i);
    }
  }

  // ----- leftover addresses go last -----

  /** The round up to the leftovers. */
  function Before(d: Desired, s: State): seq<Op> {
    Flat(Names(s.links.Keys), EachPort(d, s))
    + SyncOps(BR, if Fresh(s) then map[] else VlansOf(s, BR), SelfTable(d))
    + Flat(Names(d.svis.Keys), EachSvi(d, s))
  }

  lemma SvisOwnAddress(d: Desired, s: State, ns: seq<Name>)
    requires BR !in d.svis
    ensures forall op :: op in Flat(ns, EachSvi(d, s)) ==> op.name in d.svis
  {
    forall op | op in Flat(ns, EachSvi(d, s)) ensures op.name in d.svis {
      FlatIn(ns, EachSvi(d, s), op);
      var n :| n in ns && op in EachSvi(d, s)(n);
      SviNames(d, s, n);
    }
  }

  predicate LinkOnly(op: Op) { !op.DelAddress? && !op.SetMaster? }

  lemma OpeningParts(s: State, ns: seq<Name>, ms: seq<Name>)
    ensures forall op :: op in Flat(ns, PutUp(s)) ==> LinkOnly(op)
    ensures forall op :: op in Deletes(ms) ==> LinkOnly(op)
  {
    forall op | op in Flat(ns, PutUp(s)) ensures LinkOnly(op) { FlatIn(ns, PutUp(s), op); }
  }

  lemma OpeningNoAddress(d: Desired, s: State)
    ensures forall op :: op in OpeningOps(d, s) ==> LinkOnly(op)
  {
    OpeningParts(s, Names(Platform(s)), Names(StaleLinks(d, s)));
    assert forall op :: op in RepairOps(s) + BridgeOps(d, s) ==> LinkOnly(op);
  }

  predicate Mild(op: Op) { !op.CreateVlan? && !op.DeleteLink? && !op.DelAddress? }

  /** The second part of the round removes addresses of no device but SVIs, up to the leftovers. */
  lemma BeforeMild(d: Desired, s: State)
    requires BR !in d.svis
    ensures forall op :: op in Before(d, s) ==> Mild(op) || op.name in d.svis
  {
    var have := if Fresh(s) then map[] else VlansOf(s, BR);
    PortsOnly(d, s, Names(s.links.Keys));
    SyncTables(BR, have, SelfTable(d));
    SvisOwnAddress(d, s, Names(d.svis.Keys));
    MildOrSvi(d, Flat(Names(s.links.Keys), EachPort(d, s)), SyncOps(BR, have, SelfTable(d)),
              Flat(Names(d.svis.Keys), EachSvi(d, s)));
  }

  lemma MildOrSvi(d: Desired, a: seq<Op>, b: seq<Op>, c: seq<Op>)
    requires (forall op :: op in a ==> PortOp(op)) && (forall op :: op in b ==> TableOp(op))
    requires forall op :: op in c ==> op.name in d.svis
    ensures forall op :: op in a + b + c ==> Mild(op) || op.name in d.svis
  {
  }

  lemma OnBefore(d: Desired, s: State, n: Name)
    requires Sound(s) && Free(d, s) && n in d.svis
    ensures On(Before(d, s), n) == Mine(d, s, n)
    ensures On(LeftoverOps(s), n) == []
  {
    OnAppend(Before(d, s), LeftoverOps(s), n);
    OnTail(d, s, n);
    OnLeftovers(s, n);
    assert !Taken(d, s, n) && !IsPort(s, n) && n != BR;
    assert !Owned(s, n) && Leftovers(s, n) == [];
    assert On(Before(d, s), n) + [] == On(Before(d, s), n);
  }

  lemma DoneBefore(t: State, a: seq<Op>, b: seq<Op>, j: nat, n: Name)
    requires Ready(t) && j <= |b| && (forall op :: op in a + b ==> Local(op)) && On(b, n) == []
    requires Run(t, a + b[..j]).Accepted()
    ensures RunLocal(View(t, n), On(a, n)) == Some(View(Run(t, a + b[..j]).state, n))
  {
    assert forall op :: op in a + b[..j] ==> op in a + b;
    RunByDevice(t, a + b[..j]);
    OnAppend(a, b[..j], n);
    OnPrefix(b, j, n);
    assert On(a, n) + [] == On(a, n);
  }

  lemma IndexIn<T>(a: seq<T>, b: seq<T>, c: seq<T>, k: nat)
    requires k < |a + b + c|
    ensures k < |a| ==> (a + b + c)[k] in a
    ensures |a| <= k < |a| + |b| ==> (a + b + c)[k] in b
    ensures |a| + |b| <= k ==> (a + b + c)[..k] == a + (b + c[..k - |a| - |b|])
  {
    if k < |a| {
      assert (a + b + c)[k] == a[k];
    } else if k < |a| + |b| {
      assert (a + b + c)[k] == b[k - |a|];
    }
  }

  /** When an address goes from the bridge or a port, every SVI already has exactly its static addresses. */
  lemma LeftoversLast(d: Desired, s: State, k: nat, n: Name)
    requires Sound(s) && Free(d, s) && k < |RoundOps(d, s)| && Run(s, RoundOps(d, s)[..k]).Accepted()
    requires RoundOps(d, s)[k].DelAddress? && Owned(s, RoundOps(d, s)[k].name)
    requires n in d.svis
    ensures AddrsOf(Run(s, RoundOps(d, s)[..k]).state, n) == d.svis[n].addresses
  {
    var op := RoundOps(d, s)[k];
    assert op.name !in d.svis by { assert !Taken(d, s, op.name); }
    OpeningNoAddress(d, s);
    BeforeMild(d, s);
    var t := RunOpening(d, s);
    var j := LeftoversLastIndex(d, s, k);
    RunAppend(s, OpeningOps(d, s), Before(d, s) + LeftoverOps(s)[..j]);
    TailLocal(d, s);
    OnBefore(d, s, n);
    DoneBefore(t, Before(d, s), LeftoverOps(s), j, n);
    FinishSvi(d, s, n);
    assert View(t, n) == Base(d, s, n);
  }

  lemma LeftoversLastIndex(d: Desired, s: State, k: nat) returns (j: nat)
    requires k < |RoundOps(d, s)| && RoundOps(d, s)[k] !in OpeningOps(d, s) && RoundOps(d, s)[k] !in Before(d, s)
    ensures j <= |LeftoverOps(s)|
    ensures RoundOps(d, s)[..k] == OpeningOps(d, s) + (Before(d, s) + LeftoverOps(s)[..j])
  {
    RoundSplits(d, s);
    Join(OpeningOps(d, s), Before(d, s), LeftoverOps(s));
    IndexIn(OpeningOps(d, s), Before(d, s), LeftoverOps(s), k);
    j := k - |OpeningOps(d, s)| - |Before(d, s)|;
  }

  // ----- spanning tree before ports -----

  lemma BridgeLinkStays(d: Desired, s: State, i: nat)
    requires Sound(s) && Free(d, s) && i <= |Mine(d, s, BR)| && RunLocal(Base(d, s, BR), Mine(d, s, BR)[..i]).Some?
    ensures RunLocal(Base(d, s, BR), Mine(d, s, BR)[..i]).value.link == Base(d, s, BR).link
  {
    MineBridge(d, s);
    SyncTables(BR, if Fresh(s) then map[] else VlansOf(s, BR), SelfTable(d));
    LeftTables(s, BR);
    assert forall op :: op in Mine(d, s, BR)[..i] ==> op in Mine(d, s, BR);
    LinkStays(Base(d, s, BR), Mine(d, s, BR)[..i]);
  }

  lemma LeftTables(s: State, n: Name)
    ensures forall op :: op in Leftovers(s, n) ==> TableOrAddress(op)
  {
    forall op | op in Leftovers(s, n) ensures TableOrAddress(op) {
      FlatIn(Prefixes(AddrsOf(s, n)), DelAddr(n), op);
      FlatIn(Prefixes(DhcpOf(s, n).Keys), DelAddr(n), op);
    }
  }

  lemma JoinIsLate(d: Desired, s: State, k: nat)
    requires k < |RoundOps(d, s)| && RoundOps(d, s)[k].SetMaster?
    ensures |OpeningOps(d, s)| <= k && RoundOps(d, s)[k] in TailOps(d, s)
  {
    RoundSplits(d, s);
    OpeningNoAddress(d, s);
    Join(OpeningOps(d, s), TailOps(d, s), []);
    assert TailOps(d, s) + [] == TailOps(d, s);
    IndexIn(OpeningOps(d, s), TailOps(d, s), [], k);
  }

  /** The bridge while ports join. */
  lemma BridgeOnTheWay(d: Desired, s: State, k: nat)
    requires Sound(s) && Free(d, s) && |OpeningOps(d, s)| <= k <= |RoundOps(d, s)|
             && Run(s, RoundOps(d, s)[..k]).Accepted()
    ensures LinkOf(Run(s, RoundOps(d, s)[..k]).state, BR) == Base(d, s, BR).link
  {
    var i := PartWay(d, s, k, BR);
    BridgeLinkStays(d, s, i);
  }

  lemma JoinsTheBridge(d: Desired, s: State, op: Op)
    requires BR !in d.svis && op in TailOps(d, s) && op.SetMaster? && op.master.Some?
    ensures op.master == Some(BR)
  {
    TailLocal(d, s);
  }

  /**
   * When a port joins the bridge, spanning tree is already in the right hands: mstpd's if it is
   * wanted, nobody's if not.
   */
  lemma StpBeforePorts(d: Desired, s: State, k: nat)
    requires Sound(s) && Free(d, s) && k < |RoundOps(d, s)| && Run(s, RoundOps(d, s)[..k]).Accepted()
    requires RoundOps(d, s)[k].SetMaster? && RoundOps(d, s)[k].master.Some?
    ensures RoundOps(d, s)[k].master == Some(BR)
    ensures var t := Run(s, RoundOps(d, s)[..k]).state;
            IsBridge(t, BR) && t.links[BR].kind.stp == (if d.stp.Some? then User else Off)
  {
    JoinIsLate(d, s, k);
    JoinsTheBridge(d, s, RoundOps(d, s)[k]);
    BridgeOnTheWay(d, s, k);
    BaseBridge(d, s);
  }
}
