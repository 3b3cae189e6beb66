/** When the bridge and the ports lose their addresses in a round. */
module AddressMoves {
  import opened Basics
  import opened Model
  import opened Kernel
  import opened Devices
  import opened Deletion
  import opened Invariant
  import opened Planner
  import opened Matching
  import opened DeviceRuns
  import opened Opening
  import opened Closing
  import opened Round
  import opened Convergence
  import opened Stages
  import opened Transitions

  predicate HasAddress(s: State, n: Name, p: Prefix) { p in AddrsOf(s, n) || p in DhcpOf(s, n) }

  predicate NoVlan(s: State, n: Name) { n in s.links ==> !s.links[n].kind.Vlan? }

  lemma StandsAlone(up: Stack, m: Name, x: Name)
    requires m !in up && m != x
    ensures !RestsOn(up, m, {x})
  {
    forall k: nat ensures !Above(up, m, x, k) { }
  }

  lemma DeleteLeaves(s: State, x: Name, n: Name)
    requires NoVlan(s, n) && n != x && Delete(s, x).Accepted()
    ensures NoVlan(Delete(s, x).state, n) && forall p :: HasAddress(s, n, p) ==> HasAddress(Delete(s, x).state, n, p)
  {
    var gone := DeleteFalls(s, x);
    var up := StackOf(s);
    FallsExactly(up, {x}, gone, n);
    StandsAlone(up, n, x);
    assert View(Delete(s, x).state, n) == Without(View(s, n), n, gone);
  }

  /** A device that is no VLAN link loses an address only if it is removed from it or the device is deleted. */
  lemma AddressGone(s: State, op: Op, n: Name, p: Prefix)
    requires NoVlan(s, n) && Step(s, op).Accepted() && HasAddress(s, n, p) && !HasAddress(Step(s, op).state, n, p)
    ensures op == DelAddress(n, p) || op == DeleteLink(n)
  {
    if op.DeleteLink? && op.name != n { DeleteLeaves(s, op.name, n); }
  }

  lemma KindStays(s: State, op: Op, n: Name)
    requires NoVlan(s, n) && Step(s, op).Accepted() && (op.CreateVlan? ==> op.name != n)
    ensures NoVlan(Step(s, op).state, n)
  {
    if op.DeleteLink? {
      if op.name == n {
        var gone := DeleteFalls(s, n);
        FallsExactly(StackOf(s), {n}, gone, n);
        assert View(Delete(s, n).state, n) == Without(View(s, n), n, gone);
        assert Above(StackOf(s), n, n, 0) && Rests(StackOf(s), n, n);
      } else {
        DeleteLeaves(s, op.name, n);
      }
    }
  }

  lemma {:induction false} KindsStay(s: State, ops: seq<Op>, n: Name)
    requires NoVlan(s, n) && Run(s, ops).Accepted() && forall op :: op in ops && op.CreateVlan? ==> op.name != n
    ensures NoVlan(Run(s, ops).state, n)
    decreases ops
  {
    if ops != [] {
      assert ops[0] in ops;
      KindStays(s, ops[0], n);
      KindsStay(Step(s, ops[0]).state, ops[1..], n);
    }
  }

  // ----- what a round does to the bridge and the ports -----

  lemma OpeningMild(d: Desired, s: State)
    ensures forall op :: op in OpeningOps(d, s) ==>
              Mild(op) || (op.DeleteLink? && ((op.name == BR && RepairOf(s).Replace?) || op.name in StaleLinks(d, s)))
  {
    PlatformMild(s, Names(Platform(s)));
    DeletesListed(Names(StaleLinks(d, s)), StaleLinks(d, s));
    MiddleMild(d, s);
    MildParts(d, s, PlatformOps(s), RepairOps(s), BridgeOps(d, s), Deletes(Names(StaleLinks(d, s))));
  }

  lemma MiddleMild(d: Desired, s: State)
    ensures forall op ::
            op in RepairOps(s) + BridgeOps(d, s) ==> Mild(op) || (op == DeleteLink(BR) && RepairOf(s).Replace?)
  {
  }

  lemma MildParts(d: Desired, s: State, a: seq<Op>, b: seq<Op>, c: seq<Op>, e: seq<Op>)
    requires forall op :: op in a ==> op.SetUp?
    requires forall op :: op in b + c ==> Mild(op) || (op == DeleteLink(BR) && RepairOf(s).Replace?)
    requires forall op :: op in e ==> op.DeleteLink? && op.name in StaleLinks(d, s)
    ensures forall op :: op in a + b + c + e ==>
              Mild(op) || (op.DeleteLink? && ((op.name == BR && RepairOf(s).Replace?) || op.name in StaleLinks(d, s)))
  {
    forall op | op in a + b + c + e
      ensures Mild(op) || (op.DeleteLink? && ((op.name == BR && RepairOf(s).Replace?) || op.name in StaleLinks(d, s)))
    {
      assert op in a || op in b + c || op in e;
    }
  }

  lemma PlatformMild(s: State, ns: seq<Name>)
    ensures forall op :: op in Flat(ns, PutUp(s)) ==> op.SetUp? && op.name in ns
  {
    forall op | op in Flat(ns, PutUp(s)) ensures op.SetUp? && op.name in ns { FlatIn(ns, PutUp(s), op); }
  }

  lemma DeletesListed(ns: seq<Name>, links: set<Name>)
    requires Lists(ns, links)
    ensures forall op :: op in Deletes(ns) ==> op.DeleteLink? && op.name in links
  {
    forall op | op in Deletes(ns) ensures op.DeleteLink? && op.name in links {
      var i :| 0 <= i < |ns| && op == DeleteLink(ns[i]);
      assert ns[i] in ns;
    }
  }

  lemma LeftoversOwned(s: State)
    ensures forall op :: op in LeftoverOps(s) ==> op.DelAddress? && Owned(s, op.name)
  {
    StaticOwned(s, Names(s.addrs.Keys));
    DhcpOwned(s, Names(s.dhcp.Keys));
  }

  lemma StaticOwned(s: State, ns: seq<Name>)
    ensures forall op :: op in Flat(ns, LeftStatic(s)) ==> op.DelAddress? && Owned(s, op.name)
  {
    forall op | op in Flat(ns, LeftStatic(s)) ensures op.DelAddress? && Owned(s, op.name) {
      FlatIn(ns, LeftStatic(s), op);
      var n :| n in ns && op in LeftStatic(s)(n);
      FlatIn(Prefixes(AddrsOf(s, n)), DelAddr(n), op);
    }
  }

  lemma DhcpOwned(s: State, ns: seq<Name>)
    ensures forall op :: op in Flat(ns, LeftDhcp(s)) ==> op.DelAddress? && Owned(s, op.name)
  {
    forall op | op in Flat(ns, LeftDhcp(s)) ensures op.DelAddress? && Owned(s, op.name) {
      FlatIn(ns, LeftDhcp(s), op);
      var n :| n in ns && op in LeftDhcp(s)(n);
      FlatIn(Prefixes(DhcpOf(s, n).Keys), DelAddr(n), op);
    }
  }

  /** The operations of a round on the bridge or a port that make no VLAN link of it, and may take addresses. */
  ghost predicate Expected(s: State, op: Op) {
    && !op.CreateVlan? && (op.DelAddress? ==> Owned(s, op.name))
    && (op.DeleteLink? ==> op.name == BR && RepairOf(s).Replace?)
  }

  lemma RoundExpected(d: Desired, s: State)
    requires BR !in d.svis
    ensures forall op :: op in RoundOps(d, s) && op.name !in d.svis && op.name !in StaleLinks(d, s) ==> Expected(s, op)
  {
    RoundSplits(d, s);
    OpeningMild(d, s);
    BeforeMild(d, s);
    LeftoversOwned(s);
    ExpectedParts(d, s, OpeningOps(d, s), Before(d, s), LeftoverOps(s));
  }

  lemma ExpectedParts(d: Desired, s: State, a: seq<Op>, b: seq<Op>, c: seq<Op>)
    requires forall op :: op in a ==>
               Mild(op) || (op.DeleteLink? && ((op.name == BR && RepairOf(s).Replace?) || op.name in StaleLinks(d, s)))
    requires forall op :: op in b ==> Mild(op) || op.name in d.svis
    requires forall op :: op in c ==> op.DelAddress? && Owned(s, op.name)
    ensures forall op :: op in a + (b + c) && op.name !in d.svis && op.name !in StaleLinks(d, s) ==> Expected(s, op)
  {
  }

  /**
   * An address goes from the bridge or a port only once every SVI has exactly its static addresses,
   * unless it goes with a bridge that is replaced.
   */
  lemma AddressLeaves(d: Desired, s: State, k: nat, n: Name, p: Prefix)
    requires Sound(s) && Free(d, s) && k < |RoundOps(d, s)| && Run(s, RoundOps(d, s)[..k + 1]).Accepted()
    requires (n == BR || IsPort(s, n)) && !(n == BR && RepairOf(s).Replace?)
    requires HasAddress(Run(s, RoundOps(d, s)[..k]).state, n, p)
    requires !HasAddress(Run(s, RoundOps(d, s)[..k + 1]).state, n, p)
    ensures Run(s, RoundOps(d, s)[..k]).Accepted() && RoundOps(d, s)[k] == DelAddress(n, p)
    ensures forall m :: m in d.svis ==> AddrsOf(Run(s, RoundOps(d, s)[..k]).state, m) == d.svis[m].addresses
  {
    var ops := RoundOps(d, s);
    assert n !in d.svis && n !in StaleLinks(d, s) by { assert !Taken(d, s, n); }
    RoundExpected(d, s);
    LastOp(s, ops, k);
    KindsUpTo(s, ops, k, n);
    AddressGone(Run(s, ops[..k]).state, ops[k], n, p);
    assert ops[k] in ops;
    forall m | m in d.svis ensures AddrsOf(Run(s, ops[..k]).state, m) == d.svis[m].addresses
    {
      LeftoversLast(d, s, k, m);
    }
  }

  lemma LastOp(s: State, ops: seq<Op>, k: nat)
    requires k < |ops| && Run(s, ops[..k + 1]).Accepted()
    ensures Run(s, ops[..k]).Accepted() && Run(s, ops[..k + 1]) == Step(Run(s, ops[..k]).state, ops[k])
  {
    TakeStep(ops, k);
    RunAppend(s, ops[..k], [ops[k]]);
  }

  lemma KindsUpTo(s: State, ops: seq<Op>, k: nat, n: Name)
    requires k < |ops| && NoVlan(s, n) && Run(s, ops[..k]).Accepted()
             && forall op :: op in ops && op.name == n ==> !op.CreateVlan?
    ensures NoVlan(Run(s, ops[..k]).state, n)
  {
    assert forall op :: op in ops[..k] ==> op in ops;
    KindsStay(s, ops[..k], n);
  }

  /**
   * A bridge that is replaced takes its addresses with it: right after the platform's links the
   * bridge is deleted, and by then no SVI of the new bridge exists.
   */
  lemma ReplacedLoses(d: Desired, s: State)
    requires Sound(s) && Free(d, s) && RepairOf(s).Replace?
    ensures |PlatformOps(s)| < |RoundOps(d, s)| && RoundOps(d, s)[|PlatformOps(s)|] == DeleteLink(BR)
    ensures Run(s, RoundOps(d, s)[..|PlatformOps(s)| + 1]).Accepted()
    ensures Bare(d, Run(s, RoundOps(d, s)[..|PlatformOps(s)| + 1]).state)
  {
    assert RepairOps(s)[0] == DeleteLink(BR);
    RepairNext(d, s);
    ReplaceDeletes(d, s);
  }

  /** The bridge has no address and no SVI exists. */
  ghost predicate Bare(d: Desired, t: State) {
    (forall p :: !HasAddress(t, BR, p)) && forall m :: m in d.svis ==> m !in t.links
  }

  lemma ReplaceDeletes(d: Desired, s: State)
    requires Free(d, s) && BR in s.links
    ensures Run(s, PlatformOps(s) + [DeleteLink(BR)]).Accepted()
            && Bare(d, Run(s, PlatformOps(s) + [DeleteLink(BR)]).state)
  {
    RunPlatform(s);
    var t := Run(s, PlatformOps(s)).state;
    RunAppend(s, PlatformOps(s), [DeleteLink(BR)]);
    RunOne(t, DeleteLink(BR));
    DeleteBridgeView(s, t);
    var t1 := Delete(t, BR).state;
    forall m | m in d.svis ensures m !in t1.links { SviFalls(d, s, t1, m); }
    assert View(t1, BR).addrs == {} && View(t1, BR).dhcp == map[];
  }

  lemma SviFalls(d: Desired, s: State, t: State, m: Name)
    requires Free(d, s) && m in d.svis && View(t, m) == Without(Raised(s, m), m, Fallen(s, {BR}))
    ensures m !in t.links
  {
    assert !Taken(d, s, m);
    if m in s.links {
      var up := StackOf(s);
      assert Above(up, BR, BR, 0) && Above(up, m, BR, 1);
      assert Rests(up, m, BR) && m in Fallen(s, {BR});
    }
    assert View(t, m).link.None?;
  }
}
