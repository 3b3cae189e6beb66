/** Whether the switch has an address throughout a round (crates/switch-net/src/plan.rs). */
module Reachability {
  import opened Basics
  import opened Model
  import opened Kernel
  import opened Devices
  import opened Deletion
  import opened Invariant
  import opened Planner
  import opened Matching
  import opened DeviceRuns
  import opened Opening
  import opened Closing
  import opened Round
  import opened Convergence
  import opened Stages
  import opened Transitions
  import opened AddressMoves
  import opened SviTurns
  import opened TailSpots

  /** The bridge, the ports and the VLAN links of the bridge. */
  predicate Managed(t: State, n: Name) { n == BR || IsPort(t, n) || IsChild(t, n, BR) }

  /** One of them has an address, static or leased. */
  ghost predicate Reachable(t: State) { exists n :: Managed(t, n) && Addressed(t, n) }

  ghost predicate ReachableAt(d: Desired, s: State, k: nat)
    requires k <= |RoundOps(d, s)|
  {
    Run(s, RoundOps(d, s)[..k]).Accepted() ==> Reachable(Run(s, RoundOps(d, s)[..k]).state)
  }

  /** So it is after every operation of the round that the kernel accepts, and before the first. */
  ghost predicate StaysReachable(d: Desired, s: State) {
    forall k: nat :: k <= |RoundOps(d, s)| ==> ReachableAt(d, s, k)
  }

  // ----- the condition -----

  /** A port, or a bridge that is not created anew, has an address, which goes last. */
  predicate Anchor(s: State, n: Name) { Owned(s, n) && Addressed(s, n) }

  /**
   * SVI `a` has an address that lasts until SVI `b` has one: `b` has its turn before `a`, or they are
   * the same and its one lease is not swapped.
   */
  predicate Hands(d: Desired, s: State, a: Name, b: Name) {
    Old(d, s, a) && New(d, s, b) && if a == b then !Swaps(d, s, a) else StringLe(b.text, a.text)
  }

  ghost predicate SomeAnchor(s: State) { exists n :: Anchor(s, n) }
  ghost predicate SomeOld(d: Desired, s: State) { exists n :: Old(d, s, n) }
  ghost predicate SomeNew(d: Desired, s: State) { exists n :: New(d, s, n) }
  ghost predicate SomeHands(d: Desired, s: State) { exists a, b :: Hands(d, s, a, b) }
  ghost predicate SomeConflict(d: Desired, s: State) { exists n :: Conflict(d, s, n) }

  /** A round that ends in a conflict does not get as far as the SVIs. */
  ghost predicate Covered(d: Desired, s: State) {
    if SomeConflict(d, s) then SomeAnchor(s) || SomeOld(d, s)
    else (SomeAnchor(s) && SomeNew(d, s)) || SomeHands(d, s)
  }

  // ----- addresses of the bridge and the ports -----

  lemma DeleteKeepsPort(s: State, x: Name, n: Name)
    requires IsPort(s, n) && n != x && Delete(s, x).Accepted()
    ensures IsPort(Delete(s, x).state, n)
  {
    var gone := DeleteFalls(s, x);
    FallsExactly(StackOf(s), {x}, gone, n);
    StandsAlone(StackOf(s), n, x);
    assert View(Delete(s, x).state, n) == Without(View(s, n), n, gone);
  }

  lemma StepKeepsPort(s: State, op: Op, n: Name)
    requires IsPort(s, n) && Step(s, op).Accepted() && op != DeleteLink(n)
    ensures IsPort(Step(s, op).state, n)
  {
    if op.DeleteLink? { DeleteKeepsPort(s, op.name, n); }
  }

  /** Operations that neither delete the device nor take the address, nor make a VLAN link of it. */
  predicate Leaves(op: Op, n: Name, p: Prefix) {
    op != DeleteLink(n) && op != DelAddress(n, p) && !(op.CreateVlan? && op.name == n)
  }

  lemma {:induction false} AddressStays(s: State, ops: seq<Op>, n: Name, p: Prefix)
    requires NoVlan(s, n) && HasAddress(s, n, p) && Run(s, ops).Accepted()
    requires forall op :: op in ops ==> Leaves(op, n, p)
    ensures HasAddress(Run(s, ops).state, n, p)
    ensures IsPort(s, n) ==> IsPort(Run(s, ops).state, n)
    decreases ops
  {
    if ops != [] {
      var op, s' := ops[0], Step(s, ops[0]).state;
      assert op in ops;
      if !HasAddress(s', n, p) { AddressGone(s, op, n, p); }
      KindStays(s, op, n);
      if IsPort(s, n) { StepKeepsPort(s, op, n); }
      AddressStays(s', ops[1..], n, p);
    }
  }

  /** Until the leftovers, an anchor keeps its addresses. */
  lemma AnchorHolds(d: Desired, s: State, k: nat, n: Name, ops: seq<Op>)
    requires Sound(s) && Free(d, s) && Anchor(s, n) && ops == RoundOps(d, s)
    requires k <= |OpeningOps(d, s)| + |Before(d, s)| && k <= |ops| && Run(s, ops[..k]).Accepted()
    ensures Reachable(Run(s, ops[..k]).state)
  {
    var p := AnyAddress(s, n);
    forall op | op in ops[..k] ensures Leaves(op, n, p) { EarlyLeaves(d, s, k, n, p, op, ops); }
    AddressStays(s, ops[..k], n, p);
    var t := Run(s, ops[..k]).state;
    assert Managed(t, n) && Addressed(t, n);
  }

  lemma AnyAddress(s: State, n: Name) returns (p: Prefix)
    requires Addressed(s, n)
    ensures HasAddress(s, n, p)
  {
    if AddrsOf(s, n) != {} { p :| p in AddrsOf(s, n); } else { p :| p in DhcpOf(s, n); }
  }

  lemma EarlyLeaves(d: Desired, s: State, k: nat, n: Name, p: Prefix, op: Op, ops: seq<Op>)
    requires Sound(s) && Free(d, s) && Owned(s, n) && ops == RoundOps(d, s)
    requires k <= |OpeningOps(d, s)| + |Before(d, s)| && k <= |ops| && op in ops[..k]
    ensures Leaves(op, n, p)
  {
    assert n !in d.svis && n !in StaleLinks(d, s) by { assert !Taken(d, s, n); }
    assert !(n == BR && RepairOf(s).Replace?);
    OpeningMild(d, s);
    BeforeMild(d, s);
    EarlyOps(d, s, k, op, ops);
  }

  lemma EarlyOps(d: Desired, s: State, k: nat, op: Op, ops: seq<Op>)
    requires ops == RoundOps(d, s) && k <= |OpeningOps(d, s)| + |Before(d, s)| && k <= |ops| && op in ops[..k]
    ensures op in OpeningOps(d, s) || op in Before(d, s)
  {
    RoundSplits(d, s);
    InFirst(OpeningOps(d, s), Before(d, s), LeftoverOps(s), k, op);
  }

  lemma InFirst<T>(a: seq<T>, b: seq<T>, c: seq<T>, k: nat, x: T)
    requires k <= |a| + |b| && x in (a + (b + c))[..k]
    ensures x in a || x in b
  {
    var i :| 0 <= i < k && (a + (b + c))[i] == x;
    if i < |a| { assert a[i] == x; } else { assert b[i - |a|] == x; }
  }

  // ----- SVIs -----

  /** The kernel is as the operations `ops` of the second part leave it. */
  ghost predicate AtTail(d: Desired, s: State, ops: seq<Op>, t: State) { forall m :: DeviceAt(d, s, ops, t, m) }

  ghost predicate DeviceAt(d: Desired, s: State, ops: seq<Op>, t: State, m: Name) {
    RunLocal(Base(d, s, m), On(ops, m)) == Some(View(t, m))
  }

  lemma OldReach(d: Desired, s: State, ops: seq<Op>, t: State, n: Name)
    requires Sound(s) && Free(d, s) && AtTail(d, s, ops, t) && Old(d, s, n) && On(ops, n) == []
    ensures Reachable(t)
  {
    SviStart(d, s, n);
    assert View(t, n) == Base(d, s, n) by { assert DeviceAt(d, s, ops, t, n); }
    assert Managed(t, n) && Addressed(t, n);
  }

  lemma NewReach(d: Desired, s: State, ops: seq<Op>, t: State, n: Name)
    requires Sound(s) && Free(d, s) && AtTail(d, s, ops, t) && New(d, s, n) && On(ops, n) == SviOps(d, s, n)
    ensures Reachable(t)
  {
    SviEnd(d, s, n);
    assert DeviceAt(d, s, ops, t, n);
    assert Managed(t, n) && Addressed(t, n);
  }

  lemma MiddleReach(d: Desired, s: State, ops: seq<Op>, t: State, n: Name, i: nat)
    requires Sound(s) && Free(d, s) && AtTail(d, s, ops, t) && Old(d, s, n) && New(d, s, n) && !Swaps(d, s, n)
    requires i <= |SviOps(d, s, n)| && On(ops, n) == SviOps(d, s, n)[..i]
    ensures Reachable(t)
  {
    assert DeviceAt(d, s, ops, t, n);
    SviMiddle(d, s, n, i);
    assert Managed(t, n) && Addressed(t, n);
  }

  /** Sorted, distinct names: who is before whom. */
  lemma Places(d: Desired, a: Name, b: Name) returns (x: nat, y: nat)
    requires a in d.svis && b in d.svis
    ensures x < |Svis(d)| && y < |Svis(d)| && Svis(d)[x] == a && Svis(d)[y] == b
    ensures a != b && StringLe(b.text, a.text) ==> y < x
    ensures y < x ==> StringLe(b.text, a.text)
  {
    assert a in Svis(d) && b in Svis(d);
    x :| 0 <= x < |Svis(d)| && Svis(d)[x] == a;
    y :| 0 <= y < |Svis(d)| && Svis(d)[y] == b;
    SvisSorted(d);
    StringLeTotal(a.text, b.text);
  }

  lemma SvisSorted(d: Desired)
    ensures forall i, j :: 0 <= i < j < |Svis(d)| ==> StringLe(Svis(d)[i].text, Svis(d)[j].text)
  {
    NameOrder();
  }

  /** While the SVIs have their turns. */
  lemma HandsReach(d: Desired, s: State, q: nat, i: nat, ops: seq<Op>, t: State, a: Name, b: Name)
    requires Sound(s) && Free(d, s) && AtTail(d, s, ops, t) && Hands(d, s, a, b)
    requires q <= |Svis(d)| && (q < |Svis(d)| ==> i <= |SviOps(d, s, Svis(d)[q])|) && ops == Spot(d, s, q, i)
    ensures Reachable(t)
  {
    var x, y := Places(d, a, b);
    OnSpot(d, s, q, i, x);
    OnSpot(d, s, q, i, y);
    if a == b {
      var j := if x < q then |SviOps(d, s, a)| else if x == q then i else 0;
      TakeAll(SviOps(d, s, a));
      TakeNone(SviOps(d, s, a));
      MiddleReach(d, s, ops, t, a, j);
    } else if x < q || (x == q && i > 0) {
      NewReach(d, s, ops, t, b);
    } else {
      if x == q { TakeNone(SviOps(d, s, a)); }
      OldReach(d, s, ops, t, a);
    }
  }

  // ----- where it is covered -----

  /** `o`, `w` and `ops` are the two parts of the round and the round. */
  ghost predicate Parts(d: Desired, s: State, o: seq<Op>, w: seq<Op>, ops: seq<Op>) {
    o == OpeningOps(d, s) && w == TailOps(d, s) && ops == RoundOps(d, s)
  }

  lemma PartsFit(d: Desired, s: State, o: seq<Op>, w: seq<Op>, ops: seq<Op>)
    requires Parts(d, s, o, w, ops)
    ensures |o| + |w| == |ops|
  {
    TailFits(d, s);
  }

  /** The kernel after `k` operations, told by those of the second part. */
  lemma TailState(d: Desired, s: State, k: nat, o: seq<Op>, w: seq<Op>, ops: seq<Op>)
    returns (j: nat, done: seq<Op>, t: State)
    requires Sound(s) && Free(d, s) && Parts(d, s, o, w, ops)
    requires |o| <= k <= |ops| && Run(s, ops[..k]).Accepted()
    ensures j == k - |o| && j <= |w| && done == w[..j] && t == Run(s, ops[..k]).state && AtTail(d, s, done, t)
  {
    PartsFit(d, s, o, w, ops);
    j := k - |o|;
    t, done := Run(s, ops[..k]).state, w[..j];
    StateOf(d, s, k, done, t, o, w, ops);
  }

  lemma StateOf(d: Desired, s: State, k: nat, done: seq<Op>, t: State, o: seq<Op>, w: seq<Op>, ops: seq<Op>)
    requires Sound(s) && Free(d, s) && Parts(d, s, o, w, ops)
    requires |o| <= k <= |ops| && k - |o| <= |w| && done == w[..k - |o|]
    requires Run(s, ops[..k]).Accepted() && t == Run(s, ops[..k]).state
    ensures AtTail(d, s, done, t)
  {
    forall m ensures DeviceAt(d, s, done, t, m) { TailView(d, s, k, m, o, w, ops); }
  }

  lemma OldEarly(d: Desired, s: State, k: nat, n: Name, ops: seq<Op>)
    requires Sound(s) && Free(d, s) && ops == RoundOps(d, s) && k <= |OpeningOps(d, s)| && k <= |ops| && Old(d, s, n)
    ensures Reachable(Run(s, ops[..k]).state)
  {
    assert n != BR;
    DuringOpening(d, s, k, n);
    StillThere(s, Run(s, ops[..k]).state, n);
  }

  lemma StillThere(s: State, t: State, n: Name)
    requires IsChild(s, n, BR) && Addressed(s, n)
    requires View(t, n).link.Some? && View(t, n).link.value.kind == s.links[n].kind
    requires AddrsOf(t, n) == AddrsOf(s, n) && DhcpOf(t, n) == DhcpOf(s, n)
    ensures Reachable(t)
  {
    assert Managed(t, n) && Addressed(t, n);
  }

  lemma OnEarly(d: Desired, s: State, j: nat, n: Name, w: seq<Op>)
    requires Sound(s) && Free(d, s) && n in d.svis && w == TailOps(d, s) && j <= |PortPart(d, s)|
    ensures j <= |w| && On(w[..j], n) == []
  {
    PrefixOfThree(PortPart(d, s), Flat(Svis(d), EachSvi(d, s)), LeftoverOps(s), j);
    OnPortPart(d, s, n);
    OnPrefix(PortPart(d, s), j, n);
  }

  lemma PrefixOfThree<T>(a: seq<T>, b: seq<T>, c: seq<T>, j: nat)
    requires j <= |a|
    ensures j <= |a + b + c| && (a + b + c)[..j] == a[..j]
  {
  }

  lemma OnLate(d: Desired, s: State, j: nat, n: Name, w: seq<Op>)
    requires Sound(s) && Free(d, s) && n in d.svis && w == TailOps(d, s) && |Before(d, s)| <= j <= |w|
    ensures On(w[..j], n) == SviOps(d, s, n)
  {
    OnBefore(d, s, n);
    MineSvi(d, s, n);
    LateOn(Before(d, s), LeftoverOps(s), j, n);
  }

  lemma LateOn(a: seq<Op>, b: seq<Op>, j: nat, n: Name)
    requires On(b, n) == [] && |a| <= j <= |a + b|
    ensures On((a + b)[..j], n) == On(a, n)
  {
    PrefixOfConcat(a, b, j);
    OnAppend(a, b[..j - |a|], n);
    OnPrefix(b, j - |a|, n);
    assert On(a, n) + [] == On(a, n);
  }

  /** An address of an SVI is there until the first turn of one. */
  lemma OldUntilTurns(d: Desired, s: State, k: nat, n: Name, o: seq<Op>, w: seq<Op>, ops: seq<Op>)
    requires Sound(s) && Free(d, s) && Parts(d, s, o, w, ops)
    requires Old(d, s, n) && k <= |o| + |PortPart(d, s)| && k <= |ops| && Run(s, ops[..k]).Accepted()
    ensures Reachable(Run(s, ops[..k]).state)
  {
    if k <= |o| {
      OldEarly(d, s, k, n, ops);
    } else {
      OldInTail(d, s, k, n, o, PortPart(d, s), w, ops);
    }
  }

  lemma OldInTail(d: Desired, s: State, k: nat, n: Name, o: seq<Op>, p: seq<Op>, w: seq<Op>, ops: seq<Op>)
    requires Sound(s) && Free(d, s) && Parts(d, s, o, w, ops)
    requires Old(d, s, n) && p == PortPart(d, s) && |o| <= k <= |o| + |p| && k <= |ops| && Run(s, ops[..k]).Accepted()
    ensures Reachable(Run(s, ops[..k]).state)
  {
    var j, done, t := TailState(d, s, k, o, w, ops);
    OldInPorts(d, s, j, n, p, w, done, t);
  }

  lemma OldInPorts(d: Desired, s: State, j: nat, n: Name, p: seq<Op>, w: seq<Op>, done: seq<Op>, t: State)
    requires Sound(s) && Free(d, s) && p == PortPart(d, s) && w == TailOps(d, s) && Old(d, s, n)
    requires j <= |p| && j <= |w| && done == w[..j] && AtTail(d, s, done, t)
    ensures Reachable(t)
  {
    OnEarly(d, s, j, n, w);
    OldReach(d, s, done, t, n);
  }

  /** One that an SVI will have is there from the leftovers on. */
  lemma NewAfterTurns(d: Desired, s: State, k: nat, n: Name, o: seq<Op>, w: seq<Op>, ops: seq<Op>)
    requires Sound(s) && Free(d, s) && Parts(d, s, o, w, ops)
    requires New(d, s, n) && |o| + |Before(d, s)| <= k <= |ops| && Run(s, ops[..k]).Accepted()
    ensures Reachable(Run(s, ops[..k]).state)
  {
    var j, done, t := TailState(d, s, k, o, w, ops);
    NewInLeftovers(d, s, j, n, w, done, t);
  }

  lemma NewInLeftovers(d: Desired, s: State, j: nat, n: Name, w: seq<Op>, done: seq<Op>, t: State)
    requires Sound(s) && Free(d, s) && w == TailOps(d, s) && New(d, s, n)
    requires |Before(d, s)| <= j <= |w| && done == w[..j] && AtTail(d, s, done, t)
    ensures Reachable(t)
  {
    OnLate(d, s, j, n, w);
    NewReach(d, s, done, t, n);
  }

  lemma InTurns(d: Desired, s: State, k: nat, a: Name, b: Name, o: seq<Op>, w: seq<Op>, ops: seq<Op>)
    requires Sound(s) && Free(d, s) && Parts(d, s, o, w, ops)
    requires Hands(d, s, a, b) && |o| + |PortPart(d, s)| <= k <= |o| + |Before(d, s)| && k <= |ops|
    requires Run(s, ops[..k]).Accepted()
    ensures Reachable(Run(s, ops[..k]).state)
  {
    var j, done, t := TailState(d, s, k, o, w, ops);
    TurnReach(d, s, j, a, b, w, done, t);
  }

  lemma TurnReach(d: Desired, s: State, j: nat, a: Name, b: Name, w: seq<Op>, done: seq<Op>, t: State)
    requires Sound(s) && Free(d, s) && w == TailOps(d, s) && Hands(d, s, a, b)
    requires |PortPart(d, s)| <= j <= |Before(d, s)| && j <= |w| && done == w[..j] && AtTail(d, s, done, t)
    ensures Reachable(t)
  {
    var q, i := SpotAt(d, s, j, w);
    HandsReach(d, s, q, i, done, t, a, b);
  }

  lemma HandsThroughout(d: Desired, s: State, k: nat, a: Name, b: Name, o: seq<Op>, w: seq<Op>, ops: seq<Op>)
    requires Sound(s) && Free(d, s) && Parts(d, s, o, w, ops)
    requires Hands(d, s, a, b) && k <= |ops| && Run(s, ops[..k]).Accepted()
    ensures Reachable(Run(s, ops[..k]).state)
  {
    if k <= |o| + |PortPart(d, s)| {
      OldUntilTurns(d, s, k, a, o, w, ops);
    } else if k >= |o| + |Before(d, s)| {
      NewAfterTurns(d, s, k, b, o, w, ops);
    } else {
      InTurns(d, s, k, a, b, o, w, ops);
    }
  }

  lemma AnchorThroughout(d: Desired, s: State, k: nat, n: Name, b: Name, o: seq<Op>, w: seq<Op>, ops: seq<Op>)
    requires Sound(s) && Free(d, s) && Parts(d, s, o, w, ops)
    requires Anchor(s, n) && New(d, s, b) && k <= |ops| && Run(s, ops[..k]).Accepted()
    ensures Reachable(Run(s, ops[..k]).state)
  {
    if k <= |o| + |Before(d, s)| {
      AnchorHolds(d, s, k, n, ops);
    } else {
      NewAfterTurns(d, s, k, b, o, w, ops);
    }
  }

  /** A conflict ends the round before the first turn of an SVI. */
  lemma ConflictEnds(d: Desired, s: State, k: nat, c: Name, o: seq<Op>, w: seq<Op>, ops: seq<Op>)
    requires Sound(s) && Free(d, s) && Parts(d, s, o, w, ops)
    requires |o| + |PortPart(d, s)| <= k <= |ops| && Run(s, ops[..k]).Accepted()
    ensures !Conflict(d, s, c)
  {
    if IsPort(s, c) && c in d.ports {
      var j, done, t := TailState(d, s, k, o, w, ops);
      PortsAccepted(d, s, j, c, w, done, t);
    }
  }

  lemma PortsAccepted(d: Desired, s: State, j: nat, c: Name, w: seq<Op>, done: seq<Op>, t: State)
    requires Sound(s) && w == TailOps(d, s) && IsPort(s, c) && c in d.ports
    requires |PortPart(d, s)| <= j <= |w| && done == w[..j] && AtTail(d, s, done, t)
    ensures !Conflict(d, s, c)
  {
    var rest := PortsDone(d, s, j, c, w);
    PortAccepted(d, s, c, done, rest, t);
  }

  lemma PortAccepted(d: Desired, s: State, c: Name, done: seq<Op>, rest: seq<Op>, t: State)
    requires Sound(s) && IsPort(s, c) && c in d.ports && AtTail(d, s, done, t) && On(done, c) == PortOps(d, s, c) + rest
    ensures !Conflict(d, s, c)
  {
    assert DeviceAt(d, s, done, t, c);
    RunLocalAppend(Base(d, s, c), PortOps(d, s, c), rest);
    FinishConfigured(d, s, c);
  }

  lemma PortsDone(d: Desired, s: State, j: nat, n: Name, w: seq<Op>) returns (rest: seq<Op>)
    requires w == TailOps(d, s) && |PortPart(d, s)| <= j <= |w| && n != BR
    ensures On(w[..j], n) == PortOps(d, s, n) + rest
  {
    OnPortPartPort(d, s, n);
    rest := FirstOn(PortPart(d, s), Flat(Svis(d), EachSvi(d, s)), LeftoverOps(s), j, n);
  }

  lemma FirstOn(a: seq<Op>, b: seq<Op>, c: seq<Op>, j: nat, n: Name) returns (rest: seq<Op>)
    requires |a| <= j <= |a + b + c|
    ensures On((a + b + c)[..j], n) == On(a, n) + rest
  {
    Join(a, b, c);
    PrefixOfConcat(a, b + c, j);
    rest := On((b + c)[..j - |a|], n);
    OnAppend(a, (b + c)[..j - |a|], n);
  }

  lemma OnPortPartPort(d: Desired, s: State, n: Name)
    requires n != BR
    ensures On(PortPart(d, s), n) == PortOps(d, s, n)
  {
    var sync := SyncOps(BR, if Fresh(s) then map[] else VlansOf(s, BR), SelfTable(d));
    SyncNames(BR, if Fresh(s) then map[] else VlansOf(s, BR), SelfTable(d));
    OnNone(sync, n);
    PortsOn(d, s, n);
    OnAppend(Flat(Names(s.links.Keys), EachPort(d, s)), sync, n);
    assert PortOps(d, s, n) + [] == PortOps(d, s, n);
  }

  /** Sufficient. */
  lemma CoveredStays(d: Desired, s: State)
    requires Sound(s) && Free(d, s) && Covered(d, s)
    ensures StaysReachable(d, s)
  {
    var o, w, ops := OpeningOps(d, s), TailOps(d, s), RoundOps(d, s);
    if c :| Conflict(d, s, c) {
      ConflictStays(d, s, c, o, w, ops);
    } else if a, b :| Hands(d, s, a, b) {
      forall k: nat | k <= |ops| && Run(s, ops[..k]).Accepted() ensures Reachable(Run(s, ops[..k]).state) {
        HandsThroughout(d, s, k, a, b, o, w, ops);
      }
    } else {
      AnchorStays(d, s, o, w, ops);
    }
  }

  lemma AnchorStays(d: Desired, s: State, o: seq<Op>, w: seq<Op>, ops: seq<Op>)
    requires Sound(s) && Free(d, s) && Parts(d, s, o, w, ops)
    requires SomeAnchor(s) && SomeNew(d, s)
    ensures StaysReachable(d, s)
  {
    var n :| Anchor(s, n);
    var b :| New(d, s, b);
    forall k: nat | k <= |ops| && Run(s, ops[..k]).Accepted() ensures Reachable(Run(s, ops[..k]).state) {
      AnchorThroughout(d, s, k, n, b, o, w, ops);
    }
  }

  lemma ConflictStays(d: Desired, s: State, c: Name, o: seq<Op>, w: seq<Op>, ops: seq<Op>)
    requires Sound(s) && Free(d, s) && Parts(d, s, o, w, ops)
    requires Conflict(d, s, c) && (SomeAnchor(s) || SomeOld(d, s))
    ensures StaysReachable(d, s)
  {
    forall k: nat | k <= |ops| && Run(s, ops[..k]).Accepted() ensures Reachable(Run(s, ops[..k]).state) {
      if k >= |o| + |PortPart(d, s)| {
        ConflictEnds(d, s, k, c, o, w, ops);
        assert false;
      } else {
        ConflictedAt(d, s, k, o, w, ops);
      }
    }
  }

  lemma ConflictedAt(d: Desired, s: State, k: nat, o: seq<Op>, w: seq<Op>, ops: seq<Op>)
    requires Sound(s) && Free(d, s) && Parts(d, s, o, w, ops)
    requires SomeAnchor(s) || SomeOld(d, s)
    requires k <= |o| + |PortPart(d, s)| && k <= |ops| && Run(s, ops[..k]).Accepted()
    ensures Reachable(Run(s, ops[..k]).state)
  {
    if n :| Anchor(s, n) {
      AnchorHolds(d, s, k, n, ops);
    } else {
      var n :| Old(d, s, n);
      OldUntilTurns(d, s, k, n, o, w, ops);
    }
  }

  // ----- where it is not -----

  lemma Nobody(d: Desired, s: State, t: State)
    requires Sound(s) && forall n :: n == BR || IsPort(s, n) || n in d.svis ==> !Addressed(t, n)
    requires forall n :: n != BR && !IsPort(s, n) && n !in d.svis ==> View(t, n) == Base(d, s, n)
    ensures !Reachable(t)
  {
    forall n | Managed(t, n) ensures !Addressed(t, n) {
      if n != BR && !IsPort(s, n) && n !in d.svis { OtherUnmanaged(d, s, t, n); }
    }
  }

  lemma OtherUnmanaged(d: Desired, s: State, t: State, n: Name)
    requires Sound(s) && n != BR && !IsPort(s, n) && n !in d.svis && View(t, n) == Base(d, s, n)
    ensures !Managed(t, n)
  {
    BaseForeign(d, s, n);
    if IsChild(s, n, BR) { BaseStray(d, s, n); }
    assert LinkOf(t, n) == Base(d, s, n).link;
  }

  /** While no port and no bridge has an address, none gets one before the leftovers. */
  lemma NobodyAt(d: Desired, s: State, ops: seq<Op>, t: State)
    requires Sound(s) && Free(d, s) && AtTail(d, s, ops, t) && !SomeAnchor(s)
    requires forall n :: n in d.svis ==> !HasAny(View(t, n))
    requires forall n, op :: n !in d.svis && op in On(ops, n) ==> PortOp(op)
    requires forall n :: n != BR && !IsPort(s, n) && n !in d.svis ==> On(ops, n) == []
    ensures !Reachable(t)
  {
    forall n | n == BR || IsPort(s, n) || n in d.svis ensures !Addressed(t, n) {
      if n !in d.svis { AnchorNot(d, s, ops, t, n); }
    }
    forall n | n != BR && !IsPort(s, n) && n !in d.svis ensures View(t, n) == Base(d, s, n) {
      assert DeviceAt(d, s, ops, t, n);
    }
    Nobody(d, s, t);
  }

  lemma AnchorNot(d: Desired, s: State, ops: seq<Op>, t: State, n: Name)
    requires Sound(s) && AtTail(d, s, ops, t) && !Anchor(s, n) && (n == BR || IsPort(s, n))
    requires forall op :: op in On(ops, n) ==> PortOp(op)
    ensures !Addressed(t, n)
  {
    assert DeviceAt(d, s, ops, t, n);
    AddrsLocal(Base(d, s, n), On(ops, n));
    if n == BR { BaseBridge(d, s); } else { BasePort(d, s, n); }
  }

  /** Nobody has an address when the first part is done. */
  lemma NobodyEarly(d: Desired, s: State, ops: seq<Op>)
    requires Sound(s) && Free(d, s) && ops == RoundOps(d, s) && !SomeAnchor(s) && !SomeOld(d, s)
    ensures |OpeningOps(d, s)| <= |ops| && Run(s, ops[..|OpeningOps(d, s)|]).Accepted()
    ensures !Reachable(Run(s, ops[..|OpeningOps(d, s)|]).state)
  {
    var t := Halves(d, s);
    PrefixIs(OpeningOps(d, s), TailOps(d, s));
    forall m ensures DeviceAt(d, s, [], t, m) { }
    forall n | n in d.svis ensures !HasAny(View(t, n)) { SviStart(d, s, n); }
    NobodyAt(d, s, [], t);
  }

  lemma PrefixIs<T>(a: seq<T>, b: seq<T>)
    ensures (a + b)[..|a|] == a
  {
  }

  /** Nobody has one in the end. */
  lemma NobodyLate(d: Desired, s: State)
    requires Sound(s) && Free(d, s) && !SomeConflict(d, s) && !SomeNew(d, s)
    ensures Run(s, RoundOps(d, s)).Accepted() && !Reachable(Run(s, RoundOps(d, s)).state)
  {
    RunRound(d, s);
    var t := Run(s, RoundOps(d, s)).state;
    forall n | n == BR || IsPort(s, n) || n in d.svis ensures !Addressed(t, n) { LeftNone(d, s, t, n); }
    forall n | n != BR && !IsPort(s, n) && n !in d.svis ensures View(t, n) == Base(d, s, n) {
      FinishOther(d, s, n);
      assert RunLocal(Base(d, s, n), Mine(d, s, n)) == Some(View(t, n));
    }
    Nobody(d, s, t);
  }

  lemma LeftNone(d: Desired, s: State, t: State, n: Name)
    requires Sound(s) && Free(d, s) && Ends(d, s, t) && !Conflict(d, s, n) && !New(d, s, n)
    requires n == BR || IsPort(s, n) || n in d.svis
    ensures !Addressed(t, n)
  {
    assert RunLocal(Base(d, s, n), Mine(d, s, n)) == Some(View(t, n));
    if n == BR {
      FinishBridge(d, s);
    } else if n in d.svis {
      MineSvi(d, s, n);
      SviEnd(d, s, n);
    } else {
      FinishPort(d, s, n);
    }
  }

  /** At a point among the turns of the SVIs. */
  lemma NobodyInTurns(d: Desired, s: State, q: nat, i: nat, t: State)
    requires Sound(s) && Free(d, s) && !SomeAnchor(s)
    requires q <= |Svis(d)| && (q < |Svis(d)| ==> i <= |SviOps(d, s, Svis(d)[q])|) && AtTail(d, s, Spot(d, s, q, i), t)
    requires forall x :: 0 <= x < |Svis(d)| ==> !HasAny(View(t, Svis(d)[x]))
    ensures !Reachable(t)
  {
    var ops := Spot(d, s, q, i);
    forall n | n in d.svis ensures !HasAny(View(t, n)) { assert n in Svis(d); }
    PortPartOps(d, s);
    forall n | n !in d.svis
      ensures forall op :: op in On(ops, n) ==> PortOp(op)
      ensures n != BR && !IsPort(s, n) ==> On(ops, n) == []
    {
      OnSpotOther(d, s, q, i, n);
      if n != BR { OnPortPartPort(d, s, n); }
    }
    NobodyAt(d, s, ops, t);
  }

  /** The state at such a point. */
  lemma SpotState(d: Desired, s: State, q: nat, i: nat, ops: seq<Op>) returns (k: nat)
    requires Sound(s) && Free(d, s) && !SomeConflict(d, s) && ops == RoundOps(d, s)
    requires q <= |Svis(d)| && (q < |Svis(d)| ==> i <= |SviOps(d, s, Svis(d)[q])|)
    ensures k <= |ops| && Run(s, ops[..k]).Accepted() && AtTail(d, s, Spot(d, s, q, i), Run(s, ops[..k]).state)
  {
    SpotPrefix(d, s, q, i);
    k := SpotReached(d, s, Spot(d, s, q, i), OpeningOps(d, s), TailOps(d, s), ops);
  }

  lemma SpotReached(d: Desired, s: State, spot: seq<Op>, o: seq<Op>, w: seq<Op>, ops: seq<Op>) returns (k: nat)
    requires Sound(s) && Free(d, s) && !SomeConflict(d, s)
    requires Parts(d, s, o, w, ops)
    requires |spot| <= |w| && w[..|spot|] == spot
    ensures k <= |ops| && Run(s, ops[..k]).Accepted() && AtTail(d, s, spot, Run(s, ops[..k]).state)
  {
    TailFits(d, s);
    k := |o| + |spot|;
    RoundPrefixAccepted(d, s, k);
    StateOf(d, s, k, spot, Run(s, ops[..k]).state, o, w, ops);
  }

  lemma {:induction false} LastWith(ns: seq<Name>, p: Name -> bool) returns (x: nat)
    requires exists n :: n in ns && p(n)
    ensures x < |ns| && p(ns[x]) && forall y :: x < y < |ns| ==> !p(ns[y])
    decreases ns
  {
    var m := |ns| - 1;
    if p(ns[m]) {
      x := m;
    } else {
      assert forall n :: n in ns ==> n in ns[..m] || n == ns[m];
      x := LastWith(ns[..m], p);
      assert forall y :: 0 <= y < m ==> ns[..m][y] == ns[y];
    }
  }

  lemma {:induction false} FirstWith(ns: seq<Name>, p: Name -> bool) returns (x: nat)
    requires exists n :: n in ns && p(n)
    ensures x < |ns| && p(ns[x]) && forall y :: 0 <= y < x ==> !p(ns[y])
    decreases ns
  {
    if p(ns[0]) {
      x := 0;
    } else {
      assert forall n :: n in ns ==> n in ns[1..] || n == ns[0];
      var y := FirstWith(ns[1..], p);
      x := y + 1;
      assert forall z :: 0 < z < |ns| ==> ns[1..][z - 1] == ns[z];
    }
  }

  /** No SVI hands over to another: there is a point among the turns where none has an address. */
  lemma GapAmongTurns(d: Desired, s: State) returns (q: nat, i: nat)
    requires Sound(s) && Free(d, s) && SomeOld(d, s) && SomeNew(d, s) && !SomeHands(d, s)
    ensures q <= |Svis(d)| && (q < |Svis(d)| ==> i <= |SviOps(d, s, Svis(d)[q])|)
    ensures forall x :: 0 <= x < q ==> !New(d, s, Svis(d)[x])
    ensures forall x :: q < x < |Svis(d)| ==> !Old(d, s, Svis(d)[x])
    ensures q < |Svis(d)| ==>
              var n := Svis(d)[q];
              (i == 0 && !Old(d, s, n)) || (i == 1 && Old(d, s, n) && Swaps(d, s, n))
  {
    var x, y := OuterTurns(d, s);
    NotBefore(d, s, x, y);
    if x < y {
      q, i := x + 1, 0;
    } else {
      q, i := x, 1;
      SviSwap(d, s, Svis(d)[x]);
    }
  }

  /** The last turn of an SVI that has an address, and the first of one that will. */
  lemma OuterTurns(d: Desired, s: State) returns (x: nat, y: nat)
    requires SomeOld(d, s) && SomeNew(d, s)
    ensures x < |Svis(d)| && Old(d, s, Svis(d)[x]) && forall z :: x < z < |Svis(d)| ==> !Old(d, s, Svis(d)[z])
    ensures y < |Svis(d)| && New(d, s, Svis(d)[y]) && forall z :: 0 <= z < y ==> !New(d, s, Svis(d)[z])
  {
    var a :| Old(d, s, a);
    var b :| New(d, s, b);
    assert a in Svis(d) && b in Svis(d);
    x := LastWith(Svis(d), n => Old(d, s, n));
    y := FirstWith(Svis(d), n => New(d, s, n));
  }

  lemma NotBefore(d: Desired, s: State, x: nat, y: nat)
    requires x < |Svis(d)| && y < |Svis(d)| && Old(d, s, Svis(d)[x]) && New(d, s, Svis(d)[y])
    requires !SomeHands(d, s)
    ensures x <= y && (x == y ==> Swaps(d, s, Svis(d)[x]))
  {
    SvisSorted(d);
    assert !Hands(d, s, Svis(d)[x], Svis(d)[y]);
  }

  /** At that point none has. */
  lemma GapHolds(d: Desired, s: State, q: nat, i: nat, t: State, x: nat)
    requires Sound(s) && Free(d, s) && x < |Svis(d)|
    requires q <= |Svis(d)| && (q < |Svis(d)| ==> i <= |SviOps(d, s, Svis(d)[q])|) && AtTail(d, s, Spot(d, s, q, i), t)
    requires x < q ==> !New(d, s, Svis(d)[x])
    requires x > q ==> !Old(d, s, Svis(d)[x])
    requires x == q ==>
               var n := Svis(d)[x];
               n in d.svis && ((i == 0 && !Old(d, s, n)) || (i == 1 && Old(d, s, n) && Swaps(d, s, n)))
    ensures !HasAny(View(t, Svis(d)[x]))
  {
    var n := Svis(d)[x];
    OnSpot(d, s, q, i, x);
    assert DeviceAt(d, s, Spot(d, s, q, i), t, n);
    if x < q {
      SviEnd(d, s, n);
    } else if x == q && i == 1 {
      SviSwap(d, s, n);
    } else {
      TakeNone(SviOps(d, s, n));
      SviStart(d, s, n);
    }
  }

  lemma GapReached(d: Desired, s: State, ops: seq<Op>) returns (k: nat)
    requires Sound(s) && Free(d, s) && ops == RoundOps(d, s) && !SomeConflict(d, s) && !SomeAnchor(s)
    requires SomeOld(d, s) && SomeNew(d, s) && !SomeHands(d, s)
    ensures k <= |ops| && Run(s, ops[..k]).Accepted() && !Reachable(Run(s, ops[..k]).state)
  {
    var q, i := GapAmongTurns(d, s);
    k := SpotState(d, s, q, i, ops);
    var t := Run(s, ops[..k]).state;
    forall x | 0 <= x < |Svis(d)| ensures !HasAny(View(t, Svis(d)[x])) {
      assert Svis(d)[x] in Svis(d);
      GapHolds(d, s, q, i, t, x);
    }
    NobodyInTurns(d, s, q, i, t);
  }

  /** Necessary. */
  lemma UncoveredFails(d: Desired, s: State)
    requires Sound(s) && Free(d, s) && !Covered(d, s)
    ensures !StaysReachable(d, s)
  {
    if SomeAnchor(s) || SomeOld(d, s) {
      LateFails(d, s, RoundOps(d, s));
    } else {
      EarlyFails(d, s, RoundOps(d, s));
    }
  }

  lemma EarlyFails(d: Desired, s: State, ops: seq<Op>)
    requires Sound(s) && Free(d, s) && ops == RoundOps(d, s) && !SomeAnchor(s) && !SomeOld(d, s)
    ensures !StaysReachable(d, s)
  {
    NobodyEarly(d, s, ops);
    FailsAt(d, s, |OpeningOps(d, s)|, ops);
  }

  lemma FailsAt(d: Desired, s: State, k: nat, ops: seq<Op>)
    requires ops == RoundOps(d, s) && k <= |ops| && Run(s, ops[..k]).Accepted() && !Reachable(Run(s, ops[..k]).state)
    ensures !StaysReachable(d, s)
  {
    assert !ReachableAt(d, s, k);
  }

  lemma LateFails(d: Desired, s: State, ops: seq<Op>)
    requires Sound(s) && Free(d, s) && ops == RoundOps(d, s) && !SomeConflict(d, s)
    requires SomeAnchor(s) || SomeOld(d, s)
    requires !(SomeAnchor(s) && SomeNew(d, s)) && !SomeHands(d, s)
    ensures !StaysReachable(d, s)
  {
    if !SomeNew(d, s) {
      NobodyLate(d, s);
      TakeAll(ops);
      FailsAt(d, s, |ops|, ops);
    } else {
      var k := GapReached(d, s, ops);
      FailsAt(d, s, k, ops);
    }
  }

  /**
   * The switch has an address after every operation of a round exactly if it is covered: at first by
   * a port, a bridge that is not created anew or an SVI that is kept, in the end by an SVI, and among
   * the turns of the SVIs, which are in the order of their names, by one that hands over to another.
   */
  lemma ReachableIff(d: Desired, s: State)
    requires Sound(s) && Free(d, s)
    ensures StaysReachable(d, s) <==> Covered(d, s)
  {
    if Covered(d, s) { CoveredStays(d, s); } else { UncoveredFails(d, s); }
  }

  // ----- moves of the one address a switch has -----

  /** No device but `n` has an address. */
  ghost predicate Only(s: State, n: Name) { forall m :: m != n ==> !Addressed(s, m) }

  /** An SVI that stays and changes its static addresses keeps the switch reachable. */
  lemma RenumberStays(d: Desired, s: State, n: Name)
    requires Sound(s) && Free(d, s) && Kept(d, s, n) && AddrsOf(s, n) != {} && d.svis[n].addresses != {}
    ensures StaysReachable(d, s)
  {
    assert Old(d, s, n) && Hands(d, s, n, n);
    ReachableIff(d, s);
  }

  /** To another VLAN: the link of the old SVI goes, and its address with it, before the new one has any. */
  lemma StaleLoses(d: Desired, s: State, a: Name)
    requires Sound(s) && Free(d, s) && a in StaleLinks(d, s) && Addressed(s, a) && Only(s, a)
    ensures Reachable(s) && !StaysReachable(d, s)
    ensures |OpeningOps(d, s)| <= |RoundOps(d, s)| && Run(s, RoundOps(d, s)[..|OpeningOps(d, s)|]).Accepted()
    ensures !Reachable(Run(s, RoundOps(d, s)[..|OpeningOps(d, s)|]).state)
  {
    assert Managed(s, a);
    StaleAlone(d, s, a);
    NobodyEarly(d, s, RoundOps(d, s));
    FailsAt(d, s, |OpeningOps(d, s)|, RoundOps(d, s));
  }

  lemma StaleAlone(d: Desired, s: State, a: Name)
    requires a in StaleLinks(d, s) && Only(s, a)
    ensures !SomeAnchor(s) && !SomeOld(d, s)
  {
    assert forall n :: Anchor(s, n) || Old(d, s, n) ==> n == a;
    assert !Anchor(s, a) && !Old(d, s, a);
  }

  /** To an SVI whose turn comes later: the old address goes before the new one comes. */
  lemma ForwardLoses(d: Desired, s: State, a: Name, b: Name)
    requires Sound(s) && Free(d, s) && RepairOf(s).Keep? && Old(d, s, a) && Only(s, a)
    requires a != b && StringLe(a.text, b.text) && d.svis.Keys == {a, b} && !New(d, s, a)
    ensures Reachable(s) && !StaysReachable(d, s)
  {
    assert Managed(s, a);
    SettledBridge(d, s);
    StringLeTotal(a.text, b.text);
    assert forall n :: Anchor(s, n) || Old(d, s, n) ==> n == a;
    assert !Anchor(s, a) && forall x, y :: !Hands(d, s, x, y);
    ReachableIff(d, s);
  }

  /** From a lease to the same address as a static one. */
  lemma SwapLoses(d: Desired, s: State, n: Name)
    requires Sound(s) && Free(d, s) && RepairOf(s).Keep? && Kept(d, s, n) && Only(s, n)
    requires d.svis.Keys == {n} && Swaps(d, s, n)
    ensures Reachable(s) && !StaysReachable(d, s)
  {
    assert Managed(s, n) && DhcpOf(s, n) != map[];
    SettledBridge(d, s);
    assert forall m :: Anchor(s, m) || Old(d, s, m) ==> m == n;
    assert !Anchor(s, n) && forall x, y :: !Hands(d, s, x, y);
    ReachableIff(d, s);
  }
}
