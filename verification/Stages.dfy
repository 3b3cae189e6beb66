/** What each device is like after every operation of the first part of a round. */
module Stages {
  import opened Basics
  import opened Model
  import opened Kernel
  import opened Devices
  import opened Deletion
  import opened Invariant
  import opened Planner
  import opened Matching
  import opened DeviceRuns
  import opened Opening
  import opened Round
  import opened Convergence

  lemma AcceptedPrefix(s: State, ops: seq<Op>, k: nat)
    requires k <= |ops| && Run(s, ops).Accepted()
    ensures Run(s, ops[..k]).Accepted()
  {
    assert ops == ops[..k] + ops[k..];
    RunAppend(s, ops[..k], ops[k..]);
  }

  lemma PrefixOfConcat<T>(a: seq<T>, b: seq<T>, k: nat)
    requires |a| <= k <= |a| + |b|
    ensures (a + b)[..k] == a + b[..k - |a|]
  {
  }

  /**
   * A device on its way: as it was, up if it is of the platform, with the bridge repaired as well,
   * without stale links.
   */
  datatype Stage = AsBefore | Up | BridgeRepaired | LinksDeleted

  ghost function Passing(d: Desired, s: State, m: Name, stage: Stage): Device {
    match stage
    case AsBefore => View(s, m)
    case Up => Raised(s, m)
    case BridgeRepaired => Repaired(s, m)
    case LinksDeleted => Base(d, s, m)
  }

  lemma EarlyPrefix(d: Desired, s: State, k: nat)
    requires k <= |OpeningOps(d, s)|
    ensures k <= |RoundOps(d, s)| && RoundOps(d, s)[..k] == OpeningOps(d, s)[..k]
  {
    RoundSplits(d, s);
    PrefixOfFirst(OpeningOps(d, s), TailOps(d, s), k);
  }

  lemma PrefixOfFirst<T>(a: seq<T>, b: seq<T>, k: nat)
    requires k <= |a|
    ensures (a + b)[..k] == a[..k]
  {
  }

  lemma TwoRuns(s: State, a: seq<Op>, b: seq<Op>, k: nat)
    requires Run(s, a).Accepted() && k <= |a + b|
    ensures Run(s, (a + b)[..k]) == if k <= |a| then Run(s, a[..k]) else Run(Run(s, a).state, b[..k - |a|])
  {
    if k <= |a| {
      PrefixOfFirst(a, b, k);
    } else {
      PrefixOfConcat(a, b, k);
      RunAppend(s, a, b[..k - |a|]);
    }
  }

  lemma RepairedAt(s: State) returns (t1: State, t: State)
    requires Sound(s)
    ensures Run(s, PlatformOps(s)) == Fine(t1) && Raises(s, t1)
    ensures Run(s, PlatformOps(s) + RepairOps(s)) == Fine(t) && forall n :: View(t, n) == Repaired(s, n)
  {
    RunPlatform(s);
    t1 := Run(s, PlatformOps(s)).state;
    RunRepair(s, t1);
    t := Run(t1, RepairOps(s)).state;
    RunAppend(s, PlatformOps(s), RepairOps(s));
  }

  lemma OpenedAt(d: Desired, s: State, a: seq<Op>) returns (t2: State, t: State)
    requires Sound(s) && a == PlatformOps(s) + RepairOps(s)
    ensures Run(s, a) == Fine(t2) && forall n :: View(t2, n) == Repaired(s, n)
    ensures Run(s, a + BridgeOps(d, s)) == Fine(t) && forall n :: View(t, n) == Opened(d, s, n)
  {
    var t1;
    t1, t2 := RepairedAt(s);
    RunBridgeOps(d, s, t2);
    t := Run(t2, BridgeOps(d, s)).state;
    RunAppend(s, a, BridgeOps(d, s));
  }

  lemma InRepair(s: State, t: State, a: seq<Op>, b: seq<Op>, k: nat, m: Name)
    requires Sound(s) && m != BR && Run(s, a) == Fine(t) && Raises(s, t) && b == RepairOps(s) && |a| < k <= |a + b|
    ensures View(Run(s, (a + b)[..k]).state, m) == Repaired(s, m)
  {
    TwoRuns(s, a, b, k);
    WhileRepairing(s, t, k - |a|, m);
  }

  lemma InHandOver(d: Desired, s: State, t: State, a: seq<Op>, b: seq<Op>, k: nat, m: Name)
    requires Sound(s) && m != BR && Run(s, a) == Fine(t) && (forall n :: View(t, n) == Repaired(s, n))
    requires b == BridgeOps(d, s) && |a| < k <= |a + b|
    ensures View(Run(s, (a + b)[..k]).state, m) == Repaired(s, m)
  {
    TwoRuns(s, a, b, k);
    WhileHandingOver(d, s, t, k - |a|, m);
  }

  lemma InDeletes(d: Desired, s: State, t: State, a: seq<Op>, ns: seq<Name>, k: nat, m: Name) returns (done: bool)
    requires Sound(s) && m != BR && Run(s, a) == Fine(t) && (forall n :: View(t, n) == Opened(d, s, n))
    requires Lists(ns, StaleLinks(d, s)) && |a| < k <= |a + Deletes(ns)|
    ensures View(Run(s, (a + Deletes(ns))[..k]).state, m) == if done then Base(d, s, m) else Repaired(s, m)
  {
    TwoRuns(s, a, Deletes(ns), k);
    done := WhileDeleting(d, s, t, ns, k - |a|, m);
  }

  /** The stage at `k` operations of four parts. */
  lemma StageAt(d: Desired, s: State, t: State, a: seq<Op>, b: seq<Op>, k: nat, m: Name) returns (stage: Stage)
    requires Sound(s) && m != BR && a == PlatformOps(s) && b == RepairOps(s) && k <= |a + b|
    requires Run(s, a) == Fine(t) && Raises(s, t)
    ensures View(Run(s, (a + b)[..k]).state, m) == Passing(d, s, m, stage)
  {
    if k <= |a| {
      PrefixOfFirst(a, b, k);
      var up := WhileRaising(s, k, m);
      stage := if up then Up else AsBefore;
    } else {
      InRepair(s, t, a, b, k, m);
      stage := BridgeRepaired;
    }
  }

  lemma StageUpTo(d: Desired, s: State, a: seq<Op>, b: seq<Op>, c: seq<Op>, k: nat, m: Name) returns (stage: Stage)
    requires Sound(s) && m != BR && a == PlatformOps(s) && b == RepairOps(s) && c == BridgeOps(d, s) && k <= |a + b + c|
    ensures View(Run(s, (a + b + c)[..k]).state, m) == Passing(d, s, m, stage)
  {
    var t1, t := RepairedAt(s);
    if k <= |a + b| {
      PrefixOfFirst(a + b, c, k);
      stage := StageAt(d, s, t1, a, b, k, m);
    } else {
      InHandOver(d, s, t, a + b, c, k, m);
      stage := BridgeRepaired;
    }
  }

  lemma OpeningStage(d: Desired, s: State, k: nat, m: Name) returns (stage: Stage)
    requires Sound(s) && m != BR && k <= |OpeningOps(d, s)|
    ensures View(Run(s, OpeningOps(d, s)[..k]).state, m) == Passing(d, s, m, stage)
  {
    stage := StageOf(d, s, PlatformOps(s), RepairOps(s), BridgeOps(d, s), Names(StaleLinks(d, s)), k, m);
  }

  lemma StageOf(d: Desired, s: State, a: seq<Op>, b: seq<Op>, c: seq<Op>, ns: seq<Name>, k: nat, m: Name)
    returns (stage: Stage)
    requires Sound(s) && m != BR && a == PlatformOps(s) && b == RepairOps(s) && c == BridgeOps(d, s)
    requires Lists(ns, StaleLinks(d, s)) && k <= |a + b + c + Deletes(ns)|
    ensures View(Run(s, (a + b + c + Deletes(ns))[..k]).state, m) == Passing(d, s, m, stage)
  {
    if k <= |a + b + c| {
      PrefixOfFirst(a + b + c, Deletes(ns), k);
      stage := StageUpTo(d, s, a, b, c, k, m);
    } else {
      stage := LastStage(d, s, a + b + c, ns, k, m);
    }
  }

  lemma LastStage(d: Desired, s: State, a: seq<Op>, ns: seq<Name>, k: nat, m: Name) returns (stage: Stage)
    requires Sound(s) && m != BR && a == PlatformOps(s) + RepairOps(s) + BridgeOps(d, s)
    requires Lists(ns, StaleLinks(d, s)) && |a| < k <= |a + Deletes(ns)|
    ensures View(Run(s, (a + Deletes(ns))[..k]).state, m) == Passing(d, s, m, stage)
  {
    var t2, t := OpenedAt(d, s, PlatformOps(s) + RepairOps(s));
    var done := InDeletes(d, s, t, a, ns, k, m);
    stage := DoneStage(d, s, m, done);
  }

  lemma DoneStage(d: Desired, s: State, m: Name, done: bool) returns (stage: Stage)
    ensures Passing(d, s, m, stage) == if done then Base(d, s, m) else Repaired(s, m)
  {
    stage := if done then LinksDeleted else BridgeRepaired;
  }

  lemma WhileRaising(s: State, k: nat, m: Name) returns (up: bool)
    requires k <= |PlatformOps(s)|
    ensures View(Run(s, PlatformOps(s)[..k]).state, m) == if up then Raised(s, m) else View(s, m)
  {
    var ns, f := Names(Platform(s)), PutUp(s);
    var ops := PlatformOps(s);
    forall op | op in ops[..k] ensures Safe(s, op) {
      assert op in ops;
      FlatIn(ns, f, op);
    }
    RunPlatform(s);
    AcceptedPrefix(s, ops, k);
    RunByDevice(s, ops[..k]);
    OnPrefix(ops, k, m);
    OnFlat(ns, f, m);
    RunPutUp(s, m);
    RaisePart(s, m, |On(ops[..k], m)|);
    up := On(ops[..k], m) != [] || On(ops, m) == [];
  }

  lemma RaisePart(s: State, m: Name, i: nat)
    requires i <= |PutUp(s)(m)|
    ensures i == 0 ==> PutUp(s)(m)[..i] == []
    ensures i > 0 ==> PutUp(s)(m)[..i] == PutUp(s)(m)
  {
  }

  lemma WhileRepairing(s: State, t: State, j: nat, m: Name)
    requires Sound(s) && Raises(s, t) && j <= |RepairOps(s)| && m != BR
    ensures View(Run(t, RepairOps(s)[..j]).state, m) == if j == 0 then Raised(s, m) else Repaired(s, m)
  {
    RunRepair(s, t);
    if j == 0 {
      assert RepairOps(s)[..0] == [];
    } else if j == |RepairOps(s)| {
      assert RepairOps(s)[..j] == RepairOps(s);
    } else {
      assert RepairOps(s)[..1] == [DeleteLink(BR)];
      DeleteBridgeView(s, t);
      assert Run(t, [DeleteLink(BR)]) == Step(t, DeleteLink(BR));
    }
  }

  lemma WhileHandingOver(d: Desired, s: State, t: State, j: nat, m: Name)
    requires Sound(s) && (forall n :: View(t, n) == Repaired(s, n)) && j <= |BridgeOps(d, s)| && m != BR
    ensures View(Run(t, BridgeOps(d, s)[..j]).state, m) == Repaired(s, m)
  {
    var ops := BridgeOps(d, s)[..j];
    RepairedBridge(s);
    assert View(t, BR) == Repaired(s, BR);
    assert Ready(t);
    forall op | op in ops ensures Safe(t, op) && op.name != m { assert op in BridgeOps(d, s); }
    RunBridgeOps(d, s, t);
    AcceptedPrefix(t, BridgeOps(d, s), j);
    RunByDevice(t, ops);
    OnNone(ops, m);
  }

  lemma WhileDeleting(d: Desired, s: State, t: State, ns: seq<Name>, j: nat, m: Name) returns (done: bool)
    requires Sound(s) && m != BR && (forall n :: View(t, n) == Opened(d, s, n)) && Lists(ns, StaleLinks(d, s))
             && j <= |ns|
    ensures View(Run(t, Deletes(ns)[..j]).state, m) == if done then Base(d, s, m) else Repaired(s, m)
  {
    assert ns != [] ==> ns[0] in StaleLinks(d, s);
    if Fresh(s) {
      assert StaleLinks(d, s) == {};
      assert Deletes(ns)[..j] == [];
      done := false;
    } else {
      var part := ns[..j];
      assert Deletes(ns)[..j] == Deletes(part);
      assert forall n :: n in part ==> n in ns;
      OpenedStack(d, s, t);
      assert IsBridge(s, BR) && Siblings(t, part, BR);
      var gone := DeleteAllFalls(t, part, BR);
      RunIsDeleteAll(t, part);
      done := m in gone;
      PartFalls(d, s, t, part, gone, m);
    }
  }

  lemma PartFalls(d: Desired, s: State, t: State, part: seq<Name>, gone: set<Name>, m: Name)
    requires Sound(s) && !Fresh(s) && m != BR && View(t, m) == Opened(d, s, m) && StackOf(t) == StackOf(s)
             && t.links.Keys == s.links.Keys
    requires Elems(part) <= StaleLinks(d, s) && Falls(StackOf(s), Elems(part), gone)
    ensures Without(View(t, m), m, gone) == if m in gone then Base(d, s, m) else Repaired(s, m)
  {
    var up := StackOf(s);
    FallsExactly(up, Elems(part), gone, m);
    if m in gone {
      assert RestsOn(up, m, StaleLinks(d, s));
    } else if View(t, m).link.Some? && View(t, m).link.value.master.Some? {
      var b := View(t, m).link.value.master.value;
      assert s.links[m].master == Some(b) && MasterOk(s, m);
      FallsExactly(up, Elems(part), gone, b);
      forall r, i: nat | r in Elems(part) ensures !Above(up, b, r, i) { }
    }
  }

  lemma EarlyStage(d: Desired, s: State, k: nat, m: Name) returns (stage: Stage)
    requires Sound(s) && m != BR && k <= |OpeningOps(d, s)|
    ensures k <= |RoundOps(d, s)| && View(Run(s, RoundOps(d, s)[..k]).state, m) == Passing(d, s, m, stage)
  {
    EarlyPrefix(d, s, k);
    stage := OpeningStage(d, s, k, m);
  }

  lemma RepairNext(d: Desired, s: State)
    requires RepairOps(s) != []
    ensures |PlatformOps(s)| < |RoundOps(d, s)| && RoundOps(d, s)[|PlatformOps(s)|] == RepairOps(s)[0]
    ensures RoundOps(d, s)[..|PlatformOps(s)| + 1] == PlatformOps(s) + [RepairOps(s)[0]]
  {
    NextAfter(RoundOps(d, s), PlatformOps(s), PlanOps(d, s), RepairOps(s), BridgeOps(d, s),
        Deletes(Names(StaleLinks(d, s))), TailOps(d, s));
  }

  lemma NextAfter<T>(all: seq<T>, a: seq<T>, plan: seq<T>, r: seq<T>, b: seq<T>, c: seq<T>, e: seq<T>)
    requires all == a + plan && plan == r + b + c + e && r != []
    ensures |a| < |all| && all[|a|] == r[0] && all[..|a| + 1] == a + [r[0]]
  {
    assert plan[0] == r[0];
  }

  lemma RunOne(s: State, op: Op)
    ensures Run(s, [op]) == Step(s, op)
  {
  }

  lemma FreshCreates(d: Desired, s: State)
    requires Fresh(s)
    ensures CreateBridge(BR) in RoundOps(d, s)
  {
    assert RepairOps(s) == [CreateBridge(BR)] || RepairOps(s) == [DeleteLink(BR), CreateBridge(BR)];
    RepairIn(d, s, CreateBridge(BR));
  }

  lemma RepairIn(d: Desired, s: State, op: Op)
    requires op in RepairOps(s)
    ensures op in RoundOps(d, s)
  {
    RoundSplits(d, s);
  }
}
