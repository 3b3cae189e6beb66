/** Reconciliation: rounds until nothing is left to do (crates/switch-net/src/lib.rs). */
module Convergence {
  import opened Basics
  import opened Model
  import opened Kernel
  import opened Devices
  import opened Deletion
  import opened Invariant
  import opened Planner
  import opened Matching
  import opened DeviceRuns
  import opened Opening
  import opened Closing
  import opened Round

  // ----- one round -----

  /** What the round makes of each device. */
  ghost predicate Ends(d: Desired, s: State, s1: State) {
    forall m :: RunLocal(Base(d, s, m), Mine(d, s, m)) == Some(View(s1, m))
  }

  lemma RoundSplits(d: Desired, s: State)
    ensures RoundOps(d, s) == OpeningOps(d, s) + TailOps(d, s)
  {
    Regroup(PlatformOps(s), RepairOps(s), BridgeOps(d, s), Deletes(Names(StaleLinks(d, s))), TailOps(d, s));
  }

  lemma Regroup<T>(a: seq<T>, b: seq<T>, c: seq<T>, e: seq<T>, f: seq<T>)
    ensures a + (b + c + e + f) == a + b + c + e + f
  {
  }

  lemma RunRound(d: Desired, s: State)
    requires Sound(s) && Free(d, s)
    ensures Run(s, RoundOps(d, s)).Accepted() <==> forall n :: !Conflict(d, s, n)
    ensures Run(s, RoundOps(d, s)).Accepted() ==> Ends(d, s, Run(s, RoundOps(d, s)).state)
  {
    var t := RunOpening(d, s);
    RoundSplits(d, s);
    RunAppend(s, OpeningOps(d, s), TailOps(d, s));
    RunTail(d, s, t);
  }

  lemma RunTail(d: Desired, s: State, t: State)
    requires Sound(s) && Free(d, s) && Ready(t) && forall m :: View(t, m) == Base(d, s, m)
    ensures Run(t, TailOps(d, s)).Accepted() <==> forall n :: !Conflict(d, s, n)
    ensures Run(t, TailOps(d, s)).Accepted() ==> Ends(d, s, Run(t, TailOps(d, s)).state)
  {
    TailLocal(d, s);
    RunByDevice(t, TailOps(d, s));
    forall m
      ensures On(TailOps(d, s), m) == Mine(d, s, m)
      ensures RunLocal(View(t, m), On(TailOps(d, s), m)).Some? <==> !Conflict(d, s, m)
    {
      OnTail(d, s, m);
      assert View(t, m) == Base(d, s, m);
      Finishes(d, s, m);
    }
  }

  lemma Finishes(d: Desired, s: State, m: Name)
    requires Sound(s) && Free(d, s)
    ensures RunLocal(Base(d, s, m), Mine(d, s, m)).Some? <==> !Conflict(d, s, m)
  {
    if IsPort(s, m) { FinishPort(d, s, m); }
    else if m == BR { FinishBridge(d, s); }
    else if m in d.svis { FinishSvi(d, s, m); }
    else { FinishOther(d, s, m); }
  }

  // ----- the kernel after a round -----

  lemma EndKinds(d: Desired, s: State, s1: State, m: Name)
    requires Sound(s) && Free(d, s) && Ends(d, s, s1) && !Conflict(d, s, m)
    ensures IsPort(s, m) ==> m in s1.links && s1.links[m].kind == s.links[m].kind
    ensures m == BR ==>
            m in s1.links && s1.links[m].kind == Bridge(true, 0, true, WantedStp(d)) && s1.links[m].up
            && s1.links[m].master != Some(BR)
    ensures m in d.svis ==> m in s1.links && s1.links[m].kind == Vlan(BR, d.svis[m].vlan)
    ensures m !in d.svis && m != BR && !IsPort(s, m) ==> View(s1, m) == Base(d, s, m)
  {
    assert RunLocal(Base(d, s, m), Mine(d, s, m)) == Some(View(s1, m));
    if IsPort(s, m) { FinishPort(d, s, m); }
    if m == BR { FinishBridge(d, s); BaseBridge(d, s); }
    if m in d.svis { FinishSvi(d, s, m); }
    if m !in d.svis && m != BR && !IsPort(s, m) { FinishOther(d, s, m); }
  }

  /** Links the plugin does not own keep their kind, unless they fall with the bridge or a stale VLAN link. */
  lemma BaseForeign(d: Desired, s: State, m: Name)
    requires Sound(s) && m != BR
    ensures Base(d, s, m).link.Some? ==> m in s.links && Base(d, s, m).link.value.kind == s.links[m].kind
    ensures m in s.links && !s.links[m].kind.Vlan? ==> Base(d, s, m).link.Some?
    ensures Base(d, s, m).link.Some? && m in Platform(s) ==> Base(d, s, m).link.value.up
  {
    if m in s.links && !s.links[m].kind.Vlan? {
      Stands(s, {BR}, m);
      Stands(s, StaleLinks(d, s), m);
    }
  }

  lemma EndPorts(d: Desired, s: State, s1: State, m: Name)
    requires Sound(s) && Free(d, s) && Ends(d, s, s1) && forall n :: !Conflict(d, s, n)
    ensures IsPort(s1, m) <==> IsPort(s, m)
    ensures IsPort(s, m) ==> s1.links[m].kind == s.links[m].kind
  {
    EndKinds(d, s, s1, m);
    if m != BR { BaseForeign(d, s, m); }
  }

  lemma EndPlatform(d: Desired, s: State, s1: State)
    requires Sound(s) && Free(d, s) && Ends(d, s, s1) && forall n :: !Conflict(d, s, n)
    ensures Platform(s1) == Platform(s)
    ensures forall n :: n in Platform(s1) && n in s1.links ==>
              (s1.links[n].kind.Other? || IsChild(s1, n, BR)) && s1.links[n].up
  {
    forall m
      ensures IsPort(s1, m) <==> IsPort(s, m)
      ensures IsPort(s, m) ==> s1.links[m].kind == s.links[m].kind
    {
      EndPorts(d, s, s1, m);
    }
    forall n ensures n in Platform(s1) <==> n in Platform(s) {
      if n in Platform(s) && n != LO {
        var m :| m in s.links && s.links[m].kind == Dsa(Some(n));
        assert IsPort(s, m) && s1.links[m].kind == Dsa(Some(n));
      }
      if n in Platform(s1) && n != LO {
        var m :| m in s1.links && s1.links[m].kind == Dsa(Some(n));
        assert IsPort(s1, m) && s.links[m].kind == Dsa(Some(n));
      }
    }
    forall n | n in Platform(s) && n in s1.links
      ensures (s1.links[n].kind.Other? || IsChild(s1, n, BR)) && s1.links[n].up
    {
      EndRaised(d, s, s1, n);
    }
  }

  lemma EndRaised(d: Desired, s: State, s1: State, n: Name)
    requires Sound(s) && Free(d, s) && Ends(d, s, s1) && !Conflict(d, s, n) && n in Platform(s) && n in s1.links
    ensures (s1.links[n].kind.Other? || IsChild(s1, n, BR)) && s1.links[n].up
  {
    EndKinds(d, s, s1, n);
    assert n != BR && !IsPort(s, n);
    if n in d.svis {
      FinishSvi(d, s, n);
      assert RunLocal(Base(d, s, n), Mine(d, s, n)) == Some(View(s1, n));
    } else {
      BaseForeign(d, s, n);
    }
  }

  lemma EndSound(d: Desired, s: State, s1: State)
    requires Sound(s) && Free(d, s) && Ends(d, s, s1) && WellFormed(s1) && forall n :: !Conflict(d, s, n)
    ensures Sound(s1) && Free(d, s1)
    ensures RepairOf(s1).Keep?
  {
    EndKinds(d, s, s1, BR);
    EndPlatform(d, s, s1);
    forall n ensures !Taken(d, s1, n) {
      EndKinds(d, s, s1, n);
    }
  }

  lemma EndPort(d: Desired, s: State, s1: State, n: Name)
    requires Sound(s) && Free(d, s) && Ends(d, s, s1) && !Conflict(d, s, n) && IsPort(s, n)
    ensures n in s1.links
    ensures !Relapse(d, s, n) ==> PortMatches(d, s1, n)
    ensures Relapse(d, s, n) ==>
              && AddrsOf(s1, n) == {} && DhcpOf(s1, n) == map[]
              && InBridge(s1, n, BR) && s1.links[n].up == d.ports[n].enabled
              && VlansOf(s1, n) == PortTable(d.ports[n]) - {DroppedPvid(s)}
  {
    assert RunLocal(Base(d, s, n), Mine(d, s, n)) == Some(View(s1, n));
    FinishPort(d, s, n);
  }

  lemma EndSvi(d: Desired, s: State, s1: State, n: Name)
    requires Sound(s) && Free(d, s) && Ends(d, s, s1) && n in d.svis
    ensures SviMatches(d, s1, n)
  {
    assert RunLocal(Base(d, s, n), Mine(d, s, n)) == Some(View(s1, n));
    FinishSvi(d, s, n);
  }

  lemma EndBridge(d: Desired, s: State, s1: State)
    requires Sound(s) && Free(d, s) && Ends(d, s, s1)
    ensures BridgeMatches(d, s1)
  {
    assert RunLocal(Base(d, s, BR), Mine(d, s, BR)) == Some(View(s1, BR));
    FinishBridge(d, s);
    BaseBridge(d, s);
  }

  lemma EndChildren(d: Desired, s: State, s1: State, n: Name)
    requires Sound(s) && Free(d, s) && Ends(d, s, s1) && !Conflict(d, s, n) && IsChild(s1, n, BR)
    ensures n in d.svis
  {
    if n !in d.svis {
      EndKinds(d, s, s1, n);
      BaseForeign(d, s, n);
      BaseStray(d, s, n);
    }
  }

  /** Everything but relapsed ports matches after one round. */
  lemma EndMatches(d: Desired, s: State, s1: State)
    requires Sound(s) && Free(d, s) && Ends(d, s, s1) && forall n :: !Conflict(d, s, n)
    ensures (forall n :: !Relapse(d, s, n)) ==> Matches(d, s1)
  {
    if forall n :: !Relapse(d, s, n) {
      EndBridge(d, s, s1);
      EndPlatform(d, s, s1);
      forall n | IsPort(s1, n) ensures PortMatches(d, s1, n) { EndPorts(d, s, s1, n); EndPort(d, s, s1, n); }
      forall n | n in d.svis ensures SviMatches(d, s1, n) { EndSvi(d, s, s1, n); }
      forall n | IsChild(s1, n, BR) ensures n in d.svis { EndChildren(d, s, s1, n); }
    }
  }

  // ----- well-formedness over a round -----

  /** VLAN ids as the validator lets them through. */
  ghost predicate ValidIds(d: Desired) {
    && (forall n, v :: n in d.ports && d.ports[n].Carries(v) ==> ValidVid(v))
    && (forall n :: n in d.svis ==> ValidVid(d.svis[n].vlan))
  }

  lemma SyncValid(n: Name, have: Table, want: Table)
    requires forall v :: v in want ==> ValidVid(v)
    ensures forall op :: op in SyncOps(n, have, want) ==> ValidOp(op)
  {
    var f, g := AddMissing(n, have, want), DelVid(n);
    forall op | op in SyncOps(n, have, want) ensures ValidOp(op) {
      FlatIn(PvidFirst(want), f, op);
      FlatIn(Numbers(have.Keys - want.Keys), g, op);
    }
  }

  lemma AddrValid(n: Name, svi: Svi, have: set<Prefix>, dhcp: map<Prefix, nat>)
    ensures forall op :: op in AddrOps(n, svi, have, dhcp) ==> ValidOp(op)
  {
    var f, g := AddAddr(n, dhcp), DelAddr(n);
    forall op | op in AddrOps(n, svi, have, dhcp) ensures ValidOp(op) {
      FlatIn(Prefixes(svi.addresses - have), f, op);
      FlatIn(Prefixes(have - svi.addresses), g, op);
      FlatIn(Prefixes(dhcp.Keys - svi.addresses), g, op);
    }
  }

  lemma LeftValid(s: State, n: Name)
    ensures forall op :: op in Leftovers(s, n) ==> ValidOp(op)
  {
    var g := DelAddr(n);
    forall op | op in Leftovers(s, n) ensures ValidOp(op) {
      FlatIn(Prefixes(AddrsOf(s, n)), g, op);
      FlatIn(Prefixes(DhcpOf(s, n).Keys), g, op);
    }
  }

  lemma PortValid(d: Desired, s: State, n: Name)
    requires ValidIds(d)
    ensures forall op :: op in PortOps(d, s, n) ==> ValidOp(op)
  {
    if n in d.ports {
      PortTablePvid(d.ports[n]);
      SyncValid(n, HaveVlans(s, n), PortTable(d.ports[n]));
    }
  }

  lemma SviValid(d: Desired, s: State, n: Name)
    requires ValidIds(d)
    ensures forall op :: op in SviOps(d, s, n) ==> ValidOp(op)
  {
    if n in d.svis {
      AddrValid(n, d.svis[n], AddrsOf(s, n), DhcpOf(s, n));
      AddrValid(n, d.svis[n], {}, map[]);
    }
  }

  lemma SelfValid(d: Desired, have: Table)
    requires ValidIds(d)
    ensures forall op :: op in SyncOps(BR, have, SelfTable(d)) ==> ValidOp(op)
  {
    SyncValid(BR, have, SelfTable(d));
  }

  lemma TailValid(d: Desired, s: State)
    requires ValidIds(d) && BR !in d.svis
    ensures forall op :: op in TailOps(d, s) ==> ValidOp(op)
  {
    forall op | op in TailOps(d, s) ensures ValidOp(op) {
      var n := op.name;
      OnTail(d, s, n);
      assert op in Mine(d, s, n);
      PortValid(d, s, n);
      SviValid(d, s, n);
      SelfValid(d, if Fresh(s) then map[] else VlansOf(s, BR));
      LeftValid(s, n);
    }
  }

  lemma OpeningValid(d: Desired, s: State)
    ensures forall op :: op in OpeningOps(d, s) ==> ValidOp(op)
  {
    var ups, dels := PlatformOps(s), Deletes(Names(StaleLinks(d, s)));
    forall op | op in ups ensures ValidOp(op) { FlatIn(Names(Platform(s)), PutUp(s), op); }
    ValidParts(ups, RepairOps(s), BridgeOps(d, s), dels);
  }

  lemma ValidParts(a: seq<Op>, b: seq<Op>, c: seq<Op>, e: seq<Op>)
    requires (forall op :: op in a ==> ValidOp(op)) && (forall op :: op in b ==> ValidOp(op))
    requires (forall op :: op in c ==> ValidOp(op)) && (forall op :: op in e ==> ValidOp(op))
    ensures forall op :: op in a + b + c + e ==> ValidOp(op)
  {
  }

  lemma RoundValid(d: Desired, s: State)
    requires ValidIds(d) && BR !in d.svis
    ensures forall op :: op in RoundOps(d, s) ==> ValidOp(op)
  {
    RoundSplits(d, s);
    OpeningValid(d, s);
    TailValid(d, s);
  }

  // ----- round two -----

  lemma ReaddOnly(n: Name, want: Table, dflt: Vid)
    requires dflt in want
    ensures forall op :: op in SyncOps(n, want - {dflt}, want) ==> op == AddBridgeVlan(n, dflt, want[dflt])
  {
    var have := want - {dflt};
    var f, g := AddMissing(n, have, want), DelVid(n);
    forall op | op in SyncOps(n, have, want) ensures op == AddBridgeVlan(n, dflt, want[dflt]) {
      FlatIn(PvidFirst(want), f, op);
      FlatIn(Numbers(have.Keys - want.Keys), g, op);
      assert have.Keys - want.Keys == {};
    }
  }

  lemma PortReadds(d: Desired, s: State, s1: State, n: Name)
    requires Sound(s) && Free(d, s) && Ends(d, s, s1) && !Conflict(d, s, n) && IsPort(s, n) && IsPort(s1, n)
             && RepairOf(s1).Keep?
    ensures forall op :: op in PortOps(d, s1, n) ==> op == AddBridgeVlan(n, DroppedPvid(s), ACCESS)
    ensures !Relapse(d, s, n) ==> PortOps(d, s1, n) == []
  {
    EndPort(d, s, s1, n);
    if Relapse(d, s, n) {
      var want := PortTable(d.ports[n]);
      PortTablePvid(d.ports[n]);
      ReaddOnly(n, want, DroppedPvid(s));
      assert HaveVlans(s1, n) == want - {DroppedPvid(s)};
    } else {
      PortEmpty(d, s1, n);
    }
  }

  lemma LeftoversDone(d: Desired, s: State, s1: State)
    requires Sound(s) && Free(d, s) && Ends(d, s, s1) && forall n :: !Conflict(d, s, n)
    ensures LeftoverOps(s1) == []
  {
    LeftoversEmpty(s1);
    forall n | Owned(s1, n) ensures AddrsOf(s1, n) == {} && DhcpOf(s1, n) == map[] {
      EndPorts(d, s, s1, n);
      if IsPort(s, n) { EndPort(d, s, s1, n); } else { EndBridge(d, s, s1); }
    }
  }

  lemma OpeningDone(d: Desired, s: State, s1: State)
    requires Sound(s) && Free(d, s) && Ends(d, s, s1) && WellFormed(s1) && forall n :: !Conflict(d, s, n)
    ensures OpeningOps(d, s1) == []
  {
    EndSound(d, s, s1);
    EndBridge(d, s, s1);
    EndPlatform(d, s, s1);
    HeadEmpty(d, s1);
    PlatformEmpty(s1);
    StaleEmpty(d, s1);
    forall n | IsChild(s1, n, BR) ensures Kept(d, s1, n) {
      EndChildren(d, s, s1, n);
      EndSvi(d, s, s1, n);
    }
    assert RepairOps(s1) + BridgeOps(d, s1) == [];
  }

  lemma SvisDone(d: Desired, s: State, s1: State)
    requires Sound(s) && Free(d, s) && Ends(d, s, s1) && WellFormed(s1) && forall n :: !Conflict(d, s, n)
    ensures Flat(Names(d.svis.Keys), EachSvi(d, s1)) == []
    ensures SyncOps(BR, VlansOf(s1, BR), SelfTable(d)) == []
  {
    EndSound(d, s, s1);
    SvisEmpty(d, s1);
    forall n | n in d.svis ensures SviMatches(d, s1, n) { EndSvi(d, s, s1, n); }
    EndBridge(d, s, s1);
    SyncEmpty(BR, VlansOf(s1, BR), SelfTable(d));
  }

  /** After round one only ports have anything left to do. */
  lemma SecondRoundPorts(d: Desired, s: State, s1: State)
    requires Sound(s) && Free(d, s) && Ends(d, s, s1) && WellFormed(s1) && forall n :: !Conflict(d, s, n)
    ensures RoundOps(d, s1) == Flat(Names(s1.links.Keys), EachPort(d, s1))
  {
    RoundSplits(d, s1);
    OpeningDone(d, s, s1);
    SvisDone(d, s, s1);
    LeftoversDone(d, s, s1);
    OnlyPorts(Flat(Names(s1.links.Keys), EachPort(d, s1)));
  }

  lemma OnlyPorts(ports: seq<Op>)
    ensures [] + (ports + [] + [] + []) == ports
  {
  }

  /** Round two only adds back the default entries that reconfiguring the bridge removed. */
  lemma SecondRoundReadds(d: Desired, s: State, s1: State)
    requires Sound(s) && Free(d, s) && Ends(d, s, s1) && WellFormed(s1) && forall n :: !Conflict(d, s, n)
    ensures forall op ::
            op in RoundOps(d, s1) ==> op == AddBridgeVlan(op.name, DroppedPvid(s), ACCESS) && Relapse(d, s, op.name)
  {
    SecondRoundPorts(d, s, s1);
    EndSound(d, s, s1);
    var ports := Flat(Names(s1.links.Keys), EachPort(d, s1));
    forall op | op in ports ensures op == AddBridgeVlan(op.name, DroppedPvid(s), ACCESS) && Relapse(d, s, op.name) {
      FlatIn(Names(s1.links.Keys), EachPort(d, s1), op);
      var n :| n in Names(s1.links.Keys) && op in EachPort(d, s1)(n);
      PortReaddsOnly(d, s, s1, n, op);
    }
  }

  lemma PortReaddsOnly(d: Desired, s: State, s1: State, n: Name, op: Op)
    requires Sound(s) && Free(d, s) && Ends(d, s, s1) && WellFormed(s1) && (forall m :: !Conflict(d, s, m))
             && op in PortOps(d, s1, n)
    requires RepairOf(s1).Keep?
    ensures op == AddBridgeVlan(op.name, DroppedPvid(s), ACCESS) && Relapse(d, s, op.name)
  {
    assert IsPort(s1, n);
    EndPorts(d, s, s1, n);
    PortReadds(d, s, s1, n);
  }

  // ----- reconcile -----

  const MAX_ROUNDS := 3

  datatype Failure = PlanFailed(error: PlanError) | Refused(refusal: Error) | NoConvergence

  datatype Done = Done(state: State, result: Result<seq<Op>, Failure>)

  datatype Turn = Settled | Worked(ops: seq<Op>, next: State) | Failed(left: State, failure: Failure)

  /** One round: observe, plan, apply. */
  function TurnOf(d: Desired, s: State): Turn {
    match Plan(d, s)
    case Err(e) => Failed(s, PlanFailed(e))
    case Ok(plan) =>
      var ops := PlatformOps(s) + plan;
      var r := Run(s, ops);
      if ops == [] then Settled
      else if r.Accepted() then Worked(ops, r.state)
      else Failed(r.state, Refused(r.error.value))
  }

  function Turns(d: Desired): State -> Turn { s => TurnOf(d, s) }

  /** `left` more rounds, `applied` so far. */
  function Rounds(turn: State -> Turn, s: State, left: nat, applied: seq<Op>): Done
    decreases left
  {
    if left == 0 then Done(s, Err(NoConvergence)) else
      match turn(s)
      case Settled => Done(s, Ok(applied))
      case Worked(ops, next) => Rounds(turn, next, left - 1, applied + ops)
      case Failed(s', e) => Done(s', Err(e))
  }

  function Reconcile(d: Desired, s: State): Done { Rounds(Turns(d), s, MAX_ROUNDS, []) }

  lemma TurnIs(d: Desired, s: State)
    requires Free(d, s)
    ensures Turns(d)(s) ==
            if RoundOps(d, s) == [] then Settled
            else if Run(s, RoundOps(d, s)).Accepted() then Worked(RoundOps(d, s), Run(s, RoundOps(d, s)).state)
            else Failed(Run(s, RoundOps(d, s)).state, Refused(Run(s, RoundOps(d, s)).error.value))
  {
    PlanFails(d, s);
  }

  /** A round that has nothing to do, or works and leaves nothing to do. */
  lemma SettlesInOne(turn: State -> Turn, s: State, s1: State, ops: seq<Op>, left: nat, applied: seq<Op>)
    requires left >= 2
    requires if ops == [] then turn(s).Settled? && s1 == s else turn(s) == Worked(ops, s1) && turn(s1).Settled?
    ensures Rounds(turn, s, left, applied) == Done(s1, Ok(applied + ops))
  {
    assert applied + [] == applied;
  }

  lemma SettlesInTwo(turn: State -> Turn, s: State, s1: State, s2: State, ops: seq<Op>, more: seq<Op>)
    requires if ops == [] then turn(s).Settled? && s1 == s else turn(s) == Worked(ops, s1)
    requires if more == [] then turn(s1).Settled? && s2 == s1 else turn(s1) == Worked(more, s2) && turn(s2).Settled?
    requires ops == [] ==> more == []
    ensures Rounds(turn, s, MAX_ROUNDS, []) == Done(s2, Ok(ops + more))
  {
    if ops == [] {
      assert [] + [] == ops + more;
    } else {
      assert [] + ops == ops;
      SettlesInOne(turn, s1, s2, more, 2, ops);
    }
  }

  lemma RoundEmptyIffMatches(d: Desired, s: State)
    requires Free(d, s)
    ensures RoundOps(d, s) == [] <==> Matches(d, s)
  {
    PlanFails(d, s);
    NothingToDo(d, s);
    assert RoundOps(d, s) == [] <==> PlatformOps(s) == [] && PlanOps(d, s) == [];
  }

  lemma RoundEnds(d: Desired, s: State) returns (s1: State)
    requires Sound(s) && Free(d, s) && ValidIds(d) && forall n :: !Conflict(d, s, n)
    ensures Run(s, RoundOps(d, s)) == Fine(s1)
    ensures Sound(s1) && Free(d, s1) && Ends(d, s, s1) && WellFormed(s1) && RepairOf(s1).Keep?
    ensures (forall n :: !Relapse(d, s, n)) ==> Matches(d, s1)
  {
    RunRound(d, s);
    s1 := Run(s, RoundOps(d, s)).state;
    RoundValid(d, s);
    RunKeeps(s, RoundOps(d, s));
    EndSound(d, s, s1);
    EndMatches(d, s, s1);
  }

  /** The rest of a run after its first round. */
  ghost function SecondOps(d: Desired, s: State): seq<Op> { RoundOps(d, Run(s, RoundOps(d, s)).state) }

  lemma ConvergesTwice(d: Desired, s: State) returns (s1: State, s2: State)
    requires Sound(s) && Free(d, s) && ValidIds(d) && forall n :: !Conflict(d, s, n)
    ensures Run(s, RoundOps(d, s)) == Fine(s1) && Run(s1, RoundOps(d, s1)) == Fine(s2)
    ensures Matches(d, s2)
    ensures Reconcile(d, s) == Done(s2, Ok(RoundOps(d, s) + RoundOps(d, s1)))
  {
    s1 := RoundEnds(d, s);
    SettledBridge(d, s1);
    s2 := RoundEnds(d, s1);
    TurnIs(d, s);
    TurnIs(d, s1);
    TurnIs(d, s2);
    RoundEmptyIffMatches(d, s2);
    SettlesInTwo(Turns(d), s, s1, s2, RoundOps(d, s), RoundOps(d, s1));
  }

  /**
   * Reconciliation succeeds exactly when no port asks to delete the default entry that
   * reconfiguring the bridge deletes, and then the kernel matches. Round one does all the work,
   * unless ports relapse: then round two adds back the dropped PVID, and nothing else.
   */
  lemma Converges(d: Desired, s: State)
    requires Sound(s) && Free(d, s) && ValidIds(d)
    ensures Reconcile(d, s).result.Ok? <==> forall n :: !Conflict(d, s, n)
    ensures Reconcile(d, s).result.Ok? ==>
              && Matches(d, Reconcile(d, s).state)
              && Reconcile(d, s).result == Ok(RoundOps(d, s) + SecondOps(d, s))
              && (forall op ::
                 op in SecondOps(d, s) ==>
                 op == AddBridgeVlan(op.name, DroppedPvid(s), ACCESS) && Relapse(d, s, op.name))
              && ((forall n :: !Relapse(d, s, n)) ==> SecondOps(d, s) == [])
  {
    if forall n :: !Conflict(d, s, n) { ConvergesFree(d, s); } else { ConvergesNot(d, s); }
  }

  lemma ConvergesFree(d: Desired, s: State)
    requires Sound(s) && Free(d, s) && ValidIds(d) && forall n :: !Conflict(d, s, n)
    ensures Reconcile(d, s).result == Ok(RoundOps(d, s) + SecondOps(d, s)) && Matches(d, Reconcile(d, s).state)
    ensures forall op ::
            op in SecondOps(d, s) ==> op == AddBridgeVlan(op.name, DroppedPvid(s), ACCESS) && Relapse(d, s, op.name)
    ensures (forall n :: !Relapse(d, s, n)) ==> SecondOps(d, s) == []
  {
    var s1, s2 := ConvergesTwice(d, s);
    var s1' := RoundEnds(d, s);
    SecondRoundReadds(d, s, s1);
    RoundEmptyIffMatches(d, s1);
  }

  lemma ConvergesNot(d: Desired, s: State)
    requires Sound(s) && Free(d, s) && !forall n :: !Conflict(d, s, n)
    ensures Reconcile(d, s).result.Err?
  {
    TurnFails(d, s);
    FailsAtOnce(Turns(d), s);
  }

  lemma TurnFails(d: Desired, s: State)
    requires Sound(s) && Free(d, s) && !forall n :: !Conflict(d, s, n)
    ensures Turns(d)(s).Failed?
  {
    TurnIs(d, s);
    RunRound(d, s);
    ConflictMeansWork(d, s);
  }

  lemma FailsAtOnce(turn: State -> Turn, s: State)
    requires turn(s).Failed?
    ensures Rounds(turn, s, MAX_ROUNDS, []).result.Err?
  {
  }

  lemma SettledBridge(d: Desired, s: State)
    requires RepairOf(s).Keep?
    ensures forall n :: !Conflict(d, s, n) && !Relapse(d, s, n)
  {
  }

  lemma ConflictMeansWork(d: Desired, s: State)
    requires !forall n :: !Conflict(d, s, n)
    ensures RepairOf(s).Reconfigure? && RoundOps(d, s) != []
  {
    var n :| Conflict(d, s, n);
    assert RepairOps(s)[0] in RoundOps(d, s);
  }

  // ----- the exception is real -----

  /** One port in a bridge as the distribution's network script leaves it: no VLAN filtering, default PVID 1. */
  function ScriptedBridge(port: Name): State {
    State(
      map[BR := Link(Bridge(false, 1, false, Off), true, None), port := Link(Dsa(None), true, Some(BR))],
      map[port := map[1 := ACCESS]],
      map[],
      map[])
  }

  function AccessVlan(port: Name, v: Vid): Desired {
    Desired(Dot1q, map[v := VlanInfo(None, true)], map[port := Port(true, Some(v), {})], map[], None)
  }

  /** Moving such a port to another access VLAN fails: the plan deletes an entry that is already gone. */
  lemma ConflictHappens(port: Name, v: Vid)
    requires port != BR && port != LO && ValidVid(v) && v != 1
    ensures var d, s := AccessVlan(port, v), ScriptedBridge(port);
            Sound(s) && Free(d, s) && ValidIds(d) && Reconcile(d, s).result.Err?
  {
    var d, s := AccessVlan(port, v), ScriptedBridge(port);
    assert BR != LO by { assert |BR.text| != |LO.text|; }
    assert Platform(s) == {LO};
    forall n ensures DeviceOk(View(s, n)) { }
    forall n ensures !Keeps(s, 1, n) { }
    assert RepairOf(s).Reconfigure?;
    assert Conflict(d, s, port);
    Converges(d, s);
  }
}
