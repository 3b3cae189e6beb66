/** Links that are neither the bridge, nor ports, nor SVIs, over a whole reconciliation. */
module Bystanders {
  import opened Basics
  import opened Model
  import opened Kernel
  import opened Devices
  import opened Deletion
  import opened Invariant
  import opened Planner
  import opened Matching
  import opened Opening
  import opened Closing
  import opened Round
  import opened Convergence
  import opened Stages
  import opened Transitions

  ghost predicate Foreign(d: Desired, s: State, m: Name) { m != BR && !IsPort(s, m) && m !in d.svis }

  /** What is deleted: the VLAN links resting on a replaced bridge, or on a stale VLAN link of a bridge that stays. */
  ghost function Doomed(d: Desired, s: State): set<Name> {
    match RepairOf(s)
    case Replace => Fallen(s, {BR})
    case Create => {}
    case _ => Fallen(s, StaleLinks(d, s))
  }

  /**
   * All that reconciliation does to another link: it goes if it is doomed; it comes up if it is
   * loopback or a conduit; it is freed if the bridge it was in is replaced; and it loses the
   * default entry if the bridge it is in is reconfigured.
   */
  ghost function Bystander(d: Desired, s: State, m: Name): Device {
    var v := View(s, m);
    if m in Doomed(d, s) then BLANK
    else if v.link.None? then v
    else
      var freed := RepairOf(s).Replace? && InBridge(s, m, BR);
      Device(
        Some(Link(v.link.value.kind, v.link.value.up || m in Platform(s), if freed then None else v.link.value.master)),
        if freed then map[]
            else if RepairOf(s).Reconfigure?
            && InBridge(s, m, BR) then DropDefault(v.vlans, s.links[BR].kind.defaultPvid) else v.vlans,
        v.addrs,
        v.dhcp)
  }

  lemma MasterInFallen(s: State, roots: set<Name>, m: Name)
    requires WellFormed(s) && m in s.links && s.links[m].master.Some?
    ensures s.links[m].master.value in Fallen(s, roots) <==> s.links[m].master.value in roots
  {
    var b := s.links[m].master.value;
    assert MasterOk(s, m);
    if b in roots {
      assert Above(StackOf(s), b, b, 0) && Rests(StackOf(s), b, b);
    } else {
      Stands(s, roots, b);
    }
  }

  lemma BaseIsBystander(d: Desired, s: State, m: Name)
    requires Sound(s) && Foreign(d, s, m)
    ensures Base(d, s, m) == Bystander(d, s, m)
  {
    assert DeviceOk(View(s, m));
    if m in s.links && s.links[m].master.Some? {
      MasterInFallen(s, {BR}, m);
      MasterInFallen(s, StaleLinks(d, s), m);
      assert MasterOk(s, m);
    }
  }

  lemma AfterRound(d: Desired, s: State, s1: State, m: Name)
    requires Sound(s) && Free(d, s) && Ends(d, s, s1) && Foreign(d, s, m)
    ensures View(s1, m) == Bystander(d, s, m)
  {
    assert RunLocal(Base(d, s, m), Mine(d, s, m)) == Some(View(s1, m));
    FinishOther(d, s, m);
    BaseIsBystander(d, s, m);
  }

  /** On a kernel that a round has settled, nothing more happens to other links. */
  lemma NothingMore(d: Desired, s: State, m: Name)
    requires RepairOf(s).Keep? && StaleLinks(d, s) == {} && (m in Platform(s) && m in s.links ==> s.links[m].up)
    ensures Bystander(d, s, m) == View(s, m)
  {
    assert Fallen(s, {}) == {};
  }

  /** Other links over a whole run of reconciliation, whether it succeeds or ends in a conflict. */
  lemma ForeignKept(d: Desired, s: State, m: Name)
    requires Sound(s) && Free(d, s) && ValidIds(d) && Foreign(d, s, m)
    ensures View(Reconcile(d, s).state, m) == Bystander(d, s, m)
  {
    if forall n :: !Conflict(d, s, n) { ForeignSettled(d, s, m); } else { ForeignFailed(d, s, m); }
  }

  lemma ForeignSettled(d: Desired, s: State, m: Name)
    requires Sound(s) && Free(d, s) && ValidIds(d) && (forall n :: !Conflict(d, s, n)) && Foreign(d, s, m)
    ensures View(Reconcile(d, s).state, m) == Bystander(d, s, m)
  {
    var s1, s2 := ConvergesTwice(d, s);
    var s1' := RoundEnds(d, s);
    AfterRound(d, s, s1, m);
    SettledBridge(d, s1);
    var s2' := RoundEnds(d, s1);
    EndPorts(d, s, s1, m);
    AfterRound(d, s1, s2, m);
    EndPlatform(d, s, s1);
    NoStale(d, s, s1);
    NothingMore(d, s1, m);
  }

  /** A run that fails ends where the operations before the refused one lead. */
  lemma {:induction false} RefusedAt(s: State, ops: seq<Op>) returns (k: nat)
    requires !Run(s, ops).Accepted() && forall op :: op in ops ==> Local(op)
    ensures k < |ops| && Run(s, ops[..k]) == Fine(Run(s, ops).state)
    decreases ops
  {
    assert ops[0] in ops;
    if Step(s, ops[0]).Accepted() {
      var j := RefusedAt(Step(s, ops[0]).state, ops[1..]);
      k := j + 1;
      assert ops[..k][0] == ops[0] && ops[..k][1..] == ops[1..][..j];
    } else {
      k := 0;
    }
  }

  lemma FailsLate(d: Desired, s: State) returns (k: nat)
    requires Sound(s) && Free(d, s) && !Run(s, RoundOps(d, s)).Accepted()
    ensures |OpeningOps(d, s)| <= k <= |RoundOps(d, s)|
            && Run(s, RoundOps(d, s)[..k]) == Fine(Run(s, RoundOps(d, s)).state)
  {
    var t := RunOpening(d, s);
    RoundSplits(d, s);
    TailLocal(d, s);
    k := FailsInSecond(s, t, OpeningOps(d, s), TailOps(d, s));
  }

  lemma FailsInSecond(s: State, t: State, a: seq<Op>, b: seq<Op>) returns (k: nat)
    requires Run(s, a) == Fine(t) && !Run(s, a + b).Accepted() && forall op :: op in b ==> Local(op)
    ensures |a| <= k <= |a + b| && Run(s, (a + b)[..k]) == Fine(Run(s, a + b).state)
  {
    RunAppend(s, a, b);
    var j := RefusedAt(t, b);
    k := |a| + j;
    PrefixOfConcat(a, b, k);
    RunAppend(s, a, b[..j]);
  }

  lemma ForeignFailed(d: Desired, s: State, m: Name)
    requires Sound(s) && Free(d, s) && !(forall n :: !Conflict(d, s, n)) && Foreign(d, s, m)
    ensures View(Reconcile(d, s).state, m) == Bystander(d, s, m)
  {
    RunRound(d, s);
    var k := FailsLate(d, s);
    ForeignLate(d, s, k, m);
    TurnFails(d, s);
    TurnIs(d, s);
    FailedState(Turns(d), s);
  }

  lemma FailedState(turn: State -> Turn, s: State)
    requires turn(s).Failed?
    ensures Rounds(turn, s, MAX_ROUNDS, []).state == turn(s).left
  {
  }

  lemma NoStale(d: Desired, s: State, s1: State)
    requires Sound(s) && Free(d, s) && Ends(d, s, s1) && forall n :: !Conflict(d, s, n)
    ensures StaleLinks(d, s1) == {}
  {
    forall n ensures !Stale(d, s1, n) {
      if IsChild(s1, n, BR) {
        EndChildren(d, s, s1, n);
        EndSvi(d, s, s1, n);
      }
    }
  }

  // ----- at every step -----

  /** Once the first part of a round is done, another link is as it will be. */
  lemma ForeignLate(d: Desired, s: State, k: nat, m: Name)
    requires Sound(s) && Free(d, s) && Foreign(d, s, m)
    requires |OpeningOps(d, s)| <= k <= |RoundOps(d, s)| && Run(s, RoundOps(d, s)[..k]).Accepted()
    ensures View(Run(s, RoundOps(d, s)[..k]).state, m) == Bystander(d, s, m)
  {
    var i := PartWay(d, s, k, m);
    FinishOther(d, s, m);
    BaseIsBystander(d, s, m);
  }

  /** Another link after every operation of a round that the kernel accepts: as on its way to what it will be. */
  lemma ForeignThroughout(d: Desired, s: State, k: nat, m: Name) returns (stage: Stage)
    requires Sound(s) && Free(d, s) && Foreign(d, s, m)
    requires k <= |RoundOps(d, s)| && Run(s, RoundOps(d, s)[..k]).Accepted()
    ensures View(Run(s, RoundOps(d, s)[..k]).state, m) == if stage.LinksDeleted? then Bystander(d, s, m)
            else Passing(d, s, m, stage)
  {
    if k >= |OpeningOps(d, s)| {
      ForeignLate(d, s, k, m);
      stage := LinksDeleted;
    } else {
      stage := EarlyStage(d, s, k, m);
      BaseIsBystander(d, s, m);
    }
  }
}
