/** What the operations of a reconciliation do to ports and SVIs, whatever the kernel they run on. */
module RoundEffects {
  import opened Basics
  import opened Model
  import opened Kernel
  import opened Planner
  import opened Devices
  import opened Opening
  import opened Closing
  import opened Round
  import opened Stages
  import opened Transitions
  import opened AddressMoves
  import opened Convergence
  import opened Reconciler
  import opened Hearing
  import opened DhcpManager

  // ----- ports that leave -----

  predicate Leaving(op: Op) { op.SetMaster? && op.master.None? }

  lemma PortOpsLeave(d: Desired, s: State, n: Name)
    requires n in d.ports
    ensures forall op :: op in PortOps(d, s, n) ==> !Leaving(op)
  {
    if IsPort(s, n) {
      var sync := SyncOps(n, HaveVlans(s, n), PortTable(d.ports[n]));
      var up := if s.links[n].up != d.ports[n].enabled then [SetUp(n, d.ports[n].enabled)] else [];
      var join := if Enslaved(s, n) then [] else [SetMaster(n, Some(BR))];
      SyncTables(n, HaveVlans(s, n), PortTable(d.ports[n]));
      NoneLeaves(join, sync, up);
    }
  }

  lemma NoneLeaves(a: seq<Op>, b: seq<Op>, c: seq<Op>)
    requires (forall op :: op in a ==> !Leaving(op)) && (forall op :: op in b ==> !Leaving(op))
             && (forall op :: op in c ==> !Leaving(op))
    ensures forall op :: op in a + b + c ==> !Leaving(op)
  {
  }

  lemma OthersStay(d: Desired, s: State, n: Name, sync: seq<Op>)
    requires sync == if n == BR then SyncOps(BR, if Fresh(s) then map[] else VlansOf(s, BR), SelfTable(d)) else []
    ensures forall op :: op in sync + SviOps(d, s, n) + Leftovers(s, n) ==> !Leaving(op)
  {
    SyncTables(BR, if Fresh(s) then map[] else VlansOf(s, BR), SelfTable(d));
    LeftTables(s, n);
    SviNoMaster(d, s, n);
    NoneLeaves(sync, SviOps(d, s, n), Leftovers(s, n));
  }

  lemma InFour(a: seq<Op>, b: seq<Op>, c: seq<Op>, e: seq<Op>, op: Op)
    ensures op in a + b + c + e <==> op in a || op in b + c + e
  {
  }

  lemma PortLeaves(d: Desired, s: State, op: Op)
    requires BR !in d.svis && op in TailOps(d, s) && Leaving(op)
    ensures op.name !in d.ports
  {
    var n := op.name;
    OnTail(d, s, n);
    assert op in On(TailOps(d, s), n);
    var sync := if n == BR then SyncOps(BR, if Fresh(s) then map[] else VlansOf(s, BR), SelfTable(d)) else [];
    InFour(PortOps(d, s, n), sync, SviOps(d, s, n), Leftovers(s, n), op);
    OthersStay(d, s, n, sync);
    if n in d.ports { PortOpsLeave(d, s, n); }
  }

  lemma SviNoMaster(d: Desired, s: State, n: Name)
    ensures forall op :: op in SviOps(d, s, n) ==> !op.SetMaster?
    ensures Kept(d, s, n) ==> forall op :: op in SviOps(d, s, n) ==> !op.CreateVlan?
  {
    if n in d.svis {
      var svi := d.svis[n];
      AddrsOnly(n, svi, AddrsOf(s, n), DhcpOf(s, n));
      AddrsOnly(n, svi, {}, map[]);
    }
  }

  lemma LeavesAt(d: Desired, s: State, k: nat)
    requires BR !in d.svis && k < |RoundOps(d, s)| && Leaving(RoundOps(d, s)[k])
    ensures RoundOps(d, s)[k].name !in d.ports.Keys
  {
    JoinIsLate(d, s, k);
    PortLeaves(d, s, RoundOps(d, s)[k]);
  }

  /** A bridge is deleted only to be created anew. */
  lemma ReplacedAnew(d: Desired, s: State)
    requires BR !in d.svis && DeleteLink(BR) in RoundOps(d, s)
    ensures RepairOf(s).Replace? && Resend(RoundOps(d, s))
  {
    RoundExpected(d, s);
    FreshCreates(d, s);
  }

  lemma LeavesEach(ops: seq<Op>, ports: set<Name>)
    requires forall k :: 0 <= k < |ops| && Leaving(ops[k]) ==> ops[k].name !in ports
    requires DeleteLink(BR) in ops ==> Resend(ops)
    ensures LeavesOnly(ops, ports)
  {
  }

  lemma RoundLeaves(d: Desired, s: State)
    requires BR !in d.svis
    ensures LeavesOnly(RoundOps(d, s), d.ports.Keys)
  {
    forall k | 0 <= k < |RoundOps(d, s)| && Leaving(RoundOps(d, s)[k]) ensures RoundOps(d, s)[k].name !in d.ports.Keys
    {
      LeavesAt(d, s, k);
    }
    if DeleteLink(BR) in RoundOps(d, s) { ReplacedAnew(d, s); }
    LeavesEach(RoundOps(d, s), d.ports.Keys);
  }

  lemma {:induction false} JoinedLeaves(rounds: seq<seq<Op>>, ports: set<Name>)
    requires forall i :: 0 <= i < |rounds| ==> LeavesOnly(rounds[i], ports)
    ensures LeavesOnly(Joined(rounds), ports)
    decreases rounds
  {
    if rounds != [] {
      var rest := rounds[..|rounds| - 1];
      assert forall i :: 0 <= i < |rest| ==> rest[i] == rounds[i];
      JoinedLeaves(rest, ports);
    }
  }

  // ----- links of SVIs that go -----

  /** An operation that takes the link of an SVI away is followed by one that creates it anew. */
  lemma RoundRelinks(d: Desired, s: State, n: Name)
    requires BR !in d.svis && n in d.svis && Unlinked(RoundOps(d, s), n)
    ensures CreateVlan(n, BR, d.svis[n].vlan) in RoundOps(d, s)
  {
    var op :| op in RoundOps(d, s) && Unlinks(op, n);
    RoundSplits(d, s);
    assert op in OpeningOps(d, s) || op in TailOps(d, s);
    NotKept(d, s, n, op);
    CreatesSvi(d, s, n);
  }

  lemma NotKept(d: Desired, s: State, n: Name, op: Op)
    requires BR !in d.svis && n in d.svis && Unlinks(op, n) && (op in OpeningOps(d, s) || op in TailOps(d, s))
    ensures !Kept(d, s, n)
  {
    if op in TailOps(d, s) {
      TailNeverDeletes(d, s, op);
      TailCreates(d, s, n, op);
    } else {
      OpeningMild(d, s);
      assert !Mild(op);
      DeletedNotKept(d, s, n, op);
    }
  }

  lemma TailNeverDeletes(d: Desired, s: State, op: Op)
    requires BR !in d.svis && op in TailOps(d, s)
    ensures !op.DeleteLink?
  {
    TailLocal(d, s);
  }

  lemma DeletedNotKept(d: Desired, s: State, n: Name, op: Op)
    requires Unlinks(op, n) && op.DeleteLink? && n != BR
    requires (op.name == BR && RepairOf(s).Replace?) || op.name in StaleLinks(d, s)
    ensures !Kept(d, s, n)
  {
  }

  lemma TailCreates(d: Desired, s: State, n: Name, op: Op)
    requires BR !in d.svis && n in d.svis && op.CreateVlan? && op.name == n && op in TailOps(d, s)
    ensures !Kept(d, s, n)
  {
    OnTail(d, s, n);
    assert op in On(TailOps(d, s), n);
    InFour(PortOps(d, s, n), [], SviOps(d, s, n), Leftovers(s, n), op);
    PortsOnly(d, s, [n]);
    FlatOne(n, EachPort(d, s));
    LeftTables(s, n);
    SviNoMaster(d, s, n);
  }

  lemma FlatOne<K, T>(k: K, f: K -> seq<T>)
    ensures Flat([k], f) == f(k)
  {
    assert [k][1..] == [];
  }

  lemma CreatesSvi(d: Desired, s: State, n: Name)
    requires n in d.svis && !Kept(d, s, n)
    ensures CreateVlan(n, BR, d.svis[n].vlan) in RoundOps(d, s)
  {
    var op := CreateVlan(n, BR, d.svis[n].vlan);
    assert SviOps(d, s, n)[0] == op;
    FlatIn(Names(d.svis.Keys), EachSvi(d, s), op);
    assert n in Names(d.svis.Keys) && op in EachSvi(d, s)(n);
    SvisIn(d, s, op);
  }

  lemma SvisIn(d: Desired, s: State, op: Op)
    requires op in Flat(Names(d.svis.Keys), EachSvi(d, s))
    ensures op in RoundOps(d, s)
  {
    RoundSplits(d, s);
  }

  lemma {:induction false} JoinedHas(rounds: seq<seq<Op>>, i: nat, op: Op)
    requires i < |rounds| && op in rounds[i]
    ensures op in Joined(rounds)
    decreases rounds
  {
    if i < |rounds| - 1 { JoinedHas(rounds[..|rounds| - 1], i, op); }
  }

  lemma {:induction false} JoinedFrom(rounds: seq<seq<Op>>, op: Op) returns (i: nat)
    requires op in Joined(rounds)
    ensures i < |rounds| && op in rounds[i]
    decreases rounds
  {
    if op in rounds[|rounds| - 1] {
      i := |rounds| - 1;
    } else {
      i := JoinedFrom(rounds[..|rounds| - 1], op);
    }
  }

  /** A reconciliation that succeeds takes no configured port out of the bridge. */
  lemma RanLeaves(d: Desired, b: Backend, rounds: seq<seq<Op>>, part: seq<Op>)
    requires BR !in d.svis && RanOn(d, b, true, rounds, part)
    ensures LeavesOnly(Joined(rounds) + part, d.ports.Keys)
  {
    forall i | 0 <= i < |rounds| ensures LeavesOnly(rounds[i], d.ports.Keys) { RoundLeaves(d, b.observe(i).value); }
    JoinedLeaves(rounds, d.ports.Keys);
    assert Joined(rounds) + part == Joined(rounds);
  }

  /** One that takes the link of an SVI away creates it anew. */
  lemma RanRelinks(d: Desired, b: Backend, rounds: seq<seq<Op>>, part: seq<Op>, n: Name)
    requires BR !in d.svis && n in d.svis && RanOn(d, b, true, rounds, part) && Unlinked(Joined(rounds) + part, n)
    ensures CreateVlan(n, BR, d.svis[n].vlan) in Joined(rounds) + part
  {
    var op :| op in Joined(rounds) + part && Unlinks(op, n);
    var i := JoinedFrom(rounds, op);
    RoundRelinks(d, b.observe(i).value, n);
    JoinedHas(rounds, i, CreateVlan(n, BR, d.svis[n].vlan));
  }
}
