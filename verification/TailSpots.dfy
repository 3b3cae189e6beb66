/** Points inside the second part of a round: which SVIs had their turn, and what every device is like. */
module TailSpots {
  import opened Basics
  import opened Model
  import opened Kernel
  import opened Devices
  import opened Deletion
  import opened Invariant
  import opened Planner
  import opened Matching
  import opened DeviceRuns
  import opened Opening
  import opened Closing
  import opened Round
  import opened Convergence
  import opened Stages
  import opened Transitions

  /** The ports and the bridge's own table. */
  function PortPart(d: Desired, s: State): seq<Op> {
    Flat(Names(s.links.Keys), EachPort(d, s)) + SyncOps(BR, if Fresh(s) then map[] else VlansOf(s, BR), SelfTable(d))
  }

  function Svis(d: Desired): seq<Name> { Names(d.svis.Keys) }

  /** Up to operation `i` of the turn of SVI `q`. */
  function Spot(d: Desired, s: State, q: nat, i: nat): seq<Op>
    requires q <= |Svis(d)| && (q < |Svis(d)| ==> i <= |SviOps(d, s, Svis(d)[q])|)
  {
    PortPart(d, s) + Flat(Svis(d)[..q], EachSvi(d, s)) + (if q < |Svis(d)| then SviOps(d, s, Svis(d)[q])[..i] else [])
  }

  // ----- sequences -----

  /** A point in a loop's output is in the output of one turn. */
  lemma {:induction false} FlatPoint<K, T>(ks: seq<K>, f: K -> seq<T>, j: nat) returns (q: nat, i: nat)
    requires j <= |Flat(ks, f)|
    ensures q <= |ks| && (q < |ks| ==> i <= |f(ks[q])|)
    ensures Flat(ks, f)[..j] == Flat(ks[..q], f) + (if q < |ks| then f(ks[q])[..i] else [])
    decreases ks
  {
    if ks == [] {
      q, i := 0, 0;
    } else if j <= |f(ks[0])| {
      q, i := 0, j;
      assert ks[..0] == [];
      assert (f(ks[0]) + Flat(ks[1..], f))[..j] == f(ks[0])[..j];
    } else {
      var q', i' := FlatPoint(ks[1..], f, j - |f(ks[0])|);
      q, i := q' + 1, i';
      assert ks[..q] == [ks[0]] + ks[1..][..q'];
      FlatAppend([ks[0]], ks[1..][..q'], f);
      assert [ks[0]][1..] == [];
      var rest := if q < |ks| then f(ks[q])[..i] else [];
      assert (f(ks[0]) + Flat(ks[1..], f))[..j] == f(ks[0]) + Flat(ks[1..], f)[..j - |f(ks[0])|];
      assert f(ks[0]) + (Flat(ks[1..][..q'], f) + rest) == f(ks[0]) + Flat(ks[1..][..q'], f) + rest;
    }
  }

  /** And the other way round. */
  lemma PointFlat<K, T>(ks: seq<K>, f: K -> seq<T>, q: nat, i: nat)
    requires q <= |ks| && (q < |ks| ==> i <= |f(ks[q])|)
    ensures Flat(ks[..q], f) + (if q < |ks| then f(ks[q])[..i] else []) <= Flat(ks, f)
  {
    if q < |ks| {
      FlatStep(ks, q, f);
      assert ks == ks[..q + 1] + ks[q + 1..];
      FlatAppend(ks[..q + 1], ks[q + 1..], f);
      assert f(ks[q]) == f(ks[q])[..i] + f(ks[q])[i..];
    } else {
      TakeAll(ks);
    }
  }

  lemma PrefixAll<T>(a: seq<T>, b: seq<T>, c: seq<T>, e: seq<T>)
    requires b <= c
    ensures a + b <= a + c + e && (a + c + e)[..|a + b|] == a + b
  {
    assert c == b + c[|b|..];
  }

  lemma SpotPrefix(d: Desired, s: State, q: nat, i: nat)
    requires q <= |Svis(d)| && (q < |Svis(d)| ==> i <= |SviOps(d, s, Svis(d)[q])|)
    ensures |Spot(d, s, q, i)| <= |TailOps(d, s)| && TailOps(d, s)[..|Spot(d, s, q, i)|] == Spot(d, s, q, i)
  {
    var part := if q < |Svis(d)| then SviOps(d, s, Svis(d)[q])[..i] else [];
    PointFlat(Svis(d), EachSvi(d, s), q, i);
    Join(PortPart(d, s), Flat(Svis(d)[..q], EachSvi(d, s)), part);
    PrefixAll(PortPart(d, s), Flat(Svis(d)[..q], EachSvi(d, s)) + part, Flat(Svis(d), EachSvi(d, s)), LeftoverOps(s));
  }

  /** Every point of the second part between the ports and the leftovers is such a one. */
  lemma SpotAt(d: Desired, s: State, j: nat, w: seq<Op>) returns (q: nat, i: nat)
    requires w == TailOps(d, s) && |PortPart(d, s)| <= j <= |Before(d, s)|
    ensures q <= |Svis(d)| && (q < |Svis(d)| ==> i <= |SviOps(d, s, Svis(d)[q])|)
    ensures j <= |w| && w[..j] == Spot(d, s, q, i)
  {
    q, i := FlatPoint(Svis(d), EachSvi(d, s), j - |PortPart(d, s)|);
    JoinPoint(PortPart(d, s), Flat(Svis(d), EachSvi(d, s)), LeftoverOps(s), w, j, Flat(Svis(d)[..q], EachSvi(d, s)),
              if q < |Svis(d)| then SviOps(d, s, Svis(d)[q])[..i] else []);
  }

  lemma JoinPoint<T>(a: seq<T>, b: seq<T>, c: seq<T>, w: seq<T>, j: nat, x: seq<T>, y: seq<T>)
    requires w == a + b + c && |a| <= j <= |a + b| && b[..j - |a|] == x + y
    ensures j <= |w| && w[..j] == a + x + y
  {
    MiddlePrefix(a, b, c, j);
    Join(a, x, y);
  }

  lemma MiddlePrefix<T>(a: seq<T>, b: seq<T>, c: seq<T>, j: nat)
    requires |a| <= j <= |a + b|
    ensures j <= |a + b + c| && (a + b + c)[..j] == a + b[..j - |a|]
  {
  }

  // ----- devices -----

  lemma OnPortPart(d: Desired, s: State, n: Name)
    requires Sound(s) && Free(d, s) && n in d.svis
    ensures On(PortPart(d, s), n) == []
  {
    assert n != BR && !IsPort(s, n) by { assert !Taken(d, s, n); }
    SyncNames(BR, if Fresh(s) then map[] else VlansOf(s, BR), SelfTable(d));
    OnNone(SyncOps(BR, if Fresh(s) then map[] else VlansOf(s, BR), SelfTable(d)), n);
    PortsOn(d, s, n);
    OnAppend(Flat(Names(s.links.Keys), EachPort(d, s)),
             SyncOps(BR, if Fresh(s) then map[] else VlansOf(s, BR), SelfTable(d)), n);
  }

  lemma PortsOn(d: Desired, s: State, n: Name)
    ensures On(Flat(Names(s.links.Keys), EachPort(d, s)), n) == PortOps(d, s, n)
  {
    forall m, op | op in EachPort(d, s)(m) ensures op.name == m { PortNames(d, s, m); }
    OnFlat(Names(s.links.Keys), EachPort(d, s), n);
  }

  /** What an SVI has been through: all of its turn, part of it, or nothing. */
  lemma OnSpot(d: Desired, s: State, q: nat, i: nat, x: nat)
    requires Sound(s) && Free(d, s) && x < |Svis(d)|
    requires q <= |Svis(d)| && (q < |Svis(d)| ==> i <= |SviOps(d, s, Svis(d)[q])|)
    ensures Svis(d)[x] in d.svis
    ensures On(Spot(d, s, q, i), Svis(d)[x]) ==
            if x < q then SviOps(d, s, Svis(d)[x]) else if x == q then SviOps(d, s, Svis(d)[x])[..i] else []
  {
    var ns, n := Svis(d), Svis(d)[x];
    assert n in ns;
    var part := if q < |ns| then SviOps(d, s, ns[q])[..i] else [];
    OnPortPart(d, s, n);
    TurnsOn(d, s, q, n);
    PartOn(d, s, q, i, n);
    ThreeOn(PortPart(d, s), Flat(ns[..q], EachSvi(d, s)), part, n);
    PlaceOf(ns, x, q);
    NothingBefore(if n in ns[..q] then SviOps(d, s, n) else []);
  }

  lemma NothingBefore<T>(a: seq<T>)
    ensures [] + a + [] == a
  {
  }

  lemma PlaceOf<T>(ns: seq<T>, x: nat, q: nat)
    requires x < |ns| && q <= |ns| && forall i, j :: 0 <= i < j < |ns| ==> ns[i] != ns[j]
    ensures ns[x] in ns[..q] <==> x < q
    ensures q < |ns| ==> (ns[x] == ns[q] <==> x == q)
  {
    if x < q { assert ns[..q][x] == ns[x]; }
  }

  lemma ThreeOn(a: seq<Op>, b: seq<Op>, c: seq<Op>, n: Name)
    ensures On(a + b + c, n) == On(a, n) + On(b, n) + On(c, n)
  {
    OnAppend(a, b, n);
    OnAppend(a + b, c, n);
  }

  lemma TurnsOn(d: Desired, s: State, q: nat, n: Name)
    requires BR !in d.svis && q <= |Svis(d)|
    ensures On(Flat(Svis(d)[..q], EachSvi(d, s)), n) == if n in Svis(d)[..q] then SviOps(d, s, n) else []
  {
    forall m, op | op in EachSvi(d, s)(m) ensures op.name == m { SviNames(d, s, m); }
    OnFlat(Svis(d)[..q], EachSvi(d, s), n);
  }

  lemma PartOn(d: Desired, s: State, q: nat, i: nat, n: Name)
    requires BR !in d.svis && q <= |Svis(d)| && (q < |Svis(d)| ==> i <= |SviOps(d, s, Svis(d)[q])|)
    ensures On(if q < |Svis(d)| then SviOps(d, s, Svis(d)[q])[..i] else [], n) ==
            if q < |Svis(d)| && n == Svis(d)[q] then SviOps(d, s, n)[..i] else []
  {
    if q < |Svis(d)| {
      var m := Svis(d)[q];
      SviNames(d, s, m);
      var part := SviOps(d, s, m)[..i];
      assert forall op :: op in part ==> op in SviOps(d, s, m);
      if n == m { OnOne(part, n); } else { OnNone(part, n); }
    }
  }

  /** A device that is no SVI has been through its operations of the first kind only. */
  lemma OnSpotOther(d: Desired, s: State, q: nat, i: nat, n: Name)
    requires Sound(s) && Free(d, s) && n !in d.svis
    requires q <= |Svis(d)| && (q < |Svis(d)| ==> i <= |SviOps(d, s, Svis(d)[q])|)
    ensures On(Spot(d, s, q, i), n) == On(PortPart(d, s), n)
  {
    var part := if q < |Svis(d)| then SviOps(d, s, Svis(d)[q])[..i] else [];
    TurnsOn(d, s, q, n);
    PartOn(d, s, q, i, n);
    assert forall m :: m in Svis(d)[..q] ==> m in Svis(d);
    assert q < |Svis(d)| ==> Svis(d)[q] in Svis(d);
    ThreeOn(PortPart(d, s), Flat(Svis(d)[..q], EachSvi(d, s)), part, n);
  }

  lemma PortPartOps(d: Desired, s: State)
    ensures forall op :: op in PortPart(d, s) ==> PortOp(op)
  {
    PortsOnly(d, s, Names(s.links.Keys));
    SyncTables(BR, if Fresh(s) then map[] else VlansOf(s, BR), SelfTable(d));
  }

  // ----- the state there -----

  lemma TailFits(d: Desired, s: State)
    ensures |OpeningOps(d, s)| + |TailOps(d, s)| == |RoundOps(d, s)|
  {
    RoundSplits(d, s);
  }

  lemma Halves(d: Desired, s: State) returns (t: State)
    requires Sound(s) && Free(d, s)
    ensures RoundOps(d, s) == OpeningOps(d, s) + TailOps(d, s) && forall op :: op in TailOps(d, s) ==> Local(op)
    ensures Run(s, OpeningOps(d, s)) == Fine(t) && Ready(t) && forall m :: View(t, m) == Base(d, s, m)
  {
    t := RunOpening(d, s);
    RoundSplits(d, s);
    TailLocal(d, s);
  }

  /** A state inside the second part of the round, device by device. */
  lemma TailView(d: Desired, s: State, k: nat, m: Name, opening: seq<Op>, tail: seq<Op>, ops: seq<Op>)
    requires Sound(s) && Free(d, s) && opening == OpeningOps(d, s) && tail == TailOps(d, s) && ops == RoundOps(d, s)
    requires |opening| <= k <= |ops| && Run(s, ops[..k]).Accepted()
    ensures k - |opening| <= |tail|
    ensures RunLocal(Base(d, s, m), On(tail[..k - |opening|], m)) == Some(View(Run(s, ops[..k]).state, m))
  {
    var t := Halves(d, s);
    TwoView(s, t, opening, tail, ops, k, m);
  }

  lemma TwoView(s: State, t: State, a: seq<Op>, b: seq<Op>, ops: seq<Op>, k: nat, m: Name)
    requires ops == a + b && Run(s, a) == Fine(t) && Ready(t) && (forall op :: op in b ==> Local(op))
    requires |a| <= k <= |ops| && Run(s, ops[..k]).Accepted()
    ensures RunLocal(View(t, m), On(b[..k - |a|], m)) == Some(View(Run(s, ops[..k]).state, m))
  {
    var i := TwoParts(s, t, a, b, k, m);
  }
}
