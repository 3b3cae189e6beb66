/** What it means that the kernel matches a desired state, and that the planner agrees. */
module Matching {
  import opened Basics
  import opened Model
  import opened Kernel
  import opened Deletion
  import opened Planner

  ghost predicate BridgeMatches(d: Desired, s: State) {
    && FullyConfigured(s)
    && s.links[BR].up
    && s.links[BR].kind.stp == (if d.stp.Some? then User else Off)
    && VlansOf(s, BR) == SelfTable(d)
    && AddrsOf(s, BR) == {} && DhcpOf(s, BR) == map[]
  }

  ghost predicate PortMatches(d: Desired, s: State, n: Name)
    requires n in s.links
  {
    && AddrsOf(s, n) == {} && DhcpOf(s, n) == map[]
    && (n in d.ports ==>
          && s.links[n].master == Some(BR)
          && s.links[n].up == d.ports[n].enabled
          && VlansOf(s, n) == PortTable(d.ports[n]))
    && (n !in d.ports ==> s.links[n].master == None && !s.links[n].up)
  }

  ghost predicate SviMatches(d: Desired, s: State, n: Name)
    requires n in d.svis
  {
    && n in s.links && s.links[n].kind == Vlan(BR, d.svis[n].vlan)
    && s.links[n].up == d.svis[n].enabled
    && AddrsOf(s, n) == d.svis[n].addresses
    && (d.svis[n].dhcpClient || DhcpOf(s, n).Keys <= d.svis[n].addresses)
  }

  /** The bridge, the ports, and exactly the wanted VLAN links on the bridge are as desired, the platform is up. */
  ghost predicate Matches(d: Desired, s: State) {
    && BridgeMatches(d, s)
    && (forall n :: IsPort(s, n) ==> PortMatches(d, s, n))
    && (forall n :: n in d.svis ==> SviMatches(d, s, n))
    && (forall n :: IsChild(s, n, BR) ==> n in d.svis)
    && (forall n :: n in Platform(s) && n in s.links ==> s.links[n].up)
  }

  // ----- when each part of the plan is empty -----

  lemma PvidFirstLists(want: Table)
    ensures Lists(PvidFirst(want), want.Keys)
  {
    var a, b := (set v | v in want && want[v].pvid), (set v | v in want && !want[v].pvid);
    assert Lists(Numbers(a), a) && Lists(Numbers(b), b);
    forall i, j | 0 <= i < j < |PvidFirst(want)| ensures PvidFirst(want)[i] != PvidFirst(want)[j] {
      if i < |Numbers(a)| <= j {
        assert PvidFirst(want)[i] in Numbers(a) && PvidFirst(want)[j] in Numbers(b);
      }
    }
  }

  lemma SyncEmpty(dev: Name, have: Table, want: Table)
    ensures SyncOps(dev, have, want) == [] <==> have == want
  {
    var f, g, dels := AddMissing(dev, have, want), DelVid(dev), Numbers(have.Keys - want.Keys);
    PvidFirstLists(want);
    FlatEmpty(PvidFirst(want), f);
    FlatEmpty(dels, g);
    if have != want {
      if v :| v in want && !(v in have && have[v] == want[v]) {
        assert v in PvidFirst(want) && f(v) != [];
      } else {
        assert want.Keys <= have.Keys && exists v :: v in have && v !in want;
        var v :| v in have && v !in want;
        assert v in dels && g(v) != [];
      }
    } else {
      assert have.Keys - want.Keys == {};
    }
  }

  lemma AddrOpsEmpty(dev: Name, svi: Svi, have: set<Prefix>, dhcp: map<Prefix, nat>)
    ensures AddrOps(dev, svi, have, dhcp) == [] <==>
            have == svi.addresses && (svi.dhcpClient || dhcp.Keys <= svi.addresses)
  {
    var f, g := AddAddr(dev, dhcp), DelAddr(dev);
    FlatEmpty(Prefixes(svi.addresses - have), f);
    FlatEmpty(Prefixes(have - svi.addresses), g);
    FlatEmpty(Prefixes(dhcp.Keys - svi.addresses), g);
    assert forall p :: f(p) != [] && g(p) != [];
    assert forall p :: p in Prefixes(svi.addresses - have) <==> p in svi.addresses && p !in have;
    assert forall p :: p in Prefixes(have - svi.addresses) <==> p in have && p !in svi.addresses;
    assert forall p :: p in Prefixes(dhcp.Keys - svi.addresses) <==> p in dhcp && p !in svi.addresses;
  }

  lemma LeftoversEmpty(s: State)
    ensures LeftoverOps(s) == [] <==> forall n :: Owned(s, n) ==> AddrsOf(s, n) == {} && DhcpOf(s, n) == map[]
  {
    var f, g := LeftStatic(s), LeftDhcp(s);
    FlatEmpty(Names(s.addrs.Keys), f);
    FlatEmpty(Names(s.dhcp.Keys), g);
    forall n ensures f(n) == [] <==> Owned(s, n) ==> AddrsOf(s, n) == {} {
      FlatEmpty(Prefixes(AddrsOf(s, n)), DelAddr(n));
      if AddrsOf(s, n) != {} {
        var p :| p in AddrsOf(s, n); assert p in Prefixes(AddrsOf(s, n)) && DelAddr(n)(p) != [];
      }
    }
    forall n ensures g(n) == [] <==> Owned(s, n) ==> DhcpOf(s, n) == map[] {
      FlatEmpty(Prefixes(DhcpOf(s, n).Keys), DelAddr(n));
      if DhcpOf(s, n) != map[] {
        var p :| p in DhcpOf(s, n); assert p in Prefixes(DhcpOf(s, n).Keys) && DelAddr(n)(p) != [];
      }
    }
  }

  lemma PortEmpty(d: Desired, s: State, n: Name)
    requires IsPort(s, n) && !Fresh(s)
    ensures PortOps(d, s, n) == [] && AddrsOf(s, n) == {} && DhcpOf(s, n) == map[] <==> PortMatches(d, s, n)
  {
    if n in d.ports { SyncEmpty(n, HaveVlans(s, n), PortTable(d.ports[n])); }
  }

  lemma SviEmpty(d: Desired, s: State, n: Name)
    requires n in d.svis && !Fresh(s)
    ensures SviOps(d, s, n) == [] <==> SviMatches(d, s, n)
  {
    AddrOpsEmpty(n, d.svis[n], AddrsOf(s, n), DhcpOf(s, n));
  }

  lemma {:induction false} NoneTaken(d: Desired, s: State, ns: seq<Name>)
    ensures FirstTaken(d, s, ns).None? <==> forall n :: n in ns ==> !Taken(d, s, n)
    decreases ns
  {
    if ns != [] {
      NoneTaken(d, s, ns[1..]);
      assert forall n :: n in ns <==> n == ns[0] || n in ns[1..];
    }
  }

  lemma PlanFails(d: Desired, s: State)
    ensures Plan(d, s).Ok? <==> forall n :: !Taken(d, s, n)
  {
    NoneTaken(d, s, Names(d.svis.Keys));
  }

  lemma PlatformEmpty(s: State)
    ensures PlatformOps(s) == [] <==> forall n :: n in Platform(s) && n in s.links ==> s.links[n].up
  {
    var f := PutUp(s);
    FlatEmpty(Names(Platform(s)), f);
    assert forall n :: n in Names(Platform(s)) <==> n in Platform(s);
    assert forall n :: f(n) == [] <==> (n in s.links ==> s.links[n].up);
  }

  lemma TailEmpty(d: Desired, s: State)
    requires !Fresh(s)
    ensures TailOps(d, s) == [] <==>
            && (forall n :: IsPort(s, n) ==> PortMatches(d, s, n))
            && (forall n :: n in d.svis ==> SviMatches(d, s, n))
            && VlansOf(s, BR) == SelfTable(d)
            && (IsBridge(s, BR) ==> AddrsOf(s, BR) == {} && DhcpOf(s, BR) == map[])
  {
    PortsEmpty(d, s);
    SvisEmpty(d, s);
    SyncEmpty(BR, VlansOf(s, BR), SelfTable(d));
    AllEmpty(Flat(Names(s.links.Keys), EachPort(d, s)), SyncOps(BR, VlansOf(s, BR), SelfTable(d)),
             Flat(Names(d.svis.Keys), EachSvi(d, s)), LeftoverOps(s));
  }

  lemma PortsEmpty(d: Desired, s: State)
    requires !Fresh(s)
    ensures Flat(Names(s.links.Keys), EachPort(d, s)) == [] && LeftoverOps(s) == [] <==>
            && (forall n :: IsPort(s, n) ==> PortMatches(d, s, n))
            && (IsBridge(s, BR) ==> AddrsOf(s, BR) == {} && DhcpOf(s, BR) == map[])
  {
    var f := EachPort(d, s);
    FlatEmpty(Names(s.links.Keys), f);
    LeftoversEmpty(s);
    forall n | IsPort(s, n)
      ensures n in Names(s.links.Keys)
      ensures f(n) == [] && AddrsOf(s, n) == {} && DhcpOf(s, n) == map[] <==> PortMatches(d, s, n)
    {
      PortEmpty(d, s, n);
    }
    assert forall n :: !IsPort(s, n) ==> f(n) == [];
    assert forall n :: Owned(s, n) <==> IsPort(s, n) || (n == BR && IsBridge(s, BR));
  }

  lemma AllEmpty<T>(a: seq<T>, b: seq<T>, c: seq<T>, e: seq<T>)
    ensures a + b + c + e == [] <==> a == [] && b == [] && c == [] && e == []
  {
    assert |a + b + c + e| == |a| + |b| + |c| + |e|;
  }

  lemma SvisEmpty(d: Desired, s: State)
    requires !Fresh(s)
    ensures Flat(Names(d.svis.Keys), EachSvi(d, s)) == [] <==> forall n :: n in d.svis ==> SviMatches(d, s, n)
  {
    var f := EachSvi(d, s);
    FlatEmpty(Names(d.svis.Keys), f);
    forall n | n in d.svis
      ensures n in Names(d.svis.Keys) && (f(n) == [] <==> SviMatches(d, s, n))
    {
      SviEmpty(d, s, n);
    }
  }

  lemma HeadEmpty(d: Desired, s: State)
    ensures RepairOps(s) + BridgeOps(d, s) == [] <==>
            FullyConfigured(s) && s.links[BR].up && s.links[BR].kind.stp == (if d.stp.Some? then User else Off)
  {
  }

  lemma StaleEmpty(d: Desired, s: State)
    requires !Fresh(s)
    ensures Deletes(Names(StaleLinks(d, s))) == [] <==> forall n :: IsChild(s, n, BR) ==> Kept(d, s, n)
  {
    var names := Names(StaleLinks(d, s));
    if names != [] {
      assert names[0] in names && names[0] in StaleLinks(d, s);
      assert |Deletes(names)| > 0;
    } else {
      assert Deletes(names) == [];
      forall n | IsChild(s, n, BR) ensures Kept(d, s, n) { assert n !in names && n !in StaleLinks(d, s); }
    }
  }

  /** The planner is done exactly when the kernel matches. */
  lemma NothingToDo(d: Desired, s: State)
    ensures Plan(d, s) == Ok([]) && PlatformOps(s) == [] <==> Matches(d, s)
  {
    PlanFails(d, s);
    HeadEmpty(d, s);
    PlatformEmpty(s);
    if FullyConfigured(s) {
      StaleEmpty(d, s);
      TailEmpty(d, s);
    }
  }
}
