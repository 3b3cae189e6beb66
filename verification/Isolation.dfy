/** What an accepted configuration guarantees, in the configuration and then in the kernel. */
module Isolation {
  import opened Basics
  import opened Model
  import opened Kernel
  import opened Config
  import opened Validator
  import opened Interfaces
  import opened StpValidator
  import opened Acceptance
  import opened Devices
  import opened Invariant
  import opened Planner
  import opened Matching
  import opened Convergence
  import Opening
  import Round
  import Outcomes

  // ----- where ports and SVIs come from -----

  lemma {:induction false} PortFrom(xs: seq<Interface>, ports: set<Name>, dom: Domain, n: Name) returns (k: nat)
    requires AllValid(dom) && InterfacesOk(xs, ports, dom) && n in PortsOf(xs, ports, dom)
    ensures k < |xs| && xs[k].name == n && IsPortIf(xs[k]) && PortOk(xs[k], ports, dom)
            && PortsOf(xs, ports, dom)[n] == PortOf(xs[k], ports, dom)
    decreases xs
  {
    var x, rest := xs[|xs| - 1], xs[..|xs| - 1];
    assert forall i :: 0 <= i < |rest| ==> rest[i] == xs[i];
    if IsPortIf(x) && x.name == n {
      k := |xs| - 1;
    } else {
      k := PortFrom(rest, ports, dom, n);
    }
  }

  lemma {:induction false} SviFrom(xs: seq<Interface>, ports: set<Name>, dom: Domain, n: Name) returns (k: nat)
    requires AllValid(dom) && InterfacesOk(xs, ports, dom) && n in SvisOf(xs, ports, dom)
    ensures k < |xs| && xs[k].name == n && !IsPortIf(xs[k]) && SviOk(xs[k], ports, dom)
            && SvisOf(xs, ports, dom)[n] == SviOf(xs[k], ports, dom)
    decreases xs
  {
    var x, rest := xs[|xs| - 1], xs[..|xs| - 1];
    assert forall i :: 0 <= i < |rest| ==> rest[i] == xs[i];
    if !IsPortIf(x) && x.name == n {
      k := |xs| - 1;
    } else {
      k := SviFrom(rest, ports, dom, n);
    }
  }

  lemma PortSound(i: Interface, ports: set<Name>, dom: Domain)
    requires AllValid(dom) && PortOk(i, ports, dom)
    requires dom.mode == PortBased ==> forall n :: n in dom.groupOf ==> Active(dom, dom.groupOf[n])
    ensures var p := PortOf(i, ports, dom);
            && (p.native.Some? ==> p.native.value !in p.tagged)
            && (forall v :: p.Carries(v) ==> Active(dom, v) && ValidVid(v))
  {
  }

  // ----- groups -----

  /** A group of this id lists the port. */
  ghost predicate InGroup(gs: seq<Group>, n: Name, g: Vid) {
    exists k :: 0 <= k < |gs| && gs[k].id == Some(g) && n in gs[k].ports
  }

  lemma InGroupStep(gs: seq<Group>, x: Group, n: Name, g: Vid)
    ensures InGroup(gs + [x], n, g) <==> InGroup(gs, n, g) || (x.id == Some(g) && n in x.ports)
  {
    var all := gs + [x];
    assert all[|gs|] == x;
    if InGroup(gs, n, g) {
      var k :| 0 <= k < |gs| && gs[k].id == Some(g) && n in gs[k].ports;
      assert all[k] == gs[k];
    }
  }

  lemma {:induction false} MemberIff(gs: seq<Group>, n: Name, g: Vid)
    requires AllIds(gs)
    ensures Member(n, g) in Members(gs) <==> InGroup(gs, n, g)
    decreases gs
  {
    if gs != [] {
      var x, rest := gs[|gs| - 1], gs[..|gs| - 1];
      MemberIff(rest, n, g);
      InGroupStep(rest, x, n, g);
      assert gs == rest + [x];
      var ms := MembersOf(x.id.value, x.ports);
      if x.id == Some(g) && n in x.ports {
        var j :| 0 <= j < |x.ports| && x.ports[j] == n;
        assert ms[j] == Member(n, g);
      }
      assert Member(n, g) in ms <==> x.id == Some(g) && n in x.ports;
    }
  }

  lemma GroupIff(c: Config, ports: set<Name>, n: Name, g: Vid)
    requires DomainOk(c, ports) && ModeOf(c) == PortBased
    ensures var dom := DomainOf(c, ports); n in dom.groupOf && dom.groupOf[n] == g <==> InGroup(c.groups, n, g)
  {
    GroupMapAt(Members(c.groups), n);
    MemberIff(c.groups, n, g);
  }

  lemma GroupsActive(c: Config, ports: set<Name>)
    requires DomainOk(c, ports) && ModeOf(c) == PortBased
    ensures var dom := DomainOf(c, ports); forall n :: n in dom.groupOf ==> Active(dom, dom.groupOf[n])
  {
    var dom := DomainOf(c, ports);
    forall n | n in dom.groupOf ensures Active(dom, dom.groupOf[n]) {
      GroupIff(c, ports, n, dom.groupOf[n]);
      var k :| 0 <= k < |c.groups| && c.groups[k].id == Some(dom.groupOf[n]) && n in c.groups[k].ports;
    }
  }

  // ----- the configuration -----

  /**
   * A port of the switch, on active VLANs only, the native VLAN not among the tagged ones, in its
   * group if there are groups.
   */
  ghost predicate PortFine(d: Desired, gs: seq<Group>, ports: set<Name>, n: Name)
    requires n in d.ports
  {
    var p := d.ports[n];
    && n in ports && (p.native.Some? ==> p.native.value !in p.tagged)
    && (forall v :: p.Carries(v) ==> v in d.vlans && d.vlans[v].active && ValidVid(v))
    && (d.mode == PortBased ==>
       p.tagged == {} && p.native.Some? && forall g: Vid :: p.native == Some(g) <==> InGroup(gs, n, g))
  }

  lemma FineFrom(d: Desired, gs: seq<Group>, ports: set<Name>, dom: Domain, i: Interface)
    requires AllValid(dom) && PortOk(i, ports, dom) && i.name in d.ports && d.ports[i.name] == PortOf(i, ports, dom)
    requires d.mode == dom.mode && d.vlans == dom.vlans
    requires dom.mode == PortBased ==> forall n :: n in dom.groupOf ==> Active(dom, dom.groupOf[n])
    requires dom.mode == PortBased ==>
             forall g: Vid :: i.name in dom.groupOf && dom.groupOf[i.name] == g <==> InGroup(gs, i.name, g)
    ensures PortFine(d, gs, ports, i.name)
  {
    PortSound(i, ports, dom);
  }

  lemma PortsSound(c: Config, ports: set<Name>, n: Name, d: Desired)
    requires Acceptable(c, ports) && d == Meaning(c, ports) && n in d.ports
    ensures PortFine(d, c.groups, ports, n)
  {
    var dom := DomainOf(c, ports);
    var k := PortFrom(c.interfaces, ports, dom, n);
    if dom.mode == PortBased {
      GroupsActive(c, ports);
      forall g: Vid ensures n in dom.groupOf && dom.groupOf[n] == g <==> InGroup(c.groups, n, g)
      {
        GroupIff(c, ports, n, g);
      }
    }
    FineFrom(d, c.groups, ports, dom, c.interfaces[k]);
  }

  /** SVIs neither named like a port nor like the bridge, each on a declared VLAN. */
  lemma SvisSound(c: Config, ports: set<Name>, n: Name)
    requires Acceptable(c, ports) && n in Meaning(c, ports).svis
    ensures n != BR && n !in ports && Meaning(c, ports).svis[n].vlan in Meaning(c, ports).vlans
            && ValidVid(Meaning(c, ports).svis[n].vlan)
  {
    var k := SviFrom(c.interfaces, ports, DomainOf(c, ports), n);
  }

  /** What reconciliation and mstpd rely on holds of every accepted configuration. */
  lemma AcceptedSound(c: Config, ports: set<Name>)
    requires Acceptable(c, ports)
    ensures var d := Meaning(c, ports);
            && ValidIds(d) && BR !in d.svis && d.ports.Keys <= ports && d.svis.Keys !! ports
            && NoneClash(d.svis, SameVlan()) && NoneClash(d.svis, SameAddress()) && NoneClash(d.svis, BothDhcp())
            && (Ranged(c.stp) ==> Outcomes.StpValid(d))
  {
    var d := Meaning(c, ports);
    forall n | n in d.ports ensures n in ports && forall v :: d.ports[n].Carries(v) ==> ValidVid(v)
    {
      PortsSound(c, ports, n, d);
    }
    forall n | n in d.svis ensures n != BR && n !in ports && ValidVid(d.svis[n].vlan) { SvisSound(c, ports, n); }
    if Ranged(c.stp) && d.stp.Some? { StpSound(c.stp, d.ports.Keys); }
  }

  // ----- the kernel -----

  ghost predicate ShareVlan(t: State, p: Name, q: Name) { exists v :: v in VlansOf(t, p) && v in VlansOf(t, q) }

  ghost predicate SameGroup(gs: seq<Group>, p: Name, q: Name) { exists g :: InGroup(gs, p, g) && InGroup(gs, q, g) }

  lemma GroupsApart(d: Desired, gs: seq<Group>, ports: set<Name>, t: State, p: Name, q: Name)
    requires p in d.ports && q in d.ports && PortFine(d, gs, ports, p) && PortFine(d, gs, ports, q)
             && d.mode == PortBased
    requires VlansOf(t, p) == PortTable(d.ports[p]) && VlansOf(t, q) == PortTable(d.ports[q])
    ensures ShareVlan(t, p, q) <==> SameGroup(gs, p, q)
  {
    var v, w := d.ports[p].native.value, d.ports[q].native.value;
    assert VlansOf(t, p).Keys == {v} && VlansOf(t, q).Keys == {w};
    assert InGroup(gs, p, v) && InGroup(gs, q, w);
    if v == w { assert v in VlansOf(t, p) && v in VlansOf(t, q); }
  }

  lemma TableOf(d: Desired, t: State, n: Name)
    requires Matches(d, t) && n in d.ports && IsPort(t, n)
    ensures VlansOf(t, n) == PortTable(d.ports[n])
  {
    assert PortMatches(d, t, n);
  }

  /** A port that is not configured carries nothing. */
  lemma TableNone(d: Desired, t: State, n: Name)
    requires WellFormed(t) && Matches(d, t) && n !in d.ports && IsPort(t, n)
    ensures VlansOf(t, n) == map[]
  {
    assert PortMatches(d, t, n);
    assert DeviceOk(View(t, n));
  }

  lemma {:induction false} ConfiguredPort(xs: seq<Interface>, ports: set<Name>, dom: Domain, n: Name)
    requires AllValid(dom) && InterfacesOk(xs, ports, dom) && IsConfiguredPort(xs, ports, n)
    ensures n in PortsOf(xs, ports, dom)
    decreases xs
  {
    var x, rest := xs[|xs| - 1], xs[..|xs| - 1];
    assert xs == rest + [x];
    if !(IsPortIf(x) && x.name == n) { ConfiguredPort(rest, ports, dom, n); }
  }

  /** Only configured ports are in groups. */
  lemma GroupedConfigured(c: Config, ports: set<Name>, n: Name, g: Vid, d: Desired)
    requires Acceptable(c, ports) && d == Meaning(c, ports) && d.mode == PortBased && InGroup(c.groups, n, g)
    ensures n in d.ports
  {
    MemberIff(c.groups, n, g);
    assert IsConfiguredPort(c.interfaces, ports, Member(n, g).port);
    ConfiguredPort(c.interfaces, ports, DomainOf(c, ports), n);
  }

  /** In port-based mode two ports of the switch can exchange frames exactly if a group lists both. */
  lemma GroupsIsolate(c: Config, ports: set<Name>, t: State, p: Name, q: Name, d: Desired)
    requires Acceptable(c, ports) && d == Meaning(c, ports) && WellFormed(t) && Matches(d, t) && d.mode == PortBased
    requires IsPort(t, p) && IsPort(t, q)
    ensures ShareVlan(t, p, q) <==> SameGroup(c.groups, p, q)
  {
    if p in d.ports && q in d.ports {
      PortsSound(c, ports, p, d);
      PortsSound(c, ports, q, d);
      TableOf(d, t, p);
      TableOf(d, t, q);
      GroupsApart(d, c.groups, ports, t, p, q);
    } else {
      var n := if p in d.ports then q else p;
      TableNone(d, t, n);
      forall g | InGroup(c.groups, n, g) ensures false { GroupedConfigured(c, ports, n, g, d); }
    }
  }

  /** No port carries a suspended VLAN, and a port has at most one untagged VLAN, its PVID. */
  lemma PortsClean(c: Config, ports: set<Name>, t: State, n: Name, d: Desired)
    requires Acceptable(c, ports) && d == Meaning(c, ports) && Matches(d, t) && n in d.ports && IsPort(t, n)
    ensures var table := VlansOf(t, n);
            && (forall v :: v in table ==> v in d.vlans && d.vlans[v].active && table[v].untagged == table[v].pvid)
            && (forall v, w :: v in table && w in table && table[v].untagged && table[w].untagged ==> v == w)
  {
    PortsSound(c, ports, n, d);
    TableOf(d, t, n);
  }

  /** The bridge itself is in exactly the active VLANs that have an SVI. */
  lemma BridgeClean(c: Config, ports: set<Name>, t: State, v: Vid)
    requires Acceptable(c, ports) && Matches(Meaning(c, ports), t)
    ensures var d := Meaning(c, ports);
            v in VlansOf(t, BR) <==> v in d.vlans && d.vlans[v].active && exists n :: n in d.svis && d.svis[n].vlan == v
  {
    var d := Meaning(c, ports);
    forall n | n in d.svis ensures d.svis[n].vlan in d.vlans { SvisSound(c, ports, n); }
  }

  /**
   * An accepted configuration is carried out from every sound state, up to names that are taken and
   * the default-PVID conflict.
   */
  lemma AcceptedConverges(c: Config, ports: set<Name>, s: State)
    requires Acceptable(c, ports) && Opening.Sound(s) && Opening.Free(Meaning(c, ports), s)
    ensures var d := Meaning(c, ports);
            && (Reconcile(d, s).result.Ok? <==> forall n :: !Round.Conflict(d, s, n))
            && (Reconcile(d, s).result.Ok? ==> Matches(d, Reconcile(d, s).state))
  {
    AcceptedSound(c, ports);
    Converges(Meaning(c, ports), s);
  }

  // ----- such configurations exist -----

  const NO_TIMERS := TimerConfig(None, None, None, None, None, None, None, None)
  const NO_STP := StpConfig([], None, None, NO_TIMERS, [], NO_TIMERS, [], [], [])

  function PortInterface(n: Name): Interface { Interface(n, Some("ethernetCsmacd"), None, None, None) }

  /** Two ports, each in a group of its own. */
  function TwoGroups(p: Name, q: Name): Config {
    Config(Some("PORT_BASED"), [], [Group(Some(1), None, [p]), Group(Some(2), None, [q])],
        [PortInterface(p), PortInterface(q)], NO_STP)
  }

  lemma IsPortType()
    ensures Unprefixed("ethernetCsmacd") == "ethernetCsmacd"
  {
    var s := "ethernetCsmacd";
    assert forall i :: 0 <= i < |s| ==> s[i] != ':';
  }

  lemma TwoMembers(p: Name, q: Name)
    ensures var gs := TwoGroups(p, q).groups; AllIds(gs) && Members(gs) == [Member(p, 1), Member(q, 2)]
  {
    var gs := TwoGroups(p, q).groups;
    assert gs[..1] == [gs[0]] && [gs[0]][..0] == [];
    assert MembersOf(1, [p]) == [Member(p, 1)] && MembersOf(2, [q]) == [Member(q, 2)];
    assert Members([gs[0]]) == [Member(p, 1)];
  }

  lemma TwoGroupsDomain(p: Name, q: Name, ports: set<Name>)
    requires p != q && p in ports && q in ports
    ensures DomainOk(TwoGroups(p, q), ports) && DomainOf(TwoGroups(p, q), ports).mode == PortBased
    ensures p in DomainOf(TwoGroups(p, q), ports).groupOf && q in DomainOf(TwoGroups(p, q), ports).groupOf
  {
    var c := TwoGroups(p, q);
    var ms := [Member(p, 1), Member(q, 2)];
    TwoMembers(p, q);
    IsPortType();
    assert c.interfaces[0] in c.interfaces && c.interfaces[1] in c.interfaces;
    assert IsConfiguredPort(c.interfaces, ports, p) && IsConfiguredPort(c.interfaces, ports, q);
    assert MembersOk(ms, c.interfaces, ports);
    GroupMapAt(ms, p);
    GroupMapAt(ms, q);
    assert ms[0] in ms && ms[1] in ms;
  }

  lemma TwoPorts(p: Name, q: Name, ports: set<Name>, dom: Domain, xs: seq<Interface>)
    requires AllValid(dom) && dom.mode == PortBased && p in ports && q in ports && p in dom.groupOf && q in dom.groupOf
    requires xs == [PortInterface(p)] + [PortInterface(q)]
    ensures InterfacesOk(xs, ports, dom) && SvisOf(xs, ports, dom) == map[] && PortsOf(xs, ports, dom).Keys == {p, q}
  {
    IsPortType();
    var none: seq<Interface> := [];
    InterfacesStep(none, PortInterface(p), ports, dom);
    assert none + [PortInterface(p)] == [PortInterface(p)];
    InterfacesStep([PortInterface(p)], PortInterface(q), ports, dom);
  }

  lemma InOneGroup(p: Name, q: Name)
    requires p != q
    ensures !SameGroup(TwoGroups(p, q).groups, p, q)
  {
  }

  lemma NoSvis(svis: map<Name, Svi>)
    requires svis == map[]
    ensures ChecksOk(svis)
  {
  }

  /** Two ports in two groups make an acceptable configuration. */
  lemma TwoGroupsAccepted(p: Name, q: Name, ports: set<Name>)
    requires p != q && p in ports && q in ports
    ensures Acceptable(TwoGroups(p, q), ports) && Meaning(TwoGroups(p, q), ports).ports.Keys == {p, q}
    ensures !SameGroup(TwoGroups(p, q).groups, p, q)
  {
    var c := TwoGroups(p, q);
    TwoGroupsDomain(p, q, ports);
    var dom := DomainOf(c, ports);
    TwoPorts(p, q, ports, dom, c.interfaces);
    NoSvis(SvisOf(c.interfaces, ports, dom));
    NoStpOk({p, q});
    InOneGroup(p, q);
  }

  lemma NoStpOk(ports: set<Name>)
    ensures StpOk(NO_STP, ports)
  {
  }
}
