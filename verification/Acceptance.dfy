/** The whole validator (crates/switch-model/src/lib.rs). */
module Acceptance {
  import opened Basics
  import opened Model
  import opened VlanRanges
  import opened Config
  import opened Validator
  import opened Interfaces
  import opened StpValidator

  // ----- all interfaces -----

  predicate HasType(i: Interface, what: string) { i.ifType.Some? && Unprefixed(i.ifType.value) == what }
  predicate IsPortIf(i: Interface) { HasType(i, "ethernetCsmacd") }
  predicate IsSviIf(i: Interface) { HasType(i, "l3ipvlan") }

  ghost predicate AllValid(dom: Domain) { forall v :: v in dom.vlans ==> ValidVid(v) }

  ghost predicate InterfaceOk(i: Interface, ports: set<Name>, dom: Domain)
    requires AllValid(dom)
  {
    if IsPortIf(i) then PortOk(i, ports, dom) else IsSviIf(i) && SviOk(i, ports, dom)
  }

  ghost predicate InterfacesOk(xs: seq<Interface>, ports: set<Name>, dom: Domain)
    requires AllValid(dom)
  {
    forall k :: 0 <= k < |xs| ==> InterfaceOk(xs[k], ports, dom)
  }

  ghost function PortsOf(xs: seq<Interface>, ports: set<Name>, dom: Domain): map<Name, Port>
    requires AllValid(dom) && InterfacesOk(xs, ports, dom)
  {
    if xs == [] then map[] else
      var x, rest := xs[|xs| - 1], PortsOf(xs[..|xs| - 1], ports, dom);
      if IsPortIf(x) then rest[x.name := PortOf(x, ports, dom)] else rest
  }

  ghost function SvisOf(xs: seq<Interface>, ports: set<Name>, dom: Domain): map<Name, Svi>
    requires AllValid(dom) && InterfacesOk(xs, ports, dom)
  {
    if xs == [] then map[] else
      var x, rest := xs[|xs| - 1], SvisOf(xs[..|xs| - 1], ports, dom);
      if IsPortIf(x) then rest else rest[x.name := SviOf(x, ports, dom)]
  }

  lemma InterfacesStep(xs: seq<Interface>, x: Interface, ports: set<Name>, dom: Domain)
    requires AllValid(dom)
    ensures InterfacesOk(xs + [x], ports, dom) <==> InterfacesOk(xs, ports, dom) && InterfaceOk(x, ports, dom)
    ensures InterfacesOk(xs + [x], ports, dom) ==>
              && PortsOf(xs + [x], ports, dom) ==
                 (if IsPortIf(x) then PortsOf(xs, ports, dom)[x.name := PortOf(x, ports, dom)]
                 else PortsOf(xs, ports, dom))
              && SvisOf(xs + [x], ports, dom) ==
                 (if IsPortIf(x) then SvisOf(xs, ports, dom)
                 else SvisOf(xs, ports, dom)[x.name := SviOf(x, ports, dom)])
  {
    var all := xs + [x];
    assert all[|xs|] == x && all[..|xs|] == xs && forall k :: 0 <= k < |xs| ==> all[k] == xs[k];
  }

  /** The ports, SVIs and problems found in `xs`. */
  ghost predicate Collected(xs: seq<Interface>, ports: set<Name>, dom: Domain, ps: map<Name, Port>, ss: map<Name, Svi>,
                            errors: seq<Problem>)
    requires AllValid(dom)
  {
    && (errors == [] <==> InterfacesOk(xs, ports, dom))
    && (errors == [] ==> ps == PortsOf(xs, ports, dom) && ss == SvisOf(xs, ports, dom))
  }

  /** One more interface changes `ps` and `ss` as it asks for. */
  ghost predicate Extends(x: Interface, ports: set<Name>, dom: Domain,
                          ps: map<Name, Port>, ss: map<Name, Svi>, ps': map<Name, Port>, ss': map<Name, Svi>,
                          errors: seq<Problem>)
    requires AllValid(dom)
  {
    && (errors == [] <==> InterfaceOk(x, ports, dom))
    && (errors == [] ==> ps' == if IsPortIf(x) then ps[x.name := PortOf(x, ports, dom)] else ps)
    && (errors == [] ==> ss' == if IsPortIf(x) then ss else ss[x.name := SviOf(x, ports, dom)])
  }

  lemma CollectedStep(xs: seq<Interface>, x: Interface, ports: set<Name>, dom: Domain,
                      ps: map<Name, Port>, ss: map<Name, Svi>, ps': map<Name, Port>, ss': map<Name, Svi>,
                      errors: seq<Problem>, bad: seq<Problem>)
    requires AllValid(dom) && Collected(xs, ports, dom, ps, ss, errors) && Extends(x, ports, dom, ps, ss, ps', ss', bad)
    ensures Collected(xs + [x], ports, dom, ps', ss', errors + bad)
  {
    InterfacesStep(xs, x, ports, dom);
  }

  method ValidateInterface(x: Interface, ports: set<Name>, dom: Domain, ps: map<Name, Port>, ss: map<Name, Svi>)
    returns (ps': map<Name, Port>, ss': map<Name, Svi>, errors: seq<Problem>)
    requires AllValid(dom)
    ensures Extends(x, ports, dom, ps, ss, ps', ss', errors)
  {
    ps', ss', errors := ps, ss, [];
    if IsPortIf(x) {
      var r := ValidatePort(x, ports, dom);
      if r.Ok? { ps' := ps[x.name := r.value]; } else { errors := r.error; }
    } else if IsSviIf(x) {
      var r := ValidateSvi(x, ports, dom);
      if r.Ok? { ss' := ss[x.name := r.value]; } else { errors := r.error; }
    } else {
      errors := [UnknownType];
    }
  }

  method ValidateInterfaces(xs: seq<Interface>, ports: set<Name>, dom: Domain)
    returns (ps: map<Name, Port>, ss: map<Name, Svi>, errors: seq<Problem>)
    requires AllValid(dom)
    ensures Collected(xs, ports, dom, ps, ss, errors)
  {
    ps, ss, errors := map[], map[], [];
    for k := 0 to |xs|
      invariant Collected(xs[..k], ports, dom, ps, ss, errors)
    {
      var ps', ss', bad := ValidateInterface(xs[k], ports, dom, ps, ss);
      CollectedStep(xs[..k], xs[k], ports, dom, ps, ss, ps', ss', errors, bad);
      TakeStep(xs, k);
      ps, ss, errors := ps', ss', errors + bad;
    }
    TakeAll(xs);
  }

  // ----- checks across SVIs -----

  ghost predicate NoneClash(svis: map<Name, Svi>, clash: (Svi, Svi) -> bool) {
    forall a, b :: a in svis && b in svis && a != b ==> !clash(svis[a], svis[b])
  }

  ghost predicate NoneClashIn(svis: map<Name, Svi>, names: seq<Name>, clash: (Svi, Svi) -> bool)
    requires forall i :: 0 <= i < |names| ==> names[i] in svis
  {
    forall i, j :: 0 <= i < j < |names| ==> !clash(svis[names[i]], svis[names[j]])
  }

  lemma EachPair(svis: map<Name, Svi>, names: seq<Name>, clash: (Svi, Svi) -> bool)
    requires Lists(names, svis.Keys) && forall a, b :: clash(a, b) ==> clash(b, a)
    ensures (forall i :: 0 <= i < |names| ==> names[i] in svis)
            && (NoneClash(svis, clash) <==> NoneClashIn(svis, names, clash))
  {
    assert forall i :: 0 <= i < |names| ==> names[i] in names;
    if !NoneClash(svis, clash) {
      var a, b :| a in svis && b in svis && a != b && clash(svis[a], svis[b]);
      assert a in names && b in names;
      var i :| 0 <= i < |names| && names[i] == a;
      var j :| 0 <= j < |names| && names[j] == b;
      assert i < j || j < i;
      assert clash(svis[b], svis[a]);
    }
  }

  ghost function SameVlan(): (Svi, Svi) -> bool { (a: Svi, b: Svi) => a.vlan == b.vlan }
  ghost predicate ShareAddress(a: Svi, b: Svi) {
    exists p, q :: p in a.addresses && q in b.addresses && p.addr == q.addr
  }
  ghost function SameAddress(): (Svi, Svi) -> bool { (a: Svi, b: Svi) => ShareAddress(a, b) }
  ghost function BothDhcp(): (Svi, Svi) -> bool { (a: Svi, b: Svi) => a.dhcpClient && b.dhcpClient }

  method UniqueVlansIn(svis: map<Name, Svi>, names: seq<Name>) returns (errors: seq<Problem>)
    requires forall i :: 0 <= i < |names| ==> names[i] in svis
    ensures errors == [] <==> NoneClashIn(svis, names, SameVlan())
  {
    errors := [];
    var byVlan: map<Vid, Name> := map[];
    for k := 0 to |names|
      invariant forall i :: 0 <= i < k ==> svis[names[i]].vlan in byVlan
      invariant forall v :: v in byVlan ==> exists i :: 0 <= i < k && svis[names[i]].vlan == v
      invariant errors == [] <==> forall i, j :: 0 <= i < j < k ==> svis[names[i]].vlan != svis[names[j]].vlan
    {
      var v := svis[names[k]].vlan;
      if v in byVlan { errors := errors + [SharedVlan]; }
      byVlan := byVlan[v := names[k]];
    }
  }

  method CheckUniqueVlans(svis: map<Name, Svi>) returns (errors: seq<Problem>)
    ensures errors == [] <==> NoneClash(svis, SameVlan())
  {
    var names := Names(svis.Keys);
    EachPair(svis, names, SameVlan());
    errors := UniqueVlansIn(svis, names);
  }

  /** Records the addresses of one SVI; it is an error if one belongs to another SVI. */
  method Own(owner: map<nat, Name>, n: Name, ps: seq<Prefix>) returns (r: map<nat, Name>, errors: seq<Problem>)
    requires forall a :: a in owner ==> owner[a] != n
    ensures errors == [] <==> forall i :: 0 <= i < |ps| ==> ps[i].addr !in owner
    ensures forall a :: a in r <==> a in owner || exists i :: 0 <= i < |ps| && ps[i].addr == a
    ensures forall a :: a in r ==> r[a] == n || (a in owner && r[a] == owner[a])
  {
    r, errors := owner, [];
    for i := 0 to |ps|
      invariant errors == [] <==> forall j :: 0 <= j < i ==> ps[j].addr !in owner
      invariant forall a :: a in r <==> a in owner || exists j :: 0 <= j < i && ps[j].addr == a
      invariant forall a :: a in r ==> r[a] == n || (a in owner && r[a] == owner[a])
      invariant forall a :: a in r && r[a] == n ==> exists j :: 0 <= j < i && ps[j].addr == a
    {
      var a := ps[i].addr;
      if a in r && r[a] != n { errors := errors + [SharedAddress]; }
      r := r[a := n];
    }
  }

  ghost predicate HasAddr(s: Svi, a: nat) { exists p :: p in s.addresses && p.addr == a }

  /** The addresses on record are those of the first `k` SVIs. */
  ghost predicate OwnersOf(svis: map<Name, Svi>, names: seq<Name>, k: nat, owner: map<nat, Name>)
    requires k <= |names| && forall i :: 0 <= i < |names| ==> names[i] in svis
  {
    && (forall a :: a in owner ==> exists i :: 0 <= i < k && names[i] == owner[a])
    && (forall a :: a in owner <==> exists i :: 0 <= i < k && HasAddr(svis[names[i]], a))
  }

  lemma OwnersStep(svis: map<Name, Svi>, names: seq<Name>, k: nat, owner: map<nat, Name>, ps: seq<Prefix>,
                   r: map<nat, Name>)
    requires k < |names| && (forall i :: 0 <= i < |names| ==> names[i] in svis) && OwnersOf(svis, names, k, owner)
    requires Lists(ps, svis[names[k]].addresses)
    requires forall a :: a in r <==> a in owner || exists i :: 0 <= i < |ps| && ps[i].addr == a
    requires forall a :: a in r ==> r[a] == names[k] || (a in owner && r[a] == owner[a])
    ensures OwnersOf(svis, names, k + 1, r)
  {
    forall a ensures HasAddr(svis[names[k]], a) <==> exists i :: 0 <= i < |ps| && ps[i].addr == a {
      if HasAddr(svis[names[k]], a) {
        var p :| p in svis[names[k]].addresses && p.addr == a;
        assert p in ps;
      }
      if i :| 0 <= i < |ps| && ps[i].addr == a { assert ps[i] in svis[names[k]].addresses; }
    }
  }

  lemma ShareAt(a: Svi, b: Svi, ps: seq<Prefix>)
    requires Lists(ps, b.addresses)
    ensures ShareAddress(a, b) <==> exists j :: 0 <= j < |ps| && HasAddr(a, ps[j].addr)
  {
    if ShareAddress(a, b) {
      var p, q :| p in a.addresses && q in b.addresses && p.addr == q.addr;
      assert q in ps;
      var j :| 0 <= j < |ps| && ps[j] == q;
      assert HasAddr(a, ps[j].addr);
    }
    if j :| 0 <= j < |ps| && HasAddr(a, ps[j].addr) {
      assert ps[j] in ps;
      var p :| p in a.addresses && p.addr == ps[j].addr;
    }
  }

  lemma SharesExactly(svis: map<Name, Svi>, names: seq<Name>, k: nat, owner: map<nat, Name>, ps: seq<Prefix>)
    requires k < |names| && (forall i :: 0 <= i < |names| ==> names[i] in svis)
    requires forall a :: a in owner <==> exists i :: 0 <= i < k && HasAddr(svis[names[i]], a)
    requires Lists(ps, svis[names[k]].addresses)
    ensures (forall j :: 0 <= j < |ps| ==> ps[j].addr !in owner) <==>
            forall i :: 0 <= i < k ==> !ShareAddress(svis[names[i]], svis[names[k]])
  {
    forall i | 0 <= i < k
      ensures ShareAddress(svis[names[i]], svis[names[k]]) <==>
              exists j :: 0 <= j < |ps| && HasAddr(svis[names[i]], ps[j].addr)
    {
      ShareAt(svis[names[i]], svis[names[k]], ps);
    }
    if j :| 0 <= j < |ps| && ps[j].addr in owner {
      var i :| 0 <= i < k && HasAddr(svis[names[i]], ps[j].addr);
      assert ShareAddress(svis[names[i]], svis[names[k]]);
    }
  }

  ghost predicate NoneShare(svis: map<Name, Svi>, names: seq<Name>, k: nat)
    requires k <= |names| && forall i :: 0 <= i < |names| ==> names[i] in svis
  {
    forall i, j :: 0 <= i < j < k ==> !ShareAddress(svis[names[i]], svis[names[j]])
  }

  lemma NoneShareStep(svis: map<Name, Svi>, names: seq<Name>, k: nat)
    requires k < |names| && forall i :: 0 <= i < |names| ==> names[i] in svis
    ensures NoneShare(svis, names, k + 1) <==>
            NoneShare(svis, names, k) && forall i :: 0 <= i < k ==> !ShareAddress(svis[names[i]], svis[names[k]])
  {
  }

  method OwnNext(svis: map<Name, Svi>, names: seq<Name>, k: nat, owner: map<nat, Name>)
    returns (r: map<nat, Name>, errors: seq<Problem>)
    requires k < |names| && (forall i :: 0 <= i < |names| ==> names[i] in svis) && OwnersOf(svis, names, k, owner)
    requires forall i, j :: 0 <= i < j < |names| ==> names[i] != names[j]
    ensures OwnersOf(svis, names, k + 1, r)
    ensures errors == [] <==> forall i :: 0 <= i < k ==> !ShareAddress(svis[names[i]], svis[names[k]])
  {
    var ps := Prefixes(svis[names[k]].addresses);
    r, errors := Own(owner, names[k], ps);
    OwnersStep(svis, names, k, owner, ps, r);
    SharesExactly(svis, names, k, owner, ps);
  }

  method UniqueAddressesIn(svis: map<Name, Svi>, names: seq<Name>) returns (errors: seq<Problem>)
    requires forall i :: 0 <= i < |names| ==> names[i] in svis
    requires forall i, j :: 0 <= i < j < |names| ==> names[i] != names[j]
    ensures errors == [] <==> NoneShare(svis, names, |names|)
  {
    errors := [];
    var owner: map<nat, Name> := map[];
    for k := 0 to |names|
      invariant OwnersOf(svis, names, k, owner) && (errors == [] <==> NoneShare(svis, names, k))
    {
      var bad;
      owner, bad := OwnNext(svis, names, k, owner);
      NoneShareStep(svis, names, k);
      errors := errors + bad;
    }
  }

  method CheckUniqueAddresses(svis: map<Name, Svi>) returns (errors: seq<Problem>)
    ensures errors == [] <==> NoneClash(svis, SameAddress())
  {
    var names := Names(svis.Keys);
    EachPair(svis, names, SameAddress());
    errors := UniqueAddressesIn(svis, names);
  }

  method SingleDhcpClientIn(svis: map<Name, Svi>, names: seq<Name>) returns (errors: seq<Problem>)
    requires forall i :: 0 <= i < |names| ==> names[i] in svis
    ensures errors == [] <==> NoneClashIn(svis, names, BothDhcp())
  {
    errors := [];
    var first: Option<nat> := None;
    for k := 0 to |names|
      invariant first.Some? ==> first.value < k && svis[names[first.value]].dhcpClient
      invariant first.None? ==> forall i :: 0 <= i < k ==> !svis[names[i]].dhcpClient
      invariant errors == [] <==>
                forall i, j :: 0 <= i < j < k ==> !(svis[names[i]].dhcpClient && svis[names[j]].dhcpClient)
    {
      if svis[names[k]].dhcpClient {
        if first.Some? { errors := errors + [SecondDhcpClient]; } else { first := Some(k); }
      }
    }
  }

  method CheckSingleDhcpClient(svis: map<Name, Svi>) returns (errors: seq<Problem>)
    ensures errors == [] <==> NoneClash(svis, BothDhcp())
  {
    var names := Names(svis.Keys);
    EachPair(svis, names, BothDhcp());
    errors := SingleDhcpClientIn(svis, names);
  }

  // ----- the whole -----

  ghost predicate ChecksOk(svis: map<Name, Svi>) {
    NoneClash(svis, SameVlan()) && NoneClash(svis, SameAddress()) && NoneClash(svis, BothDhcp())
  }

  /** The configurations that are accepted on a switch with these ports. */
  ghost predicate Acceptable(c: Config, ports: set<Name>) {
    ModeOk(c) && DomainOk(c, ports) &&
    var dom := DomainOf(c, ports);
    InterfacesOk(c.interfaces, ports, dom) && ChecksOk(SvisOf(c.interfaces, ports, dom))
    && StpOk(c.stp, PortsOf(c.interfaces, ports, dom).Keys)
  }

  /** What an acceptable configuration asks for. */
  ghost function Meaning(c: Config, ports: set<Name>): Desired
    requires Acceptable(c, ports)
  {
    var dom := DomainOf(c, ports);
    var ps := PortsOf(c.interfaces, ports, dom);
    Desired(dom.mode, dom.vlans, ps, SvisOf(c.interfaces, ports, dom), StpMeaning(c.stp, ps.Keys))
  }

  method ValidateDomain(c: Config, ports: set<Name>) returns (dom: Domain, errors: seq<Problem>)
    ensures AllValid(dom)
    ensures errors == [] <==> ModeOk(c) && DomainOk(c, ports)
    ensures errors == [] ==> dom == DomainOf(c, ports)
  {
    var bad := if ModeOk(c) then [] else [UnknownMode];
    if ModeOf(c) == Dot1q {
      var vlans;
      vlans, errors := DeclareVlans(c.vlans);
      errors := bad + (if c.groups != [] then [GroupsNeedPortBased] else []) + errors;
      dom := Domain(Dot1q, if errors == [] then vlans else map[], map[]);
    } else {
      var vlans, groupOf;
      vlans, groupOf, errors := PortGroups(c.groups, c.interfaces, ports);
      errors := bad + (if c.vlans != [] then [VlansNeedDot1q] else []) + errors;
      dom := Domain(PortBased, if errors == [] then vlans else map[], groupOf);
    }
  }

  method Checks(svis: map<Name, Svi>) returns (errors: seq<Problem>)
    ensures errors == [] <==> ChecksOk(svis)
  {
    var e1 := CheckUniqueVlans(svis);
    var e2 := CheckUniqueAddresses(svis);
    var e3 := CheckSingleDhcpClient(svis);
    errors := e1 + e2 + e3;
  }

  /** `desired_state`: accepts exactly the acceptable configurations, and asks for what they mean. */
  method DesiredState(c: Config, ports: set<Name>) returns (r: Result<Desired, seq<Problem>>)
    ensures r.Ok? <==> Acceptable(c, ports)
    ensures r.Ok? ==> r.value == Meaning(c, ports)
  {
    var dom, e1 := ValidateDomain(c, ports);
    var ps, ss, e2 := ValidateInterfaces(c.interfaces, ports, dom);
    var stp, e3 := DesiredStp(c.stp, ps.Keys);
    var e4 := Checks(ss);
    var errors := e1 + e2 + e3 + e4;
    if errors == [] { return Ok(Desired(dom.mode, dom.vlans, ps, ss, stp)); }
    return Err(errors);
  }
}
