/**
 * What configurations the validator accepts and what they ask for, stated for each entry on its
 * own, and the loops that establish it (crates/switch-model/src/lib.rs).
 */
module Validator {
  import opened Basics
  import opened Model
  import opened VlanRanges
  import opened Config

  // ----- the VLANs ports and SVIs may use -----

  datatype Domain = Domain(mode: VlanMode, vlans: map<Vid, VlanInfo>, groupOf: map<Name, Vid>)

  predicate ModeOk(c: Config) { c.mode in {None, Some("DOT1Q"), Some("PORT_BASED")} }

  function ModeOf(c: Config): VlanMode { if c.mode == Some("PORT_BASED") then PortBased else Dot1q }

  predicate DeclOk(e: VlanDecl) {
    e.id.Some? && ValidVid(e.id.value) && e.status in {None, Some("ACTIVE"), Some("SUSPENDED")}
  }

  predicate AllDecls(es: seq<VlanDecl>) { forall i :: 0 <= i < |es| ==> DeclOk(es[i]) }

  /** Of entries with the same id the last one counts. */
  function DeclaredBy(es: seq<VlanDecl>): (m: map<Vid, VlanInfo>)
    requires AllDecls(es)
    ensures forall v :: v in m ==> ValidVid(v)
  {
    if es == [] then map[] else
      var e := es[|es| - 1];
      DeclaredBy(es[..|es| - 1])[e.id.value := VlanInfo(e.name, e.status != Some("SUSPENDED"))]
  }

  method DeclareVlans(es: seq<VlanDecl>) returns (vlans: map<Vid, VlanInfo>, errors: seq<Problem>)
    ensures errors == [] <==> AllDecls(es)
    ensures errors == [] ==> vlans == DeclaredBy(es)
  {
    vlans, errors := map[], [];
    for i := 0 to |es|
      invariant errors == [] <==> AllDecls(es[..i])
      invariant errors == [] ==> vlans == DeclaredBy(es[..i])
    {
      var e := es[i];
      assert es[..i + 1] == es[..i] + [e];
      if e.id.None? {
        errors := errors + [NoId];
      } else if !ValidVid(e.id.value) {
        errors := errors + [Problem.OutOfRange(e.id.value)];
      } else {
        if !(e.status in {None, Some("ACTIVE"), Some("SUSPENDED")}) { errors := errors + [UnknownStatus]; }
        vlans := vlans[e.id.value := VlanInfo(e.name, e.status != Some("SUSPENDED"))];
      }
    }
    assert es[..|es|] == es;
  }

  // ----- port-based groups -----

  datatype Member = Member(port: Name, group: Vid)

  /** A configured switch port. */
  predicate IsConfiguredPort(ifs: seq<Interface>, ports: set<Name>, n: Name) {
    n in ports && exists i ::
        i in ifs && i.name == n && i.ifType.Some? && Unprefixed(i.ifType.value) == "ethernetCsmacd"
  }

  function MembersOf(id: Vid, ports: seq<Name>): (ms: seq<Member>)
    ensures |ms| == |ports| && forall j :: 0 <= j < |ms| ==> ms[j] == Member(ports[j], id)
  {
    seq(|ports|, j requires 0 <= j < |ports| => Member(ports[j], id))
  }

  predicate IdOk(id: Option<nat>) { id.Some? && ValidVid(id.value) }

  predicate AllIds(gs: seq<Group>) { forall i :: 0 <= i < |gs| ==> IdOk(gs[i].id) }

  /** Every port listed by a group, with the group. */
  function Members(gs: seq<Group>): seq<Member>
    requires AllIds(gs)
  {
    if gs == [] then [] else Members(gs[..|gs| - 1]) + MembersOf(gs[|gs| - 1].id.value, gs[|gs| - 1].ports)
  }

  ghost predicate MembersOk(ms: seq<Member>, ifs: seq<Interface>, ports: set<Name>) {
    && (forall m :: m in ms ==> IsConfiguredPort(ifs, ports, m.port))
    && (forall j, k :: 0 <= j < k < |ms| ==> ms[j].port != ms[k].port)
  }

  ghost predicate GroupsOk(gs: seq<Group>, ifs: seq<Interface>, ports: set<Name>) {
    AllIds(gs) && MembersOk(Members(gs), ifs, ports)
  }

  function GroupVlans(gs: seq<Group>): (m: map<Vid, VlanInfo>)
    requires AllIds(gs)
    ensures forall v :: v in m ==> ValidVid(v) && m[v].active
    ensures forall i :: 0 <= i < |gs| ==> gs[i].id.value in m
  {
    if gs == [] then map[] else
      var g := gs[|gs| - 1];
      GroupVlans(gs[..|gs| - 1])[g.id.value := VlanInfo(g.name, true)]
  }

  function GroupMap(ms: seq<Member>): (m: map<Name, Vid>) {
    if ms == [] then map[] else GroupMap(ms[..|ms| - 1])[ms[|ms| - 1].port := ms[|ms| - 1].group]
  }

  lemma {:induction false} GroupMapAt(ms: seq<Member>, n: Name)
    requires forall j, k :: 0 <= j < k < |ms| ==> ms[j].port != ms[k].port
    ensures n in GroupMap(ms) <==> exists g :: Member(n, g) in ms
    ensures forall g :: n in GroupMap(ms) && GroupMap(ms)[n] == g <==> Member(n, g) in ms
    decreases ms
  {
    if ms != [] {
      var rest, m := ms[..|ms| - 1], ms[|ms| - 1];
      assert ms == rest + [m];
      GroupMapAt(rest, n);
      if n == m.port {
        assert forall j :: 0 <= j < |rest| ==> rest[j] == ms[j] && ms[j].port != m.port;
      }
    }
  }

  /** One more member: it has to be a configured port in no group yet. */
  lemma MemberStep(ms: seq<Member>, m: Member, ifs: seq<Interface>, ports: set<Name>)
    requires MembersOk(ms, ifs, ports)
    ensures MembersOk(ms + [m], ifs, ports) <==> IsConfiguredPort(ifs, ports, m.port) && m.port !in GroupMap(ms)
    ensures GroupMap(ms + [m]) == GroupMap(ms)[m.port := m.group]
  {
    var all := ms + [m];
    GroupMapAt(ms, m.port);
    assert all[..|all| - 1] == ms && all[|all| - 1] == m;
    if m.port in GroupMap(ms) {
      var g :| Member(m.port, g) in ms;
      var j :| 0 <= j < |ms| && ms[j] == Member(m.port, g);
      assert all[j].port == all[|ms|].port;
    } else {
      assert forall j :: 0 <= j < |ms| && ms[j].port == m.port ==> ms[j] == Member(m.port, ms[j].group);
      if IsConfiguredPort(ifs, ports, m.port) {
        assert forall x :: x in all ==> x in ms || x == m;
      }
    }
    if MembersOk(all, ifs, ports) { assert m in all; }
  }

  lemma MembersPrefix(a: seq<Member>, b: seq<Member>, ifs: seq<Interface>, ports: set<Name>)
    requires MembersOk(a + b, ifs, ports)
    ensures MembersOk(a, ifs, ports)
  {
    forall j, k | 0 <= j < k < |a| ensures a[j].port != a[k].port { assert (a + b)[j] == a[j] && (a + b)[k] == a[k]; }
    forall m | m in a ensures IsConfiguredPort(ifs, ports, m.port) { assert m in a + b; }
  }

  /** The ports of one group, after the members `ghost before` of other groups. */
  method AddMembers(id: Vid, names: seq<Name>, ifs: seq<Interface>, ports: set<Name>, groupOf0: map<Name, Vid>,
                    errors0: seq<Problem>, ghost before: seq<Member>)
    returns (groupOf: map<Name, Vid>, errors: seq<Problem>)
    requires errors0 == [] ==> MembersOk(before, ifs, ports) && groupOf0 == GroupMap(before)
    ensures errors == [] <==> errors0 == [] && MembersOk(before + MembersOf(id, names), ifs, ports)
    ensures errors == [] ==> groupOf == GroupMap(before + MembersOf(id, names))
  {
    groupOf, errors := groupOf0, errors0;
    ghost var ms := MembersOf(id, names);
    assert before + ms[..0] == before;
    for j := 0 to |names|
      invariant errors == [] <==> errors0 == [] && MembersOk(before + ms[..j], ifs, ports)
      invariant errors == [] ==> groupOf == GroupMap(before + ms[..j])
    {
      var port := names[j];
      ghost var done := before + ms[..j];
      assert before + ms[..j + 1] == done + [ms[j]];
      if errors == [] {
        MemberStep(done, ms[j], ifs, ports);
      } else if errors0 == [] && MembersOk(done + [ms[j]], ifs, ports) {
        MembersPrefix(done, [ms[j]], ifs, ports);
      }
      if !IsConfiguredPort(ifs, ports, port) {
        errors := errors + [NotASwitchPort];
      } else {
        if port in groupOf { errors := errors + [AlreadyInGroup]; }
        groupOf := groupOf[port := id];
      }
    }
    assert ms[..|names|] == ms;
  }

  method PortGroups(gs: seq<Group>, ifs: seq<Interface>, ports: set<Name>)
    returns (vlans: map<Vid, VlanInfo>, groupOf: map<Name, Vid>, errors: seq<Problem>)
    ensures errors == [] <==> GroupsOk(gs, ifs, ports)
    ensures errors == [] ==> vlans == GroupVlans(gs) && groupOf == GroupMap(Members(gs))
  {
    vlans, groupOf, errors := map[], map[], [];
    for i := 0 to |gs|
      invariant errors == [] <==> GroupsOk(gs[..i], ifs, ports)
      invariant errors == [] ==> vlans == GroupVlans(gs[..i]) && groupOf == GroupMap(Members(gs[..i]))
    {
      var g := gs[i];
      assert gs[..i + 1] == gs[..i] + [g] && gs[..i + 1][..i] == gs[..i];
      if !IdOk(g.id) {
        errors := errors + [if g.id.None? then NoId else Problem.OutOfRange(g.id.value)];
      } else {
        ghost var fine := AllIds(gs[..i]);
        ghost var before := if fine then Members(gs[..i]) else [];
        if fine && errors != [] && MembersOk(before + MembersOf(g.id.value, g.ports), ifs, ports) {
          MembersPrefix(before, MembersOf(g.id.value, g.ports), ifs, ports);
        }
        vlans := vlans[g.id.value := VlanInfo(g.name, true)];
        groupOf, errors := AddMembers(g.id.value, g.ports, ifs, ports, groupOf, errors, before);
      }
    }
    assert gs[..|gs|] == gs;
  }

  ghost predicate DomainOk(c: Config, ports: set<Name>) {
    if ModeOf(c) == Dot1q then c.groups == [] && AllDecls(c.vlans)
    else c.vlans == [] && GroupsOk(c.groups, c.interfaces, ports)
  }

  ghost function DomainOf(c: Config, ports: set<Name>): (dom: Domain)
    requires DomainOk(c, ports)
    ensures forall v :: v in dom.vlans ==> ValidVid(v)
  {
    if ModeOf(c) == Dot1q then Domain(Dot1q, DeclaredBy(c.vlans), map[])
    else Domain(PortBased, GroupVlans(c.groups), GroupMap(Members(c.groups)))
  }
}
