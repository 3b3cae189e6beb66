/** The spanning tree part of the configuration (crates/switch-model/src/stp.rs). */
module StpValidator {
  import opened Basics
  import opened Model
  import opened VlanRanges
  import opened Config
  import opened Daemon
  import Updates
  import Delta

  const DEFAULT_BRIDGE_PRIORITY := 32768
  const DEFAULT_PORT_PRIORITY := 128
  const DEFAULT_HELLO_TIME := 2
  const DEFAULT_MAX_AGE := 20
  const DEFAULT_FORWARD_DELAY := 15
  const DEFAULT_HOLD_COUNT := 6
  const DEFAULT_MAX_HOPS := 20

  // ----- timers -----

  function MaxAge(c: TimerConfig): nat { OrElse(c.maxAge, DEFAULT_MAX_AGE) }
  function ForwardDelay(c: TimerConfig): nat { OrElse(c.forwardDelay, DEFAULT_FORWARD_DELAY) }

  predicate TimersOk(c: TimerConfig) {
    OrElse(c.helloTime, DEFAULT_HELLO_TIME) == DEFAULT_HELLO_TIME && TimersFit(ForwardDelay(c), MaxAge(c))
  }

  // ----- a tree -----

  predicate PriorityOk(p: Option<nat>) { p.Some? ==> p.value % 4096 == 0 && p.value <= 61440 }

  predicate EntryOk(e: TreeEntry, ports: set<Name>) {
    e.name in ports && (e.priority.Some? ==> e.priority.value % 16 == 0)
  }

  predicate EntriesOk(es: seq<TreeEntry>, ports: set<Name>) { forall i :: 0 <= i < |es| ==> EntryOk(es[i], ports) }

  /** Every port, with the cost of the last entry that names it and the last priority given for it. */
  function PortsBy(es: seq<TreeEntry>, ports: set<Name>): (m: map<Name, TreePort>)
    requires EntriesOk(es, ports)
    ensures m.Keys == ports && forall p :: p in m ==> m[p].priority % 16 == 0
  {
    if es == [] then map p | p in ports :: TreePort(None, DEFAULT_PORT_PRIORITY) else
      var e, rest := es[|es| - 1], PortsBy(es[..|es| - 1], ports);
      rest[e.name := TreePort(e.cost, OrElse(e.priority, rest[e.name].priority))]
  }

  predicate TreeOk(priority: Option<nat>, es: seq<TreeEntry>, ports: set<Name>) {
    PriorityOk(priority) && EntriesOk(es, ports)
  }

  function TreeBy(priority: Option<nat>, es: seq<TreeEntry>, ports: set<Name>): Tree
    requires TreeOk(priority, es, ports)
  {
    Tree(OrElse(priority, DEFAULT_BRIDGE_PRIORITY), PortsBy(es, ports))
  }

  method SetEntry(m: map<Name, TreePort>, e: TreeEntry) returns (r: map<Name, TreePort>, ok: bool)
    requires e.name in m
    ensures ok <==> (e.priority.Some? ==> e.priority.value % 16 == 0)
    ensures r.Keys == m.Keys && (ok ==> r == m[e.name := TreePort(e.cost, OrElse(e.priority, m[e.name].priority))])
  {
    r := m[e.name := TreePort(e.cost, m[e.name].priority)];
    ok := true;
    if e.priority.Some? {
      if e.priority.value % 16 == 0 {
        r := r[e.name := TreePort(e.cost, e.priority.value)];
      } else {
        ok := false;
      }
    }
  }

  method SetEntries(es: seq<TreeEntry>, ports: set<Name>) returns (m: map<Name, TreePort>, errors: seq<Problem>)
    ensures errors == [] <==> EntriesOk(es, ports)
    ensures errors == [] ==> m == PortsBy(es, ports)
  {
    errors, m := [], map p | p in ports :: TreePort(None, DEFAULT_PORT_PRIORITY);
    for i := 0 to |es|
      invariant errors == [] <==> EntriesOk(es[..i], ports)
      invariant m.Keys == ports && (errors == [] ==> m == PortsBy(es[..i], ports))
    {
      var e := es[i];
      assert es[..i + 1] == es[..i] + [e] && es[..i + 1][..i] == es[..i];
      if e.name !in m {
        errors := errors + [NotASwitchPort];
      } else {
        var ok;
        m, ok := SetEntry(m, e);
        if !ok { errors := errors + [BadPriority]; }
      }
    }
    assert es[..|es|] == es;
  }

  method ValidateTree(priority: Option<nat>, es: seq<TreeEntry>, ports: set<Name>)
    returns (tree: Tree, errors: seq<Problem>)
    ensures errors == [] <==> TreeOk(priority, es, ports)
    ensures errors == [] ==> tree == TreeBy(priority, es, ports)
  {
    var m;
    m, errors := SetEntries(es, ports);
    if PriorityOk(priority) {
      tree := Tree(OrElse(priority, DEFAULT_BRIDGE_PRIORITY), m);
    } else {
      errors := errors + [BadPriority];
      tree := Tree(DEFAULT_BRIDGE_PRIORITY, m);
    }
  }

  // ----- MST instances -----

  type Reader = Scalar -> Result<Range, EntryError>

  /** Reading the entries of an instance. */
  function Entry(): Reader { e => VlanEntry(e) }

  predicate ReadOk(es: seq<Scalar>, read: Reader) { forall i :: 0 <= i < |es| ==> read(es[i]).Ok? }

  predicate Entered(es: seq<Scalar>, read: Reader, v: Vid) { exists i :: 0 <= i < |es| && InRange(read(es[i]), v) }

  predicate InRange(r: Result<Range, EntryError>, v: Vid) { r.Ok? && r.value.low <= v <= r.value.high }

  function VlansBy(es: seq<Scalar>, read: Reader): set<Vid> { set v | 0 <= v < 4095 && Entered(es, read, v) }

  method InstanceVlans(es: seq<Scalar>, read: Reader) returns (vlans: set<Vid>, errors: seq<Problem>)
    requires forall e :: read(e).Ok? ==> read(e).value.high < 4095
    ensures errors == [] <==> ReadOk(es, read)
    ensures vlans == VlansBy(es, read)
  {
    vlans, errors := {}, [];
    for i := 0 to |es|
      invariant errors == [] <==> ReadOk(es[..i], read)
      invariant forall v :: v in vlans <==> v < 4095 && Entered(es[..i], read, v)
    {
      assert es[..i + 1] == es[..i] + [es[i]];
      match read(es[i]) {
        case Ok(r) => vlans := vlans + (set v | 0 <= v < 4095 && InRange(Ok(r), v));
        case Err(_) => errors := errors + [BadTrunk];
      }
      forall v ensures Entered(es[..i + 1], read, v) <==> Entered(es[..i], read, v) || InRange(read(es[i]), v)
      {
        ListsStep(es[..i], es[i], read, v);
      }
    }
    assert es[..|es|] == es;
  }

  lemma ListsStep(es: seq<Scalar>, e: Scalar, read: Reader, v: Vid)
    ensures Entered(es + [e], read, v) <==> Entered(es, read, v) || InRange(read(e), v)
  {
    var all := es + [e];
    assert all[|es|] == e;
    if Entered(es, read, v) {
      var i :| 0 <= i < |es| && InRange(read(es[i]), v);
      assert all[i] == es[i];
    }
  }

  predicate InstanceOk(x: Instance, ports: set<Name>) {
    x.id.Some? && ReadOk(x.vlans, Entry()) && TreeOk(x.bridgePriority, x.ports, ports)
  }

  /** No two instances list the same VLAN. */
  ghost predicate Apart(xs: seq<Instance>) {
    forall i, j :: 0 <= i < j < |xs| ==> VlansBy(xs[i].vlans, Entry()) !! VlansBy(xs[j].vlans, Entry())
  }

  ghost predicate InstancesOk(xs: seq<Instance>, ports: set<Name>) {
    (forall i :: 0 <= i < |xs| ==> InstanceOk(xs[i], ports)) && Apart(xs)
  }

  ghost function MstisBy(xs: seq<Instance>, ports: set<Name>): map<nat, Msti>
    requires InstancesOk(xs, ports)
  {
    if xs == [] then map[] else
      var x := xs[|xs| - 1];
      MstisBy(xs[..|xs| - 1],
          ports)[x.id.value := Msti(VlansBy(x.vlans, Entry()), TreeBy(x.bridgePriority, x.ports, ports))]
  }

  /** Every VLAN that an earlier instance has is on record. */
  ghost predicate Covers(seen: map<Vid, nat>, xs: seq<Instance>) {
    forall v :: v in seen <==> exists i :: 0 <= i < |xs| && v in VlansBy(xs[i].vlans, Entry())
  }

  lemma CoversStep(seen: map<Vid, nat>, xs: seq<Instance>, x: Instance, seen': map<Vid, nat>)
    requires Covers(seen, xs) && seen'.Keys == seen.Keys + VlansBy(x.vlans, Entry())
    ensures Covers(seen', xs + [x])
    ensures Apart(xs + [x]) <==> Apart(xs) && seen.Keys !! VlansBy(x.vlans, Entry())
  {
    var all, vs := xs + [x], VlansBy(x.vlans, Entry());
    assert all[|xs|] == x && forall i :: 0 <= i < |xs| ==> all[i] == xs[i];
    forall v ensures v in seen' <==> exists i :: 0 <= i < |all| && v in VlansBy(all[i].vlans, Entry()) {
      if v in seen {
        var i :| 0 <= i < |xs| && v in VlansBy(xs[i].vlans, Entry()); assert v in VlansBy(all[i].vlans, Entry());
      }
      if v in vs { assert v in VlansBy(all[|xs|].vlans, Entry()); }
    }
    if Apart(all) {
      forall i, j | 0 <= i < j < |xs| ensures VlansBy(xs[i].vlans, Entry()) !! VlansBy(xs[j].vlans, Entry()) {
        assert VlansBy(all[i].vlans, Entry()) !! VlansBy(all[j].vlans, Entry());
      }
      forall v | v in seen ensures v !in vs {
        var i :| 0 <= i < |xs| && v in VlansBy(xs[i].vlans, Entry());
        assert VlansBy(all[i].vlans, Entry()) !! VlansBy(all[|xs|].vlans, Entry());
      }
    }
  }

  method Claim(vlans: seq<Vid>, id: nat, seen: map<Vid, nat>) returns (seen': map<Vid, nat>, errors: seq<Problem>)
    ensures seen'.Keys == seen.Keys + Elems(vlans)
    requires forall i, j :: 0 <= i < j < |vlans| ==> vlans[i] != vlans[j]
    ensures errors == [] <==> seen.Keys !! Elems(vlans)
  {
    seen', errors := seen, [];
    for k := 0 to |vlans|
      invariant seen'.Keys == seen.Keys + Elems(vlans[..k])
      invariant errors == [] <==> seen.Keys !! Elems(vlans[..k])
    {
      assert vlans[..k + 1] == vlans[..k] + [vlans[k]];
      if vlans[k] in seen' { errors := errors + [SharedMstiVlan]; }
      seen' := seen'[vlans[k] := id];
    }
    assert vlans[..|vlans|] == vlans;
  }

  method ValidateInstance(x: Instance, ports: set<Name>) returns (msti: Msti, errors: seq<Problem>)
    ensures errors == [] <==> ReadOk(x.vlans, Entry()) && TreeOk(x.bridgePriority, x.ports, ports)
    ensures errors == [] ==> msti == Msti(VlansBy(x.vlans, Entry()), TreeBy(x.bridgePriority, x.ports, ports))
    ensures msti.vlans == VlansBy(x.vlans, Entry())
  {
    var vlans, bad := InstanceVlans(x.vlans, Entry());
    var tree, problems := ValidateTree(x.bridgePriority, x.ports, ports);
    msti, errors := Msti(vlans, tree), bad + problems;
  }

  lemma InstancesStep(xs: seq<Instance>, x: Instance, ports: set<Name>)
    ensures InstancesOk(xs + [x], ports) <==> InstancesOk(xs, ports) && InstanceOk(x, ports) && Apart(xs + [x])
    ensures InstancesOk(xs + [x], ports) ==>
              var msti := Msti(VlansBy(x.vlans, Entry()), TreeBy(x.bridgePriority, x.ports, ports));
              MstisBy(xs + [x], ports) == MstisBy(xs, ports)[x.id.value := msti]
  {
    var all := xs + [x];
    assert all[|xs|] == x && all[..|xs|] == xs && forall i :: 0 <= i < |xs| ==> all[i] == xs[i];
    if Apart(all) {
      forall i, j | 0 <= i < j < |xs| ensures VlansBy(xs[i].vlans, Entry()) !! VlansBy(xs[j].vlans, Entry()) {
        assert VlansBy(all[i].vlans, Entry()) !! VlansBy(all[j].vlans, Entry());
      }
    }
  }

  /** `mstis`: one MSTI for each instance, no VLAN in two of them. */
  method ValidateInstances(xs: seq<Instance>, ports: set<Name>) returns (mstis: map<nat, Msti>, errors: seq<Problem>)
    ensures errors == [] <==> InstancesOk(xs, ports)
    ensures errors == [] ==> mstis == MstisBy(xs, ports)
  {
    mstis, errors := map[], [];
    var seen: map<Vid, nat> := map[];
    for i := 0 to |xs|
      invariant errors == [] <==> InstancesOk(xs[..i], ports)
      invariant errors == [] ==> mstis == MstisBy(xs[..i], ports) && Covers(seen, xs[..i])
    {
      var x := xs[i];
      assert xs[..i + 1] == xs[..i] + [x];
      InstancesStep(xs[..i], x, ports);
      if x.id.None? {
        errors := errors + [NoId];
      } else {
        var msti, bad := ValidateInstance(x, ports);
        var seen', shared := Claim(Numbers(msti.vlans), x.id.value, seen);
        if errors == [] { CoversStep(seen, xs[..i], x, seen'); }
        mstis := mstis[x.id.value := msti];
        seen, errors := seen', errors + bad + shared;
      }
    }
    assert xs[..|xs|] == xs;
  }

  // ----- per-port features -----

  function EdgeOf(s: Option<string>): Option<Edge> {
    if s.None? || Unprefixed(s.value) == "EDGE_AUTO" then Some(Auto)
    else if Unprefixed(s.value) == "EDGE_ENABLE" then Some(Enable)
    else if Unprefixed(s.value) == "EDGE_DISABLE" then Some(Disable)
    else None
  }

  /** None is detected, and no link type at all is an error. */
  function LinkTypeOf(s: Option<string>): Option<Option<bool>> {
    if s.None? then Some(None) else if s == Some("P2P") then Some(Some(true))
        else if s == Some("SHARED") then Some(Some(false)) else None
  }

  function GuardOf(s: Option<string>): Option<bool> {
    if s.None? || s == Some("NONE") then Some(false) else if s == Some("ROOT") then Some(true) else None
  }

  predicate FeatureOk(f: Feature, ports: set<Name>) {
    f.name in ports && EdgeOf(f.edge).Some? && LinkTypeOf(f.linkType).Some? && GuardOf(f.guard).Some?
  }

  predicate FeaturesOk(fs: seq<Feature>, ports: set<Name>) { forall i :: 0 <= i < |fs| ==> FeatureOk(fs[i], ports) }

  function DefaultFeatures(c: StpConfig): PortFeatures {
    PortFeatures(Auto, None, false, OrElse(c.bpduGuard, false), OrElse(c.bpduFilter, false))
  }

  /** Every port; the entry for it overrides, for BPDU guard and filter only if it says so. */
  function FeaturesBy(fs: seq<Feature>, common: PortFeatures, ports: set<Name>): (m: map<Name, PortFeatures>)
    requires FeaturesOk(fs, ports)
    ensures m.Keys == ports
  {
    if fs == [] then map p | p in ports :: common else
      var f, rest := fs[|fs| - 1], FeaturesBy(fs[..|fs| - 1], common, ports);
      rest[f.name := PortFeatures(EdgeOf(f.edge).value, LinkTypeOf(f.linkType).value, GuardOf(f.guard).value,
                                  OrElse(f.bpduGuard, rest[f.name].bpduGuard),
                                      OrElse(f.bpduFilter, rest[f.name].bpduFilter))]
  }

  method SetFeature(m: map<Name, PortFeatures>, f: Feature) returns (r: map<Name, PortFeatures>, errors: seq<Problem>)
    requires f.name in m
    ensures r.Keys == m.Keys
    ensures errors == [] <==> EdgeOf(f.edge).Some? && LinkTypeOf(f.linkType).Some? && GuardOf(f.guard).Some?
    ensures errors == [] ==>
              r == m[f.name := PortFeatures(EdgeOf(f.edge).value, LinkTypeOf(f.linkType).value, GuardOf(f.guard).value,
                                            OrElse(f.bpduGuard, m[f.name].bpduGuard),
                                                OrElse(f.bpduFilter, m[f.name].bpduFilter))]
  {
    var p := m[f.name];
    errors := [];
    if EdgeOf(f.edge).Some? { p := p.(edge := EdgeOf(f.edge).value); } else { errors := errors + [BadFeature]; }
    if LinkTypeOf(f.linkType).Some? {
      p := p.(pointToPoint := LinkTypeOf(f.linkType).value);
    } else {
      errors := errors + [BadFeature];
    }
    if GuardOf(f.guard).Some? {
      p := p.(rootGuard := GuardOf(f.guard).value);
    } else {
      errors := errors + [BadFeature];
    }
    if f.bpduGuard.Some? { p := p.(bpduGuard := f.bpduGuard.value); }
    if f.bpduFilter.Some? { p := p.(bpduFilter := f.bpduFilter.value); }
    r := m[f.name := p];
  }

  method ValidateFeatures(fs: seq<Feature>, common: PortFeatures, ports: set<Name>)
    returns (m: map<Name, PortFeatures>, errors: seq<Problem>)
    ensures errors == [] <==> FeaturesOk(fs, ports)
    ensures errors == [] ==> m == FeaturesBy(fs, common, ports)
  {
    errors, m := [], map p | p in ports :: common;
    for i := 0 to |fs|
      invariant errors == [] <==> FeaturesOk(fs[..i], ports)
      invariant m.Keys == ports && (errors == [] ==> m == FeaturesBy(fs[..i], common, ports))
    {
      var f := fs[i];
      assert fs[..i + 1] == fs[..i] + [f] && fs[..i + 1][..i] == fs[..i];
      if f.name !in m {
        errors := errors + [NotASwitchPort];
      } else {
        var bad;
        m, bad := SetFeature(m, f);
        errors := errors + bad;
      }
    }
    assert fs[..|fs|] == fs;
  }

  // ----- the protocol -----

  function ProtocolOf(s: string): Option<Protocol> {
    var p := Unprefixed(s);
    if p == "STP" then Some(Stp) else if p == "RSTP" then Some(Rstp) else if p == "MSTP" then Some(Mstp) else None
  }

  /** Protocols that are known, and one at most. */
  predicate ProtocolsOk(ps: seq<string>) {
    && (forall i :: 0 <= i < |ps| ==> ProtocolOf(ps[i]).Some?)
    && (forall i :: 0 <= i < |ps| ==> ProtocolOf(ps[i]) == ProtocolOf(ps[0]))
  }

  method ValidateProtocols(ps: seq<string>) returns (chosen: Option<Protocol>, errors: seq<Problem>)
    ensures errors == [] <==> ProtocolsOk(ps)
    ensures errors == [] ==> chosen == if ps == [] then None else ProtocolOf(ps[0])
  {
    var found: set<Protocol> := {};
    errors := [];
    for i := 0 to |ps|
      invariant errors == [] <==> forall j :: 0 <= j < i ==> ProtocolOf(ps[j]).Some?
      invariant forall p :: p in found <==> exists j :: 0 <= j < i && ProtocolOf(ps[j]) == Some(p)
    {
      match ProtocolOf(ps[i]) {
        case Some(p) => found := found + {p};
        case None => errors := errors + [UnknownProtocol];
      }
    }
    chosen := if Stp in found then Some(Stp) else if Rstp in found then Some(Rstp) else if Mstp in found then Some(Mstp)
        else None;
    if errors == [] && ps != [] { assert ProtocolOf(ps[0]).value in found; }
    if exists p, q :: p in found && q in found && p != q { errors := errors + [TwoProtocols]; }
  }

  // ----- the whole -----

  predicate RegionOk(c: TimerConfig) {
    (c.revision.Some? ==> c.revision.value <= 65535) && (c.maxHop.Some? ==> 6 <= c.maxHop.value <= 40)
  }

  ghost predicate StpOk(c: StpConfig, ports: set<Name>) {
    && ProtocolsOk(c.protocols) && FeaturesOk(c.features, ports)
    && TimersOk(c.rstp) && c.rstp.name.None? && c.rstp.revision.None? && c.rstp.maxHop.None?
    && TreeOk(c.rstp.bridgePriority, c.rstpPorts, ports)
    && TimersOk(c.mstp) && RegionOk(c.mstp) && TreeOk(c.mstp.bridgePriority, c.mstpPorts, ports)
    && InstancesOk(c.instances, ports)
  }

  /** What should run: nothing without a protocol, and of the MSTP settings only MSTP has any. */
  ghost function StpMeaning(c: StpConfig, ports: set<Name>): Option<SpanningTree>
    requires StpOk(c, ports)
  {
    if c.protocols == [] then None else
      var p, features := ProtocolOf(c.protocols[0]).value, FeaturesBy(c.features, DefaultFeatures(c), ports);
      if p == Mstp then
        var m := c.mstp;
        Some(SpanningTree(Mstp, MaxAge(m), ForwardDelay(m), OrElse(m.holdCount, DEFAULT_HOLD_COUNT),
                          OrElse(m.maxHop, DEFAULT_MAX_HOPS), m.name, OrElse(m.revision, 0),
                          TreeBy(m.bridgePriority, c.mstpPorts, ports), MstisBy(c.instances, ports), features))
      else
        var r := c.rstp;
        Some(SpanningTree(p, MaxAge(r), ForwardDelay(r), OrElse(r.holdCount, DEFAULT_HOLD_COUNT), DEFAULT_MAX_HOPS,
                          None, 0, TreeBy(r.bridgePriority, c.rstpPorts, ports), map[], features))
  }

  method ValidateTimers(c: TimerConfig) returns (errors: seq<Problem>)
    ensures errors == [] <==> TimersOk(c)
  {
    errors := [];
    if c.helloTime.Some? && c.helloTime.value != DEFAULT_HELLO_TIME { errors := errors + [BadHello]; }
    if 2 * Minus1(ForwardDelay(c)) < MaxAge(c) { errors := errors + [BadTimers]; }
  }

  method ValidateRegion(c: TimerConfig) returns (revision: nat, hops: nat, errors: seq<Problem>)
    ensures errors == [] <==> RegionOk(c)
    ensures errors == [] ==> revision == OrElse(c.revision, 0) && hops == OrElse(c.maxHop, DEFAULT_MAX_HOPS)
  {
    revision, hops, errors := 0, DEFAULT_MAX_HOPS, [];
    if c.revision.Some? {
      if c.revision.value <= 65535 { revision := c.revision.value; } else { errors := errors + [BadRevision]; }
    }
    if c.maxHop.Some? {
      if 6 <= c.maxHop.value <= 40 { hops := c.maxHop.value; } else { errors := errors + [BadHops]; }
    }
  }

  method ValidateRstp(c: StpConfig, ports: set<Name>) returns (tree: Tree, errors: seq<Problem>)
    ensures errors == [] <==> TimersOk(c.rstp) && c.rstp.name.None? && c.rstp.revision.None? && c.rstp.maxHop.None?
                              && TreeOk(c.rstp.bridgePriority, c.rstpPorts, ports)
    ensures errors == [] ==> tree == TreeBy(c.rstp.bridgePriority, c.rstpPorts, ports)
  {
    var timers := ValidateTimers(c.rstp);
    var foreign := if c.rstp.name.Some? || c.rstp.revision.Some? || c.rstp.maxHop.Some? then [NotForRstp] else [];
    var bad;
    tree, bad := ValidateTree(c.rstp.bridgePriority, c.rstpPorts, ports);
    errors := timers + foreign + bad;
  }

  /** `desired_stp`. */
  method DesiredStp(c: StpConfig, ports: set<Name>) returns (stp: Option<SpanningTree>, errors: seq<Problem>)
    ensures errors == [] <==> StpOk(c, ports)
    ensures errors == [] ==> stp == StpMeaning(c, ports)
  {
    var protocol, e1 := ValidateProtocols(c.protocols);
    var features, e2 := ValidateFeatures(c.features, DefaultFeatures(c), ports);
    var rstpTree, e3 := ValidateRstp(c, ports);
    var e4 := ValidateTimers(c.mstp);
    var revision, hops, e5 := ValidateRegion(c.mstp);
    var cist, e6 := ValidateTree(c.mstp.bridgePriority, c.mstpPorts, ports);
    var mstis, e7 := ValidateInstances(c.instances, ports);
    errors := e1 + e2 + e3 + e4 + e5 + e6 + e7;
    if protocol.None? { return None, errors; }
    if protocol.value == Mstp {
      var m := c.mstp;
      stp := Some(SpanningTree(Mstp, MaxAge(m), ForwardDelay(m), OrElse(m.holdCount, DEFAULT_HOLD_COUNT), hops, m.name,
                               revision, cist, mstis, features));
    } else {
      var r := c.rstp;
      stp := Some(SpanningTree(protocol.value, MaxAge(r), ForwardDelay(r), OrElse(r.holdCount, DEFAULT_HOLD_COUNT),
                               DEFAULT_MAX_HOPS, None, 0, rstpTree, map[], features));
    }
  }

  // ----- what an accepted configuration guarantees -----

  /** The ranges the data model gives two leaves, which the validator does not check again. */
  predicate Ranged(c: StpConfig) {
    && (c.rstp.forwardDelay.Some? ==> c.rstp.forwardDelay.value <= 30)
    && (c.mstp.forwardDelay.Some? ==> c.mstp.forwardDelay.value <= 30)
    && forall i :: 0 <= i < |c.instances| ==> c.instances[i].id != Some(0)
  }

  /** Every MSTI comes from an instance. */
  lemma {:induction false} MstiFrom(xs: seq<Instance>, ports: set<Name>, id: nat) returns (k: nat)
    requires InstancesOk(xs, ports) && id in MstisBy(xs, ports)
    ensures k < |xs| && xs[k].id == Some(id) && MstisBy(xs, ports)[id].vlans == VlansBy(xs[k].vlans, Entry())
    ensures MstisBy(xs, ports)[id].tree.ports.Keys == ports
    decreases xs
  {
    var x, rest := xs[|xs| - 1], xs[..|xs| - 1];
    if x.id.value == id {
      k := |xs| - 1;
    } else {
      assert Apart(rest) by { assert forall i :: 0 <= i < |rest| ==> rest[i] == xs[i]; }
      k := MstiFrom(rest, ports, id);
    }
  }

  lemma MstisApart(xs: seq<Instance>, ports: set<Name>, i: nat, j: nat)
    requires InstancesOk(xs, ports) && i in MstisBy(xs, ports) && j in MstisBy(xs, ports) && i != j
    ensures MstisBy(xs, ports)[i].vlans !! MstisBy(xs, ports)[j].vlans
  {
    var a := MstiFrom(xs, ports, i);
    var b := MstiFrom(xs, ports, j);
    if a < b { assert VlansBy(xs[a].vlans, Entry()) !! VlansBy(xs[b].vlans, Entry()); }
    if b < a { assert VlansBy(xs[b].vlans, Entry()) !! VlansBy(xs[a].vlans, Entry()); }
  }

  lemma VlansValid(es: seq<Scalar>, v: Vid)
    requires v in VlansBy(es, Entry())
    ensures ValidVid(v)
  {
    var i :| 0 <= i < |es| && InRange(Entry()(es[i]), v);
    assert Entry()(es[i]) == VlanEntry(es[i]);
  }

  /**
   * Accepted settings are what the commands for mstpd rely on, timers that fit, MSTIs apart, every
   * tree with every port, exactly if two leaves keep to the ranges of the data model.
   */
  lemma StpSound(c: StpConfig, ports: set<Name>)
    requires StpOk(c, ports) && StpMeaning(c, ports).Some?
    ensures var t := StpMeaning(c, ports).value;
            && Delta.Uniform(t) && t.ports.Keys == ports
            && (Updates.Valid(t) <==> t.forwardDelay <= 30 && 0 !in t.mstis) && (Ranged(c) ==> Updates.Valid(t))
  {
    var t := StpMeaning(c, ports).value;
    if t.protocol == Mstp {
      forall i | i in t.mstis
        ensures t.mstis[i].tree.ports.Keys == ports && (Ranged(c) ==> i != 0)
                && forall v :: v in t.mstis[i].vlans ==> ValidVid(v)
      {
        var k := MstiFrom(c.instances, ports, i);
        forall v | v in t.mstis[i].vlans ensures ValidVid(v) { VlansValid(c.instances[k].vlans, v); }
      }
      forall i, j | i in t.mstis && j in t.mstis && i != j ensures t.mstis[i].vlans !! t.mstis[j].vlans
      {
        MstisApart(c.instances, ports, i, j);
      }
    }
  }
}
