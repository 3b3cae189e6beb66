/** From an observed and a desired state to kernel operations (crates/switch-net/src/plan.rs). */
module Planner {
  import opened Basics
  import opened Model
  import opened Kernel
  import opened Deletion

  // ----- VLAN tables -----

  /** A port's table: its native VLAN untagged and as PVID, the others tagged. */
  function PortTable(p: Port): (t: Table) {
    map v | v in p.tagged + (if p.native.Some? then {p.native.value} else {}) ::
      if p.native == Some(v) then ACCESS else TAGGED
  }

  /** The bridge's own table: the active VLANs that have an SVI, tagged. */
  function SelfTable(d: Desired): (t: Table) {
    map v | v in (set n | n in d.svis :: d.svis[n].vlan) && d.VlanActive(v) :: TAGGED
  }

  /** The PVID entry before all others. */
  function PvidFirst(want: Table): (r: seq<Vid>) {
    Numbers(set v | v in want && want[v].pvid) + Numbers(set v | v in want && !want[v].pvid)
  }

  function AddMissing(dev: Name, have: Table, want: Table): Vid -> seq<Op> {
    (v: Vid) => if v in want && !(v in have && have[v] == want[v]) then [AddBridgeVlan(dev, v, want[v])] else []
  }

  function DelVid(dev: Name): Vid -> seq<Op> { (v: Vid) => [DelBridgeVlan(dev, v)] }

  function SyncOps(dev: Name, have: Table, want: Table): (ops: seq<Op>) {
    Flat(PvidFirst(want), AddMissing(dev, have, want)) + Flat(Numbers(have.Keys - want.Keys), DelVid(dev))
  }

  // ----- the bridge -----

  predicate FullyConfigured(s: State) {
    IsBridge(s, BR) && s.links[BR].kind.filtering && s.links[BR].kind.defaultPvid == 0 && s.links[BR].kind.mst
  }

  /** Whether port `n` keeps entries when the default PVID is dropped. */
  predicate Keeps(s: State, dflt: Vid, n: Name) {
    InBridge(s, n, BR) && exists v | v in VlansOf(s, n) :: v != dflt || VlansOf(s, n)[v] != ACCESS
  }

  predicate PortVlansRemain(s: State, dflt: Vid) { exists n | n in s.links :: Keeps(s, dflt, n) }

  datatype Repair = Keep | Reconfigure | Replace | Create

  function RepairOf(s: State): Repair {
    if BR !in s.links then Create
    else if FullyConfigured(s) then Keep
    else if IsBridge(s, BR)
        && (s.links[BR].kind.mst || !PortVlansRemain(s, s.links[BR].kind.defaultPvid)) then Reconfigure
    else Replace
  }

  /** A fresh bridge has no ports, VLANs or children, whatever was observed. */
  predicate Fresh(s: State) { RepairOf(s).Replace? || RepairOf(s).Create? }

  function RepairOps(s: State): seq<Op> {
    match RepairOf(s)
    case Keep => []
    case Reconfigure => [ConfigureBridge(BR)]
    case Replace => [DeleteLink(BR), CreateBridge(BR)]
    case Create => [CreateBridge(BR)]
  }

  function StpOf(s: State): BridgeStp { if !Fresh(s) && IsBridge(s, BR) then s.links[BR].kind.stp else Off }

  /** Up, and spanning tree in the right hands. */
  function BridgeOps(d: Desired, s: State): seq<Op> {
    (if Fresh(s) || (BR in s.links && !s.links[BR].up) then [SetUp(BR, true)] else [])
    + (if StpOf(s).InKernel? then [SetBridgeStp(BR, false)] else [])
    + (if d.stp.Some? != StpOf(s).User? then [SetBridgeStp(BR, d.stp.Some?)] else [])
  }

  // ----- VLAN links on the bridge -----

  /** A VLAN link of the bridge that is wanted as it is. */
  predicate Kept(d: Desired, s: State, n: Name) {
    !Fresh(s) && IsChild(s, n, BR) && n in d.svis && d.svis[n].vlan == s.links[n].kind.id
  }

  predicate Stale(d: Desired, s: State, n: Name) { !Fresh(s) && IsChild(s, n, BR) && !Kept(d, s, n) }

  function StaleLinks(d: Desired, s: State): set<Name> { set n | n in s.links && Stale(d, s, n) }

  // ----- ports -----

  predicate IsPort(s: State, n: Name) { n in s.links && s.links[n].kind.Dsa? }

  predicate Enslaved(s: State, n: Name) { !Fresh(s) && InBridge(s, n, BR) }

  function HaveVlans(s: State, n: Name): Table { if Enslaved(s, n) then VlansOf(s, n) else map[] }

  function PortOps(d: Desired, s: State, n: Name): seq<Op> {
    if !IsPort(s, n) then []
    else if n in d.ports then
      (if Enslaved(s, n) then [] else [SetMaster(n, Some(BR))])
      + SyncOps(n, HaveVlans(s, n), PortTable(d.ports[n]))
      + (if s.links[n].up != d.ports[n].enabled then [SetUp(n, d.ports[n].enabled)] else [])
    else
      (if s.links[n].master.Some? then [SetMaster(n, None)] else [])
      + (if s.links[n].up then [SetUp(n, false)] else [])
  }

  function EachPort(d: Desired, s: State): Name -> seq<Op> { n => PortOps(d, s, n) }

  // ----- SVIs -----

  function DelAddr(dev: Name): Prefix -> seq<Op> { p => [DelAddress(dev, p)] }

  /** A static address the DHCP client added first is removed and added again, to make it permanent. */
  function AddAddr(dev: Name, dhcp: map<Prefix, nat>): Prefix -> seq<Op> {
    p => (if p in dhcp then [DelAddress(dev, p)] else []) + [AddAddress(dev, p)]
  }

  function AddrOps(dev: Name, svi: Svi, have: set<Prefix>, dhcp: map<Prefix, nat>): seq<Op> {
    Flat(Prefixes(svi.addresses - have), AddAddr(dev, dhcp))
    + Flat(Prefixes(have - svi.addresses), DelAddr(dev))
    + (if svi.dhcpClient then [] else Flat(Prefixes(dhcp.Keys - svi.addresses), DelAddr(dev)))
  }

  function SviOps(d: Desired, s: State, n: Name): seq<Op> {
    if n !in d.svis then [] else
      var svi, kept := d.svis[n], Kept(d, s, n);
      (if kept then [] else [CreateVlan(n, BR, svi.vlan)])
      + (if kept then AddrOps(n, svi, AddrsOf(s, n), DhcpOf(s, n)) else AddrOps(n, svi, {}, map[]))
      + (if (kept && s.links[n].up) != svi.enabled then [SetUp(n, svi.enabled)] else [])
  }

  function EachSvi(d: Desired, s: State): Name -> seq<Op> { n => SviOps(d, s, n) }

  // ----- addresses that belong on no port and not on the bridge -----

  predicate Owned(s: State, n: Name) { IsPort(s, n) || (n == BR && IsBridge(s, n) && !Fresh(s)) }

  function LeftStatic(s: State): Name -> seq<Op> {
    n => if Owned(s, n) then Flat(Prefixes(AddrsOf(s, n)), DelAddr(n)) else []
  }

  function LeftDhcp(s: State): Name -> seq<Op> {
    n => if Owned(s, n) then Flat(Prefixes(DhcpOf(s, n).Keys), DelAddr(n)) else []
  }

  function LeftoverOps(s: State): seq<Op> {
    Flat(Names(s.addrs.Keys), LeftStatic(s)) + Flat(Names(s.dhcp.Keys), LeftDhcp(s))
  }

  // ----- the whole plan -----

  /** An SVI's name belongs to a link that is not a VLAN link of the bridge. */
  predicate Taken(d: Desired, s: State, n: Name) { n in d.svis && n in s.links && !IsChild(s, n, BR) }

  function FirstTaken(d: Desired, s: State, ns: seq<Name>): Option<Name> {
    if ns == [] then None else if Taken(d, s, ns[0]) then Some(ns[0]) else FirstTaken(d, s, ns[1..])
  }

  /** Operations on links that exist whatever the plan says: ports, the bridge's table, SVIs, leftovers. */
  function TailOps(d: Desired, s: State): seq<Op> {
    Flat(Names(s.links.Keys), EachPort(d, s))
    + SyncOps(BR, if Fresh(s) then map[] else VlansOf(s, BR), SelfTable(d))
    + Flat(Names(d.svis.Keys), EachSvi(d, s))
    + LeftoverOps(s)
  }

  function PlanOps(d: Desired, s: State): seq<Op> {
    RepairOps(s) + BridgeOps(d, s) + Deletes(Names(StaleLinks(d, s))) + TailOps(d, s)
  }

  datatype PlanError = NameTaken(name: Name)

  function Plan(d: Desired, s: State): Result<seq<Op>, PlanError> {
    var taken := FirstTaken(d, s, Names(d.svis.Keys));
    if taken.Some? then Err(NameTaken(taken.value)) else Ok(PlanOps(d, s))
  }

  // ----- operations that do not depend on the configuration -----

  /** Loopback and the DSA conduits. */
  function Platform(s: State): set<Name> {
    {LO} + set n | n in s.links && s.links[n].kind.Dsa?
        && s.links[n].kind.conduit.Some? :: s.links[n].kind.conduit.value
  }

  function PutUp(s: State): Name -> seq<Op> {
    n => if n in s.links && !s.links[n].up then [SetUp(n, true)] else []
  }

  function PlatformOps(s: State): seq<Op> { Flat(Names(Platform(s)), PutUp(s)) }
}
