/**
 * The kernel as the switch sees it, and the in-memory kernel that the repository
 * ships as its executable specification (crates/switch-net/src/fake.rs).
 */
module Kernel {
  import opened Basics
  import opened Model

  datatype BridgeStp = Off | InKernel | User

  datatype Kind =
    | Dsa(conduit: Option<Name>)
    | Bridge(filtering: bool, defaultPvid: Vid, mst: bool, stp: BridgeStp)
    | Vlan(parent: Name, id: Vid)
    | Other

  datatype Link = Link(kind: Kind, up: bool, master: Option<Name>)

  datatype Flags = Flags(pvid: bool, untagged: bool)

  const ACCESS := Flags(true, true)
  const TAGGED := Flags(false, false)

  type Table = map<Vid, Flags>

  datatype State = State(
    links: map<Name, Link>,
    vlans: map<Name, Table>,
    addrs: map<Name, set<Prefix>>,
    dhcp: map<Name, map<Prefix, nat>>)

  datatype Op =
    | CreateBridge(name: Name)
    | ConfigureBridge(name: Name)
    | SetBridgeStp(name: Name, on: bool)
    | DeleteLink(name: Name)
    | CreateVlan(name: Name, parent: Name, id: Vid)
    | SetMaster(name: Name, master: Option<Name>)
    | SetUp(name: Name, up: bool)
    | AddBridgeVlan(name: Name, vid: Vid, flags: Flags)
    | DelBridgeVlan(name: Name, vid: Vid)
    | AddAddress(name: Name, prefix: Prefix)
    | DelAddress(name: Name, prefix: Prefix)

  datatype Error =
    | FileExists
    | NoDevice
    | NoParent
    | NotABridge
    | MasterNotABridge
    | NotABridgePort
    | NoVlanEntry
    | NoAddress
    | Busy

  // ----- looking up: a device without an entry has an empty table -----

  function VlansOf(s: State, n: Name): Table { if n in s.vlans then s.vlans[n] else map[] }
  function AddrsOf(s: State, n: Name): set<Prefix> { if n in s.addrs then s.addrs[n] else {} }
  function DhcpOf(s: State, n: Name): map<Prefix, nat> { if n in s.dhcp then s.dhcp[n] else map[] }

  predicate IsBridge(s: State, n: Name) { n in s.links && s.links[n].kind.Bridge? }

  predicate IsChild(s: State, n: Name, parent: Name) {
    n in s.links && s.links[n].kind.Vlan? && s.links[n].kind.parent == parent
  }

  predicate InBridge(s: State, n: Name, bridge: Name) {
    n in s.links && s.links[n].master == Some(bridge)
  }

  // ----- one operation -----

  /** The state an operation leaves behind, also when it is refused. */
  datatype Outcome = Outcome(state: State, error: Option<Error>) {
    predicate Accepted() { error.None? }
  }

  function Fine(s: State): Outcome { Outcome(s, None) }
  function Refuse(s: State, e: Error): Outcome { Outcome(s, Some(e)) }

  function Down(kind: Kind): Link { Link(kind, false, None) }

  /** A PVID entry takes the PVID flag from all others. */
  function Insert(t: Table, vid: Vid, flags: Flags): Table {
    (if flags.pvid then map v | v in t :: t[v].(pvid := false) else t)[vid := flags]
  }

  /** What is left of a port's table when the default PVID `dflt` is dropped. */
  function DropDefault(t: Table, dflt: Vid): Table {
    if dflt != 0 && dflt in t && t[dflt] == ACCESS then t - {dflt} else t
  }

  function Dropped(s: State, bridge: Name, dflt: Vid, n: Name): Table {
    if InBridge(s, n, bridge) then DropDefault(VlansOf(s, n), dflt) else VlansOf(s, n)
  }

  function DropDefaults(s: State, bridge: Name, dflt: Vid): map<Name, Table> {
    map n | n in s.vlans :: Dropped(s, bridge, dflt, n)
  }

  /** Whether port `n` of `bridge` has VLAN entries in `vlans`. */
  predicate Carries(s: State, bridge: Name, vlans: map<Name, Table>, n: Name) {
    InBridge(s, n, bridge) && n in vlans && vlans[n] != map[]
  }

  /** Whether a port of `bridge` has VLAN entries in `vlans`. */
  predicate PortVlansIn(s: State, bridge: Name, vlans: map<Name, Table>) {
    exists n | n in s.links :: Carries(s, bridge, vlans, n)
  }

  function Configure(s: State, name: Name): Outcome {
    if !IsBridge(s, name) then Refuse(s, NotABridge) else
      var link := s.links[name];
      var kind := link.kind.(filtering := true, defaultPvid := 0, mst := true);
      var vlans := DropDefaults(s, name, link.kind.defaultPvid);
      var s' := s.(links := s.links[name := link.(kind := kind)], vlans := vlans);
      if !link.kind.mst && PortVlansIn(s, name, vlans) then Refuse(s', Busy) else Fine(s')
  }

  function Unplug(s: State, n: Name): State {
    State(s.links - {n}, s.vlans - {n}, s.addrs - {n}, s.dhcp - {n})
  }

  function Release(s: State, n: Name): State {
    s.(links := map p | p in s.links ::
        if s.links[p].master == Some(n) then s.links[p].(master := None) else s.links[p],
       vlans := map p | p in s.vlans && !InBridge(s, p, n) :: s.vlans[p])
  }

  function Children(s: State, n: Name): (r: seq<Name>) {
    Names(set c | c in s.links && IsChild(s, c, n))
  }

  /** Deleting a link deletes the VLAN links on it, and frees the ports in it. */
  function Delete(s: State, n: Name): (r: Outcome)
    ensures r.state.links.Keys <= s.links.Keys
    decreases s.links.Keys, 0
  {
    if n !in s.links then Refuse(s, NoDevice) else
      var s1 := Unplug(s, n);
      assert n !in s1.links.Keys;
      var r := DeleteAll(s1, Children(s1, n));
      if r.Accepted() then Fine(Release(r.state, n)) else r
  }

  function DeleteAll(s: State, ns: seq<Name>): (r: Outcome)
    ensures r.state.links.Keys <= s.links.Keys
    decreases s.links.Keys, |ns| + 1
  {
    if ns == [] then Fine(s) else
      var r := Delete(s, ns[0]);
      if !r.Accepted() then r else
        assert r.state.links.Keys == s.links.Keys || r.state.links.Keys < s.links.Keys;
        DeleteAll(r.state, ns[1..])
  }

  function Enslave(s: State, n: Name, master: Option<Name>): Outcome {
    if master.Some? && !IsBridge(s, master.value) then Refuse(s, MasterNotABridge)
    else if n !in s.links then Refuse(s, NoDevice) else
      var pvid := if master.None? then 0 else s.links[master.value].kind.defaultPvid;
      Fine(s.(links := s.links[n := s.links[n].(master := master)],
              vlans := if pvid == 0 then s.vlans - {n} else s.vlans[n := map[pvid := ACCESS]]))
  }

  function SetLink(s: State, n: Name, link: Link): State { s.(links := s.links[n := link]) }

  function Step(s: State, op: Op): Outcome {
    match op
    case CreateBridge(n) =>
      if n in s.links then Refuse(s, FileExists) else
        Fine(SetLink(s, n, Down(Bridge(true, 0, true, Off))))
    case ConfigureBridge(n) => Configure(s, n)
    case SetBridgeStp(n, on) =>
      if !IsBridge(s, n) then Refuse(s, NotABridge) else
        Fine(SetLink(s, n, s.links[n].(kind := s.links[n].kind.(stp := if on then User else Off))))
    case DeleteLink(n) => Delete(s, n)
    case CreateVlan(n, parent, id) =>
      if n in s.links then Refuse(s, FileExists)
      else if parent !in s.links then Refuse(s, NoParent)
      else Fine(SetLink(s, n, Down(Vlan(parent, id))))
    case SetMaster(n, master) => Enslave(s, n, master)
    case SetUp(n, up) =>
      if n !in s.links then Refuse(s, NoDevice) else Fine(SetLink(s, n, s.links[n].(up := up)))
    case AddBridgeVlan(n, vid, flags) =>
      if n !in s.links then Refuse(s, NoDevice)
      else if !IsBridge(s, n) && s.links[n].master.None? then Refuse(s, NotABridgePort)
      else Fine(s.(vlans := s.vlans[n := Insert(VlansOf(s, n), vid, flags)]))
    case DelBridgeVlan(n, vid) =>
      if vid !in VlansOf(s, n) then Refuse(s, NoVlanEntry)
      else Fine(s.(vlans := s.vlans[n := VlansOf(s, n) - {vid}]))
    case AddAddress(n, p) =>
      if n !in s.links then Refuse(s, NoDevice)
      else if p in DhcpOf(s, n) || p in AddrsOf(s, n) then Refuse(s, FileExists)
      else Fine(s.(addrs := s.addrs[n := AddrsOf(s, n) + {p}]))
    case DelAddress(n, p) =>
      if p !in AddrsOf(s, n) && p !in DhcpOf(s, n) then Refuse(s, NoAddress)
      else Fine(s.(addrs := if n in s.addrs then s.addrs[n := s.addrs[n] - {p}] else s.addrs,
                   dhcp := if n in s.dhcp then s.dhcp[n := s.dhcp[n] - {p}] else s.dhcp))
  }

  /** Operations in order, up to the first one the kernel refuses. */
  function Run(s: State, ops: seq<Op>): Outcome
    decreases |ops|
  {
    if ops == [] then Fine(s) else
      var r := Step(s, ops[0]);
      if r.Accepted() then Run(r.state, ops[1..]) else r
  }

  lemma {:induction false} RunAppend(s: State, a: seq<Op>, b: seq<Op>)
    ensures Run(s, a + b) == if Run(s, a).Accepted() then Run(Run(s, a).state, b) else Run(s, a)
    decreases a
  {
    if a == [] {
      assert a + b == b;
    } else {
      assert (a + b)[0] == a[0] && (a + b)[1..] == a[1..] + b;
      RunAppend(Step(s, a[0]).state, a[1..], b);
    }
  }
}
