/** The desired state: what a validated configuration asks of the kernel and of mstpd. */
module Model {
  import opened Basics

  /** A VLAN id; valid ones are 1..4094. */
  type Vid = nat

  predicate ValidVid(v: Vid) { 1 <= v <= 4094 }

  datatype Prefix = Prefix(addr: nat, len: nat)

  function Prefixes(s: set<Prefix>): (r: seq<Prefix>)
    ensures Lists(r, s)
  {
    Ascending(s, (a: Prefix, b: Prefix) => a.addr < b.addr || (a.addr == b.addr && a.len <= b.len))
  }

  datatype VlanMode = Dot1q | PortBased

  /** A declared VLAN, or a port-based group. */
  datatype VlanInfo = VlanInfo(name: Option<string>, active: bool)

  datatype Port = Port(enabled: bool, native: Option<Vid>, tagged: set<Vid>) {
    predicate Carries(v: Vid) { native == Some(v) || v in tagged }
  }

  datatype Svi = Svi(enabled: bool, vlan: Vid, addresses: set<Prefix>, dhcpClient: bool)

  // ----- spanning tree -----

  datatype Protocol = Stp | Rstp | Mstp

  datatype TreePort = TreePort(cost: Option<nat>, priority: nat)

  datatype Tree = Tree(bridgePriority: nat, ports: map<Name, TreePort>)

  datatype Msti = Msti(vlans: set<Vid>, tree: Tree)

  datatype Edge = Enable | Disable | Auto

  datatype PortFeatures = PortFeatures(
    edge: Edge, pointToPoint: Option<bool>, rootGuard: bool, bpduGuard: bool, bpduFilter: bool)

  datatype SpanningTree = SpanningTree(
    protocol: Protocol,
    maxAge: nat,
    forwardDelay: nat,
    holdCount: nat,
    maxHops: nat,
    regionName: Option<string>,
    regionRevision: nat,
    cist: Tree,
    mstis: map<nat, Msti>,
    ports: map<Name, PortFeatures>)

  datatype Desired = Desired(
    mode: VlanMode,
    vlans: map<Vid, VlanInfo>,
    ports: map<Name, Port>,
    svis: map<Name, Svi>,
    stp: Option<SpanningTree>)
  {
    /** VLANs missing from `vlans` count as active. */
    predicate VlanActive(v: Vid) { v in vlans ==> vlans[v].active }
  }
}
