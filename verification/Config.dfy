/** The configuration as it reaches the validator: the leaves of the JSON document that it reads. */
module Config {
  import opened Basics
  import opened Model
  import opened VlanRanges

  datatype SwitchedVlan = SwitchedVlan(mode: Option<string>, access: Option<nat>, native: Option<nat>,
      trunk: seq<Scalar>)

  /** The address is None where its text is no IPv4 address. */
  datatype Address = Address(ip: Option<nat>, prefixLength: Option<nat>)

  datatype RoutedVlan = RoutedVlan(vlan: Option<Scalar>, dhcpClient: Option<bool>, addresses: seq<Address>)

  datatype Interface = Interface(
    name: Name, ifType: Option<string>, enabled: Option<bool>, switched: Option<SwitchedVlan>,
        routed: Option<RoutedVlan>)

  datatype VlanDecl = VlanDecl(id: Option<nat>, name: Option<string>, status: Option<string>)

  datatype Group = Group(id: Option<nat>, name: Option<string>, ports: seq<Name>)

  // ----- spanning tree -----

  datatype TimerConfig = TimerConfig(
    helloTime: Option<nat>, maxAge: Option<nat>, forwardDelay: Option<nat>, holdCount: Option<nat>,
        bridgePriority: Option<nat>,
    name: Option<string>, revision: Option<nat>, maxHop: Option<nat>)

  datatype TreeEntry = TreeEntry(name: Name, cost: Option<nat>, priority: Option<nat>)

  datatype Instance = Instance(id: Option<nat>, vlans: seq<Scalar>, bridgePriority: Option<nat>, ports: seq<TreeEntry>)

  datatype Feature = Feature(
    name: Name, edge: Option<string>, linkType: Option<string>, guard: Option<string>, bpduGuard: Option<bool>,
        bpduFilter: Option<bool>)

  datatype StpConfig = StpConfig(
    protocols: seq<string>, bpduGuard: Option<bool>, bpduFilter: Option<bool>,
    rstp: TimerConfig, rstpPorts: seq<TreeEntry>,
    mstp: TimerConfig, mstpPorts: seq<TreeEntry>, instances: seq<Instance>,
    features: seq<Feature>)

  datatype Config = Config(
    mode: Option<string>, vlans: seq<VlanDecl>, groups: seq<Group>, interfaces: seq<Interface>, stp: StpConfig)

  /** What made the validator object. */
  datatype Problem =
    | UnknownMode | GroupsNeedPortBased | VlansNeedDot1q | NoId | OutOfRange(id: nat) | UnknownStatus
    | NotASwitchPort | AlreadyInGroup | UnknownType | NotDeclared(id: nat) | BadTrunk
    | RoutedOnPort | NoSwitchedVlan | SwitchedNeedsDot1q | InNoGroup | TrunkLeaves | NoAccessVlan | AccessLeaf
    | UnknownInterfaceMode
    | BadName | ReservedName | SwitchedOnSvi | NoRoutedVlan | NoSuchName | AmbiguousName | BadAddress | BadPrefix
    | SharedVlan | SharedAddress | SecondDhcpClient
    | UnknownProtocol | TwoProtocols | BadTimers | BadHello | BadPriority | NotForRstp | BadRevision | BadHops
    | SharedMstiVlan | BadFeature

  /** An identity without its prefix. */
  function Unprefixed(s: string): string {
    if exists i :: 0 <= i < |s| && s[i] == ':' then Unprefixed(s[AfterColon(s)..]) else s
  }

  function AfterColon(s: string): (i: nat)
    requires exists i :: 0 <= i < |s| && s[i] == ':'
    ensures 0 < i <= |s|
  {
    if s[0] == ':' then 1 else 1 + AfterColon(s[1..])
  }

  function OrElse<T>(a: Option<T>, b: T): T { if a.Some? then a.value else b }
}
