/**
 * mstpd's configuration as a list of mstpctl commands, each setting one value, and the
 * commands that a change of configuration runs (crates/switch-net/src/stp.rs).
 */
module Mstpctl {
  import opened Basics
  import opened Model
  import opened VlanRanges

  datatype BridgeValue =
    | ForceVers(p: Protocol) | TxHoldCount(n: nat) | MaxHops(n: nat) | MstConfId(revision: nat, name: string)

  datatype PortValue =
    | PathCost(n: nat) | AdminEdge(b: bool) | AutoEdge(b: bool) | PointToPoint(p2p: Option<bool>)
    | RestrRole(b: bool) | BpduGuard(b: bool) | BpduFilter(b: bool)

  datatype TreePortValue = PortPrio(n: nat) | PortCost(n: nat)

  /** VLANs mapped to a filtering database. */
  datatype Mapping = Mapping(fid: nat, ranges: seq<Range>)

  /** mstpctl commands on the bridge. */
  datatype Cmd =
    | SetBridge(value: BridgeValue)
    | SetFdelay(secs: nat)
    | SetMaxAge(secs: nat)
    | CreateTree(id: nat)
    | DeleteTree(id: nat)
    | SetVid2Fid(maps: seq<Mapping>)
    | SetFid2Mstid(ids: seq<nat>)
    | SetTreePrio(id: nat, prio: nat)
    | SetPort(port: Name, portValue: PortValue)
    | SetTreePort(port: Name, id: nat, treeValue: TreePortValue)

  // ----- the commands of a configuration -----

  const MAX_FORWARD_DELAY := 30

  /** The bridge's MAC address without colons, upper case: the default region name. */
  function Compact(mac: string): string {
    if mac == [] then [] else (if mac[0] == ':' then [] else [Upper(mac[0])]) + Compact(mac[1..])
  }

  function Upper(c: char): char { if 'a' <= c <= 'z' then c - 'a' + 'A' else c }

  function RegionName(t: SpanningTree, mac: string): string {
    if t.regionName.Some? then t.regionName.value else Compact(mac)
  }

  function Ids(t: SpanningTree): seq<nat> { Numbers(t.mstis.Keys) }

  function Timers(t: SpanningTree): seq<Cmd> {
    [SetFdelay(MAX_FORWARD_DELAY), SetMaxAge(t.maxAge), SetFdelay(t.forwardDelay)]
  }

  function Globals(t: SpanningTree, mac: string): seq<Cmd> {
    [SetBridge(TxHoldCount(t.holdCount)), SetBridge(MaxHops(t.maxHops)),
        SetBridge(MstConfId(t.regionRevision, RegionName(t, mac)))]
  }

  function Create(): nat -> seq<Cmd> { (id: nat) => [CreateTree(id)] }

  function MapMsti(t: SpanningTree): nat -> seq<Mapping> {
    (id: nat) => if id in t.mstis && t.mstis[id].vlans != {} then [Mapping(id, Ranges(t.mstis[id].vlans))] else []
  }

  function Maps(t: SpanningTree): seq<Mapping> { Flat(Ids(t), MapMsti(t)) }

  function TreeOf(t: SpanningTree, id: nat): Option<Tree> {
    if id == 0 then Some(t.cist) else if id in t.mstis then Some(t.mstis[id].tree) else None
  }

  function Prio(t: SpanningTree): nat -> seq<Cmd> {
    (id: nat) => if TreeOf(t, id).Some? then [SetTreePrio(id, TreeOf(t, id).value.bridgePriority / 4096)] else []
  }

  function OrZero(n: Option<nat>): nat { if n.Some? then n.value else 0 }

  function CistCost(t: SpanningTree, port: Name): nat {
    if port in t.cist.ports then OrZero(t.cist.ports[port].cost) else 0
  }

  function PortValues(t: SpanningTree, port: Name): seq<PortValue> {
    if port !in t.ports then [] else
      var f := t.ports[port];
      [PathCost(CistCost(t, port)), AdminEdge(f.edge.Enable?), AutoEdge(f.edge.Auto?), PointToPoint(f.pointToPoint),
       RestrRole(f.rootGuard), BpduGuard(f.bpduGuard), BpduFilter(f.bpduFilter)]
  }

  function ToPort(port: Name): PortValue -> seq<Cmd> { v => [SetPort(port, v)] }

  function PortCmds(t: SpanningTree): Name -> seq<Cmd> { port => Flat(PortValues(t, port), ToPort(port)) }

  function TreePortCmds(id: nat, tree: Tree): Name -> seq<Cmd> {
    port => if port !in tree.ports then [] else
      [SetTreePort(port, id, PortPrio(tree.ports[port].priority / 16)),
          SetTreePort(port, id, PortCost(OrZero(tree.ports[port].cost)))]
  }

  function TreeCmds(t: SpanningTree): nat -> seq<Cmd> {
    (id: nat) => if TreeOf(t, id).None? then []
        else Flat(Names(TreeOf(t, id).value.ports.Keys), TreePortCmds(id, TreeOf(t, id).value))
  }

  /** Up to and with the VLAN tables. */
  function FirstCmds(t: SpanningTree, mac: string): seq<Cmd> {
    [SetBridge(ForceVers(t.protocol))] + Timers(t) + Globals(t, mac) + Flat(Ids(t), Create()) + [SetVid2Fid(Maps(t))]
  }

  /** Settings of trees and ports. */
  function LastCmds(t: SpanningTree): seq<Cmd> {
    Flat([0] + Ids(t), Prio(t)) + Flat(Names(t.ports.Keys), PortCmds(t)) + Flat([0] + Ids(t), TreeCmds(t))
  }

  function Commands(t: SpanningTree, mac: string): seq<Cmd> {
    FirstCmds(t, mac) + [SetFid2Mstid(Ids(t))] + LastCmds(t)
  }

  // ----- the commands of a change -----

  /** What mstpd was last configured with. */
  datatype Applied = Applied(stp: SpanningTree, commands: seq<Cmd>)

  predicate IsTimer(c: Cmd) { c.SetFdelay? || c.SetMaxAge? }

  function Ran(previous: Option<Applied>): set<Cmd> { if previous.None? then {} else Elems(previous.value.commands) }

  /** MSTIs that are no longer configured. */
  function Gone(previous: Option<Applied>, t: SpanningTree): set<nat> {
    if previous.None? then {} else previous.value.stp.mstis.Keys - t.mstis.Keys
  }

  predicate TimersChanged(ran: set<Cmd>, next: seq<Cmd>) { exists c :: c in next && IsTimer(c) && c !in ran }

  function Delete(): nat -> seq<Cmd> { (id: nat) => [DeleteTree(id)] }

  function Emit(ran: set<Cmd>, timers: bool, gone: seq<nat>): Cmd -> seq<Cmd> {
    c => (if c !in ran || (timers && IsTimer(c)) then [c] else [])
         + (if c.SetFid2Mstid? then Flat(gone, Delete()) else [])
  }

  function Changed(previous: Option<Applied>, next: seq<Cmd>, t: SpanningTree): seq<Cmd> {
    Flat(next, Emit(Ran(previous), TimersChanged(Ran(previous), next), Numbers(Gone(previous, t))))
  }

  /** The loop of `changed_commands`. */
  method ChangedInPlace(previous: Option<Applied>, next: seq<Cmd>, t: SpanningTree) returns (out: seq<Cmd>)
    ensures out == Changed(previous, next, t)
  {
    var ran := Ran(previous);
    var gone := Numbers(Gone(previous, t));
    var timers := false;
    for i := 0 to |next|
      invariant timers <==> TimersChanged(ran, next[..i])
    {
      assert next[..i + 1] == next[..i] + [next[i]];
      timers := timers || (IsTimer(next[i]) && next[i] !in ran);
    }
    assert next[..|next|] == next;
    ghost var emit := Emit(ran, timers, gone);
    out := [];
    for i := 0 to |next|
      invariant out == Flat(next[..i], emit)
    {
      FlatStep(next, i, emit);
      var c := next[i];
      var run := if c !in ran || (timers && IsTimer(c)) then [c] else [];
      if c.SetFid2Mstid? { run := run + Flat(gone, Delete()); }
      out := out + run;
    }
    assert next[..|next|] == next;
  }
}
