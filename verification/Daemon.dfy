/** mstpd, as far as its configuration goes: what each mstpctl command sets, and which it refuses. */
module Daemon {
  import opened Basics
  import opened Model
  import opened VlanRanges
  import opened Mstpctl

  datatype Key =
    | BridgeKey(which: nat)
    | PrioKey(id: nat)
    | PortKey(port: Name, which: nat)
    | TreePortKey(port: Name, id: nat, which: nat)

  function Which(v: PortValue): nat {
    match v
    case PathCost(_) => 0
    case AdminEdge(_) => 1
    case AutoEdge(_) => 2
    case PointToPoint(_) => 3
    case RestrRole(_) => 4
    case BpduGuard(_) => 5
    case BpduFilter(_) => 6
  }

  /** What a command sets, if it is a plain setting. */
  function KeyOf(c: Cmd): Option<Key> {
    match c
    case SetBridge(v) =>
      Some(BridgeKey(match v
                     case ForceVers(_) => 0
                     case TxHoldCount(_) => 1
                     case MaxHops(_) => 2
                     case MstConfId(_, _) => 3))
    case SetTreePrio(id, _) => Some(PrioKey(id))
    case SetPort(port, v) =>
      Some(PortKey(port, Which(v)))
    case SetTreePort(port, id, v) => Some(TreePortKey(port, id, if v.PortPrio? then 0 else 1))
    case _ => None
  }

  /** The tree a setting belongs to; 0 is the CIST, which always exists. */
  function TreeOfKey(k: Key): nat {
    match k
    case PrioKey(id) => id
    case TreePortKey(_, id, _) => id
    case _ => 0
  }

  /**
   * mstpd's view of the bridge: the timers, every setting with the command that made it, the
   * MSTIs, the filtering database of each VLAN and the tree of each filtering database
   * (0 where the maps have no entry).
   */
  datatype DaemonState = DaemonState(
    maxAge: nat,
    forwardDelay: nat,
    settings: map<Key, Cmd>,
    trees: set<nat>,
    fids: map<Vid, nat>,
    msts: map<nat, nat>)

  /** A bridge mstpd has just taken over, with the timers of IEEE 802.1D. */
  const FRESH := DaemonState(20, 15, map[], {}, map[], map[])

  function Minus1(n: nat): nat { if n == 0 then 0 else n - 1 }

  /** Clause 17.14 of IEEE 802.1D. */
  predicate TimersFit(forwardDelay: nat, maxAge: nat) { 2 * Minus1(forwardDelay) >= maxAge }

  function Assigned(m: Mapping): map<Vid, nat> { map v: Vid | 1 <= v <= 4094 && Denotes(m.ranges, v) :: m.fid }

  /** All VLANs in filtering database 0, then each mapping in turn. */
  function FidTable(maps: seq<Mapping>): map<Vid, nat> {
    if maps == [] then map[] else FidTable(maps[..|maps| - 1]) + Assigned(maps[|maps| - 1])
  }

  /** All filtering databases in tree 0, then each id in its own tree. */
  function MstTable(ids: seq<nat>): map<nat, nat> { map id | id in ids :: id }

  function FidOf(m: DaemonState, v: Vid): nat { if v in m.fids then m.fids[v] else 0 }
  function TreeOfFid(m: DaemonState, fid: nat): nat { if fid in m.msts then m.msts[fid] else 0 }

  /** The tree of a VLAN. */
  function MstOf(m: DaemonState, v: Vid): nat { TreeOfFid(m, FidOf(m, v)) }

  predicate HasTree(m: DaemonState, id: nat) { id == 0 || id in m.trees }

  /** No filtering database is mapped to `id`. */
  predicate Unused(m: DaemonState, id: nat) { forall fid :: fid in m.msts ==> m.msts[fid] != id }

  function Exec(m: DaemonState, c: Cmd): Option<DaemonState> {
    match c
    case SetFdelay(x) => if TimersFit(x, m.maxAge) then Some(m.(forwardDelay := x)) else None
    case SetMaxAge(x) => if TimersFit(m.forwardDelay, x) then Some(m.(maxAge := x)) else None
    case CreateTree(id) => Some(m.(trees := m.trees + {id}))
    case DeleteTree(id) =>
      if id != 0 && id in m.trees && Unused(m, id) then
        Some(m.(trees := m.trees - {id}, settings := map k | k in m.settings && TreeOfKey(k) != id :: m.settings[k]))
      else None
    case SetVid2Fid(maps) => Some(m.(fids := FidTable(maps)))
    case SetFid2Mstid(ids) => if forall id :: id in ids ==> HasTree(m, id) then Some(m.(msts := MstTable(ids)))
        else None
    case _ =>
      var k := KeyOf(c).value;
      if HasTree(m, TreeOfKey(k)) then Some(m.(settings := m.settings[k := c])) else None
  }

  function ExecAll(m: DaemonState, cs: seq<Cmd>): Option<DaemonState>
    decreases |cs|
  {
    if cs == [] then Some(m) else
      var r := Exec(m, cs[0]);
      if r.None? then None else ExecAll(r.value, cs[1..])
  }

  lemma {:induction false} ExecAppend(m: DaemonState, a: seq<Cmd>, b: seq<Cmd>)
    ensures ExecAll(m, a + b) == if ExecAll(m, a).Some? then ExecAll(ExecAll(m, a).value, b) else None
    decreases a
  {
    if a == [] {
      assert a + b == b;
    } else {
      assert (a + b)[0] == a[0] && (a + b)[1..] == a[1..] + b;
      var r := Exec(m, a[0]);
      if r.Some? { ExecAppend(r.value, a[1..], b); }
    }
  }

  /** Every filtering database is mapped to a tree that exists. */
  ghost predicate Coherent(m: DaemonState) { forall fid :: fid in m.msts ==> HasTree(m, m.msts[fid]) }

  /** No accepted command ever leaves a filtering database without its tree. */
  lemma ExecKeepsCoherent(m: DaemonState, c: Cmd)
    requires Coherent(m) && Exec(m, c).Some?
    ensures Coherent(Exec(m, c).value)
  {
  }

  // ----- what a configuration asks for -----

  /** The command for a key, if the configuration sets it. */
  function Wanted(t: SpanningTree, mac: string, k: Key): Option<Cmd> {
    match k
    case BridgeKey(i) =>
      if i == 0 then Some(SetBridge(ForceVers(t.protocol)))
      else if i == 1 then Some(SetBridge(TxHoldCount(t.holdCount)))
      else if i == 2 then Some(SetBridge(MaxHops(t.maxHops)))
      else if i == 3 then Some(SetBridge(MstConfId(t.regionRevision, RegionName(t, mac))))
      else None
    case PrioKey(id) =>
      if TreeOf(t, id).Some? then Some(SetTreePrio(id, TreeOf(t, id).value.bridgePriority / 4096)) else None
    case PortKey(port, i) =>
      if i < |PortValues(t, port)| then Some(SetPort(port, PortValues(t, port)[i])) else None
    case TreePortKey(port, id, i) =>
      if TreeOf(t, id).None? || port !in TreeOf(t, id).value.ports then None
      else if i == 0 then Some(SetTreePort(port, id, PortPrio(TreeOf(t, id).value.ports[port].priority / 16)))
      else if i == 1 then Some(SetTreePort(port, id, PortCost(OrZero(TreeOf(t, id).value.ports[port].cost))))
      else None
  }

  ghost predicate Asks(t: SpanningTree, mac: string, c: Cmd) {
    KeyOf(c).Some? && Wanted(t, mac, KeyOf(c).value) == Some(c)
  }

  lemma PortValueAt(t: SpanningTree, port: Name, v: PortValue)
    ensures v in PortValues(t, port) <==> Which(v) < |PortValues(t, port)| && PortValues(t, port)[Which(v)] == v
  {
  }

  lemma PortAsks(t: SpanningTree, mac: string, port: Name, c: Cmd)
    ensures c in PortCmds(t)(port) <==> Asks(t, mac, c) && c.SetPort? && c.port == port
  {
    FlatIn(PortValues(t, port), ToPort(port), c);
    if c.SetPort? { PortValueAt(t, port, c.portValue); }
  }

  lemma TreePortAsks(id: nat, tree: Tree, ns: seq<Name>, c: Cmd)
    requires Lists(ns, tree.ports.Keys)
    ensures c in Flat(ns, TreePortCmds(id, tree)) <==>
            c.SetTreePort? && c.id == id && c.port in tree.ports &&
            c.treeValue == (if c.treeValue.PortPrio? then PortPrio(tree.ports[c.port].priority / 16)
                else PortCost(OrZero(tree.ports[c.port].cost)))
  {
    FlatIn(ns, TreePortCmds(id, tree), c);
    if c.SetTreePort? && c.port in tree.ports { assert c.port in ns; }
  }

  lemma TreeAsks(t: SpanningTree, mac: string, id: nat, c: Cmd)
    ensures c in TreeCmds(t)(id) <==> Asks(t, mac, c) && c.SetTreePort? && c.id == id
  {
    if TreeOf(t, id).Some? {
      var tree := TreeOf(t, id).value;
      TreePortAsks(id, tree, Names(tree.ports.Keys), c);
    }
  }

  lemma PrioIn(t: SpanningTree, mac: string, ids: seq<nat>, c: Cmd)
    requires forall id :: id in ids <==> TreeOf(t, id).Some?
    ensures c in Flat(ids, Prio(t)) <==> Asks(t, mac, c) && c.SetTreePrio?
  {
    FlatIn(ids, Prio(t), c);
    if c.SetTreePrio? && Asks(t, mac, c) { assert c.id in ids && c in Prio(t)(c.id); }
  }

  lemma PortsIn(t: SpanningTree, mac: string, ports: seq<Name>, c: Cmd)
    requires Lists(ports, t.ports.Keys)
    ensures c in Flat(ports, PortCmds(t)) <==> Asks(t, mac, c) && c.SetPort?
  {
    FlatIn(ports, PortCmds(t), c);
    if c in Flat(ports, PortCmds(t)) {
      var port :| port in ports && c in PortCmds(t)(port);
      PortAsks(t, mac, port, c);
    }
    if Asks(t, mac, c) && c.SetPort? {
      PortAsks(t, mac, c.port, c);
      assert c.port in ports;
    }
  }

  lemma TreesIn(t: SpanningTree, mac: string, ids: seq<nat>, c: Cmd)
    requires forall id :: id in ids <==> TreeOf(t, id).Some?
    ensures c in Flat(ids, TreeCmds(t)) <==> Asks(t, mac, c) && c.SetTreePort?
  {
    FlatIn(ids, TreeCmds(t), c);
    if c in Flat(ids, TreeCmds(t)) {
      var id :| id in ids && c in TreeCmds(t)(id);
      TreeAsks(t, mac, id, c);
    }
    if Asks(t, mac, c) && c.SetTreePort? {
      TreeAsks(t, mac, c.id, c);
      assert c.id in ids;
    }
  }

  /** The commands of a configuration's trees and ports are exactly those it asks for. */
  lemma LastAsks(t: SpanningTree, mac: string, c: Cmd)
    ensures c in LastCmds(t) <==> Asks(t, mac, c) && !c.SetBridge?
  {
    var ids := [0] + Ids(t);
    assert forall id :: id in ids <==> TreeOf(t, id).Some?;
    PrioIn(t, mac, ids, c);
    PortsIn(t, mac, Names(t.ports.Keys), c);
    TreesIn(t, mac, ids, c);
  }
}
