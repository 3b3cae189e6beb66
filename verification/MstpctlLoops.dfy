/** The loops that build the mstpctl command list (crates/switch-net/src/stp.rs). */
module MstpctlLoops {
  import opened Basics
  import opened Model
  import opened VlanRanges
  import opened Mstpctl

  method CreateCmds(ids: seq<nat>) returns (out: seq<Cmd>)
    ensures out == Flat(ids, Create())
  {
    out := [];
    for i := 0 to |ids|
      invariant out == Flat(ids[..i], Create())
    {
      FlatStep(ids, i, Create());
      out := out + [CreateTree(ids[i])];
    }
    assert ids[..|ids|] == ids;
  }

  /** The two VLAN tables: an MSTI without VLANs is missing from the first. */
  method Tables(t: SpanningTree, keys: seq<nat>) returns (maps: seq<Mapping>, ids: seq<nat>)
    requires forall id :: id in keys ==> id in t.mstis
    ensures maps == Flat(keys, MapMsti(t)) && ids == keys
  {
    maps, ids := [], [];
    for i := 0 to |keys|
      invariant maps == Flat(keys[..i], MapMsti(t)) && ids == keys[..i]
    {
      FlatStep(keys, i, MapMsti(t));
      TakeStep(keys, i);
      var id := keys[i];
      assert id in keys;
      if t.mstis[id].vlans != {} {
        var ranges := RangesOf(t.mstis[id].vlans);
        maps := maps + [Mapping(id, ranges)];
      }
      ids := ids + [id];
    }
    TakeAll(keys);
  }

  method PriorityCmds(t: SpanningTree, trees: seq<nat>) returns (out: seq<Cmd>)
    requires forall id :: id in trees ==> TreeOf(t, id).Some?
    ensures out == Flat(trees, Prio(t))
  {
    out := [];
    for i := 0 to |trees|
      invariant out == Flat(trees[..i], Prio(t))
    {
      FlatStep(trees, i, Prio(t));
      out := out + [SetTreePrio(trees[i], TreeOf(t, trees[i]).value.bridgePriority / 4096)];
    }
    assert trees[..|trees|] == trees;
  }

  method PortSettings(port: Name, values: seq<PortValue>) returns (out: seq<Cmd>)
    ensures out == Flat(values, ToPort(port))
  {
    out := [];
    for j := 0 to |values|
      invariant out == Flat(values[..j], ToPort(port))
    {
      FlatStep(values, j, ToPort(port));
      out := out + [SetPort(port, values[j])];
    }
    assert values[..|values|] == values;
  }

  method EachPortCmds(t: SpanningTree, names: seq<Name>) returns (out: seq<Cmd>)
    ensures out == Flat(names, PortCmds(t))
  {
    out := [];
    for i := 0 to |names|
      invariant out == Flat(names[..i], PortCmds(t))
    {
      FlatStep(names, i, PortCmds(t));
      var cmds := PortSettings(names[i], PortValues(t, names[i]));
      out := out + cmds;
    }
    assert names[..|names|] == names;
  }

  method TreePorts(id: nat, tree: Tree) returns (out: seq<Cmd>)
    ensures out == Flat(Names(tree.ports.Keys), TreePortCmds(id, tree))
  {
    var names := Names(tree.ports.Keys);
    out := [];
    for i := 0 to |names|
      invariant out == Flat(names[..i], TreePortCmds(id, tree))
    {
      FlatStep(names, i, TreePortCmds(id, tree));
      var port := names[i];
      assert port in tree.ports;
      out := out + [SetTreePort(port, id, PortPrio(tree.ports[port].priority / 16)),
          SetTreePort(port, id, PortCost(OrZero(tree.ports[port].cost)))];
    }
    assert names[..|names|] == names;
  }

  method EachTreePorts(t: SpanningTree, trees: seq<nat>) returns (out: seq<Cmd>)
    requires forall id :: id in trees ==> TreeOf(t, id).Some?
    ensures out == Flat(trees, TreeCmds(t))
  {
    out := [];
    for i := 0 to |trees|
      invariant out == Flat(trees[..i], TreeCmds(t))
    {
      FlatStep(trees, i, TreeCmds(t));
      var cmds := TreePorts(trees[i], TreeOf(t, trees[i]).value);
      out := out + cmds;
    }
    assert trees[..|trees|] == trees;
  }

  /** `commands`. */
  method CommandsInPlace(t: SpanningTree, mac: string) returns (out: seq<Cmd>)
    ensures out == Commands(t, mac)
  {
    out := [SetBridge(ForceVers(t.protocol))] + Timers(t) + Globals(t, mac);
    var keys := Numbers(t.mstis.Keys);
    var creates := CreateCmds(keys);
    var maps, ids := Tables(t, keys);
    out := out + creates + [SetVid2Fid(maps)] + [SetFid2Mstid(ids)];
    var prios := PriorityCmds(t, [0] + ids);
    var ports := EachPortCmds(t, Names(t.ports.Keys));
    var treePorts := EachTreePorts(t, [0] + ids);
    out := out + (prios + ports + treePorts);
  }
}
