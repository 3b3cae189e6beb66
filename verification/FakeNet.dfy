/** The in-memory kernel as an object that is changed in place. */
module FakeNet {
  import opened Basics
  import opened Model
  import opened Kernel

  class FakeNet {
    var state: State

    constructor (s: State)
      ensures state == s
    {
      state := s;
    }

    method Observe() returns (s: State)
      ensures s == state
    {
      s := state;
    }

    /** One operation. Its effect, also when it is refused, is `Step`. */
    method Apply(op: Op) returns (error: Option<Error>)
      modifies this
      ensures Outcome(state, error) == Step(old(state), op)
    {
      error := None;
      match op {
        case CreateBridge(n) =>
          if n in state.links { return Some(FileExists); }
          state := SetLink(state, n, Down(Bridge(true, 0, true, Off)));
        case ConfigureBridge(n) =>
          error := ConfigureInPlace(n);
        case SetBridgeStp(n, on) =>
          if !IsBridge(state, n) { return Some(NotABridge); }
          var link := state.links[n];
          state := SetLink(state, n, link.(kind := link.kind.(stp := if on then User else Off)));
        case DeleteLink(n) =>
          error := DeleteInPlace(n);
        case CreateVlan(n, parent, id) =>
          if n in state.links { return Some(FileExists); }
          if parent !in state.links { return Some(NoParent); }
          state := SetLink(state, n, Down(Vlan(parent, id)));
        case SetMaster(n, master) =>
          var pvid := 0;
          if master.Some? {
            if !IsBridge(state, master.value) { return Some(MasterNotABridge); }
            pvid := state.links[master.value].kind.defaultPvid;
          }
          if n !in state.links { return Some(NoDevice); }
          state := SetLink(state, n, state.links[n].(master := master));
          state := state.(vlans := state.vlans - {n});
          if pvid != 0 {
            state := state.(vlans := state.vlans[n := map[pvid := ACCESS]]);
            assert state.vlans == old(state).vlans[n := map[pvid := ACCESS]];
          }
        case SetUp(n, up) =>
          if n !in state.links { return Some(NoDevice); }
          state := SetLink(state, n, state.links[n].(up := up));
        case AddBridgeVlan(n, vid, flags) =>
          if n !in state.links { return Some(NoDevice); }
          if !IsBridge(state, n) && state.links[n].master.None? { return Some(NotABridgePort); }
          state := state.(vlans := state.vlans[n := Insert(VlansOf(state, n), vid, flags)]);
        case DelBridgeVlan(n, vid) =>
          if n !in state.vlans || vid !in state.vlans[n] { return Some(NoVlanEntry); }
          state := state.(vlans := state.vlans[n := state.vlans[n] - {vid}]);
        case AddAddress(n, p) =>
          if n !in state.links { return Some(NoDevice); }
          if p in DhcpOf(state, n) || p in AddrsOf(state, n) { return Some(FileExists); }
          state := state.(addrs := state.addrs[n := AddrsOf(state, n) + {p}]);
        case DelAddress(n, p) =>
          var permanent, lease := p in AddrsOf(state, n), p in DhcpOf(state, n);
          if !permanent && !lease { return Some(NoAddress); }
          if n in state.addrs { state := state.(addrs := state.addrs[n := state.addrs[n] - {p}]); }
          if n in state.dhcp { state := state.(dhcp := state.dhcp[n := state.dhcp[n] - {p}]); }
      }
    }

    method ConfigureInPlace(n: Name) returns (error: Option<Error>)
      modifies this
      ensures Outcome(state, error) == Configure(old(state), n)
    {
      if !IsBridge(state, n) { return Some(NotABridge); }
      var link := state.links[n];
      var vlans, portVlans := DropOnPorts(state, n, link.kind.defaultPvid);
      state := SetLink(state, n, link.(kind := link.kind.(filtering := true, defaultPvid := 0, mst := true)));
      state := state.(vlans := vlans);
      return if !link.kind.mst && portVlans then Some(Busy) else None;
    }

    /** The loop over the ports: drops the default entry of each, and notes whether one keeps entries. */
    method DropOnPorts(s: State, n: Name, dflt: Vid) returns (vlans: map<Name, Table>, portVlans: bool)
      ensures vlans == DropDefaults(s, n, dflt)
      ensures portVlans <==> PortVlansIn(s, n, vlans)
    {
      vlans, portVlans := s.vlans, false;
      var todo := s.links.Keys;
      while todo != {}
        invariant todo <= s.links.Keys && vlans.Keys == s.vlans.Keys
        invariant forall p :: p in vlans ==> vlans[p] == if p in todo then s.vlans[p] else Dropped(s, n, dflt, p)
        invariant portVlans <==> exists p :: p in s.links && p !in todo && Carries(s, n, vlans, p)
        decreases todo
      {
        var port :| port in todo;
        ghost var before := vlans;
        if InBridge(s, port, n) && port in vlans {
          vlans := vlans[port := DropDefault(vlans[port], dflt)];
        }
        assert forall p :: p != port ==> Carries(s, n, vlans, p) == Carries(s, n, before, p);
        portVlans := portVlans || Carries(s, n, vlans, port);
        todo := todo - {port};
      }
    }

    /** Recurses on the VLAN links on `n`, then frees the ports whose master it was. */
    method DeleteInPlace(n: Name) returns (error: Option<Error>)
      modifies this
      ensures Outcome(state, error) == Delete(old(state), n)
      decreases state.links.Keys
    {
      if n !in state.links { return Some(NoDevice); }
      state := Unplug(state, n);
      var s1 := state;
      assert n !in s1.links.Keys && s1.links.Keys < old(state).links.Keys;
      var children := Children(state, n);
      for i := 0 to |children|
        invariant state.links.Keys <= s1.links.Keys
        invariant DeleteAll(s1, children) == DeleteAll(state, children[i..])
      {
        error := DeleteInPlace(children[i]);
        if error.Some? { return error; }
        assert children[i..][1..] == children[i + 1..];
      }
      state := Release(state, n);
      return None;
    }
  }
}
