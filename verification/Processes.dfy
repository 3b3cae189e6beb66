/** Child processes, seen from the manager that spawns them (crates/switch-net/src/process.rs). */
module Processes {
  import opened Basics

  /** The children a manager spawned that are alive. Any of them may exit at any moment, and spawning may fail. */
  class Processes {
    var live: set<nat>

    constructor ()
      ensures live == {}
    {
      live := {};
    }

    method MayExit()
      modifies this
      ensures live <= old(live)
    {
      var gone: set<nat> := *;
      live := live - gone;
    }

    method Running(pid: nat) returns (b: bool)
      modifies this
      ensures live <= old(live) && (b <==> pid in live)
    {
      MayExit();
      b := pid in live;
    }

    method Spawn() returns (pid: Option<nat>)
      modifies this
      ensures pid.None? ==> live <= old(live)
      ensures pid.Some? ==> pid.value !in old(live) && pid.value in live && live <= old(live) + {pid.value}
    {
      var ok: bool := *;
      var p: nat := *;
      if !ok || p in live {
        MayExit();
        return None;
      }
      MayExit();
      live := live + {p};
      return Some(p);
    }

    method Stop(pid: nat)
      modifies this
      ensures live <= old(live) - {pid}
    {
      MayExit();
      live := live - {pid};
    }
  }
}
