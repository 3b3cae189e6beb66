/** snmpd and its AgentX subagent clixon_snmp (crates/switch-net/src/snmp.rs). */
module SnmpdManager {
  import opened Basics
  import opened Processes

  datatype Program = SnmpdProgram | ClixonSnmp

  datatype Event = Started(program: Program, pid: nat) | Stopped(program: Program, pid: nat) | Exited(program: Program,
      pid: nat)

  datatype Fault = CannotWrite | CannotStart(program: Program) | ExitedAtStart | NoSocket

  class Snmpd {
    const processes: Processes
    var snmpd: Option<nat>
    var subagent: Option<nat>
    var conf: Option<string>

    /** Every process alive is in a slot. */
    ghost predicate Tracked()
      reads this, processes
    {
      forall p :: p in processes.live ==> snmpd == Some(p) || subagent == Some(p)
    }

    /** Between calls the configuration is on record exactly with an snmpd, and the subagent only with one. */
    ghost predicate Inv()
      reads this, processes
    {
      Tracked() && (snmpd.Some? <==> conf.Some?) && (subagent.Some? ==> snmpd.Some?)
    }

    constructor (p: Processes)
      requires p.live == {}
      ensures processes == p && snmpd.None? && subagent.None? && conf.None? && Inv()
    {
      processes, snmpd, subagent, conf := p, None, None, None;
    }

    /** Empties the slots of processes that exited. */
    method Reap() returns (events: seq<Event>)
      requires Tracked()
      modifies this`snmpd, this`subagent, processes
      ensures Tracked() && processes.live <= old(processes.live)
      ensures snmpd == old(snmpd) || (snmpd.None? && Exited(SnmpdProgram, old(snmpd).value) in events)
      ensures subagent == old(subagent) || (subagent.None? && Exited(ClixonSnmp, old(subagent).value) in events)
    {
      events := [];
      if snmpd.Some? {
        var running := processes.Running(snmpd.value);
        if !running {
          events := events + [Exited(SnmpdProgram, snmpd.value)];
          snmpd := None;
        }
      }
      if subagent.Some? {
        var running := processes.Running(subagent.value);
        if !running {
          events := events + [Exited(ClixonSnmp, subagent.value)];
          subagent := None;
        }
      }
    }

    /** `stop`: the subagent first. */
    method Stop() returns (events: seq<Event>)
      requires Tracked()
      modifies this, processes
      ensures snmpd.None? && subagent.None? && conf.None? && processes.live == {}
    {
      events := [];
      if subagent.Some? {
        var p := subagent.value;
        subagent := None;
        processes.Stop(p);
        events := events + [Stopped(ClixonSnmp, p)];
      }
      if snmpd.Some? {
        var p := snmpd.value;
        snmpd := None;
        processes.Stop(p);
        events := events + [Stopped(SnmpdProgram, p)];
      }
      conf := None;
    }

    /** `start_snmpd`: after a timeout the process stays on record, after an exit it does not. */
    method Start(c: string) returns (r: Result<seq<Event>, Fault>)
      requires snmpd.None? && subagent.None? && conf.None? && processes.live == {}
      modifies this`snmpd, this`conf, processes
      ensures Inv() && subagent.None?
      ensures r.Ok? ==> snmpd.Some? && conf == Some(c) && r.value == [Started(SnmpdProgram, snmpd.value)]
      ensures conf.Some? ==> conf == Some(c)
      ensures r.Err? && snmpd.Some? ==> r.error == NoSocket
    {
      var written: bool := *;
      if !written { return Err(CannotWrite); }
      var pid := processes.Spawn();
      if pid.None? { return Err(CannotStart(SnmpdProgram)); }
      snmpd, conf := pid, Some(c);
      var socket: bool := *;
      var polls: nat := *;
      while !socket
        invariant snmpd == pid && conf == Some(c) && processes.live <= {pid.value}
        decreases polls
      {
        var running := processes.Running(pid.value);
        if !running {
          snmpd, conf := None, None;
          return Err(ExitedAtStart);
        }
        if polls == 0 { return Err(NoSocket); }
        polls := polls - 1;
        socket := *;
      }
      return Ok([Started(SnmpdProgram, pid.value)]);
    }

    /**
     * `sync`: after Ok both run with `want`, or neither; a running snmpd is restarted only for
     * another configuration.
     */
    method Sync(want: Option<string>) returns (r: Result<seq<Event>, Fault>)
      requires Inv()
      modifies this, processes
      ensures Inv()
      ensures r.Ok? ==> conf == want && (snmpd.Some? <==> want.Some?) && (subagent.Some? <==> want.Some?)
      ensures want.None? ==> r.Ok? && processes.live == {}
      ensures conf.Some? ==> conf == want
      ensures r.Ok? && want.Some? && old(conf) == want && snmpd != old(snmpd) ==>
              Exited(SnmpdProgram, old(snmpd).value) in r.value
    {
      var events := Reap();
      var restart := want.Some? && (snmpd.None? || conf != want);
      if want.None? || restart {
        var stopped := Stop();
        events := events + stopped;
      }
      if want.None? { return Ok(events); }
      if restart {
        var started := Start(want.value);
        if started.Err? { return started; }
        events := events + started.value;
      }
      if subagent.None? {
        var pid := processes.Spawn();
        if pid.None? { return Err(CannotStart(ClixonSnmp)); }
        subagent := pid;
        events := events + [Started(ClixonSnmp, pid.value)];
      }
      return Ok(events);
    }
  }

  /** Any calls in any order: no process is ever lost from the record. */
  method AnyCalls(manager: Snmpd, wants: seq<Option<string>>)
    requires manager.Inv()
    modifies manager, manager.processes
    ensures manager.Inv()
    ensures wants != [] && manager.conf.Some? ==> manager.conf == wants[|wants| - 1]
  {
    for i := 0 to |wants|
      invariant manager.Inv()
      invariant i > 0 && manager.conf.Some? ==> manager.conf == wants[i - 1]
    {
      var _ := manager.Sync(wants[i]);
    }
  }
}
