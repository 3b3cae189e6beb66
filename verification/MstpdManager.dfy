/** The mstpd process and its configuration, kept across commits (crates/switch-net/src/stp.rs). */
module MstpdManager {
  import opened Basics
  import opened Model
  import opened Kernel
  import opened Mstpctl
  import opened MstpctlLoops
  import opened Daemon
  import opened Updates
  import opened Delta
  import opened Trees
  import opened Hearing
  import opened Records
  import opened Processes

  datatype Fault = CannotStart | NotReady | CommandRefused

  datatype Event = Started(pid: nat) | Stopped(pid: nat) | Exited(pid: nat)

  /** mstpctl, and what the running mstpd holds for the bridge. Any command may be refused. */
  class Control {
    const processes: Processes
    var daemon: DaemonState

    constructor (p: Processes)
      ensures processes == p && daemon == FRESH
    {
      processes, daemon := p, FRESH;
    }

    /** A new mstpd has no settings. */
    method Reset()
      modifies this
      ensures daemon == FRESH
    {
      daemon := FRESH;
    }

    /** A command that sets nothing: debuglevel, addbridge, delbridge. */
    method Ask() returns (ok: bool)
      modifies processes
      ensures processes.live <= old(processes.live) && (ok ==> processes.live != {})
    {
      processes.MayExit();
      ok := *;
      ok := ok && processes.live != {};
    }

    method Set(c: Cmd) returns (ok: bool)
      modifies this, processes
      ensures processes.live <= old(processes.live)
      ensures if ok then Exec(old(daemon), c) == Some(daemon) else daemon == old(daemon)
    {
      processes.MayExit();
      var r := Exec(daemon, c);
      ok := *;
      ok := ok && processes.live != {} && r.Some?;
      if ok { daemon := r.value; }
    }

    /** The kernel was changed by `ops`. */
    method Notice(ops: seq<Op>)
      modifies this, processes
      ensures processes.live <= old(processes.live) && daemon == HearAll(old(daemon), ops)
    {
      processes.MayExit();
      daemon := HearAll(daemon, ops);
    }
  }

  class Mstpd {
    const processes: Processes
    const control: Control
    var pid: Option<nat>
    var applied: Option<Applied>

    /** The mstpd on record has answered a command since it was started. */
    ghost var answered: bool

    /** No mstpd runs but the one on record, and one not on record has nothing applied. */
    ghost predicate Owned()
      reads this, processes, control
    {
      && control.processes == processes
      && processes.live <= (if pid.Some? then {pid.value} else {})
      && (pid.None? ==> applied.None?)
      && (processes.live != {} ==> Fit(control.daemon))
    }

    /** A running mstpd holds the effect of every command it is recorded to have run. */
    ghost predicate Inv()
      reads this, processes, control
    {
      Owned() && (processes.live != {} ==> Current(control.daemon, applied))
    }

    constructor (p: Processes, c: Control)
      requires p.live == {} && c.processes == p
      ensures processes == p && control == c && Inv() && pid.None? && applied.None? && !answered
    {
      processes, control, pid, applied, answered := p, c, None, None, false;
    }

    /** `wait_ready`: whether mstpd answers before it exits or the time is up. */
    method WaitReady(p: nat) returns (ok: bool)
      requires processes.live <= {p} && control.processes == processes && !answered
      modifies processes, this`answered
      ensures processes.live <= old(processes.live) && answered == ok && (ok ==> processes.live == {p})
    {
      var tries: nat := *;
      while tries > 0
        invariant processes.live <= old(processes.live) && !answered
      {
        var answer := control.Ask();
        if answer {
          answered := true;
          return true;
        }
        var running := processes.Running(p);
        if !running { return false; }
        tries := tries - 1;
      }
      return false;
    }

    /**
     * `prepare`: with spanning tree wanted, mstpd was found running or started and found to answer;
     * without it none runs. The record is forgotten with the process.
     */
    method Prepare(wanted: bool) returns (r: Result<seq<Event>, Fault>)
      requires Owned()
      modifies this, processes, control
      ensures Owned() && (old(Inv()) ==> Inv())
      ensures r.Ok? && !wanted ==> pid.None? && processes.live == {} && control.daemon == old(control.daemon)
      ensures r.Ok? && wanted ==> pid.Some? && processes.live == {pid.value}
      ensures r.Ok? && wanted ==>
                if Started(pid.value) in r.value then applied.None? && control.daemon == FRESH && answered
                else && pid == old(pid) && applied == old(applied) && control.daemon == old(control.daemon)
                     && answered == old(answered) && processes.live == old(processes.live)
      ensures r.Err? ==> wanted && applied.None?
      ensures r == Err(NotReady) ==> pid.Some? && !answered
    {
      var events := [];
      if pid.Some? {
        var running := processes.Running(pid.value);
        if !running {
          events := events + [Exited(pid.value)];
          pid, applied := None, None;
        }
      }
      if wanted && pid.None? {
        var p := processes.Spawn();
        if p.None? { return Err(CannotStart); }
        pid, answered := p, false;
        control.Reset();
        events := events + [Started(p.value)];
        var ready := WaitReady(p.value);
        if !ready { return Err(NotReady); }
      } else if !wanted && pid.Some? {
        var _ := control.Ask();
        processes.Stop(pid.value);
        events := events + [Stopped(pid.value)];
        pid, applied := None, None;
      }
      return Ok(events);
    }

    /** The commands of a change, one after the other, until one is refused. */
    method RunCommands(previous: Option<Applied>, t: SpanningTree, mac: string, run: seq<Cmd>) returns (ok: bool)
      requires Owned() && Updates.Valid(t) && run == Changed(previous, Commands(t, mac), t)
      modifies processes, control
      ensures Owned() && processes.live <= old(processes.live) && Partly(old(control.daemon), run, control.daemon)
      ensures ok && processes.live != {} ==> Told(old(control.daemon), previous, t, mac) == Some(control.daemon)
    {
      forall c | c in run ensures c.SetFdelay? ==> c.secs <= MAX_FORWARD_DELAY { ChangedMild(previous, t, mac, c); }
      ok := RunEach(run);
    }

    method RunEach(run: seq<Cmd>) returns (ok: bool)
      requires Owned() && forall c :: c in run ==> c.SetFdelay? ==> c.secs <= MAX_FORWARD_DELAY
      modifies processes, control
      ensures Owned() && processes.live <= old(processes.live) && Partly(old(control.daemon), run, control.daemon)
      ensures ok ==> ExecAll(old(control.daemon), run) == Some(control.daemon)
    {
      TakeNone(run);
      for i := 0 to |run|
        invariant Owned() && processes.live <= old(processes.live)
        invariant ExecAll(old(control.daemon), run[..i]) == Some(control.daemon)
      {
        ghost var m := control.daemon;
        assert run[i] in run;
        ok := control.Set(run[i]);
        if !ok { return; }
        OneMore(old(control.daemon), run, i, m);
        if processes.live != {} { ExecKeepsFit(m, run[i]); }
      }
      TakeAll(run);
      ok := true;
    }

    /**
     * `configure`: the record is set exactly once every command has run. mstpd then holds exactly
     * what the changed commands leave, and the record is right if it held what they leave out.
     */
    method Configure(wanted: Option<SpanningTree>, mac: string, resend: bool) returns (r: Result<(), Fault>)
      requires Owned() && (wanted.Some? ==> Updates.Valid(wanted.value))
      modifies this`applied, this`answered, processes, control
      ensures Owned() && (r.Err? ==> Inv()) && processes.live <= old(processes.live) && (old(answered) ==> answered)
      ensures wanted.None? ==> r.Ok? && applied == old(applied) && control.daemon == old(control.daemon)
      ensures wanted.Some? ==>
              applied == if r.Ok? then Some(Applied(wanted.value, Commands(wanted.value, mac))) else None
      ensures wanted.Some? && r.Ok? ==> answered
      ensures wanted.Some? ==>
                var previous := if resend then None else old(applied);
                PartlyTold(old(control.daemon), previous, wanted.value, mac, control.daemon)
      ensures wanted.Some? && r.Ok? && processes.live != {} ==>
                Told(old(control.daemon), if resend then None else old(applied), wanted.value, mac) ==
                    Some(control.daemon)
      ensures wanted.Some? ==>
                var previous := if resend then None else old(applied);
                Prepared(old(control.daemon), previous, Commands(wanted.value, mac)) ==> Inv()
    {
      if wanted.None? { return Ok(()); }
      r := ConfigureTo(wanted.value, mac, resend);
      ghost var previous := if resend then None else old(applied);
      if processes.live != {} && Prepared(old(control.daemon), previous, Commands(wanted.value, mac)) {
        Bring(old(control.daemon), previous, wanted.value, mac);
      }
    }

    method ConfigureTo(t: SpanningTree, mac: string, resend: bool) returns (r: Result<(), Fault>)
      requires Owned() && Updates.Valid(t)
      modifies this`applied, this`answered, processes, control
      ensures Owned() && processes.live <= old(processes.live) && (r.Ok? || old(answered) ==> answered)
      ensures applied == if r.Ok? then Some(Applied(t, Commands(t, mac))) else None
      ensures r.Ok? && processes.live != {} ==>
              Told(old(control.daemon), if resend then None else old(applied), t, mac) == Some(control.daemon)
      ensures PartlyTold(old(control.daemon), if resend then None else old(applied), t, mac, control.daemon)
    {
      var previous := if resend then None else applied;
      applied := None;
      var next := CommandsInPlace(t, mac);
      var ok := Send(previous, t, mac, next);
      if !ok { return Err(CommandRefused); }
      applied := Some(Applied(t, next));
      return Ok(());
    }

    method Send(previous: Option<Applied>, t: SpanningTree, mac: string, next: seq<Cmd>) returns (ok: bool)
      requires Owned() && Updates.Valid(t) && next == Commands(t, mac)
      modifies this`answered, processes, control
      ensures Owned() && processes.live <= old(processes.live) && (ok ==> pid.Some?)
              && (ok || old(answered) ==> answered)
      ensures ok && processes.live != {} ==> Told(old(control.daemon), previous, t, mac) == Some(control.daemon)
      ensures PartlyTold(old(control.daemon), previous, t, mac, control.daemon)
    {
      NotYetTold(control.daemon, previous, t, mac);
      ok := control.Ask();
      if !ok { return; }
      answered := true;
      assert pid.Some?;
      var run := ChangedInPlace(previous, next, t);
      ok := RunCommands(previous, t, mac, run);
    }
  }

  /** An mstpd that never answered is taken for ready by the next `prepare`. */
  method UnansweredTwice(mstpd: Mstpd) returns (first: Result<seq<Event>, Fault>, second: Result<seq<Event>, Fault>)
    requires mstpd.Owned()
    modifies mstpd, mstpd.processes, mstpd.control
    ensures mstpd.Owned() && (second.Ok? ==> mstpd.pid.Some?)
    ensures first == Err(NotReady) && second.Ok? && Started(mstpd.pid.value) !in second.value ==>
              mstpd.processes.live == {mstpd.pid.value} && !mstpd.answered
  {
    first := mstpd.Prepare(true);
    second := mstpd.Prepare(true);
  }
}
