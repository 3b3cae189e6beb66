/** Applying a configuration: mstpd before and after the kernel (crates/clixon-switch-plugin/src/lib.rs). */
module Plugin {
  import opened Basics
  import opened Model
  import opened Kernel
  import opened Planner
  import opened Reconciler
  import opened RoundEffects
  import opened Mstpctl
  import opened Daemon
  import opened Updates
  import opened Delta
  import opened Trees
  import opened Hearing
  import opened Records
  import opened Outcomes
  import Processes
  import opened MstpdManager
  import DhcpManager
  import SnmpdManager

  class Switch {
    const mstpd: Mstpd
    const dhcp: DhcpManager.DhcpClients
    const snmp: SnmpdManager.Snmpd
    var applied: Option<Desired>

    ghost predicate Apart() {
      mstpd.processes != dhcp.processes && mstpd.processes != snmp.processes && dhcp.processes != snmp.processes
    }

    /** The record is of commands that were run for valid settings, right or wrong by now. */
    ghost predicate StpOwned()
      reads mstpd, mstpd.processes, mstpd.control
    {
      mstpd.Owned() && (mstpd.applied.Some? ==> Recorded(mstpd.applied.value) && Uniform(mstpd.applied.value.stp))
    }

    ghost function Now(): (h: Held)
      reads mstpd, mstpd.processes, mstpd.control
      ensures mstpd.Owned() ==> (mstpd.Inv() <==> Right(h))
      ensures StpOwned() ==> Sane(h)
    {
      Held(mstpd.control.daemon, mstpd.applied, mstpd.pid.Some?, mstpd.processes.live != {}, mstpd.answered)
    }

    constructor (m: Mstpd, c: DhcpManager.DhcpClients, s: SnmpdManager.Snmpd)
      ensures mstpd == m && dhcp == c && snmp == s && applied.None?
    {
      mstpd, dhcp, snmp, applied := m, c, s, None;
    }

    /** mstpd goes through what the kernel went through: a right record stays right exactly if it was not disturbed. */
    method Undergo(ops: seq<Op>)
      requires StpOwned()
      modifies mstpd.processes, mstpd.control
      ensures StpOwned() && mstpd.processes.live <= old(mstpd.processes.live)
      ensures NotTold(ops, old(mstpd.control.daemon), mstpd.applied, Now())
      ensures old(Right(Now())) && mstpd.processes.live != {} && mstpd.applied.Some? ==>
                (Right(Now()) <==> !Disturbed(ops, mstpd.applied.value.stp.ports.Keys))
    {
      if mstpd.processes.live != {} {
        HearFit(mstpd.control.daemon, ops);
        if mstpd.applied.Some? && Right(Now()) { StaleExactly(mstpd.control.daemon, mstpd.applied.value, ops); }
      }
      mstpd.control.Notice(ops);
    }

    /** mstpd is configured after `heard`, which it went through from `m`. */
    method Inform(t: SpanningTree, mac: string, heard: seq<Op>, ghost m: DaemonState) returns (ok: bool)
      requires StpOwned() && Valid(t) && Uniform(t) && mstpd.control.daemon == HearAll(m, heard)
      modifies mstpd, mstpd.processes, mstpd.control
      ensures StpOwned() && mstpd.pid == old(mstpd.pid) && (old(mstpd.answered) ==> mstpd.answered)
      ensures WasTold(t, mac, ok, heard, m, old(mstpd.applied), Now())
    {
      var c := mstpd.Configure(Some(t), mac, Resend(heard));
      ok := c.Ok?;
    }

    /**
     * mstpd goes through what was heard and is configured, if reconciliation succeeded and the MAC
     * address can be had.
     */
    method TellMstpd(c: Commit, ok: bool, heard: seq<Op>) returns (how: Reach)
      requires StpOwned() && StpValid(c.d) && (c.d.stp.None? ==> mstpd.pid.None?)
      modifies mstpd, mstpd.processes, mstpd.control
      ensures StpOwned() && mstpd.pid == old(mstpd.pid) && (old(mstpd.answered) ==> mstpd.answered)
      ensures if !ok then how.Unreconciled?
              else how.Configured? || how.Unconfigured? || (how.Stateless? && c.d.stp.Some? && c.states.None?)
      ensures StpOutcome(c, how, heard, old(mstpd.control.daemon), old(mstpd.applied), Now())
    {
      ghost var m := mstpd.control.daemon;
      Undergo(heard);
      if !ok { return Unreconciled; }
      if c.d.stp.None? { return Configured; }
      how := TellSettings(c, heard, m);
    }

    method TellSettings(c: Commit, heard: seq<Op>, ghost m: DaemonState) returns (how: Reach)
      requires StpOwned() && StpValid(c.d) && c.d.stp.Some? && mstpd.control.daemon == HearAll(m, heard)
      modifies mstpd, mstpd.processes, mstpd.control
      ensures StpOwned() && mstpd.pid == old(mstpd.pid) && (old(mstpd.answered) ==> mstpd.answered)
      ensures if c.states.None? then how.Stateless? else how.Configured? || how.Unconfigured?
      ensures StpOutcome(c, how, heard, m, old(mstpd.applied), Now())
    {
      if c.states.None? { return Stateless; }
      var told := Inform(c.d.stp.value, c.states.value, heard, m);
      how := if told then Configured else Unconfigured;
    }

    /** The kernel is reconciled, with mstpd running if it is wanted and only then, and mstpd is told. */
    method Reconcile(c: Commit, started: bool) returns (l: Log)
      requires StpOwned() && StpValid(c.d) && BR !in c.d.svis
      requires if c.d.stp.Some? then mstpd.pid.Some? && mstpd.processes.live == {mstpd.pid.value} else mstpd.pid.None?
      modifies mstpd, mstpd.processes, mstpd.control
      ensures StpOwned() && mstpd.pid == old(mstpd.pid) && (old(mstpd.answered) ==> mstpd.answered)
      ensures !l.how.Unprepared? && l.started == started && KernelRan(c, l)
      ensures StpOutcome(c, l.how, l.Heard(), old(mstpd.control.daemon), old(mstpd.applied), Now())
    {
      var ok, rounds, part := ReconcileKernel(c.d, c.b);
      var how := TellMstpd(c, ok, Joined(rounds) + part);
      l := Log(how, rounds, part, started);
    }

    /** Spanning tree and the kernel. */
    method ApplyStp(c: Commit) returns (l: Log)
      requires StpOwned() && StpValid(c.d) && BR !in c.d.svis
      modifies mstpd, mstpd.processes, mstpd.control
      ensures StpOwned() && Proper(c, l) && Committed(c, l, old(Now()), Now())
    {
      var p := mstpd.Prepare(c.d.stp.Some?);
      if p.Err? { return Log(Unprepared, [], [], false); }
      var started := c.d.stp.Some? && Started(mstpd.pid.value) in p.value;
      l := Reconcile(c, started);
    }

    ghost predicate ProcessesInv()
      reads dhcp, dhcp.processes, snmp, snmp.processes
    {
      Apart() && dhcp.Inv() && snmp.Inv()
    }

    /** The DHCP client runs on the SVI that wants it, if any, and the SNMP agent with its configuration, if any. */
    ghost predicate ProcessesAs(d: Desired, conf: Option<string>)
      reads dhcp, snmp
    {
      && snmp.conf == conf && (snmp.snmpd.Some? <==> conf.Some?) && (snmp.subagent.Some? <==> conf.Some?)
      && ClientAs(d)
    }

    ghost predicate ClientAs(d: Desired)
      reads dhcp
    {
      && (dhcp.client.Some? <==> exists n :: n in d.svis && d.svis[n].dhcpClient)
      && (dhcp.client.Some? ==> dhcp.client.value.interface in d.svis && d.svis[dhcp.client.value.interface].dhcpClient)
    }

    ghost function Leasing(): Lease
      reads dhcp
    {
      Lease(dhcp.client, dhcp.bound)
    }

    /** The DHCP client of an SVI that no longer wants it, before the kernel. */
    method StopClient(d: Desired) returns (events: seq<DhcpManager.Event>)
      requires StpOwned() && ProcessesInv()
      modifies dhcp, dhcp.processes
      ensures StpOwned() && ProcessesInv() && Now() == old(Now())
      ensures StoppedAs(d, events, old(Leasing())) && Leasing() == KeptClient(old(Leasing()), events)
      ensures dhcp.trace == old(dhcp.trace) + DhcpManager.Dids(events)
    {
      events := dhcp.StopUnwanted(WantsDhcp(d));
    }

    /** The children of the managers that are not mstpd, after the kernel. */
    method SyncProcesses(d: Desired, heard: seq<Op>, conf: Option<Option<string>>)
      returns (r: Result<(), Failing>, ghost after: seq<DhcpManager.Event>)
      requires StpOwned() && ProcessesInv()
      modifies dhcp, dhcp.processes, snmp, snmp.processes
      ensures StpOwned() && ProcessesInv() && Now() == old(Now())
      ensures r.Err? ==> r.error == NoDhcpClient || r.error == NoSnmp
      ensures r.Ok? ==> conf.Some? && ProcessesAs(d, conf.value)
      ensures SyncedAs(d, heard, after, old(Leasing()), Leasing())
      ensures dhcp.trace == old(dhcp.trace) + DhcpManager.Dids(after)
    {
      var started;
      started, after := SyncClient(d, heard);
      if !started { return Err(NoDhcpClient), after; }
      if conf.None? { return Err(NoSnmp), after; }
      var synced := snmp.Sync(conf.value);
      if synced.Err? { return Err(NoSnmp), after; }
      return Ok(()), after;
    }

    method SyncClient(d: Desired, heard: seq<Op>) returns (ok: bool, ghost after: seq<DhcpManager.Event>)
      requires ProcessesInv()
      modifies dhcp, dhcp.processes
      ensures ProcessesInv() && (ok ==> ClientAs(d))
      ensures SyncedAs(d, heard, after, old(Leasing()), Leasing())
      ensures dhcp.trace == old(dhcp.trace) + DhcpManager.Dids(after)
    {
      WantedIn(d);
      var started;
      started, after := dhcp.Sync(WantsDhcp(d), Relinked(heard, WantsDhcp(d)));
      ok := started.Ok?;
    }

    /** What is left once mstpd was told, or was not. */
    method Finish(d: Desired, how: Reach, heard: seq<Op>, conf: Option<Option<string>>)
      returns (r: Result<(), Failing>, ghost after: seq<DhcpManager.Event>)
      requires StpOwned() && ProcessesInv()
      modifies this, dhcp, dhcp.processes, snmp, snmp.processes
      ensures StpOwned() && ProcessesInv() && Now() == old(Now()) && Finished(d, how, conf, old(applied), r)
      ensures dhcp.trace == old(dhcp.trace) + DhcpManager.Dids(after)
      ensures if how.Configured? then SyncedAs(d, heard, after, old(Leasing()), Leasing())
              else after == [] && Leasing() == old(Leasing())
    {
      if !how.Configured? { return Err(FailureOf(how)), []; }
      r, after := SyncProcesses(d, heard, conf);
      if r.Ok? { applied := Some(d); }
    }

    /** A commit that succeeds is applied and its processes run; one that fails leaves the applied one. */
    ghost predicate Finished(d: Desired, how: Reach, conf: Option<Option<string>>, was: Option<Desired>,
                             r: Result<(), Failing>)
      reads this, dhcp, snmp
    {
      && Answers(how, r)
      && (if r.Ok? then applied == Some(d) && conf.Some? && ProcessesAs(d, conf.value) else applied == was)
    }

    /**
     * `apply`; `conf` is the snmpd configuration, None where it cannot be had. An unwanted DHCP client
     * stops before the kernel is changed. A right record of mstpd stays right exactly if it is not shaken.
     */
    method Apply(c: Commit, conf: Option<Option<string>>)
      returns (r: Result<(), Failing>, l: Log, ghost x: Clients)
      requires StpOwned() && ProcessesInv() && StpValid(c.d) && BR !in c.d.svis
      modifies this, mstpd, mstpd.processes, mstpd.control, dhcp, dhcp.processes, snmp, snmp.processes
      ensures StpOwned() && ProcessesInv() && Finished(c.d, l.how, conf, old(applied), r)
      ensures Proper(c, l) && Committed(c, l, old(Now()), Now()) && Leased(c, l, x, old(Leasing()), Leasing())
      ensures dhcp.trace == old(dhcp.trace) + DhcpManager.Dids(x.before) + [DhcpManager.Reconciled(l.Heard())]
                            + DhcpManager.Dids(x.after)
      ensures old(Right(Now())) ==> (Right(Now()) <==> !Shaken(c, l, old(Now()), Now()))
    {
      ghost var before;
      l, before := ApplyKernel(c);
      ghost var after;
      r, after := Finish(c.d, l.how, l.Heard(), conf);
      x := Clients(before, after);
      if old(Right(Now())) { StepIff(c, l, old(Now()), Now()); }
    }

    /** As far as mstpd and the kernel. */
    method ApplyKernel(c: Commit) returns (l: Log, ghost before: seq<DhcpManager.Event>)
      requires StpOwned() && ProcessesInv() && StpValid(c.d) && BR !in c.d.svis
      modifies mstpd, mstpd.processes, mstpd.control, dhcp, dhcp.processes
      ensures StpOwned() && ProcessesInv() && Proper(c, l) && Committed(c, l, old(Now()), Now())
      ensures StoppedAs(c.d, before, old(Leasing()))
      ensures Leasing() == Carried(KeptClient(old(Leasing()), before), l.Heard())
      ensures dhcp.trace == old(dhcp.trace) + DhcpManager.Dids(before) + [DhcpManager.Reconciled(l.Heard())]
    {
      before := StopClient(c.d);
      l := ApplyNoticed(c);
    }

    /** The client, too, goes through what the kernel went through. */
    method ApplyNoticed(c: Commit) returns (l: Log)
      requires StpOwned() && ProcessesInv() && StpValid(c.d) && BR !in c.d.svis
      modifies mstpd, mstpd.processes, mstpd.control, dhcp
      ensures StpOwned() && ProcessesInv() && Proper(c, l) && Committed(c, l, old(Now()), Now())
      ensures Leasing() == Carried(old(Leasing()), l.Heard())
      ensures dhcp.trace == old(dhcp.trace) + [DhcpManager.Reconciled(l.Heard())]
    {
      l := ApplyStp(c);
      dhcp.Notice(l.Heard());
    }
  }

  /** The kernel on its own. */
  method ReconcileKernel(d: Desired, b: Backend) returns (ok: bool, rounds: seq<seq<Op>>, part: seq<Op>)
    requires BR !in d.svis
    ensures RanOn(d, b, ok, rounds, part)
    ensures ok ==> LeavesOnly(Joined(rounds) + part, d.ports.Keys)
  {
    var res;
    res, rounds, part := ReconcileAny(d, b);
    ok := res.Ok?;
    if ok { RanLeaves(d, b, rounds, part); }
  }
}
