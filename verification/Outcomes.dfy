/** How a commit goes, and what becomes of mstpd's record and of the DHCP client's link. */
module Outcomes {
  import opened Basics
  import opened Model
  import opened Kernel
  import opened Planner
  import opened Reconciler
  import opened RoundEffects
  import opened Mstpctl
  import opened Daemon
  import opened Updates
  import opened Delta
  import opened Trees
  import opened Hearing
  import opened Records
  import opened DhcpManager

  // ----- commits -----

  /** Spanning tree settings as the validator makes them, for the configured ports. */
  ghost predicate StpValid(d: Desired) {
    d.stp.Some? ==> Valid(d.stp.value) && Uniform(d.stp.value) && d.stp.value.ports.Keys == d.ports.Keys
  }

  /** The SVI whose DHCP client runs. */
  function DhcpSvi(d: Desired, ns: seq<Name>): (r: Option<Name>)
    requires forall n :: n in ns ==> n in d.svis
    ensures r.Some? ==> r.value in ns && d.svis[r.value].dhcpClient
    ensures r.None? ==> forall n :: n in ns ==> !d.svis[n].dhcpClient
  {
    if ns == [] then None else if d.svis[ns[0]].dhcpClient then Some(ns[0]) else DhcpSvi(d, ns[1..])
  }

  predicate Relinked(ops: seq<Op>, wanted: Option<Name>) {
    exists op :: op in ops && op.CreateVlan? && wanted == Some(op.name)
  }

  datatype Failing = NotPrepared | NotReconciled | NoInterfaceStates | NotConfigured | NoDhcpClient | NoSnmp

  /**
   * How far a commit gets with mstpd: not started; the kernel or its states failing before it is
   * told; told, in vain or not.
   */
  datatype Reach = Unprepared | Unreconciled | Stateless | Unconfigured | Configured

  /** The kernel may have changed, and mstpd was not told. */
  predicate Untold(how: Reach) { how.Unreconciled? || how.Stateless? }

  function FailureOf(how: Reach): Failing
    requires !how.Configured?
  {
    match how
    case Unprepared => NotPrepared
    case Unreconciled => NotReconciled
    case Stateless => NoInterfaceStates
    case Unconfigured => NotConfigured
  }

  /** What `apply` returns for a commit that gets so far. */
  ghost predicate Answers(how: Reach, r: Result<(), Failing>) {
    if how.Configured? then r.Ok? || r.error == NoDhcpClient || r.error == NoSnmp else r == Err(FailureOf(how))
  }

  /** What mstpd holds, and what is on record, once it was found running or started. */
  function DaemonAt(started: bool, m: DaemonState): DaemonState { if started then FRESH else m }
  function RecordAt(started: bool, a: Option<Applied>): Option<Applied> { if started then None else a }

  /** What is on record when mstpd is configured after `heard`. */
  function Previous(heard: seq<Op>, a: Option<Applied>): Option<Applied> { if Resend(heard) then None else a }

  /** What is committed: a desired state, on a backend, with the bridge's MAC address where it can be had. */
  datatype Commit = Commit(d: Desired, b: Backend, states: Option<string>)

  /** How a commit went: how far, the rounds applied, what a failing round applied, and whether mstpd was started. */
  datatype Log = Log(how: Reach, rounds: seq<seq<Op>>, part: seq<Op>, started: bool) {
    function Heard(): seq<Op> { Joined(rounds) + part }
  }

  /**
   * The kernel's part of a commit: nothing without mstpd where it is wanted, otherwise the rounds
   * of a reconciliation.
   */
  ghost predicate KernelRan(c: Commit, l: Log) {
    if l.how.Unprepared? then l.rounds == [] && l.part == [] && c.d.stp.Some?
    else
      && RanOn(c.d, c.b, !l.how.Unreconciled?, l.rounds, l.part)
      && (l.how.Stateless? ==> c.d.stp.Some? && c.states.None?)
  }

  // ----- mstpd -----

  /** mstpd between commits: what it holds, what is on record, whether it is kept, runs and has answered. */
  datatype Held = Held(daemon: DaemonState, applied: Option<Applied>, kept: bool, alive: bool, answered: bool)

  /** A running mstpd holds everything that is on record. */
  ghost predicate Right(h: Held) { h.alive ==> Current(h.daemon, h.applied) }

  /** What is on record was run, and a running mstpd is one that is kept. */
  ghost predicate Sane(h: Held) {
    && (h.alive ==> h.kept && Fit(h.daemon))
    && (h.applied.Some? ==> h.kept && Recorded(h.applied.value) && Uniform(h.applied.value.stp))
  }

  /** mstpd, which held `m` with `a` on record, went through `heard` and was not told. */
  ghost predicate NotTold(heard: seq<Op>, m: DaemonState, a: Option<Applied>, h: Held) {
    h.applied == a && h.daemon == HearAll(m, heard)
  }

  /**
   * Then it was told `t`. Once it took everything, `t` is on record and it holds what the changed
   * commands leave; where it refused one, nothing is on record and it holds what those before left.
   */
  ghost predicate WasTold(t: SpanningTree, mac: string, ok: bool, heard: seq<Op>, m: DaemonState, a: Option<Applied>,
                          h: Held) {
    && h.applied == (if ok then Some(Applied(t, Commands(t, mac))) else None)
    && (ok && h.alive ==> Told(HearAll(m, heard), Previous(heard, a), t, mac) == Some(h.daemon))
    && PartlyTold(HearAll(m, heard), Previous(heard, a), t, mac, h.daemon)
  }

  ghost predicate StpOutcome(c: Commit, how: Reach, heard: seq<Op>, m: DaemonState, a: Option<Applied>, h: Held) {
    if Untold(how) then NotTold(heard, m, a, h)
    else c.d.stp.Some? ==>
      c.states.Some? && WasTold(c.d.stp.value, c.states.value, how.Configured?, heard, m, a, h)
  }

  /**
   * A commit `c` that went as `l` says takes mstpd from `w` to `h`: it was found running, or started
   * and found to answer, before the kernel was reconciled, and became what `StpOutcome` says. Where it
   * could not be started nothing is on record, and where it is not wanted none runs.
   */
  ghost predicate Committed(c: Commit, l: Log, w: Held, h: Held) {
    if l.how.Unprepared? then h.applied.None?
    else
      && (c.d.stp.Some? ==> h.kept && (l.started || w.alive) && (l.started || w.answered ==> h.answered))
      && (c.d.stp.None? ==> !h.kept && !h.alive)
      && StpOutcome(c, l.how, l.Heard(), DaemonAt(l.started, w.daemon),
                    RecordAt(l.started || c.d.stp.None?, w.applied), h)
  }

  lemma ReadyAfter(m: DaemonState, a: Option<Applied>, ops: seq<Op>, t: SpanningTree, mac: string)
    requires Fit(m) && Uniform(t) && LeavesOnly(ops, t.ports.Keys) && (Current(m, a) || Resend(ops) || a.None?)
    ensures Prepared(HearAll(m, ops), Previous(ops, a), Commands(t, mac))
  {
    if Current(m, a) { HeardReady(m, a, ops, t, mac); } else { HearFit(m, ops); }
  }

  /** The kernel changed what mstpd holds for the ports on record, and mstpd was not told. */
  ghost predicate Shaken(c: Commit, l: Log, w: Held, h: Held) {
    && Untold(l.how) && !l.started && c.d.stp.Some? && h.alive && w.applied.Some?
    && Disturbed(l.Heard(), w.applied.value.stp.ports.Keys)
  }

  /** A commit of a valid configuration, with its part of the kernel. */
  ghost predicate Proper(c: Commit, l: Log) { StpValid(c.d) && BR !in c.d.svis && KernelRan(c, l) }

  /** A right record goes wrong exactly so. */
  lemma StepIff(c: Commit, l: Log, w: Held, h: Held)
    requires Proper(c, l) && Sane(w) && Sane(h) && Committed(c, l, w, h) && Right(w)
    ensures Right(h) <==> !Shaken(c, l, w, h)
  {
    if h.alive && h.applied.Some? {
      if Untold(l.how) { UntoldIff(c, l, w, h); } else { ToldRight(c, l, w, h); }
    }
  }

  lemma UntoldIff(c: Commit, l: Log, w: Held, h: Held)
    requires Sane(w) && Committed(c, l, w, h) && Right(w) && Untold(l.how) && h.alive && h.applied.Some?
    ensures Right(h) <==> !Shaken(c, l, w, h)
  {
    StaleExactly(w.daemon, w.applied.value, l.Heard());
  }

  /** mstpd took everything, and its record was right or everything was sent. */
  lemma ToldRight(c: Commit, l: Log, w: Held, h: Held)
    requires Proper(c, l) && Sane(w) && Committed(c, l, w, h) && !Untold(l.how) && h.alive && h.applied.Some?
    requires l.started || Right(w) || Resend(l.Heard())
    ensures Right(h)
  {
    var m, a, t := DaemonAt(l.started, w.daemon), RecordAt(l.started, w.applied), c.d.stp.value;
    RanLeaves(c.d, c.b, l.rounds, l.part);
    ReadyAfter(m, a, l.Heard(), t, c.states.value);
    Bring(HearAll(m, l.Heard()), Previous(l.Heard(), a), t, c.states.value);
  }

  /** mstpd is started or stopped, a command is refused, or everything is sent. */
  predicate Recovers(c: Commit, l: Log) {
    l.started || c.d.stp.None? || l.how.Unprepared? || l.how.Unconfigured? || (l.how.Configured? && Resend(l.Heard()))
  }

  lemma StepRecovers(c: Commit, l: Log, w: Held, h: Held)
    requires Proper(c, l) && Sane(w) && Sane(h) && Committed(c, l, w, h) && Recovers(c, l)
    ensures Right(h)
  {
    if h.alive && h.applied.Some? { ToldRight(c, l, w, h); }
  }

  // ----- the DHCP client -----

  /** The events of the DHCP client before the kernel is changed, and after. */
  datatype Clients = Clients(before: seq<DhcpManager.Event>, after: seq<DhcpManager.Event>)

  /** The DHCP client between commits, and whether it is bound to the link its interface has now. */
  datatype Lease = Lease(client: Option<Client>, bound: bool)

  function WantsDhcp(d: Desired): Option<Name> { DhcpSvi(d, Names(d.svis.Keys)) }

  /** Before the kernel is changed: a client that is unwanted stops, and a wanted one that runs is kept. */
  predicate StoppedAs(d: Desired, before: seq<DhcpManager.Event>, w: Lease) {
    match w.client
    case None => before == []
    case Some(c) =>
      || (before == [] && WantsDhcp(d) == Some(c.interface))
      || before == [DhcpManager.Exited(c.interface, c.pid)]
      || (before == [DhcpManager.Stopped(c.interface, c.pid)] && WantsDhcp(d) != Some(c.interface))
  }

  function KeptClient(w: Lease, before: seq<DhcpManager.Event>): Lease {
    if before == [] then w else Lease(None, w.bound)
  }

  /** While it is changed: a client whose link goes is no longer bound to the one there is. */
  ghost function Carried(h: Lease, heard: seq<Op>): Lease {
    h.(bound := h.bound && h.client.Some? && !Unlinked(heard, h.client.value.interface))
  }

  /** After it: the client is started on the wanted interface, or left as it is if its link was not created anew. */
  ghost predicate SyncedAs(d: Desired, heard: seq<Op>, after: seq<DhcpManager.Event>, w: Lease, h: Lease) {
    && (h.client.Some? ==> WantsDhcp(d) == Some(h.client.value.interface))
    && (h.client.None? ==> !Restarted(after))
    && (h.client.Some? && Restarted(after) ==> h.bound)
    && (h.client.Some? && !Restarted(after) ==> h == w && !Relinked(heard, WantsDhcp(d)))
  }

  /** A commit that went as `l` and `x` say takes the DHCP client from `w` to `h`. */
  ghost predicate Leased(c: Commit, l: Log, x: Clients, w: Lease, h: Lease) {
    && StoppedAs(c.d, x.before, w)
    && var v := Carried(KeptClient(w, x.before), l.Heard());
       if l.how.Configured? then SyncedAs(c.d, l.Heard(), x.after, v, h) else x.after == [] && h == v
  }

  /**
   * After a commit that gets as far as the client, it is bound to the link there is exactly if it was
   * started by this commit, as it is where the link was created anew, or was bound before.
   */
  lemma BoundIff(c: Commit, l: Log, x: Clients, w: Lease, h: Lease)
    requires Proper(c, l) && l.how.Configured? && Leased(c, l, x, w, h) && h.client.Some?
    ensures h.bound <==> Restarted(x.after) || w.bound
    ensures Unlinked(l.Heard(), h.client.value.interface) ==> Restarted(x.after)
  {
    if Unlinked(l.Heard(), h.client.value.interface) { LinkSeen(c, l); }
  }

  lemma LinkSeen(c: Commit, l: Log)
    requires Proper(c, l) && l.how.Configured? && WantsDhcp(c.d).Some? && Unlinked(l.Heard(), WantsDhcp(c.d).value)
    ensures Relinked(l.Heard(), WantsDhcp(c.d))
  {
    WantedIn(c.d);
    var n := WantsDhcp(c.d).value;
    RanRelinks(c.d, c.b, l.rounds, l.part, n);
    IsRelinked(l.Heard(), CreateVlan(n, BR, c.d.svis[n].vlan));
  }

  lemma IsRelinked(heard: seq<Op>, op: Op)
    requires op in heard && op.CreateVlan?
    ensures Relinked(heard, Some(op.name))
  {
  }

  lemma WantedIn(d: Desired)
    ensures WantsDhcp(d).Some? ==> WantsDhcp(d).value in d.svis && d.svis[WantsDhcp(d).value].dhcpClient
    ensures WantsDhcp(d).None? ==> forall n :: n in d.svis ==> !d.svis[n].dhcpClient
  {
    assert forall n :: n in Names(d.svis.Keys) <==> n in d.svis;
  }
}
