/** A run of two commits that leaves mstpd without its settings (crates/clixon-switch-plugin/src/lib.rs). */
module Staleness {
  import opened Basics
  import opened Model
  import opened Kernel
  import opened Planner
  import opened Matching
  import opened Opening
  import opened Round
  import opened Stages
  import opened Convergence
  import opened Mstpctl
  import opened Updates
  import opened Daemon
  import opened Delta
  import opened Trees
  import opened Hearing
  import opened Records
  import opened Reconciler
  import opened RoundEffects
  import opened DhcpManager
  import opened Outcomes
  import opened Plugin
  import opened Commits

  lemma FreshClear(d: Desired, s: State)
    requires Fresh(s)
    ensures forall n :: !Conflict(d, s, n) && !Relapse(d, s, n)
  {
  }

  /** Where the bridge is missing or not fit, one round creates it and leaves nothing to do. */
  lemma FreshRound(d: Desired, s: State) returns (s1: State)
    requires Sound(s) && Free(d, s) && ValidIds(d) && Fresh(s)
    ensures Turns(d)(s) == Worked(RoundOps(d, s), s1) && Turns(d)(s1).Settled?
    ensures Run(s, RoundOps(d, s)) == Fine(s1) && Matches(d, s1)
  {
    FreshClear(d, s);
    FreshCreates(d, s);
    s1 := RoundEnds(d, s);
    RoundEmptyIffMatches(d, s1);
    TurnIs(d, s);
    TurnIs(d, s1);
  }

  lemma CreatedOnce(d: Desired, s: State) returns (s1: State)
    requires Sound(s) && Free(d, s) && ValidIds(d) && Fresh(s)
    ensures Reconcile(d, s) == Done(s1, Ok(RoundOps(d, s))) && Reconcile(d, s1) == Done(s1, Ok([]))
  {
    s1 := FreshRound(d, s);
    FreshCreates(d, s);
    OneRound(Turns(d), s, s1, RoundOps(d, s));
  }

  lemma OneRound(turn: State -> Turn, s: State, s1: State, ops: seq<Op>)
    requires ops != [] && turn(s) == Worked(ops, s1) && turn(s1).Settled?
    ensures Rounds(turn, s, MAX_ROUNDS, []) == Done(s1, Ok(ops)) && Rounds(turn, s1, MAX_ROUNDS, []) == Done(s1, Ok([]))
  {
    SettlesInOne(turn, s, s1, ops, MAX_ROUNDS, []);
    SettlesInOne(turn, s1, s1, [], MAX_ROUNDS, []);
    assert [] + ops == ops;
  }

  /** mstpd has lost its settings, and the configuration on record is not sent to it again. */
  lemma Unnoticed(m: DaemonState, a: Applied, ops: seq<Op>, mac: string)
    requires CreateBridge(BR) in ops && a.commands == Commands(a.stp, mac)
    ensures Told(HearAll(m, ops), Some(a), a.stp, mac) == Some(HearAll(m, ops)) && !Current(HearAll(m, ops), Some(a))
  {
    SameSendsNothing(a.stp, a.commands);
    assert Disturbed(ops, a.stp.ports.Keys);
    DisturbedLoses(m, a.stp, ops);
    LostIsWrong(HearAll(m, ops), a.stp, mac);
  }

  /**
   * The bridge is gone, and a commit creates it anew but then cannot get its MAC address. The same
   * commit again finds nothing to do in the kernel and sends nothing to mstpd, which has no settings.
   */
  lemma StaleHappens(d: Desired, s: State, m: DaemonState, a: Applied, mac: string)
    requires Sound(s) && Free(d, s) && ValidIds(d) && Fresh(s)
    requires d.stp == Some(a.stp) && a.commands == Commands(a.stp, mac)
    ensures var first := Reconcile(d, s);
            && first.result.Ok? && Reconcile(d, first.state) == Done(first.state, Ok([]))
            && var h := HearAll(m, first.result.value); Told(h, Some(a), a.stp, mac) == Some(h) && !Current(h, Some(a))
  {
    var s1 := CreatedOnce(d, s);
    FreshCreates(d, s);
    Unnoticed(m, a, RoundOps(d, s), mac);
  }

  /** A kernel that is found as `s`, takes every operation and is found as `s1` from then on. */
  function Changing(s: State, s1: State): Backend { Backend(i => Ok(if i == 0 then s else s1), (_) => (_) => None) }

  lemma RanOnce(d: Desired, b: Backend, s: State, s1: State, ops: seq<Op>)
    requires b.observe(0) == Ok(s) && b.observe(1) == Ok(s1) && Matches(d, s1) && ops == RoundOps(d, s) && ops != []
    ensures RanOn(d, b, true, [ops], [])
  {
    var rounds := [ops];
    forall i | 0 <= i < |rounds|
      ensures b.observe(i).Ok? && rounds[i] == RoundOps(d, b.observe(i).value) && rounds[i] != []
    {
      assert i == 0;
    }
  }

  lemma RanNotAtAll(d: Desired, b: Backend, s: State)
    requires b.observe(0) == Ok(s) && Matches(d, s)
    ensures RanOn(d, b, true, [], [])
  {
  }

  /** mstpd runs and has answered. */
  function Running(m: DaemonState, a: Applied): Held { Held(m, Some(a), true, true, true) }

  lemma FirstStep(c: Commit, l: Log, m: DaemonState, a: Applied, ops: seq<Op>)
    requires c.d.stp.Some? && l.how.Stateless? && l.Heard() == ops && !l.started
    ensures Committed(c, l, Running(m, a), Running(HearAll(m, ops), a))
  {
  }

  lemma SecondStep(c: Commit, l: Log, h: DaemonState, a: Applied, mac: string)
    requires a.commands == Commands(a.stp, mac) && c.d.stp == Some(a.stp) && c.states == Some(mac)
    requires l.how.Configured? && l.Heard() == [] && !l.started && Told(h, Some(a), a.stp, mac) == Some(h)
    ensures Committed(c, l, Running(h, a), Running(h, a))
  {
    NothingTold(h, a, mac);
  }

  lemma NothingTold(h: DaemonState, a: Applied, mac: string)
    requires a.commands == Commands(a.stp, mac) && Told(h, Some(a), a.stp, mac) == Some(h)
    ensures WasTold(a.stp, mac, true, [], h, Some(a), Running(h, a))
  {
    assert HearAll(h, []) == h && !Resend([]);
    assert a == Applied(a.stp, Commands(a.stp, mac));
    NotYetTold(h, Some(a), a.stp, mac);
  }

  lemma TwoSteps(e: Entry, w: Moment, e': Entry, v: Moment, h: Moment)
    requires Sane(w.mstpd) && Sane(v.mstpd) && Sane(h.mstpd) && Goes(e, w, v) && Goes(e', v, h)
    ensures Steps([e, e'], [w, v, h])
  {
    var ms := [w, v, h];
    forall i | 0 <= i < |ms| ensures SaneAt(ms, i) { }
    forall i | 0 <= i < 2 ensures Went([e, e'], ms, i) { }
  }

  /** The kernel's part of the two commits. */
  lemma KernelPart(d: Desired, s: State, mac: string) returns (c: Commit, l: Log, c': Commit, l': Log)
    requires Sound(s) && Free(d, s) && ValidIds(d) && Fresh(s) && d.stp.Some?
    ensures c.d == c'.d == d && c.b.observe(0) == Ok(s) && c'.states == Some(mac) && KernelRan(c, l)
            && KernelRan(c', l')
    ensures l == Log(Stateless, [RoundOps(d, s)], [], false) && l' == Log(Configured, [], [], false)
  {
    var s1 := FreshRound(d, s);
    var ops := RoundOps(d, s);
    FreshCreates(d, s);
    RanOnce(d, Changing(s, s1), s, s1, ops);
    RanNotAtAll(d, Changing(s1, s1), s1);
    c, l := Commit(d, Changing(s, s1), None), Log(Stateless, [ops], [], false);
    c', l' := Commit(d, Changing(s1, s1), Some(mac)), Log(Configured, [], [], false);
  }

  lemma HeardOnce(l: Log, ops: seq<Op>)
    requires l.rounds == [ops] && l.part == []
    ensures l.Heard() == ops
  {
    assert [ops][..0] == [];
    assert Joined([ops]) == ops;
  }

  lemma HeardNothing(l: Log)
    requires l.rounds == [] && l.part == []
    ensures l.Heard() == []
  {
  }

  /** mstpd's part of them. */
  lemma MstpdPart(c: Commit, l: Log, c': Commit, l': Log, m: DaemonState, a: Applied, ops: seq<Op>, mac: string)
    requires a.commands == Commands(a.stp, mac) && Uniform(a.stp) && Current(m, Some(a)) && CreateBridge(BR) in ops
    requires c.d.stp == c'.d.stp == Some(a.stp) && c'.states == Some(mac)
    requires l == Log(Stateless, [ops], [], false) && l' == Log(Configured, [], [], false)
    ensures var w, h := Running(m, a), Running(HearAll(m, ops), a);
            && Sane(w) && Sane(h) && Committed(c, l, w, h) && Committed(c', l', h, h) && Right(w) && !Right(h)
  {
    Unnoticed(m, a, ops, mac);
    HearFit(m, ops);
    HeardOnce(l, ops);
    HeardNothing(l');
    FirstStep(c, l, m, a, ops);
    SecondStep(c', l', HearAll(m, ops), a, mac);
  }

  /** The DHCP client's part: its link is created anew by the first, and the second does not know. */
  lemma ClientPart(c: Commit, l: Log, c': Commit, l': Log, client: Client, ops: seq<Op>)
    requires WantsDhcp(c.d) == WantsDhcp(c'.d) == Some(client.interface) && Unlinked(ops, client.interface)
    requires l == Log(Stateless, [ops], [], false) && l' == Log(Configured, [], [], false)
    ensures var w, h := Lease(Some(client), true), Lease(Some(client), false);
            Leased(c, l, Clients([], []), w, h) && Leased(c', l', Clients([], []), h, h)
  {
    HeardOnce(l, ops);
    HeardNothing(l');
  }

  /**
   * The two commits as a run. The record was right and the DHCP client bound to its link; both leave
   * the record wrong and the client bound to a link that is gone, and the second is answered Ok.
   */
  lemma StaleRun(d: Desired, s: State, m: DaemonState, a: Applied, mac: string, client: Client)
    returns (e: Entry, e': Entry, w: Moment, v: Moment, h: Moment)
    requires Sound(s) && Free(d, s) && ValidIds(d) && Fresh(s) && StpValid(d)
    requires d.stp == Some(a.stp) && a.commands == Commands(a.stp, mac) && Uniform(a.stp) && Current(m, Some(a))
    requires WantsDhcp(d) == Some(client.interface)
    ensures Steps([e, e'], [w, v, h]) && e.c.d == e'.c.d == d && e.c.b.observe(0) == Ok(s) && e.l.how.Stateless?
    ensures w.mstpd == Running(m, a) && w.dhcp == Lease(Some(client), true) && Right(w.mstpd)
    ensures e'.r.Ok? && h.applied == Some(d) && h.mstpd.alive && !Right(h.mstpd) && h.dhcp == Lease(Some(client), false)
  {
    var c, l, c', l' := KernelPart(d, s, mac);
    var ops := RoundOps(d, s);
    FreshCreates(d, s);
    MstpdPart(c, l, c', l', m, a, ops, mac);
    WantedIn(d);
    FreshUnlinks(d, s, client.interface);
    ClientPart(c, l, c', l', client, ops);
    e, e' := Entry(c, l, Clients([], []), Err(NoInterfaceStates)), Entry(c', l', Clients([], []), Ok(()));
    w := Moment(Running(m, a), Lease(Some(client), true), Some(d));
    v := Moment(Running(HearAll(m, ops), a), Lease(Some(client), false), Some(d));
    h := v;
    TwoSteps(e, w, e', v, h);
  }

  lemma FreshUnlinks(d: Desired, s: State, n: Name)
    requires Fresh(s) && n in d.svis
    ensures Unlinked(RoundOps(d, s), n)
  {
    CreatesSvi(d, s, n);
    assert Unlinks(CreateVlan(n, BR, d.svis[n].vlan), n);
  }
}
