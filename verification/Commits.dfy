/** Any number of commits one after the other (crates/clixon-switch-plugin/src/lib.rs). */
module Commits {
  import opened Basics
  import opened Model
  import opened Kernel
  import opened Mstpctl
  import opened Updates
  import opened Daemon
  import opened Trees
  import opened Hearing
  import opened Records
  import opened Reconciler
  import opened RoundEffects
  import opened DhcpManager
  import opened Outcomes
  import opened Plugin

  /** A commit, how it went with mstpd and the kernel, the DHCP client's events, and what was answered. */
  datatype Entry = Entry(c: Commit, l: Log, x: Clients, r: Result<(), Failing>)

  /** Between commits: mstpd, the DHCP client, and the configuration that is applied. */
  datatype Moment = Moment(mstpd: Held, dhcp: Lease, applied: Option<Desired>)

  /** One commit takes `w` to `h`. */
  ghost predicate Goes(e: Entry, w: Moment, h: Moment) {
    && Proper(e.c, e.l) && Answers(e.l.how, e.r)
    && Committed(e.c, e.l, w.mstpd, h.mstpd) && Leased(e.c, e.l, e.x, w.dhcp, h.dhcp)
    && h.applied == (if e.r.Ok? then Some(e.c.d) else w.applied)
    && (e.r.Ok? ==> h.dhcp.client.Some? == WantsDhcp(e.c.d).Some?)
  }

  /** The commits `es` went through the moments `ms`. */
  ghost predicate Steps(es: seq<Entry>, ms: seq<Moment>) {
    && |ms| == |es| + 1 && (forall i :: 0 <= i < |ms| ==> SaneAt(ms, i))
    && forall i :: 0 <= i < |es| ==> Went(es, ms, i)
  }

  ghost predicate SaneAt(ms: seq<Moment>, i: nat)
    requires i < |ms|
  {
    Sane(ms[i].mstpd)
  }

  ghost predicate Went(es: seq<Entry>, ms: seq<Moment>, i: nat)
    requires i < |es| && |ms| == |es| + 1
  {
    Goes(es[i], ms[i], ms[i + 1])
  }

  // ----- a record that has gone wrong -----

  /** With settings of the configuration missing, the same configuration again rights the record exactly so. */
  lemma RecoversIff(c: Commit, l: Log, w: Held, h: Held)
    requires Proper(c, l) && Sane(w) && Sane(h) && Committed(c, l, w, h) && h.alive
    requires c.d.stp.Some? && StillLost(c.d.stp.value, w)
    ensures Right(h) <==> Recovers(c, l)
    ensures !Recovers(c, l) ==> StillLost(c.d.stp.value, h)
  {
    if Recovers(c, l) {
      StepRecovers(c, l, w, h);
    } else {
      if Untold(l.how) { UntoldLost(c, l, w, h); } else { ToldLost(c, l, w, h); }
      LostWrong(c.d.stp.value, h);
    }
  }

  /** `t` is on record and settings of it are missing. */
  ghost predicate StillLost(t: SpanningTree, h: Held) {
    h.applied.Some? && h.applied.value.stp == t && Recorded(h.applied.value) && Lost(h.daemon, t)
  }

  lemma LostWrong(t: SpanningTree, h: Held)
    requires StillLost(t, h) && h.alive
    ensures !Right(h)
  {
    var mac :| h.applied.value.commands == Commands(t, mac);
    LostIsWrong(h.daemon, t, mac);
  }

  lemma UntoldLost(c: Commit, l: Log, w: Held, h: Held)
    requires Committed(c, l, w, h) && c.d.stp.Some? && StillLost(c.d.stp.value, w) && Untold(l.how) && !l.started
    ensures StillLost(c.d.stp.value, h)
  {
    LostStays(w.daemon, c.d.stp.value, l.Heard());
  }

  lemma ToldLost(c: Commit, l: Log, w: Held, h: Held)
    requires Committed(c, l, w, h) && c.d.stp.Some? && StillLost(c.d.stp.value, w) && !Recovers(c, l) && h.alive
             && !Untold(l.how)
    ensures StillLost(c.d.stp.value, h)
  {
    LostStays(w.daemon, c.d.stp.value, l.Heard());
    SameCommit(HearAll(w.daemon, l.Heard()), w.applied.value, c.states.value);
  }

  // ----- runs of commits -----

  /** Commit `i` shakes mstpd. */
  ghost predicate ShakenAt(es: seq<Entry>, ms: seq<Moment>, i: nat)
    requires i < |es| && |ms| == |es| + 1
  {
    Shaken(es[i].c, es[i].l, ms[i].mstpd, ms[i + 1].mstpd)
  }

  /** Over any run that starts with a right record, all records are right exactly if no commit shakes mstpd. */
  lemma RunIff(es: seq<Entry>, ms: seq<Moment>)
    requires Steps(es, ms) && Right(ms[0].mstpd)
    ensures (forall i :: 0 <= i < |ms| ==> Right(ms[i].mstpd)) <==> (forall i :: 0 <= i < |es| ==> !ShakenAt(es, ms, i))
  {
    if forall i :: 0 <= i < |es| ==> !ShakenAt(es, ms, i) {
      forall j | 0 <= j < |ms| ensures Right(ms[j].mstpd) { UnshakenRun(es, ms, 0, j); }
    } else {
      var i :| 0 <= i < |es| && ShakenAt(es, ms, i);
      if Right(ms[i].mstpd) { RightStep(es, ms, i); }
    }
  }

  lemma RightStep(es: seq<Entry>, ms: seq<Moment>, i: nat)
    requires Steps(es, ms) && i < |es| && Right(ms[i].mstpd)
    ensures Right(ms[i + 1].mstpd) <==> !ShakenAt(es, ms, i)
  {
    assert Went(es, ms, i) && SaneAt(ms, i) && SaneAt(ms, i + 1);
    StepIff(es[i].c, es[i].l, ms[i].mstpd, ms[i + 1].mstpd);
  }

  /** From a right record on, the records stay right until one is shaken. */
  lemma {:induction false} UnshakenRun(es: seq<Entry>, ms: seq<Moment>, k: nat, j: nat)
    requires Steps(es, ms) && k <= j < |ms| && Right(ms[k].mstpd)
    requires forall i :: k <= i < j ==> !ShakenAt(es, ms, i)
    ensures Right(ms[j].mstpd)
    decreases j
  {
    if k < j {
      UnshakenRun(es, ms, k, j - 1);
      RightStep(es, ms, j - 1);
    }
  }

  /** A record that is shaken lacks settings of its configuration. */
  lemma ShakenLoses(c: Commit, l: Log, w: Held, h: Held)
    requires Committed(c, l, w, h) && Sane(h) && Shaken(c, l, w, h)
    ensures StillLost(w.applied.value.stp, h)
  {
    DisturbedLoses(w.daemon, w.applied.value.stp, l.Heard());
  }

  /** Commit `i` is of `t`, to a running mstpd, and does not recover the record. */
  predicate RepeatsAt(es: seq<Entry>, ms: seq<Moment>, t: SpanningTree, i: nat)
    requires i < |es| && |ms| == |es| + 1
  {
    es[i].c.d.stp == Some(t) && !Recovers(es[i].c, es[i].l) && ms[i].mstpd.alive
  }

  ghost predicate LostAt(ms: seq<Moment>, t: SpanningTree, i: nat)
    requires i < |ms|
  {
    ms[i].mstpd.alive ==> StillLost(t, ms[i].mstpd)
  }

  lemma RepeatStep(es: seq<Entry>, ms: seq<Moment>, t: SpanningTree, i: nat)
    requires Steps(es, ms) && i < |es| && LostAt(ms, t, i) && RepeatsAt(es, ms, t, i)
    ensures LostAt(ms, t, i + 1)
  {
    assert Went(es, ms, i) && SaneAt(ms, i) && SaneAt(ms, i + 1);
    if ms[i + 1].mstpd.alive { RecoversIff(es[i].c, es[i].l, ms[i].mstpd, ms[i + 1].mstpd); }
  }

  lemma {:induction false} LostRun(es: seq<Entry>, ms: seq<Moment>, t: SpanningTree, k: nat, j: nat)
    requires Steps(es, ms) && k <= j < |ms| && LostAt(ms, t, k)
    requires forall i :: k <= i < j ==> RepeatsAt(es, ms, t, i)
    ensures LostAt(ms, t, j)
    decreases j
  {
    if k < j {
      LostRun(es, ms, t, k, j - 1);
      RepeatStep(es, ms, t, j - 1);
    }
  }

  /**
   * The same configuration again and again leaves the record wrong until a commit recovers it,
   * however many there are.
   */
  lemma WrongUntil(es: seq<Entry>, ms: seq<Moment>, t: SpanningTree, k: nat, j: nat)
    requires Steps(es, ms) && k <= j < |ms| && StillLost(t, ms[k].mstpd)
    requires ms[j].mstpd.alive && forall i :: k <= i < j ==> RepeatsAt(es, ms, t, i)
    ensures !Right(ms[j].mstpd)
  {
    LostRun(es, ms, t, k, j);
    LostWrong(t, ms[j].mstpd);
  }

  // ----- the link of the DHCP client -----

  /** Commit `i` takes the client's link away and fails before the client is seen to. */
  ghost predicate LosesLink(es: seq<Entry>, n: Name, i: nat)
    requires i < |es|
  {
    !es[i].l.how.Configured? && Unlinked(es[i].l.Heard(), n)
  }

  /** Commit `i` leaves the client on `n` running as it is. */
  ghost predicate Stays(es: seq<Entry>, ms: seq<Moment>, n: Name, i: nat)
    requires i < |es| && |ms| == |es| + 1
  {
    && !Restarted(es[i].x.after)
    && ms[i + 1].dhcp.client.Some? && ms[i + 1].dhcp.client.value.interface == n
  }

  lemma StaysStep(es: seq<Entry>, ms: seq<Moment>, n: Name, i: nat)
    requires Steps(es, ms) && i < |es| && Stays(es, ms, n, i)
    ensures ms[i].dhcp.client == ms[i + 1].dhcp.client
    ensures ms[i + 1].dhcp.bound <==> ms[i].dhcp.bound && !LosesLink(es, n, i)
  {
    assert Went(es, ms, i);
    if es[i].l.how.Configured? { BoundIff(es[i].c, es[i].l, es[i].x, ms[i].dhcp, ms[i + 1].dhcp); }
  }

  lemma {:induction false} StaysRun(es: seq<Entry>, ms: seq<Moment>, n: Name, k: nat, j: nat)
    requires Steps(es, ms) && k <= j < |ms| && ms[k].dhcp.bound
    requires forall i :: k <= i < j ==> Stays(es, ms, n, i)
    ensures ms[j].dhcp.bound <==> forall i :: k <= i < j ==> !LosesLink(es, n, i)
    decreases j
  {
    if k < j {
      StaysRun(es, ms, n, k, j - 1);
      StaysStep(es, ms, n, j - 1);
    }
  }

  /**
   * A client that was bound to its link, as one is when it is started, and has run since: after a
   * commit that gets as far as the client, it is bound to the link there is exactly if this commit
   * starts it anew, or no commit before took its link away and failed before it was seen to.
   */
  lemma BoundRunIff(es: seq<Entry>, ms: seq<Moment>, n: Name, k: nat, j: nat)
    requires Steps(es, ms) && k <= j < |es| && ms[k].dhcp.bound && (forall i :: k <= i < j ==> Stays(es, ms, n, i))
    requires es[j].l.how.Configured? && ms[j + 1].dhcp.client.Some?
    ensures ms[j + 1].dhcp.bound <==> Restarted(es[j].x.after) || forall i :: k <= i < j ==> !LosesLink(es, n, i)
    ensures Unlinked(es[j].l.Heard(), ms[j + 1].dhcp.client.value.interface) ==> Restarted(es[j].x.after)
  {
    assert Went(es, ms, j);
    StaysRun(es, ms, n, k, j);
    BoundIff(es[j].c, es[j].l, es[j].x, ms[j].dhcp, ms[j + 1].dhcp);
  }

  // ----- trees and forward delay -----

  /**
   * After a commit that mstpd was told of, its trees are those configured exactly if the others are
   * known to be gone.
   */
  lemma TreesAndDelayIff(c: Commit, l: Log, w: Held, h: Held)
    requires Sane(w) && Right(w) && Proper(c, l) && Committed(c, l, w, h)
    requires l.how.Configured? && c.d.stp.Some? && h.alive
    ensures var g, t := HearAll(DaemonAt(l.started, w.daemon), l.Heard()), c.d.stp.value;
            var previous := Previous(l.Heard(), RecordAt(l.started, w.applied));
            && (h.daemon.trees == t.mstis.Keys <==> g.trees - t.mstis.Keys <= Gone(previous, t))
            && (h.daemon.forwardDelay == t.forwardDelay <==> !DelayMissed(g, previous, t))
  {
    var m, a, t := DaemonAt(l.started, w.daemon), RecordAt(l.started, w.applied), c.d.stp.value;
    RanLeaves(c.d, c.b, l.rounds, l.part);
    ReadyAfter(m, a, l.Heard(), t, c.states.value);
    TreesRight(HearAll(m, l.Heard()), Previous(l.Heard(), a), t, c.states.value);
    DelayRight(HearAll(m, l.Heard()), Previous(l.Heard(), a), t, c.states.value);
  }

  /** A tree mstpd has that no configuration on record has. */
  predicate Stray(h: Held, id: nat) { id in h.daemon.trees && (h.applied.Some? ==> id !in h.applied.value.stp.mstis) }

  /** Neither a new mstpd nor a new bridge, and `id` is not configured. */
  ghost predicate Ignores(c: Commit, l: Log, id: nat) {
    && !l.started && !l.how.Unprepared? && c.d.stp.Some? && id !in c.d.stp.value.mstis
    && forall op :: op in l.Heard() ==> !op.CreateBridge? && op != DeleteLink(BR)
  }

  ghost predicate IgnoresAt(es: seq<Entry>, id: nat, i: nat)
    requires i < |es|
  {
    Ignores(es[i].c, es[i].l, id)
  }

  /** Such commits never delete it, whether they succeed or not, however many there are. */
  lemma {:induction false} StrayStays(es: seq<Entry>, ms: seq<Moment>, id: nat, k: nat, j: nat)
    requires Steps(es, ms) && k <= j < |ms| && Stray(ms[k].mstpd, id)
    requires forall i :: k <= i < j ==> IgnoresAt(es, id, i)
    ensures Stray(ms[j].mstpd, id)
    decreases j
  {
    if k < j {
      StrayStays(es, ms, id, k, j - 1);
      StrayAt(es, ms, id, j - 1);
    }
  }

  lemma StrayAt(es: seq<Entry>, ms: seq<Moment>, id: nat, i: nat)
    requires Steps(es, ms) && i < |es| && Stray(ms[i].mstpd, id) && IgnoresAt(es, id, i)
    ensures Stray(ms[i + 1].mstpd, id)
  {
    assert Went(es, ms, i);
    StrayStep(es[i].c, es[i].l, ms[i].mstpd, ms[i + 1].mstpd, id);
  }

  lemma StrayStep(c: Commit, l: Log, w: Held, h: Held, id: nat)
    requires Committed(c, l, w, h) && Stray(w, id) && Ignores(c, l, id)
    ensures Stray(h, id)
  {
    HearTrees(w.daemon, l.Heard());
    if !Untold(l.how) {
      var previous := Previous(l.Heard(), w.applied);
      StrayTold(HearAll(w.daemon, l.Heard()), previous, c.d.stp.value, c.states.value, h.daemon, id);
    }
  }

  lemma {:induction false} HearTrees(m: DaemonState, ops: seq<Op>)
    requires forall op :: op in ops ==> !op.CreateBridge? && op != DeleteLink(BR)
    ensures HearAll(m, ops).trees == m.trees
    decreases ops
  {
    if ops != [] {
      assert ops[0] in ops;
      HearTrees(Hear(m, ops[0]), ops[1..]);
    }
  }

  lemma StrayTold(m: DaemonState, previous: Option<Applied>, t: SpanningTree, mac: string, m': DaemonState, id: nat)
    requires id in m.trees && (previous.Some? ==> id !in previous.value.stp.mstis)
    requires PartlyTold(m, previous, t, mac, m')
    ensures id in m'.trees
  {
    var run := Changed(previous, Commands(t, mac), t);
    var k: nat :| k <= |run| && ExecAll(m, run[..k]) == Some(m');
    forall e | e in run[..k] ensures e != DeleteTree(id) {
      assert e in run;
      NotDeleted(previous, t, mac, id, e);
    }
    TreeKept(m, run[..k], id);
  }

  lemma NotDeleted(previous: Option<Applied>, t: SpanningTree, mac: string, id: nat, e: Cmd)
    requires e in Changed(previous, Commands(t, mac), t) && (previous.Some? ==> id !in previous.value.stp.mstis)
    ensures e != DeleteTree(id)
  {
    var next, gone := Commands(t, mac), Numbers(Gone(previous, t));
    FlatIn(next, Emit(Ran(previous), TimersChanged(Ran(previous), next), gone), e);
    FlatIn(gone, Mstpctl.Delete(), e);
    if e == DeleteTree(id) && e in next { NoDeletes(t, mac, e); }
  }

  lemma {:induction false} TreeKept(m: DaemonState, run: seq<Cmd>, id: nat)
    requires id in m.trees && DeleteTree(id) !in run && ExecAll(m, run).Some?
    ensures id in ExecAll(m, run).value.trees
    decreases run
  {
    if run != [] {
      assert run[0] in run;
      TreeKept(Exec(m, run[0]).value, run[1..], id);
    }
  }

  // ----- the commits themselves -----

  /** The applied configuration is that of the last commit that succeeded. */
  lemma {:induction false} LastApplied(es: seq<Entry>, ms: seq<Moment>, k: nat, j: nat)
    requires Steps(es, ms) && k <= j < |ms| && forall i :: k <= i < j ==> es[i].r.Err?
    ensures ms[j].applied == ms[k].applied
    ensures k > 0 && es[k - 1].r.Ok? ==> ms[j].applied == Some(es[k - 1].c.d)
    decreases j
  {
    if k < j {
      LastApplied(es, ms, k, j - 1);
      AppliedStep(es, ms, j - 1);
    } else if k > 0 {
      AppliedStep(es, ms, k - 1);
    }
  }

  lemma AppliedStep(es: seq<Entry>, ms: seq<Moment>, i: nat)
    requires Steps(es, ms) && i < |es|
    ensures ms[i + 1].applied == if es[i].r.Ok? then Some(es[i].c.d) else ms[i].applied
  {
    assert Went(es, ms, i);
  }

  lemma StepsGrow(es: seq<Entry>, ms: seq<Moment>, e: Entry, m: Moment)
    requires Steps(es, ms) && Sane(m.mstpd) && Goes(e, ms[|es|], m)
    ensures Steps(es + [e], ms + [m])
  {
    forall i | 0 <= i < |ms + [m]| ensures SaneAt(ms + [m], i) { assert i < |ms| ==> SaneAt(ms, i); }
    forall i | 0 <= i < |es + [e]| ensures Went(es + [e], ms + [m], i) { assert i < |es| ==> Went(es, ms, i); }
  }

  ghost function Present(sw: Switch): Moment
    reads sw, sw.dhcp, sw.mstpd, sw.mstpd.processes, sw.mstpd.control
  {
    Moment(sw.Now(), sw.Leasing(), sw.applied)
  }

  method OneCommit(sw: Switch, c: Commit, conf: Option<Option<string>>) returns (r: Result<(), Failing>, ghost e: Entry)
    requires sw.StpOwned() && sw.ProcessesInv() && StpValid(c.d) && BR !in c.d.svis
    modifies sw, sw.mstpd, sw.mstpd.processes, sw.mstpd.control, sw.dhcp, sw.dhcp.processes, sw.snmp, sw.snmp.processes
    ensures sw.StpOwned() && sw.ProcessesInv() && e.c == c && e.r == r && Goes(e, old(Present(sw)), Present(sw))
    ensures r.Ok? ==> conf.Some? && sw.ProcessesAs(c.d, conf.value)
  {
    var l;
    ghost var x;
    r, l, x := sw.Apply(c, conf);
    e := Entry(c, l, x, r);
    WantedIn(c.d);
  }

  /** The entries are of the commits asked for and their answers. */
  ghost predicate Of(es: seq<Entry>, cs: seq<Commit>, rs: seq<Result<(), Failing>>) {
    |es| == |cs| == |rs| && forall i :: 0 <= i < |es| ==> es[i].c == cs[i] && es[i].r == rs[i]
  }

  lemma OfGrows(es: seq<Entry>, cs: seq<Commit>, rs: seq<Result<(), Failing>>, e: Entry)
    requires Of(es, cs, rs)
    ensures Of(es + [e], cs + [e.c], rs + [e.r])
  {
  }

  /** Any commits, whether or not those before them failed. */
  method AnyCommits(sw: Switch, cs: seq<Commit>, confs: seq<Option<Option<string>>>)
    returns (rs: seq<Result<(), Failing>>, ghost es: seq<Entry>, ghost ms: seq<Moment>)
    requires sw.StpOwned() && sw.ProcessesInv() && |confs| == |cs|
    requires forall i :: 0 <= i < |cs| ==> StpValid(cs[i].d) && BR !in cs[i].d.svis
    modifies sw, sw.mstpd, sw.mstpd.processes, sw.mstpd.control, sw.dhcp, sw.dhcp.processes, sw.snmp, sw.snmp.processes
    ensures sw.StpOwned() && sw.ProcessesInv() && Of(es, cs, rs)
    ensures Steps(es, ms) && ms[0] == old(Present(sw)) && ms[|cs|] == Present(sw)
    ensures cs != [] && rs[|cs| - 1].Ok? ==>
              confs[|cs| - 1].Some? && sw.ProcessesAs(cs[|cs| - 1].d, confs[|cs| - 1].value)
  {
    rs, es, ms := [], [], [Present(sw)];
    for i := 0 to |cs|
      invariant sw.StpOwned() && sw.ProcessesInv() && Of(es, cs[..i], rs)
      invariant Steps(es, ms) && ms[0] == old(Present(sw)) && ms[i] == Present(sw)
      invariant i > 0 && rs[i - 1].Ok? ==> confs[i - 1].Some? && sw.ProcessesAs(cs[i - 1].d, confs[i - 1].value)
    {
      var r;
      ghost var e;
      r, e := OneCommit(sw, cs[i], confs[i]);
      StepsGrow(es, ms, e, Present(sw));
      OfGrows(es, cs[..i], rs, e);
      TakeStep(cs, i);
      rs, es, ms := rs + [r], es + [e], ms + [Present(sw)];
    }
    TakeAll(cs);
  }
}
