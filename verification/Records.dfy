/** When the record of what mstpd was told is right, and that a wrong one does not right itself. */
module Records {
  import opened Basics
  import opened Model
  import opened Kernel
  import opened Mstpctl
  import opened Daemon
  import opened Updates
  import opened Delta
  import opened Trees
  import opened Hearing

  // ----- a command that is left out keeps the effect it has or lacks -----

  /** Executing `e` cannot bring about the effect of `c`. */
  ghost predicate Inert(c: Cmd, e: Cmd) {
    && c != e && (KeyOf(c).Some? ==> KeyOf(e) != KeyOf(c))
    && (c.SetVid2Fid? ==> !e.SetVid2Fid?) && (c.SetFid2Mstid? ==> !e.SetFid2Mstid?) && (c.SetMaxAge? ==> !e.SetMaxAge?)
  }

  lemma InertStep(m: DaemonState, c: Cmd, e: Cmd)
    requires !Holds(m, c) && Inert(c, e) && Exec(m, e).Some?
    ensures !Holds(Exec(m, e).value, c)
  {
  }

  lemma {:induction false} InertRun(m: DaemonState, c: Cmd, es: seq<Cmd>)
    requires !Holds(m, c) && (forall e :: e in es ==> Inert(c, e)) && ExecAll(m, es).Some?
    ensures !Holds(ExecAll(m, es).value, c)
    decreases es
  {
    if es != [] {
      assert es[0] in es;
      InertStep(m, c, es[0]);
      InertRun(Exec(m, es[0]).value, c, es[1..]);
    }
  }

  lemma ChangedIn(a: Applied, next: seq<Cmd>, t: SpanningTree, e: Cmd)
    requires e in Changed(Some(a), next, t)
    ensures e.DeleteTree? || (e in next && !LeftOut(a, next, e))
  {
    var ran, gone := Elems(a.commands), Numbers(Gone(Some(a), t));
    FlatIn(next, Emit(ran, TimersChanged(ran, next), gone), e);
    FlatIn(gone, Mstpctl.Delete(), e);
    if !e.DeleteTree? {
      var c :| c in next && e in Emit(ran, TimersChanged(ran, next), gone)(c);
      assert e == c;
    }
  }

  /** No two commands of a configuration set the same thing, but for the timers. */
  lemma SetsApart(t: SpanningTree, mac: string, c: Cmd, e: Cmd)
    requires c in Commands(t, mac) && e in Commands(t, mac) && c != e && !IsTimer(c)
    ensures Inert(c, e)
  {
    var kc := KindIn(t, mac, c);
    var ke := KindIn(t, mac, e);
    KindsApart(t, mac, c, kc, e, ke);
  }

  lemma KindIn(t: SpanningTree, mac: string, c: Cmd) returns (kind: nat)
    requires c in Commands(t, mac)
    ensures OfKind(t, mac, c, kind)
  {
    kind := KindOf(t, mac, c);
  }

  lemma KindsApart(t: SpanningTree, mac: string, c: Cmd, kc: nat, e: Cmd, ke: nat)
    requires c != e && !IsTimer(c) && OfKind(t, mac, c, kc) && OfKind(t, mac, e, ke)
    ensures Inert(c, e)
  {
  }

  /** A command that makes a setting, or one of the others of a configuration. */
  ghost predicate OfKind(t: SpanningTree, mac: string, c: Cmd, kind: nat) {
    if kind == 0 then Asks(t, mac, c)
    else IsTimer(c) || c.CreateTree? || c == SetVid2Fid(Maps(t)) || c == SetFid2Mstid(Ids(t))
  }

  lemma LeftOutInert(a: Applied, t: SpanningTree, mac: string, c: Cmd, e: Cmd)
    requires LeftOut(a, Commands(t, mac), c) && e in Changed(Some(a), Commands(t, mac), t) && !c.SetFdelay?
    ensures Inert(c, e)
  {
    var next := Commands(t, mac);
    ChangedIn(a, next, t, e);
    if e.DeleteTree? {
      NoDeletes(t, mac, c);
    } else if IsTimer(c) {
      assert !TimersChanged(Elems(a.commands), next);
      assert IsTimer(e) ==> e in a.commands;
    } else {
      SetsApart(t, mac, c, e);
    }
  }

  lemma NoDeletes(t: SpanningTree, mac: string, c: Cmd)
    requires c in Commands(t, mac)
    ensures !c.DeleteTree?
  {
    var k := KindOf(t, mac, c);
  }

  /** After an accepted change the record is right exactly if every command left out already had its effect. */
  lemma RecordRightIff(m: DaemonState, a: Applied, t: SpanningTree, mac: string)
    requires Fit(m) && Valid(t) && 0 !in a.stp.mstis && a.stp.mstis.Keys <= m.trees
    requires ExecAll(m, Changed(Some(a), Commands(t, mac), t)).Some?
    ensures Remembers(ExecAll(m, Changed(Some(a), Commands(t, mac), t)).value, Elems(Commands(t, mac))) <==>
            forall c :: LeftOut(a, Commands(t, mac), c) ==> Holds(m, c)
  {
    var next := Commands(t, mac);
    if forall c :: LeftOut(a, next, c) ==> Holds(m, c) {
      RunChangeFrom(m, a, t, mac);
    } else {
      var c :| LeftOut(a, next, c) && !Holds(m, c);
      StaysWrong(m, a, t, mac, c);
    }
  }

  lemma StaysWrong(m: DaemonState, a: Applied, t: SpanningTree, mac: string, c: Cmd)
    requires LeftOut(a, Commands(t, mac), c) && !Holds(m, c) && ExecAll(m, Changed(Some(a), Commands(t, mac), t)).Some?
    ensures !Remembers(ExecAll(m, Changed(Some(a), Commands(t, mac), t)).value, Elems(Commands(t, mac)))
  {
    var next := Commands(t, mac);
    var run := Changed(Some(a), next, t);
    forall e | e in run ensures Inert(c, e) { LeftOutInert(a, t, mac, c, e); }
    InertRun(m, c, run);
    assert c in Elems(next);
  }

  // ----- the next commit -----

  /** What mstpd holds after the commands of a change. */
  function Told(m: DaemonState, previous: Option<Applied>, t: SpanningTree, mac: string): Option<DaemonState> {
    ExecAll(m, Changed(previous, Commands(t, mac), t))
  }

  /** The commands of a change up to some point, as where one is refused. */
  ghost predicate Partly(m: DaemonState, run: seq<Cmd>, m': DaemonState) {
    exists k: nat :: k <= |run| && ExecAll(m, run[..k]) == Some(m')
  }

  ghost predicate PartlyTold(m: DaemonState, previous: Option<Applied>, t: SpanningTree, mac: string, m': DaemonState) {
    Partly(m, Changed(previous, Commands(t, mac), t), m')
  }

  lemma NotYetTold(m: DaemonState, previous: Option<Applied>, t: SpanningTree, mac: string)
    ensures PartlyTold(m, previous, t, mac, m)
  {
    TakeNone(Changed(previous, Commands(t, mac), t));
    assert ExecAll(m, []) == Some(m);
  }

  lemma OneMore(m: DaemonState, run: seq<Cmd>, i: nat, mi: DaemonState)
    requires i < |run| && ExecAll(m, run[..i]) == Some(mi)
    ensures ExecAll(m, run[..i + 1]) == Exec(mi, run[i])
  {
    TakeStep(run, i);
    ExecAppend(m, run[..i], [run[i]]);
    assert [run[i]][1..] == [];
  }

  /** Settings of `t` that do not depend on the bridge's MAC address are missing. */
  ghost predicate Lost(m: DaemonState, t: SpanningTree) { exists c :: Lacks(m, t, c) }

  ghost predicate Lacks(m: DaemonState, t: SpanningTree, c: Cmd) {
    KeyOf(c).Some? && !IsTimer(c) && KeyOf(c).value !in m.settings && forall mac :: c in Commands(t, mac)
  }

  lemma LostIsWrong(m: DaemonState, t: SpanningTree, mac: string)
    requires Lost(m, t)
    ensures !Current(m, Some(Applied(t, Commands(t, mac))))
  {
    var c :| Lacks(m, t, c);
    assert c in Elems(Commands(t, mac)) && !Holds(m, c);
  }

  lemma DisturbedLoses(m: DaemonState, t: SpanningTree, ops: seq<Op>)
    requires Disturbed(ops, t.ports.Keys)
    ensures Lost(HearAll(m, ops), t)
  {
    var c := LostCommand(m, t, ops);
    assert Lacks(HearAll(m, ops), t, c);
  }

  lemma LostStays(m: DaemonState, t: SpanningTree, ops: seq<Op>)
    requires Lost(m, t)
    ensures Lost(HearAll(m, ops), t)
  {
    var c :| Lacks(m, t, c);
    HearShrinks(m, ops, KeyOf(c).value);
    assert Lacks(HearAll(m, ops), t, c);
  }

  lemma {:induction false} AbsentRun(m: DaemonState, k: Key, es: seq<Cmd>)
    requires k !in m.settings && (forall e :: e in es ==> KeyOf(e) != Some(k)) && ExecAll(m, es).Some?
    ensures k !in ExecAll(m, es).value.settings
    decreases es
  {
    if es != [] {
      assert es[0] in es;
      AbsentRun(Exec(m, es[0]).value, k, es[1..]);
    }
  }

  /** A change to the configuration on record, with whatever MAC address, brings nothing back. */
  lemma SameCommit(m: DaemonState, a: Applied, mac: string)
    requires Lost(m, a.stp) && Recorded(a) && Told(m, Some(a), a.stp, mac).Some?
    ensures Lost(Told(m, Some(a), a.stp, mac).value, a.stp)
  {
    var c :| Lacks(m, a.stp, c);
    var was :| a.commands == Commands(a.stp, was);
    var run := Changed(Some(a), Commands(a.stp, mac), a.stp);
    assert LeftOut(a, Commands(a.stp, mac), c);
    forall e | e in run ensures KeyOf(e) != KeyOf(c) { LeftOutInert(a, a.stp, mac, c, e); }
    AbsentRun(m, KeyOf(c).value, run);
    assert Lacks(ExecAll(m, run).value, a.stp, c);
  }

  /**
   * The record went wrong unnoticed, and the same configuration is committed again. The record is
   * right afterwards exactly if this commit's operations make it send all commands.
   */
  lemma NextCommitIff(m: DaemonState, a: Applied, ops: seq<Op>, mac: string)
    requires Fit(m) && Recorded(a) && Lost(m, a.stp)
    requires Told(HearAll(m, ops), if Resend(ops) then None else Some(a), a.stp, mac).Some?
    ensures Current(Told(HearAll(m, ops), if Resend(ops) then None else Some(a), a.stp, mac).value,
            Some(Applied(a.stp, Commands(a.stp, mac))))
            <==> Resend(ops)
  {
    HearFit(m, ops);
    if Resend(ops) {
      AllBring(HearAll(m, ops), a.stp, mac);
    } else {
      LostStays(m, a.stp, ops);
      SameCommit(HearAll(m, ops), a, mac);
      LostIsWrong(Told(HearAll(m, ops), Some(a), a.stp, mac).value, a.stp, mac);
    }
  }

  /** Where the MAC address is the one on record, nothing at all is sent. */
  lemma SameSendsNothing(t: SpanningTree, next: seq<Cmd>)
    ensures Changed(Some(Applied(t, next)), next, t) == []
  {
    assert t.mstis.Keys - t.mstis.Keys == {};
    assert Numbers({}) == [];
    NothingNew(next, Elems(next));
  }

  lemma {:induction false} NothingNew(cs: seq<Cmd>, ran: set<Cmd>)
    requires forall c :: c in cs ==> c in ran
    ensures Flat(cs, Emit(ran, false, [])) == []
    decreases cs
  {
    if cs != [] {
      assert cs[0] in cs;
      NothingNew(cs[1..], ran);
    }
  }
}
