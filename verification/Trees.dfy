/** VLANs and trees while mstpd is being configured. */
module Trees {
  import opened Basics
  import opened Model
  import opened VlanRanges
  import opened Mstpctl
  import opened Daemon
  import opened Updates
  import opened Delta

  /**
   * Before and after every command each filtering database has an existing tree, and a tree is
   * deleted only where none is mapped to it.
   */
  ghost predicate SafeThroughout(m: DaemonState, cs: seq<Cmd>) {
    forall k :: 0 <= k <= |cs| ==>
      var r := ExecAll(m, cs[..k]);
      && r.Some? && Coherent(r.value)
      && (k < |cs| && cs[k].DeleteTree? ==> Unused(r.value, cs[k].id) && cs[k].id in r.value.trees)
  }

  lemma {:induction false} Throughout(m: DaemonState, cs: seq<Cmd>)
    requires Coherent(m) && ExecAll(m, cs).Some?
    ensures SafeThroughout(m, cs)
    decreases cs
  {
    if cs != [] {
      var m1 := Exec(m, cs[0]).value;
      ExecKeepsCoherent(m, cs[0]);
      Throughout(m1, cs[1..]);
      forall k | 0 <= k <= |cs|
        ensures var r := ExecAll(m, cs[..k]);
                && r.Some? && Coherent(r.value)
                && (k < |cs| && cs[k].DeleteTree? ==> Unused(r.value, cs[k].id) && cs[k].id in r.value.trees)
      {
        if k > 0 {
          assert cs[..k][0] == cs[0] && cs[..k][1..] == cs[1..][..k - 1];
          assert ExecAll(m, cs[..k]) == ExecAll(m1, cs[1..][..k - 1]);
          assert k < |cs| ==> cs[k] == cs[1..][k - 1];
        }
      }
    }
  }

  // ----- the VLAN tables -----

  ghost predicate MapsTo(maps: seq<Mapping>, v: Vid, fid: nat) {
    exists x :: x in maps && Denotes(x.ranges, v) && x.fid == fid
  }

  lemma {:induction false} FidTableAt(maps: seq<Mapping>, v: Vid)
    requires ValidVid(v)
    ensures v in FidTable(maps) <==> exists fid :: MapsTo(maps, v, fid)
    ensures v in FidTable(maps) ==> MapsTo(maps, v, FidTable(maps)[v])
    decreases maps
  {
    if maps != [] {
      var rest, x := maps[..|maps| - 1], maps[|maps| - 1];
      assert maps == rest + [x];
      FidTableAt(rest, v);
      assert forall fid :: MapsTo(maps, v, fid) <==> MapsTo(rest, v, fid) || (Denotes(x.ranges, v) && x.fid == fid);
      assert v in Assigned(x) <==> Denotes(x.ranges, v);
      if Denotes(x.ranges, v) { assert MapsTo(maps, v, x.fid); }
    }
  }

  lemma MapsAt(t: SpanningTree, ids: seq<nat>, v: Vid, fid: nat)
    requires Lists(ids, t.mstis.Keys)
    ensures MapsTo(Flat(ids, MapMsti(t)), v, fid) <==> fid in t.mstis && v in t.mstis[fid].vlans
  {
    var maps := Flat(ids, MapMsti(t));
    if MapsTo(maps, v, fid) {
      var x :| x in maps && Denotes(x.ranges, v) && x.fid == fid;
      FlatIn(ids, MapMsti(t), x);
      RangesDenote(t.mstis[fid].vlans);
    }
    if fid in t.mstis && v in t.mstis[fid].vlans {
      var x := Mapping(fid, Ranges(t.mstis[fid].vlans));
      RangesDenote(t.mstis[fid].vlans);
      FlatIn(ids, MapMsti(t), x);
      assert fid in ids && x in MapMsti(t)(fid);
      assert x in maps;
    }
  }

  /** The tree the configuration puts a VLAN in: an MSTI that lists it, or the CIST. */
  ghost predicate InTree(t: SpanningTree, v: Vid, id: nat) {
    if id in t.mstis then v in t.mstis[id].vlans else id == 0 && forall j :: j in t.mstis ==> v !in t.mstis[j].vlans
  }

  lemma TreeOfVlan(m: DaemonState, t: SpanningTree, v: Vid, id: nat)
    requires Valid(t) && ValidVid(v) && m.fids == FidTable(Maps(t)) && m.msts == MstTable(Ids(t))
    ensures MstOf(m, v) == id <==> InTree(t, v, id)
  {
    var maps := Maps(t);
    FidTableAt(maps, v);
    forall fid ensures MapsTo(maps, v, fid) <==> fid in t.mstis && v in t.mstis[fid].vlans
    {
      MapsAt(t, Ids(t), v, fid);
    }
  }

  /** A record of the commands that were run for a configuration. */
  ghost predicate Recorded(a: Applied) { Valid(a.stp) && exists mac :: a.commands == Commands(a.stp, mac) }

  /** The forward delay is as configured; a change to the longest one can have been overlooked. */
  ghost predicate DelayHeld(m: DaemonState, t: SpanningTree) {
    t.forwardDelay != MAX_FORWARD_DELAY ==> m.forwardDelay == t.forwardDelay
  }

  ghost predicate HasTrees(m: DaemonState, previous: Option<Applied>) {
    && Fit(m)
    && (previous.Some? ==>
       Recorded(previous.value) && previous.value.stp.mstis.Keys <= m.trees && DelayHeld(m, previous.value.stp))
  }

  /** The daemon holds what it was configured with: its trees, its forward delay and the effect of every command. */
  ghost predicate Current(m: DaemonState, previous: Option<Applied>) {
    HasTrees(m, previous) && (previous.Some? ==> Remembers(m, Elems(previous.value.commands)))
  }

  /** What a daemon has to hold for the changed commands to be enough: the effect of the commands left out. */
  ghost predicate Prepared(m: DaemonState, previous: Option<Applied>, next: seq<Cmd>) {
    HasTrees(m, previous) && (previous.Some? ==> forall c :: LeftOut(previous.value, next, c) ==> Holds(m, c))
  }

  /** The tables and memory of a daemon brought to `t`. */
  ghost predicate BroughtTo(m: DaemonState, t: SpanningTree, next: seq<Cmd>) {
    m.fids == FidTable(Maps(t)) && m.msts == MstTable(Ids(t)) && Current(m, Some(Applied(t, next)))
  }

  lemma AllBring(m: DaemonState, t: SpanningTree, mac: string)
    requires Fit(m) && Valid(t)
    ensures var r := ExecAll(m, Changed(None, Commands(t, mac), t));
            && r == Some(After(m, t, mac, true, {})) && BroughtTo(r.value, t, Commands(t, mac))
  {
    var next := Commands(t, mac);
    RunAll(m, t, mac);
    EmitAll(next, TimersChanged({}, next));
    assert Numbers({}) == [];
    assert Changed(None, next, t) == next;
    IsBrought(After(m, t, mac, true, {}), t, mac, next);
  }

  lemma ChangesBring(m: DaemonState, a: Applied, t: SpanningTree, mac: string)
    requires Prepared(m, Some(a), Commands(t, mac)) && Valid(t)
    ensures var r := ExecAll(m, Changed(Some(a), Commands(t, mac), t));
            && r == Some(After(m, t, mac, TimersDiffer(a.stp, t), a.stp.mstis.Keys - t.mstis.Keys))
            && BroughtTo(r.value, t, Commands(t, mac))
  {
    RunChangeFrom(m, a, t, mac);
    RecordedTimers(a, t, mac);
    IsBrought(After(m, t, mac, TimersDiffer(a.stp, t), a.stp.mstis.Keys - t.mstis.Keys), t, mac, Commands(t, mac));
  }

  lemma RecordedTimers(a: Applied, t: SpanningTree, mac: string)
    requires Recorded(a)
    ensures TimersChanged(Elems(a.commands), Commands(t, mac)) <==> TimersDiffer(a.stp, t)
  {
    var was :| a.commands == Commands(a.stp, was);
    TimersOf(a.stp, was, t, mac);
  }

  lemma IsBrought(x: DaemonState, t: SpanningTree, mac: string, next: seq<Cmd>)
    requires Fit(x) && Remembers(x, Elems(next)) && Valid(t) && next == Commands(t, mac) && t.mstis.Keys <= x.trees
             && DelayHeld(x, t)
    requires x.fids == FidTable(Maps(t)) && x.msts == MstTable(Ids(t))
    ensures BroughtTo(x, t, next)
  {
  }

  lemma Bring(m: DaemonState, previous: Option<Applied>, t: SpanningTree, mac: string)
    requires Prepared(m, previous, Commands(t, mac)) && Valid(t)
    ensures var r := ExecAll(m, Changed(previous, Commands(t, mac), t));
            r.Some? && BroughtTo(r.value, t, Commands(t, mac))
  {
    if previous.Some? { ChangesBring(m, previous.value, t, mac); } else { AllBring(m, t, mac); }
  }

  /**
   * Whatever mstpd was configured with, and also where all commands are sent again with no tree
   * deleted: each command is accepted, no filtering database is ever without its tree, and in
   * the end every VLAN is in the tree it is configured for.
   */
  lemma MappedThroughout(m: DaemonState, previous: Option<Applied>, t: SpanningTree, mac: string)
    requires Prepared(m, previous, Commands(t, mac)) && Valid(t)
    ensures var cs := Changed(previous, Commands(t, mac), t);
            var r := ExecAll(m, cs);
            && r.Some? && SafeThroughout(m, cs)
            && (forall v, id :: ValidVid(v) ==> (MstOf(r.value, v) == id <==> InTree(t, v, id)))
  {
    var cs := Changed(previous, Commands(t, mac), t);
    Bring(m, previous, t, mac);
    var r := ExecAll(m, cs).value;
    Throughout(m, cs);
    forall v, id | ValidVid(v) ensures MstOf(r, v) == id <==> InTree(t, v, id) { TreeOfVlan(r, t, v, id); }
  }

  // ----- what a change can miss -----

  /**
   * The forward delay before the change stays where the one command for it, of the longest delay,
   * seems to have run.
   */
  predicate DelayMissed(m: DaemonState, previous: Option<Applied>, t: SpanningTree) {
    && previous.Some? && previous.value.stp.maxAge == t.maxAge
    && t.forwardDelay == MAX_FORWARD_DELAY && m.forwardDelay != MAX_FORWARD_DELAY
  }

  /** After an update the forward delay is as configured, unless it is missed. */
  lemma DelayRight(m: DaemonState, previous: Option<Applied>, t: SpanningTree, mac: string)
    requires Prepared(m, previous, Commands(t, mac)) && Valid(t)
    ensures var r := ExecAll(m, Changed(previous, Commands(t, mac), t));
            r.Some? && (r.value.forwardDelay == t.forwardDelay <==> !DelayMissed(m, previous, t))
  {
    if previous.Some? { ChangesBring(m, previous.value, t, mac); } else { AllBring(m, t, mac); }
  }

  /** After an update the trees are those configured, exactly if the others of the daemon are known to be gone. */
  lemma TreesRight(m: DaemonState, previous: Option<Applied>, t: SpanningTree, mac: string)
    requires Prepared(m, previous, Commands(t, mac)) && Valid(t)
    ensures var r := ExecAll(m, Changed(previous, Commands(t, mac), t));
            && r.Some? && r.value.trees == m.trees + t.mstis.Keys - Gone(previous, t)
            && (r.value.trees == t.mstis.Keys <==> m.trees - t.mstis.Keys <= Gone(previous, t))
  {
    if previous.Some? { ChangesBring(m, previous.value, t, mac); } else { AllBring(m, t, mac); }
    TreesKept(m.trees, t.mstis.Keys, Gone(previous, t));
  }

  lemma TreesKept(had: set<nat>, want: set<nat>, gone: set<nat>)
    requires gone !! want
    ensures had + want - gone == want <==> had - want <= gone
  {
    if had + want - gone == want {
      forall id | id in had - want ensures id in gone { assert id in gone || id in had + want - gone; }
    }
  }

  /** Where all commands are sent again, a tree that is no longer configured stays. */
  lemma TreeLeftOver(p: SpanningTree, n: SpanningTree, mac: string, id: nat)
    requires Valid(p) && Valid(n) && id in p.mstis && id !in n.mstis
    ensures var r := ExecAll(FullSettings(p, mac), Changed(None, Commands(n, mac), n)); r.Some? && id in r.value.trees
  {
    RunAll(FRESH, p, mac);
    AllBring(FullSettings(p, mac), n, mac);
  }
}
