/** Running only the commands that changed leaves mstpd as running all of them would. */
module Updates {
  import opened Basics
  import opened Model
  import opened VlanRanges
  import opened Mstpctl
  import opened Daemon

  /** Spanning tree settings as validated: the timers fit, MSTIs are no CIST and share no VLAN. */
  ghost predicate Valid(t: SpanningTree) {
    && TimersFit(t.forwardDelay, t.maxAge) && t.forwardDelay <= MAX_FORWARD_DELAY
    && 0 !in t.mstis
    && (forall i, v :: i in t.mstis && v in t.mstis[i].vlans ==> ValidVid(v))
    && (forall i, j :: i in t.mstis && j in t.mstis && i != j ==> t.mstis[i].vlans !! t.mstis[j].vlans)
  }

  /** The daemon can take any valid configuration: its timers fit, its tables name existing trees. */
  ghost predicate Fit(m: DaemonState) {
    TimersFit(m.forwardDelay, m.maxAge) && m.forwardDelay <= MAX_FORWARD_DELAY && Coherent(m)
  }

  /** The effect of `c` is still in place. The forward delay is told apart. */
  ghost predicate Holds(m: DaemonState, c: Cmd) {
    match c
    case SetMaxAge(a) => m.maxAge == a
    case SetFdelay(_) => true
    case CreateTree(id) => id in m.trees
    case DeleteTree(id) => true
    case SetVid2Fid(maps) => m.fids == FidTable(maps)
    case SetFid2Mstid(ids) => m.msts == MstTable(ids)
    case _ => Has(m.settings, c)
  }

  ghost predicate Has(settings: map<Key, Cmd>, c: Cmd)
    requires KeyOf(c).Some?
  {
    KeyOf(c).value in settings && settings[KeyOf(c).value] == c
  }

  ghost predicate Remembers(m: DaemonState, ran: set<Cmd>) { forall c :: c in ran ==> Holds(m, c) }

  // ----- plain settings -----

  ghost predicate AllPlain(cs: seq<Cmd>) { forall c :: c in cs ==> KeyOf(c).Some? }

  ghost predicate Functional(cs: seq<Cmd>) { forall c, c' :: c in cs && c' in cs && KeyOf(c) == KeyOf(c') ==> c == c' }

  /** The settings a list of plain commands makes. */
  ghost function Written(cs: seq<Cmd>): (w: map<Key, Cmd>)
    ensures forall k :: k in w ==> w[k] in cs && KeyOf(w[k]) == Some(k)
    ensures forall c :: c in cs && KeyOf(c).Some? ==> KeyOf(c).value in w
  {
    if cs == [] then map[]
    else if KeyOf(cs[0]).None? then Written(cs[1..])
    else map[KeyOf(cs[0]).value := cs[0]] + Written(cs[1..])
  }

  lemma EmitPlain(m: DaemonState, c: Cmd, ran: set<Cmd>, timers: bool, gone: seq<nat>)
    requires KeyOf(c).Some? && HasTree(m, TreeOfKey(KeyOf(c).value))
    requires c in ran ==> Has(m.settings, c)
    ensures ExecAll(m, Emit(ran, timers, gone)(c)) == Some(m.(settings := m.settings[KeyOf(c).value := c]))
  {
    assert ExecAll(m, [c]) == Exec(m, c);
    if c in ran { assert m.settings[KeyOf(c).value := c] == m.settings; }
  }

  lemma WrittenStep(settings: map<Key, Cmd>, cs: seq<Cmd>)
    requires cs != [] && KeyOf(cs[0]).Some?
    ensures settings[KeyOf(cs[0]).value := cs[0]] + Written(cs[1..]) == settings + Written(cs)
  {
  }

  lemma {:induction false} RunPlain(m: DaemonState, cs: seq<Cmd>, ran: set<Cmd>, timers: bool, gone: seq<nat>)
    requires AllPlain(cs) && Functional(cs)
    requires forall c :: c in cs ==> HasTree(m, TreeOfKey(KeyOf(c).value))
    requires forall c :: c in cs && c in ran ==> Has(m.settings, c)
    ensures ExecAll(m, Flat(cs, Emit(ran, timers, gone))) == Some(m.(settings := m.settings + Written(cs)))
    decreases cs
  {
    if cs == [] {
      assert m.settings + map[] == m.settings;
    } else {
      var e, c, rest := Emit(ran, timers, gone), cs[0], cs[1..];
      assert c in cs;
      EmitPlain(m, c, ran, timers, gone);
      var m1 := m.(settings := m.settings[KeyOf(c).value := c]);
      ExecAppend(m, e(c), Flat(rest, e));
      forall c' | c' in rest && c' in ran ensures Has(m1.settings, c') { assert c' in cs && Has(m.settings, c'); }
      RunPlain(m1, rest, ran, timers, gone);
      WrittenStep(m.settings, cs);
    }
  }

  // ----- timers -----

  lemma ExecThree(m: DaemonState, a: Cmd, b: Cmd, c: Cmd)
    ensures ExecAll(m, [a, b, c]) ==
            var x := Exec(m, a);
            if x.None? then None else
              var y := Exec(x.value, b);
              if y.None? then None else Exec(y.value, c)
  {
    assert [a, b, c][1..] == [b, c] && [b, c][1..] == [c];
    var x := Exec(m, a);
    if x.Some? {
      var y := Exec(x.value, b);
      if y.Some? { assert ExecAll(y.value, [c]) == Exec(y.value, c); }
      assert ExecAll(x.value, [b, c]) == if y.None? then None else ExecAll(y.value, [c]);
    }
  }

  /** Whatever the timers were, the longest forward delay first makes each command acceptable. */
  lemma TimersAccepted(m: DaemonState, t: SpanningTree)
    requires Fit(m) && Valid(t)
    ensures ExecAll(m, Timers(t)) == Some(m.(maxAge := t.maxAge, forwardDelay := t.forwardDelay))
    ensures forall k :: 0 <= k <= 3 ==> ExecAll(m, Timers(t)[..k]).Some? &&
                                        var x := ExecAll(m, Timers(t)[..k]).value; TimersFit(x.forwardDelay, x.maxAge)
  {
    var a, b, c := SetFdelay(MAX_FORWARD_DELAY), SetMaxAge(t.maxAge), SetFdelay(t.forwardDelay);
    ExecThree(m, a, b, c);
    var x := Exec(m, a).value;
    assert Timers(t)[..0] == [] && Timers(t)[..1] == [a] && Timers(t)[..2] == [a, b] && Timers(t)[..3] == [a, b, c];
    assert ExecAll(m, [a]) == Some(x);
    assert [a, b][1..] == [b] && ExecAll(x, [b]) == Exec(x, b);
  }

  /** Setting the two values directly can be refused in either order. */
  lemma DirectOrderCanFail()
    ensures exists m: DaemonState, t: SpanningTree ::
              Fit(m) && Valid(t) && ExecAll(m, [SetMaxAge(t.maxAge), SetFdelay(t.forwardDelay)]).None?
    ensures exists m: DaemonState, t: SpanningTree ::
              Fit(m) && Valid(t) && ExecAll(m, [SetFdelay(t.forwardDelay), SetMaxAge(t.maxAge)]).None?
  {
    var tree := Tree(32768, map[]);
    var up := SpanningTree(Rstp, 40, 30, 6, 20, None, 0, tree, map[], map[]);
    var down := SpanningTree(Rstp, 6, 4, 6, 20, None, 0, tree, map[], map[]);
    assert Exec(FRESH, SetMaxAge(up.maxAge)).None?;
    assert ExecAll(FRESH, [SetMaxAge(up.maxAge), SetFdelay(up.forwardDelay)]).None?;
    assert Exec(FRESH, SetFdelay(down.forwardDelay)).None?;
    assert ExecAll(FRESH, [SetFdelay(down.forwardDelay), SetMaxAge(down.maxAge)]).None?;
    assert Fit(FRESH) && Valid(up) && Valid(down);
  }

  // ----- trees -----

  lemma {:induction false} RunCreates(m: DaemonState, ids: seq<nat>, ran: set<Cmd>, timers: bool, gone: seq<nat>)
    requires Remembers(m, ran)
    ensures ExecAll(m, Flat(Flat(ids, Create()), Emit(ran, timers, gone))) == Some(m.(trees := m.trees + Elems(ids)))
    decreases ids
  {
    if ids == [] {
      assert m.trees + {} == m.trees;
    } else {
      var e, c, rest := Emit(ran, timers, gone), CreateTree(ids[0]), Flat(ids[1..], Create());
      assert Flat(ids, Create()) == [c] + rest;
      FlatAppend([c], rest, e);
      FlatOne(c, e);
      var m1 := m.(trees := m.trees + {ids[0]});
      assert ExecAll(m, e(c)) == Some(m1) by {
        assert ExecAll(m, [c]) == Exec(m, c);
        if c in ran { assert Holds(m, c); assert m.trees + {ids[0]} == m.trees; }
      }
      ExecAppend(m, e(c), Flat(rest, e));
      forall c' | c' in ran ensures Holds(m1, c') { assert Holds(m, c'); }
      RunCreates(m1, ids[1..], ran, timers, gone);
      assert m1.trees + Elems(ids[1..]) == m.trees + Elems(ids);
    }
  }

  ghost function Forget(settings: map<Key, Cmd>, gone: set<nat>): map<Key, Cmd> {
    map k | k in settings && TreeOfKey(k) !in gone :: settings[k]
  }

  /** Trees nothing is mapped to can be deleted. */
  lemma {:induction false} RunDeletes(m: DaemonState, gone: seq<nat>)
    requires forall i, j :: 0 <= i < j < |gone| ==> gone[i] != gone[j]
    requires forall id :: id in gone ==> id != 0 && id in m.trees && Unused(m, id)
    ensures ExecAll(m, Flat(gone, Delete())) ==
            Some(m.(trees := m.trees - Elems(gone), settings := Forget(m.settings, Elems(gone))))
    decreases gone
  {
    if gone == [] {
      assert m.trees - {} == m.trees && Forget(m.settings, {}) == m.settings;
    } else {
      var id, rest := gone[0], gone[1..];
      assert id in gone;
      var m1 := m.(trees := m.trees - {id}, settings := Forget(m.settings, {id}));
      assert Unused(m, id) && Exec(m, DeleteTree(id)).value.settings == m1.settings;
      assert Exec(m, DeleteTree(id)) == Some(m1);
      forall i | i in rest ensures i != 0 && i in m1.trees && Unused(m1, i)
      {
        assert i in gone && i != id && Unused(m, i);
      }
      ExecAppend(m, [DeleteTree(id)], Flat(rest, Delete()));
      assert ExecAll(m, [DeleteTree(id)]) == Some(m1);
      RunDeletes(m1, rest);
      assert m1.trees - Elems(rest) == m.trees - Elems(gone);
      assert Forget(m1.settings, Elems(rest)) == Forget(m.settings, Elems(gone));
    }
  }

  // ----- a whole update -----

  lemma ExecFlat(m: DaemonState, a: seq<Cmd>, b: seq<Cmd>, e: Cmd -> seq<Cmd>)
    ensures ExecAll(m, Flat(a + b, e)) ==
            if ExecAll(m, Flat(a, e)).Some? then ExecAll(ExecAll(m, Flat(a, e)).value, Flat(b, e)) else None
  {
    FlatAppend(a, b, e);
    ExecAppend(m, Flat(a, e), Flat(b, e));
  }

  lemma ExecParts(m: DaemonState, a: seq<Cmd>, b: seq<Cmd>, c: seq<Cmd>, e: Cmd -> seq<Cmd>, x: DaemonState,
                  y: DaemonState)
    requires ExecAll(m, Flat(a, e)) == Some(x) && ExecAll(x, Flat(b, e)) == Some(y)
    ensures ExecAll(m, Flat(a + b + c, e)) == ExecAll(y, Flat(c, e))
  {
    ExecFlat(m, a, b, e);
    ExecFlat(m, a + b, c, e);
  }

  lemma FlatOne(c: Cmd, e: Cmd -> seq<Cmd>)
    ensures Flat([c], e) == e(c)
  {
    assert [c][1..] == [] && e(c) + [] == e(c);
  }

  lemma FlatThree(a: Cmd, b: Cmd, c: Cmd, e: Cmd -> seq<Cmd>)
    ensures Flat([a, b, c], e) == e(a) + e(b) + e(c)
  {
    FlatOne(a, e);
    FlatOne(b, e);
    FlatOne(c, e);
    FlatAppend([a], [b], e);
    FlatAppend([a, b], [c], e);
    assert [a] + [b] == [a, b] && [a, b] + [c] == [a, b, c];
  }

  function Delay(m: DaemonState, t: SpanningTree, timers: bool): nat {
    if timers then t.forwardDelay else m.forwardDelay
  }

  /** The settings of the bridge itself. */
  ghost function Header(t: SpanningTree, mac: string): (w: map<Key, Cmd>)
    ensures forall k :: k in w ==> k.BridgeKey?
  {
    map[BridgeKey(0) := SetBridge(ForceVers(t.protocol)),
        BridgeKey(1) := SetBridge(TxHoldCount(t.holdCount)),
        BridgeKey(2) := SetBridge(MaxHops(t.maxHops)),
        BridgeKey(3) := SetBridge(MstConfId(t.regionRevision, RegionName(t, mac)))]
  }

  lemma WrittenOne(c: Cmd)
    requires KeyOf(c).Some?
    ensures Written([c]) == map[KeyOf(c).value := c]
  {
    assert Written([c][1..]) == map[];
  }

  lemma WrittenThree(a: Cmd, b: Cmd, c: Cmd)
    requires KeyOf(a).Some? && KeyOf(b).Some? && KeyOf(c).Some?
    ensures Written([a, b, c]) == map[KeyOf(a).value := a] + (map[KeyOf(b).value := b] + map[KeyOf(c).value := c])
  {
    WrittenOne(c);
    assert [a, b, c][1..] == [b, c] && [b, c][1..] == [c];
    assert Written([b, c]) == map[KeyOf(b).value := b] + Written([c]);
  }

  lemma HeaderMaps(s: map<Key, Cmd>, t: SpanningTree, mac: string)
    ensures s + map[BridgeKey(0) := SetBridge(ForceVers(t.protocol))] +
            (map[BridgeKey(1) := SetBridge(TxHoldCount(t.holdCount))] +
             (map[BridgeKey(2) := SetBridge(MaxHops(t.maxHops))] +
              map[BridgeKey(3) := SetBridge(MstConfId(t.regionRevision, RegionName(t, mac)))])) == s + Header(t, mac)
  {
  }

  lemma HeaderWritten(s: map<Key, Cmd>, t: SpanningTree, mac: string)
    ensures s + Written([SetBridge(ForceVers(t.protocol))]) + Written(Globals(t, mac)) == s + Header(t, mac)
  {
    WrittenOne(SetBridge(ForceVers(t.protocol)));
    WrittenThree(SetBridge(TxHoldCount(t.holdCount)), SetBridge(MaxHops(t.maxHops)),
        SetBridge(MstConfId(t.regionRevision, RegionName(t, mac))));
    HeaderMaps(s, t, mac);
  }

  lemma RunBridge(m: DaemonState, t: SpanningTree, mac: string, ran: set<Cmd>, timers: bool, gone: seq<nat>)
    requires Fit(m) && Valid(t) && Remembers(m, ran)
    requires timers <==> exists c :: c in Timers(t) && c !in ran
    ensures var first := [SetBridge(ForceVers(t.protocol))];
            ExecAll(m, Flat(first + Timers(t) + Globals(t, mac), Emit(ran, timers, gone))) ==
            Some(m.(maxAge := t.maxAge, forwardDelay := Delay(m, t, timers), settings := m.settings + Header(t, mac)))
    ensures TimersFit(Delay(m, t, timers), t.maxAge)
  {
    var e := Emit(ran, timers, gone);
    var first, globals := [SetBridge(ForceVers(t.protocol))], Globals(t, mac);
    RunPlain(m, first, ran, timers, gone);
    var m1 := m.(settings := m.settings + Written(first));
    RunTimersAfter(m, m1, t, ran, timers, gone);
    var m2 := m1.(maxAge := t.maxAge, forwardDelay := Delay(m, t, timers));
    GlobalsStill(m, m2, t, mac, ran);
    RunPlain(m2, globals, ran, timers, gone);
    ExecParts(m, first, Timers(t), globals, e, m1, m2);
    HeaderWritten(m.settings, t, mac);
  }

  lemma GlobalsStill(m: DaemonState, m2: DaemonState, t: SpanningTree, mac: string, ran: set<Cmd>)
    requires Remembers(m, ran) && m2.settings == m.settings + Written([SetBridge(ForceVers(t.protocol))])
    ensures Functional(Globals(t, mac)) && AllPlain(Globals(t, mac))
    ensures forall c :: c in Globals(t, mac) && c in ran ==> Has(m2.settings, c)
  {
    forall c | c in Globals(t, mac) && c in ran ensures Has(m2.settings, c) { assert Holds(m, c); }
  }

  lemma RunTimersAfter(m: DaemonState, m1: DaemonState, t: SpanningTree, ran: set<Cmd>, timers: bool, gone: seq<nat>)
    requires Fit(m) && Valid(t) && Remembers(m, ran) && m1 == m.(settings := m1.settings)
    requires timers <==> exists c :: c in Timers(t) && c !in ran
    ensures ExecAll(m1, Flat(Timers(t), Emit(ran, timers, gone))) ==
            Some(m1.(maxAge := t.maxAge, forwardDelay := if timers then t.forwardDelay else m.forwardDelay))
    ensures TimersFit(if timers then t.forwardDelay else m.forwardDelay, t.maxAge)
  {
    var e := Emit(ran, timers, gone);
    var a, b, c := SetFdelay(MAX_FORWARD_DELAY), SetMaxAge(t.maxAge), SetFdelay(t.forwardDelay);
    FlatThree(a, b, c, e);
    if timers {
      assert Flat([a, b, c], e) == [a, b, c];
      TimersAccepted(m1, t);
    } else {
      assert a in Timers(t) && b in Timers(t) && c in Timers(t);
      assert Holds(m, b);
    }
  }

  lemma RunFirst(m: DaemonState, t: SpanningTree, mac: string, ran: set<Cmd>, timers: bool, gone: seq<nat>)
    requires Fit(m) && Valid(t) && Remembers(m, ran)
    requires timers <==> exists c :: c in Timers(t) && c !in ran
    ensures ExecAll(m, Flat(FirstCmds(t, mac), Emit(ran, timers, gone))) ==
            Some(DaemonState(t.maxAge, Delay(m, t, timers), m.settings + Header(t, mac),
                             m.trees + t.mstis.Keys, FidTable(Maps(t)), m.msts))
    ensures TimersFit(Delay(m, t, timers), t.maxAge)
  {
    var e := Emit(ran, timers, gone);
    var first := [SetBridge(ForceVers(t.protocol))];
    var a := first + Timers(t) + Globals(t, mac);
    var b, v := Flat(Ids(t), Create()), SetVid2Fid(Maps(t));
    RunBridge(m, t, mac, ran, timers, gone);
    var m3 := m.(maxAge := t.maxAge, forwardDelay := Delay(m, t, timers), settings := m.settings + Header(t, mac));
    RunCreatesAfter(m, m3, Ids(t), ran, timers, gone);
    assert Elems(Ids(t)) == t.mstis.Keys;
    var m4 := m3.(trees := m.trees + t.mstis.Keys);
    RunVids(m, m4, SetVid2Fid(Maps(t)), ran, timers, gone);
    ExecParts(m, a, b, [v], e, m3, m4);
  }

  lemma RunVids(m: DaemonState, m4: DaemonState, c: Cmd, ran: set<Cmd>, timers: bool, gone: seq<nat>)
    requires Remembers(m, ran) && m4.fids == m.fids && c.SetVid2Fid?
    ensures ExecAll(m4, Flat([c], Emit(ran, timers, gone))) == Some(m4.(fids := FidTable(c.maps)))
  {
    FlatOne(c, Emit(ran, timers, gone));
    assert ExecAll(m4, [c]) == Exec(m4, c);
    if c in ran { assert Holds(m, c); }
  }

  lemma RunCreatesAfter(m: DaemonState, m3: DaemonState, ids: seq<nat>, ran: set<Cmd>, timers: bool, gone: seq<nat>)
    requires Remembers(m, ran) && m3.trees == m.trees
    ensures ExecAll(m3, Flat(Flat(ids, Create()), Emit(ran, timers, gone))) == Some(m3.(trees := m.trees + Elems(ids)))
  {
    var had := set c | c in ran && c.CreateTree?;
    forall c | c in had ensures Holds(m3, c) { assert Holds(m, c); }
    RunCreates(m3, ids, had, timers, gone);
    forall c | c in Flat(ids, Create()) ensures c.CreateTree? { FlatIn(ids, Create(), c); }
    SameEmits(Flat(ids, Create()), ran, had, timers, gone);
  }

  /** Only the commands in question matter to what is emitted for them. */
  lemma {:induction false} SameEmits(cs: seq<Cmd>, ran: set<Cmd>, had: set<Cmd>, timers: bool, gone: seq<nat>)
    requires forall c :: c in cs ==> (c in ran <==> c in had)
    ensures Flat(cs, Emit(ran, timers, gone)) == Flat(cs, Emit(had, timers, gone))
    decreases cs
  {
    if cs != [] {
      assert cs[0] in cs;
      SameEmits(cs[1..], ran, had, timers, gone);
    }
  }

  /** The daemon after an update. */
  ghost function After(m: DaemonState, t: SpanningTree, mac: string, timers: bool, gone: set<nat>): DaemonState {
    DaemonState(
      t.maxAge, Delay(m, t, timers),
      Forget(m.settings + Header(t, mac), gone) + Written(LastCmds(t)),
      m.trees + t.mstis.Keys - gone, FidTable(Maps(t)), MstTable(Ids(t)))
  }

  lemma RunTables(m: DaemonState, m5: DaemonState, t: SpanningTree, ran: set<Cmd>, timers: bool, gone: seq<nat>)
    requires Remembers(m, ran) && m5.msts == m.msts && m5.trees == m.trees + t.mstis.Keys
    requires forall i, j :: 0 <= i < j < |gone| ==> gone[i] != gone[j]
    requires forall id :: id in gone ==> id != 0 && id in m.trees && id !in t.mstis
    ensures ExecAll(m5, Flat([SetFid2Mstid(Ids(t))], Emit(ran, timers, gone))) ==
            Some(m5.(msts := MstTable(Ids(t)), trees := m5.trees - Elems(gone),
                settings := Forget(m5.settings, Elems(gone))))
  {
    var e, c := Emit(ran, timers, gone), SetFid2Mstid(Ids(t));
    FlatOne(c, e);
    var run := if c !in ran then [c] else [];
    var m6 := m5.(msts := MstTable(Ids(t)));
    assert ExecAll(m5, run) == Some(m6) by {
      assert ExecAll(m5, [c]) == Exec(m5, c);
      if c in ran { assert Holds(m, c); }
    }
    ExecAppend(m5, run, Flat(gone, Delete()));
    RunDeletes(m6, gone);
  }

  /** Settings of trees the configuration has, none of the bridge itself. */
  ghost predicate Lasting(t: SpanningTree, last: seq<Cmd>) {
    && AllPlain(last) && Functional(last)
    && forall c :: c in last ==> TreeOf(t, TreeOfKey(KeyOf(c).value)).Some? && !KeyOf(c).value.BridgeKey?
  }

  lemma LastLasting(t: SpanningTree)
    ensures Lasting(t, LastCmds(t))
  {
    var last := LastCmds(t);
    forall c | c in last ensures Asks(t, "", c) && !c.SetBridge? { LastAsks(t, "", c); }
    assert Lasting(t, last);
  }

  lemma LastStill(m: DaemonState, t: SpanningTree, a: map<Key, Cmd>, last: seq<Cmd>, ran: set<Cmd>, gone: set<nat>)
    requires Remembers(m, ran) && Lasting(t, last) && forall id :: id in gone ==> id != 0 && id !in t.mstis
    requires forall k :: k in a ==> k.BridgeKey?
    ensures forall c :: c in last && c in ran ==> Has(Forget(m.settings + a, gone), c)
  {
    forall c | c in last && c in ran ensures Has(Forget(m.settings + a, gone), c) {
      assert Holds(m, c);
      var k := KeyOf(c).value;
      assert k !in a && TreeOfKey(k) !in gone;
    }
  }

  lemma TimersIn(t: SpanningTree, mac: string, c: Cmd)
    requires IsTimer(c)
    ensures c in Commands(t, mac) <==> c in Timers(t)
  {
    FlatIn(Ids(t), Create(), c);
    LastAsks(t, mac, c);
    InSeven([SetBridge(ForceVers(t.protocol))], Timers(t), Globals(t, mac), Flat(Ids(t), Create()),
            [SetVid2Fid(Maps(t))], [SetFid2Mstid(Ids(t))], LastCmds(t), c);
  }

  lemma InSeven(a: seq<Cmd>, b: seq<Cmd>, c: seq<Cmd>, d: seq<Cmd>, e: seq<Cmd>, f: seq<Cmd>, g: seq<Cmd>, x: Cmd)
    ensures x in a + b + c + d + e + f + g <==> x in a || x in b || x in c || x in d || x in e || x in f || x in g
  {
  }

  lemma TimersFrom(t: SpanningTree, mac: string, ran: set<Cmd>)
    ensures TimersChanged(ran, Commands(t, mac)) <==> exists c :: c in Timers(t) && c !in ran
  {
    var next := Commands(t, mac);
    forall c | IsTimer(c) ensures c in next <==> c in Timers(t) { TimersIn(t, mac, c); }
    assert TimersChanged(ran, next) <==> exists c :: c in Timers(t) && c !in ran;
  }

  lemma RunLast(m: DaemonState, m7: DaemonState, t: SpanningTree, a: map<Key, Cmd>,
                last: seq<Cmd>, ran: set<Cmd>, timers: bool, gone: seq<nat>)
    requires Remembers(m, ran) && Lasting(t, last) && m7.trees == m.trees + t.mstis.Keys - Elems(gone)
    requires m7.settings == Forget(m.settings + a, Elems(gone)) && forall k :: k in a ==> k.BridgeKey?
    requires forall id :: id in gone ==> id != 0 && id !in t.mstis
    ensures ExecAll(m7, Flat(last, Emit(ran, timers, gone))) == Some(m7.(settings := m7.settings + Written(last)))
  {
    LastStill(m, t, a, last, ran, Elems(gone));
    forall c | c in last ensures HasTree(m7, TreeOfKey(KeyOf(c).value)) {
      assert TreeOf(t, TreeOfKey(KeyOf(c).value)).Some?;
    }
    RunPlain(m7, last, ran, timers, gone);
  }

  /** The commands run, from whatever the daemon remembers of an earlier configuration. */
  lemma RunUpdate(m: DaemonState, t: SpanningTree, mac: string, ran: set<Cmd>, gone: seq<nat>)
    requires Fit(m) && Valid(t) && Remembers(m, ran)
    requires forall i, j :: 0 <= i < j < |gone| ==> gone[i] != gone[j]
    requires forall id :: id in gone ==> id != 0 && id in m.trees && id !in t.mstis
    ensures var timers := TimersChanged(ran, Commands(t, mac));
            && ExecAll(m, Flat(Commands(t, mac), Emit(ran, timers, gone))) ==
               Some(After(m, t, mac, timers, Elems(gone)))
            && TimersFit(Delay(m, t, timers), t.maxAge)
  {
    var timers := TimersChanged(ran, Commands(t, mac));
    TimersFrom(t, mac, ran);
    var e, first, mid, last := Emit(ran, timers, gone), FirstCmds(t, mac), [SetFid2Mstid(Ids(t))], LastCmds(t);
    RunFirst(m, t, mac, ran, timers, gone);
    var m5 := ExecAll(m, Flat(first, e)).value;
    RunTables(m, m5, t, ran, timers, gone);
    LastLasting(t);
    var m7 := ExecAll(m5, Flat(mid, e)).value;
    RunLast(m, m7, t, Header(t, mac), last, ran, timers, gone);
    ExecParts(m, first, mid, last, e, m5, m7);
  }
}
