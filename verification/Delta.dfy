/** What an update leaves in mstpd, and that it does not depend on how much of it was left out. */
module Delta {
  import opened Basics
  import opened Model
  import opened VlanRanges
  import opened Mstpctl
  import opened Daemon
  import opened Updates

  /** Every tree lists every port. */
  ghost predicate Uniform(t: SpanningTree) {
    t.cist.ports.Keys == t.ports.Keys && forall i :: i in t.mstis ==> t.mstis[i].tree.ports.Keys == t.ports.Keys
  }

  // ----- settings -----

  lemma HeaderHas(t: SpanningTree, mac: string, k: Key)
    ensures k in Header(t, mac) <==> k.BridgeKey? && Wanted(t, mac, k).Some?
    ensures k in Header(t, mac) ==> Header(t, mac)[k] == Wanted(t, mac, k).value
  {
  }

  lemma WrittenHas(t: SpanningTree, mac: string, last: seq<Cmd>, k: Key)
    requires forall c :: c in last <==> Asks(t, mac, c) && !c.SetBridge?
    ensures k in Written(last) <==> !k.BridgeKey? && Wanted(t, mac, k).Some?
    ensures k in Written(last) ==> Written(last)[k] == Wanted(t, mac, k).value
  {
    if !k.BridgeKey? && Wanted(t, mac, k).Some? {
      WantedKey(t, mac, k);
      assert Wanted(t, mac, k).value in last;
    }
  }

  lemma WantedKey(t: SpanningTree, mac: string, k: Key)
    requires Wanted(t, mac, k).Some?
    ensures KeyOf(Wanted(t, mac, k).value) == Some(k)
  {
  }

  /** After an update each key has the wanted command; other settings stay, but for deleted trees. */
  lemma SettingsAfter(m: DaemonState, t: SpanningTree, mac: string, timers: bool, gone: set<nat>, k: Key)
    requires forall id :: id in gone ==> id != 0 && id !in t.mstis
    ensures var s := After(m, t, mac, timers, gone).settings;
            && (k in s <==> Wanted(t, mac, k).Some? || (k in m.settings && TreeOfKey(k) !in gone))
            && (k in s ==> s[k] == if Wanted(t, mac, k).Some? then Wanted(t, mac, k).value else m.settings[k])
  {
    var last := LastCmds(t);
    forall c ensures c in last <==> Asks(t, mac, c) && !c.SetBridge? { LastAsks(t, mac, c); }
    WrittenHas(t, mac, last, k);
    HeaderHas(t, mac, k);
  }

  // ----- an update keeps the daemon fit and makes it remember -----

  ghost predicate Removable(m: DaemonState, t: SpanningTree, gone: seq<nat>) {
    && (forall i, j :: 0 <= i < j < |gone| ==> gone[i] != gone[j])
    && (forall id :: id in gone ==> id != 0 && id in m.trees && id !in t.mstis)
  }

  lemma FitAfter(m: DaemonState, t: SpanningTree, mac: string, timers: bool, gone: seq<nat>)
    requires Fit(m) && Valid(t) && Removable(m, t, gone) && TimersFit(Delay(m, t, timers), t.maxAge)
    ensures Fit(After(m, t, mac, timers, Elems(gone)))
  {
    var a, ids := After(m, t, mac, timers, Elems(gone)), Ids(t);
    assert forall id :: id in ids ==> id in a.trees;
    FitFrom(a, ids);
  }

  lemma FitFrom(a: DaemonState, ids: seq<nat>)
    requires a.msts == MstTable(ids) && (forall id :: id in ids ==> id in a.trees)
    requires TimersFit(a.forwardDelay, a.maxAge) && a.forwardDelay <= MAX_FORWARD_DELAY
    ensures Fit(a)
  {
  }

  lemma FirstIn(t: SpanningTree, mac: string, c: Cmd)
    requires c in FirstCmds(t, mac)
    ensures (Asks(t, mac, c) && c.SetBridge?)
            || c in Timers(t) || (c.CreateTree? && c.id in t.mstis) || c == SetVid2Fid(Maps(t))
  {
    var first, creates, last := [SetBridge(ForceVers(t.protocol))], Flat(Ids(t), Create()), [SetVid2Fid(Maps(t))];
    FlatIn(Ids(t), Create(), c);
    InFive(first, Timers(t), Globals(t, mac), creates, last, c);
  }

  lemma InFive(a: seq<Cmd>, b: seq<Cmd>, c: seq<Cmd>, d: seq<Cmd>, e: seq<Cmd>, x: Cmd)
    ensures x in a + b + c + d + e <==> x in a || x in b || x in c || x in d || x in e
  {
  }

  lemma AskedAfter(m: DaemonState, t: SpanningTree, mac: string, timers: bool, gone: set<nat>, c: Cmd, a: DaemonState)
    requires a == After(m, t, mac, timers, gone) && forall id :: id in gone ==> id != 0 && id !in t.mstis
    requires Asks(t, mac, c)
    ensures Holds(a, c)
  {
    SettingsAfter(m, t, mac, timers, gone, KeyOf(c).value);
  }

  lemma HoldsAfter(m: DaemonState, t: SpanningTree, mac: string, timers: bool, gone: set<nat>, c: Cmd, a: DaemonState)
    requires a == After(m, t, mac, timers, gone) && forall id :: id in gone ==> id != 0 && id !in t.mstis
    requires c in Commands(t, mac)
    ensures Holds(a, c)
  {
    var kind := KindOf(t, mac, c);
    if kind == 0 { AskedAfter(m, t, mac, timers, gone, c, a); } else { OtherHolds(a, t, c, Maps(t), Ids(t)); }
  }

  lemma OtherHolds(x: DaemonState, t: SpanningTree, c: Cmd, maps: seq<Mapping>, ids: seq<nat>)
    requires x.maxAge == t.maxAge && t.mstis.Keys <= x.trees && x.fids == FidTable(maps) && x.msts == MstTable(ids)
    requires c in Timers(t) || (c.CreateTree? && c.id in t.mstis) || c == SetVid2Fid(maps) || c == SetFid2Mstid(ids)
    ensures Holds(x, c)
  {
  }

  /** A command of a configuration is a setting it asks for, a timer, or about its trees and tables. */
  lemma KindOf(t: SpanningTree, mac: string, c: Cmd) returns (kind: nat)
    requires c in Commands(t, mac)
    ensures kind == 0 ==> Asks(t, mac, c)
    ensures kind != 0 ==>
            c in Timers(t) || (c.CreateTree? && c.id in t.mstis) || c == SetVid2Fid(Maps(t))
            || c == SetFid2Mstid(Ids(t))
  {
    var first, mid, last := FirstCmds(t, mac), [SetFid2Mstid(Ids(t))], LastCmds(t);
    assert c in first || c in mid || c in last;
    if c in first { FirstIn(t, mac, c); }
    if c in last { LastAsks(t, mac, c); }
    kind := if Asks(t, mac, c) then 0 else 1;
  }

  /**
   * Every command of the configuration has its effect, however little had to be run; the forward
   * delay changes with the timers.
   */
  lemma UpdateRemembered(m: DaemonState, t: SpanningTree, mac: string, ran: set<Cmd>, gone: seq<nat>)
    requires Fit(m) && Valid(t) && Remembers(m, ran) && Removable(m, t, gone)
    ensures var timers, next := TimersChanged(ran, Commands(t, mac)), Commands(t, mac);
            var r := ExecAll(m, Flat(next, Emit(ran, timers, gone)));
            && r == Some(After(m, t, mac, timers, Elems(gone))) && Fit(r.value) && Remembers(r.value, Elems(next))
            && r.value.forwardDelay == if timers then t.forwardDelay else m.forwardDelay
  {
    RunUpdate(m, t, mac, ran, gone);
    var next := Commands(t, mac);
    var timers := TimersChanged(ran, next);
    FitAfter(m, t, mac, timers, gone);
    var a := After(m, t, mac, timers, Elems(gone));
    forall c | c in Elems(next) ensures Holds(a, c) { HoldsAfter(m, t, mac, timers, Elems(gone), c, a); }
  }

  // ----- all commands -----

  lemma {:induction false} EmitAll(cs: seq<Cmd>, timers: bool)
    ensures Flat(cs, Emit({}, timers, [])) == cs
    decreases cs
  {
    if cs != [] { EmitAll(cs[1..], timers); }
  }

  /** All commands, on any daemon that can take them: nothing is left out and no tree is deleted. */
  lemma RunAll(m: DaemonState, t: SpanningTree, mac: string)
    requires Fit(m) && Valid(t)
    ensures ExecAll(m, Commands(t, mac)) == Some(After(m, t, mac, true, {}))
    ensures Fit(After(m, t, mac, true, {})) && Remembers(After(m, t, mac, true, {}), Elems(Commands(t, mac)))
  {
    var next := Commands(t, mac);
    TimersFrom(t, mac, {});
    assert SetMaxAge(t.maxAge) in Timers(t);
    EmitAll(next, true);
    UpdateRemembered(m, t, mac, {}, []);
  }

  // ----- a change against all commands -----

  /** What a key is about: a port of the configuration, or no port at all. */
  predicate Concerns(t: SpanningTree, k: Key) { (k.PortKey? || k.TreePortKey?) ==> k.port in t.ports }

  /** A forward delay that becomes the longest one, with the same max age, is taken for having run already. */
  predicate Overlooked(p: SpanningTree, n: SpanningTree) {
    n.forwardDelay == MAX_FORWARD_DELAY && p.forwardDelay != MAX_FORWARD_DELAY && n.maxAge == p.maxAge
  }

  predicate TimersDiffer(p: SpanningTree, n: SpanningTree) {
    n.maxAge != p.maxAge || (n.forwardDelay != p.forwardDelay && n.forwardDelay != MAX_FORWARD_DELAY)
  }

  lemma TimersFound(p: SpanningTree, n: SpanningTree, ran: set<Cmd>)
    requires forall c :: IsTimer(c) ==> (c in ran <==> c in Timers(p))
    ensures (exists c :: c in Timers(n) && c !in ran) <==> TimersDiffer(p, n)
  {
    var a, b, d := SetFdelay(MAX_FORWARD_DELAY), SetMaxAge(n.maxAge), SetFdelay(n.forwardDelay);
    assert a in Timers(p);
    assert IsTimer(a) && IsTimer(b) && IsTimer(d) && b in Timers(n) && d in Timers(n);
    assert forall c :: c in Timers(n) ==> c == a || c == b || c == d;
    assert TimersDiffer(p, n) <==> b !in Timers(p) || d !in Timers(p);
  }

  lemma TimersOf(p: SpanningTree, pmac: string, n: SpanningTree, nmac: string)
    ensures TimersChanged(Elems(Commands(p, pmac)), Commands(n, nmac)) <==> TimersDiffer(p, n)
  {
    var ran := Elems(Commands(p, pmac));
    TimersFrom(n, nmac, ran);
    forall c | IsTimer(c) ensures c in ran <==> c in Timers(p) { TimersIn(p, pmac, c); }
    TimersFound(p, n, ran);
  }

  lemma SameSetting(p: SpanningTree, pmac: string, n: SpanningTree, nmac: string, k: Key)
    requires Uniform(n) && Concerns(n, k) && Wanted(n, nmac, k).None? && Wanted(p, pmac, k).Some?
    ensures TreeOfKey(k) in p.mstis.Keys - n.mstis.Keys
  {
  }

  /** The settings that `a` and `b` have for what `t` configures are the same. */
  ghost predicate SameFor(t: SpanningTree, a: DaemonState, b: DaemonState) {
    forall k :: Concerns(t, k) ==>
      (k in a.settings <==> k in b.settings) && (k in a.settings ==> a.settings[k] == b.settings[k])
  }

  lemma SameSettings(p: SpanningTree, pmac: string, n: SpanningTree, nmac: string, timers: bool)
    requires Valid(p) && Valid(n) && Uniform(n)
    ensures var m := After(FRESH, p, pmac, true, {});
            SameFor(n, After(m, n, nmac, timers, p.mstis.Keys - n.mstis.Keys), After(FRESH, n, nmac, true, {}))
  {
    var m, gone := After(FRESH, p, pmac, true, {}), p.mstis.Keys - n.mstis.Keys;
    forall k | Concerns(n, k)
      ensures var a, b := After(m, n, nmac, timers, gone).settings, After(FRESH, n, nmac, true, {}).settings;
              (k in a <==> k in b) && (k in a ==> a[k] == b[k])
    {
      SettingsAfter(FRESH, p, pmac, true, {}, k);
      SettingsAfter(FRESH, n, nmac, true, {}, k);
      SettingsAfter(m, n, nmac, timers, gone, k);
      if Wanted(n, nmac, k).None? && Wanted(p, pmac, k).Some? { SameSetting(p, pmac, n, nmac, k); }
    }
  }

  ghost function FullSettings(p: SpanningTree, pmac: string): DaemonState { After(FRESH, p, pmac, true, {}) }

  /** A command of `next` that a change does not send, because it ran before. */
  predicate LeftOut(a: Applied, next: seq<Cmd>, c: Cmd) {
    c in a.commands && c in next && !(TimersChanged(Elems(a.commands), next) && IsTimer(c))
  }

  /** A change from a daemon that holds the effect of what is left out. */
  lemma RunChangeFrom(m: DaemonState, a: Applied, n: SpanningTree, nmac: string)
    requires Fit(m) && Valid(n) && 0 !in a.stp.mstis && a.stp.mstis.Keys <= m.trees
    requires forall c :: LeftOut(a, Commands(n, nmac), c) ==> Holds(m, c)
    ensures var ran, next := Elems(a.commands), Commands(n, nmac);
            var r := ExecAll(m, Changed(Some(a), next, n));
            && r == Some(After(m, n, nmac, TimersChanged(ran, next), a.stp.mstis.Keys - n.mstis.Keys))
            && Fit(r.value) && Remembers(r.value, Elems(next))
  {
    var ran, next := Elems(a.commands), Commands(n, nmac);
    var gone, kept := Numbers(a.stp.mstis.Keys - n.mstis.Keys), set c | c in ran && LeftOut(a, next, c);
    assert Elems(gone) == a.stp.mstis.Keys - n.mstis.Keys;
    KeptHeld(m, a, next, kept);
    UpdateRemembered(m, n, nmac, kept, gone);
    StaySame(a, next, kept, gone);
  }

  lemma KeptHeld(m: DaemonState, a: Applied, next: seq<Cmd>, kept: set<Cmd>)
    requires kept == (set c | c in Elems(a.commands) && LeftOut(a, next, c))
             && forall c :: LeftOut(a, next, c) ==> Holds(m, c)
    ensures Remembers(m, kept)
  {
  }

  lemma StaySame(a: Applied, next: seq<Cmd>, kept: set<Cmd>, gone: seq<nat>)
    requires kept == set c | c in Elems(a.commands) && LeftOut(a, next, c)
    ensures TimersChanged(Elems(a.commands), next) == TimersChanged(kept, next)
    ensures var ran := Elems(a.commands);
            var timers := TimersChanged(ran, next);
            Flat(next, Emit(ran, timers, gone)) == Flat(next, Emit(kept, timers, gone))
  {
    var ran := Elems(a.commands);
    var timers := TimersChanged(ran, next);
    if timers {
      var c :| c in next && IsTimer(c) && c !in ran;
      assert c !in kept;
    }
    var e, e' := Emit(ran, timers, gone), Emit(kept, timers, gone);
    forall c | c in next ensures e(c) == e'(c) { assert c in kept <==> LeftOut(a, next, c); }
    FlatSame(next, e, e');
  }

  lemma {:induction false} FlatSame(cs: seq<Cmd>, e: Cmd -> seq<Cmd>, e': Cmd -> seq<Cmd>)
    requires forall c :: c in cs ==> e(c) == e'(c)
    ensures Flat(cs, e) == Flat(cs, e')
    decreases cs
  {
    if cs != [] {
      assert cs[0] in cs;
      FlatSame(cs[1..], e, e');
    }
  }

  lemma RunChange(p: SpanningTree, pmac: string, n: SpanningTree, nmac: string, a: Applied)
    requires Valid(p) && Valid(n) && a == Applied(p, Commands(p, pmac))
    ensures ExecAll(FullSettings(p, pmac), Changed(Some(a), Commands(n, nmac), n)) ==
            Some(After(FullSettings(p, pmac), n, nmac, TimersDiffer(p, n), p.mstis.Keys - n.mstis.Keys))
  {
    RunAll(FRESH, p, pmac);
    RunChangeFrom(FullSettings(p, pmac), a, n, nmac);
    TimersOf(p, pmac, n, nmac);
  }

  /**
   * The trees, VLAN tables, timers and settings of `changed` are those of `full`, but for an
   * overlooked forward delay.
   */
  ghost predicate Suffices(p: SpanningTree, n: SpanningTree, changed: DaemonState, full: DaemonState) {
    && changed.trees == full.trees == n.mstis.Keys
    && changed.fids == full.fids && changed.msts == full.msts
    && changed.maxAge == full.maxAge && SameFor(n, changed, full)
    && full.forwardDelay == n.forwardDelay
    && (changed.forwardDelay == n.forwardDelay <==> !Overlooked(p, n))
  }

  lemma TreesLeft(a: set<nat>, b: set<nat>)
    ensures {} + b - {} == b && {} + a - {} + b - (a - b) == b
  {
  }

  lemma AfterSuffices(p: SpanningTree, pmac: string, n: SpanningTree, nmac: string)
    requires Valid(p) && Valid(n) && Uniform(n)
    ensures Suffices(p, n, After(FullSettings(p, pmac), n, nmac, TimersDiffer(p, n), p.mstis.Keys - n.mstis.Keys),
            FullSettings(n, nmac))
  {
    var changed := After(FullSettings(p, pmac), n, nmac, TimersDiffer(p, n), p.mstis.Keys - n.mstis.Keys);
    assert SameFor(n, changed, FullSettings(n, nmac)) by { SameSettings(p, pmac, n, nmac, TimersDiffer(p, n)); }
    TreesLeft(p.mstis.Keys, n.mstis.Keys);
  }

  /**
   * On a daemon configured with `p`, the changed commands of `n` are all accepted and leave what
   * all commands of `n` leave on a new bridge. The forward delay alone can differ, exactly where
   * its change is overlooked.
   */
  lemma ChangesSuffice(p: SpanningTree, pmac: string, n: SpanningTree, nmac: string)
    requires Valid(p) && Valid(n) && Uniform(n)
    ensures var before, full := ExecAll(FRESH, Commands(p, pmac)), ExecAll(FRESH, Commands(n, nmac));
            before.Some? && full.Some? &&
            var changed := ExecAll(before.value, Changed(Some(Applied(p, Commands(p, pmac))), Commands(n, nmac), n));
            changed.Some? && Suffices(p, n, changed.value, full.value)
  {
    RunAll(FRESH, p, pmac);
    RunAll(FRESH, n, nmac);
    RunChange(p, pmac, n, nmac, Applied(p, Commands(p, pmac)));
    AfterSuffices(p, pmac, n, nmac);
  }

  /** Where the change is overlooked the daemon keeps its old forward delay. */
  lemma ForwardDelayOverlooked()
    ensures exists p: SpanningTree, n: SpanningTree ::
            Valid(p) && Valid(n) && Uniform(p) && Uniform(n) && p.forwardDelay == 15 &&
              var next := Changed(Some(Applied(p, Commands(p, ""))), Commands(n, ""), n);
              var r := ExecAll(FullSettings(p, ""), next);
              r.Some? && n.forwardDelay == 30 && r.value.forwardDelay == 15
  {
    var tree := Tree(32768, map[]);
    var p := SpanningTree(Rstp, 20, 15, 6, 20, None, 0, tree, map[], map[]);
    var n := p.(forwardDelay := 30);
    RunChange(p, "", n, "", Applied(p, Commands(p, "")));
    assert Valid(p) && Valid(n) && Uniform(p) && Uniform(n);
  }

  /** Where a daemon has exactly the bridge and port settings of a configuration. */
  ghost predicate PortAsConfigured(t: SpanningTree, port: Name, m: DaemonState)
    requires port in t.ports && port in t.cist.ports
  {
    var f := t.ports[port];
    && Has(m.settings, SetPort(port, AdminEdge(f.edge == Enable)))
    && Has(m.settings, SetPort(port, AutoEdge(f.edge == Auto)))
    && Has(m.settings, SetPort(port, PointToPoint(f.pointToPoint)))
    && Has(m.settings, SetPort(port, RestrRole(f.rootGuard)))
    && Has(m.settings, SetPort(port, BpduGuard(f.bpduGuard)))
    && Has(m.settings, SetPort(port, BpduFilter(f.bpduFilter)))
    && Has(m.settings, SetPort(port, PathCost(OrZero(t.cist.ports[port].cost))))
  }

  ghost predicate TreeAsConfigured(id: nat, tree: Tree, m: DaemonState) {
    && Has(m.settings, SetTreePrio(id, tree.bridgePriority / 4096))
    && forall p :: p in tree.ports ==>
         && Has(m.settings, SetTreePort(p, id, PortPrio(tree.ports[p].priority / 16)))
         && Has(m.settings, SetTreePort(p, id, PortCost(OrZero(tree.ports[p].cost))))
  }

  ghost predicate HasAll(t: SpanningTree, mac: string, m: DaemonState) {
    forall k :: Wanted(t, mac, k).Some? ==> k in m.settings && m.settings[k] == Wanted(t, mac, k).value
  }

  lemma HasWanted(t: SpanningTree, mac: string, m: DaemonState, c: Cmd)
    requires Asks(t, mac, c) && HasAll(t, mac, m)
    ensures Has(m.settings, c)
  {
  }

  lemma HasPortValue(t: SpanningTree, mac: string, m: DaemonState, port: Name, v: PortValue)
    requires v in PortValues(t, port) && HasAll(t, mac, m)
    ensures Has(m.settings, SetPort(port, v))
  {
    PortValueAt(t, port, v);
    HasWanted(t, mac, m, SetPort(port, v));
  }

  lemma PortMeans(t: SpanningTree, mac: string, m: DaemonState, port: Name)
    requires port in t.ports && port in t.cist.ports && HasAll(t, mac, m)
    ensures PortAsConfigured(t, port, m)
  {
    var f, vs := t.ports[port], PortValues(t, port);
    forall v | v in vs ensures Has(m.settings, SetPort(port, v)) { HasPortValue(t, mac, m, port, v); }
    assert vs[0] in vs && vs[1] in vs && vs[2] in vs && vs[3] in vs && vs[4] in vs && vs[5] in vs && vs[6] in vs;
  }

  lemma TreeMeans(t: SpanningTree, mac: string, m: DaemonState, id: nat, tree: Tree)
    requires TreeOf(t, id) == Some(tree)
    requires HasAll(t, mac, m)
    ensures TreeAsConfigured(id, tree, m)
  {
    HasWanted(t, mac, m, SetTreePrio(id, tree.bridgePriority / 4096));
    forall p | p in tree.ports
      ensures Has(m.settings, SetTreePort(p, id, PortPrio(tree.ports[p].priority / 16)))
      ensures Has(m.settings, SetTreePort(p, id, PortCost(OrZero(tree.ports[p].cost))))
    {
      HasWanted(t, mac, m, SetTreePort(p, id, PortPrio(tree.ports[p].priority / 16)));
      HasWanted(t, mac, m, SetTreePort(p, id, PortCost(OrZero(tree.ports[p].cost))));
    }
  }

  /** The protocol, the timers, and each tree and port are as configured. */
  ghost predicate AsConfigured(t: SpanningTree, mac: string, m: DaemonState)
    requires Uniform(t)
  {
    && m.maxAge == t.maxAge && m.forwardDelay == t.forwardDelay && m.trees == t.mstis.Keys
    && Has(m.settings, SetBridge(ForceVers(t.protocol))) && Has(m.settings, SetBridge(TxHoldCount(t.holdCount)))
    && Has(m.settings, SetBridge(MaxHops(t.maxHops)))
    && Has(m.settings, SetBridge(MstConfId(t.regionRevision, RegionName(t, mac))))
    && (forall port :: port in t.ports ==> PortAsConfigured(t, port, m))
    && TreeAsConfigured(0, t.cist, m) && (forall id :: id in t.mstis ==> TreeAsConfigured(id, t.mstis[id].tree, m))
  }

  /** All commands are accepted and leave the daemon as configured. */
  lemma CommandsMean(t: SpanningTree, mac: string)
    requires Valid(t) && Uniform(t)
    ensures var r := ExecAll(FRESH, Commands(t, mac)); r.Some? && AsConfigured(t, mac, r.value)
  {
    RunAll(FRESH, t, mac);
    ConfiguredHas(t, mac);
    MeansAll(t, mac, FullSettings(t, mac));
  }

  lemma MeansAll(t: SpanningTree, mac: string, m: DaemonState)
    requires Uniform(t) && 0 !in t.mstis && HasAll(t, mac, m)
    requires m.maxAge == t.maxAge && m.forwardDelay == t.forwardDelay && m.trees == t.mstis.Keys
    ensures AsConfigured(t, mac, m)
  {
    BridgeMeans(t, mac, m);
    ConfiguredMeans(t, mac, m);
  }

  lemma BridgeMeans(t: SpanningTree, mac: string, m: DaemonState)
    requires HasAll(t, mac, m)
    ensures Has(m.settings, SetBridge(ForceVers(t.protocol))) && Has(m.settings, SetBridge(TxHoldCount(t.holdCount)))
    ensures Has(m.settings, SetBridge(MaxHops(t.maxHops)))
            && Has(m.settings, SetBridge(MstConfId(t.regionRevision, RegionName(t, mac))))
  {
    HasWanted(t, mac, m, SetBridge(ForceVers(t.protocol)));
    HasWanted(t, mac, m, SetBridge(TxHoldCount(t.holdCount)));
    HasWanted(t, mac, m, SetBridge(MaxHops(t.maxHops)));
    HasWanted(t, mac, m, SetBridge(MstConfId(t.regionRevision, RegionName(t, mac))));
  }

  lemma ConfiguredHas(t: SpanningTree, mac: string)
    ensures HasAll(t, mac, FullSettings(t, mac))
  {
    forall k | Wanted(t, mac, k).Some?
      ensures k in FullSettings(t, mac).settings && FullSettings(t, mac).settings[k] == Wanted(t, mac, k).value
    {
      SettingsAfter(FRESH, t, mac, true, {}, k);
    }
  }

  lemma ConfiguredMeans(t: SpanningTree, mac: string, m: DaemonState)
    requires Uniform(t) && 0 !in t.mstis && HasAll(t, mac, m)
    ensures forall port :: port in t.ports ==> PortAsConfigured(t, port, m)
    ensures TreeAsConfigured(0, t.cist, m) && forall id :: id in t.mstis ==> TreeAsConfigured(id, t.mstis[id].tree, m)
  {
    forall port | port in t.ports ensures PortAsConfigured(t, port, m) { PortMeans(t, mac, m, port); }
    TreeMeans(t, mac, m, 0, t.cist);
    forall id | id in t.mstis ensures TreeAsConfigured(id, t.mstis[id].tree, m)
    {
      TreeMeans(t, mac, m, id, t.mstis[id].tree);
    }
  }
}
