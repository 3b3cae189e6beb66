/** The VLAN tables of Q-BRIDGE-MIB: as in the kernel and as configured (crates/switch-model/src/mib.rs). */
module QBridge {
  import opened Basics
  import opened Model
  import opened Kernel
  import opened Planner
  import opened Matching
  import Base64
  import opened PortLists

  /** A row's egress and untagged PortLists. */
  datatype Row = Row(egress: string, untagged: string)

  type Vlans = map<Vid, bool>

  /** What the kernel has for the configured ports: their VLANs, and whether each is untagged. */
  function PortVlans(d: Desired, s: State): map<Name, Vlans> {
    map n | n in s.vlans && n in d.ports :: map v | v in s.vlans[n] :: s.vlans[n][v].untagged
  }

  // ----- from the kernel -----

  predicate Has(pv: map<Name, Vlans>, numbers: map<Name, nat>, n: Name, v: Vid) {
    n in pv && n in numbers && v in pv[n]
  }

  type Rows = map<Vid, map<Name, bool>>

  predicate In(rows: Rows, v: Vid, n: Name) { v in rows && n in rows[v] }

  ghost predicate NoEmptyRow(rows: Rows) { forall v :: v in rows ==> rows[v] != map[] }

  /** `rows` turns VLANs by port, for the ports in `done`, into ports by VLAN. */
  ghost predicate Turned(pv: map<Name, Vlans>, numbers: map<Name, nat>, done: set<Name>, rows: Rows) {
    && NoEmptyRow(rows)
    && (forall v, n :: In(rows, v, n) <==> n in done && Has(pv, numbers, n, v))
    && (forall v, n :: In(rows, v, n) ==> rows[v][n] == pv[n][v])
  }

  /** `rows` is `before` with port `n` in its VLANs `vids`. */
  ghost predicate Joins(n: Name, vlans: Vlans, vids: set<Vid>, before: Rows, rows: Rows)
    requires vids <= vlans.Keys
  {
    && (NoEmptyRow(before) ==> NoEmptyRow(rows))
    && (forall v, m :: In(rows, v, m) <==> In(before, v, m) || (m == n && v in vids))
    && (forall v, m :: In(rows, v, m) ==> rows[v][m] == if m == n && v in vids then vlans[v] else before[v][m])
  }

  lemma JoinsStep(n: Name, vlans: Vlans, vids: set<Vid>, before: Rows, rows: Rows, v: Vid)
    requires vids <= vlans.Keys && v in vlans && Joins(n, vlans, vids, before, rows)
    ensures Joins(n, vlans, vids + {v}, before, rows[v := (if v in rows then rows[v] else map[])[n := vlans[v]]])
  {
    var next := rows[v := (if v in rows then rows[v] else map[])[n := vlans[v]]];
    PutIn(rows, v, n, vlans[v]);
    forall w, m ensures In(next, w, m) <==> In(before, w, m) || (m == n && w in vids + {v}) {
      assert In(next, w, m) <==> In(rows, w, m) || (w == v && m == n);
    }
    forall w, m | In(next, w, m) ensures next[w][m] == if m == n && w in vids + {v} then vlans[w] else before[w][m] {
      if !(w == v && m == n) { assert In(rows, w, m) && next[w][m] == rows[w][m]; }
    }
  }

  lemma PutIn(rows: Rows, v: Vid, n: Name, x: bool)
    ensures var next := rows[v := (if v in rows then rows[v] else map[])[n := x]];
            && (forall w, m :: In(next, w, m) <==> In(rows, w, m) || (w == v && m == n))
            && (forall w, m :: In(next, w, m) ==> next[w][m] == if w == v && m == n then x else rows[w][m])
            && (NoEmptyRow(rows) ==> NoEmptyRow(next))
  {
    var row := (if v in rows then rows[v] else map[])[n := x];
    var next := rows[v := row];
    assert next[v] == row && n in row;
    assert forall m :: m in row <==> m == n || In(rows, v, m);
    forall w, m
      ensures In(next, w, m) <==> In(rows, w, m) || (w == v && m == n)
      ensures In(next, w, m) ==> next[w][m] == if w == v && m == n then x else rows[w][m]
    {
      if w != v { assert (w in next <==> w in rows) && (w in next ==> next[w] == rows[w]); }
    }
    if NoEmptyRow(rows) {
      forall w | w in next ensures next[w] != map[] {
        if w != v { assert next[w] == rows[w]; }
      }
    }
  }

  method TurnPort(n: Name, vlans: Vlans, before: Rows) returns (rows: Rows)
    ensures Joins(n, vlans, vlans.Keys, before, rows)
  {
    rows := before;
    var todo := vlans.Keys;
    ghost var vids: set<Vid> := {};
    while todo != {}
      invariant todo + vids == vlans.Keys
      invariant Joins(n, vlans, vids, before, rows)
      decreases todo
    {
      var v :| v in todo;
      todo := todo - {v};
      JoinsStep(n, vlans, vids, before, rows, v);
      rows := rows[v := (if v in rows then rows[v] else map[])[n := vlans[v]]];
      vids := vids + {v};
    }
  }

  lemma TurnedStep(pv: map<Name, Vlans>, numbers: map<Name, nat>, done: set<Name>, n: Name, before: Rows, rows: Rows)
    requires n in pv && n in numbers && Turned(pv, numbers, done, before) && Joins(n, pv[n], pv[n].Keys, before, rows)
    ensures Turned(pv, numbers, done + {n}, rows)
  {
    forall v, m ensures In(rows, v, m) <==> m in done + {n} && Has(pv, numbers, m, v) {
      assert In(before, v, m) <==> m in done && Has(pv, numbers, m, v);
    }
  }

  method TurnAll(pv: map<Name, Vlans>, numbers: map<Name, nat>) returns (rows: Rows)
    ensures Turned(pv, numbers, pv.Keys, rows)
  {
    rows := map[];
    var todo := pv.Keys;
    ghost var done: set<Name> := {};
    while todo != {}
      invariant todo + done == pv.Keys
      invariant Turned(pv, numbers, done, rows)
      decreases todo
    {
      var n :| n in todo;
      todo := todo - {n};
      if n in numbers {
        var next := TurnPort(n, pv[n], rows);
        TurnedStep(pv, numbers, done, n, rows, next);
        rows := next;
      }
      done := done + {n};
    }
  }

  // ----- the tables -----

  ghost function NumbersOf(names: set<Name>, numbers: map<Name, nat>): set<nat> {
    set n | n in names && n in numbers :: numbers[n]
  }

  /** The PortList of some ports, as text. */
  ghost function TextOf(names: set<Name>, numbers: map<Name, nat>): string {
    Text(NumbersOf(names, numbers), OctetsFor(|numbers|))
  }

  ghost predicate Fits(numbers: map<Name, nat>) {
    forall n :: n in numbers ==> 1 <= numbers[n] <= 8 * OctetsFor(|numbers|)
  }

  lemma FitsIn(order: seq<Name>, m: map<Name, nat>)
    requires Numbering(order, m) && |order| <= |m|
    ensures Fits(m)
  {
    forall n | n in m ensures 1 <= m[n] <= 8 * OctetsFor(|m|) {
      assert n in order;
      var i :| 0 <= i < |order| && order[i] == n;
      assert m[n] == Capped(i + 1);
    }
  }

  lemma KeysCount(m: map<Name, nat>, ports: set<Name>)
    requires m.Keys == ports
    ensures |m| == |ports|
  {
  }

  lemma NumbersFit(ports: set<Name>)
    ensures Fits(PortNumbers(ports))
  {
    var order := Sorted(ports);
    NumberingIn(order);
    ListsLength(order, ports);
    KeysCount(PortNumbers(ports), ports);
    FitsIn(order, PortNumbers(ports));
  }

  method ListText(names: set<Name>, numbers: map<Name, nat>) returns (t: string)
    requires Fits(numbers)
    ensures t == TextOf(names, numbers)
  {
    var ns := Names(names);
    var list := PortListInPlace(ns, numbers);
    assert MembersOf(ns, numbers) == NumbersOf(names, numbers);
    t := Base64.EncodeInPlace(list);
  }

  /** The configured ports that the kernel has in `v`, and those it has there untagged. */
  ghost function InKernel(d: Desired, s: State, v: Vid): set<Name> {
    set n | n in d.ports && n in s.vlans && v in s.vlans[n]
  }
  ghost function UntaggedInKernel(d: Desired, s: State, v: Vid): set<Name> {
    set n | n in InKernel(d, s, v) && s.vlans[n][v].untagged
  }

  /** The ports that are configured to carry `v`, and those that have it as their native VLAN. */
  function Carrying(d: Desired, v: Vid): set<Name> { set n | n in d.ports && d.ports[n].Carries(v) }
  function Native(d: Desired, v: Vid): set<Name> { set n | n in d.ports && d.ports[n].native == Some(v) }

  /** A current table: a row for each VLAN with a port, showing the kernel's ports. */
  ghost predicate IsCurrent(d: Desired, s: State, numbers: map<Name, nat>, table: map<Vid, Row>) {
    && (forall v :: v in table <==> InKernel(d, s, v) != {})
    && (forall v :: v in table ==>
          table[v] == Row(TextOf(InKernel(d, s, v), numbers), TextOf(UntaggedInKernel(d, s, v), numbers)))
  }

  /** A static table: a row for each declared VLAN, showing the configured ports. */
  ghost predicate IsStatic(d: Desired, numbers: map<Name, nat>, table: map<Vid, Row>) {
    && table.Keys == d.vlans.Keys
    && (forall v :: v in table ==> table[v] == Row(TextOf(Carrying(d, v), numbers), TextOf(Native(d, v), numbers)))
  }

  method CurrentRow(ports: map<Name, bool>, numbers: map<Name, nat>) returns (row: Row)
    requires Fits(numbers)
    ensures row == RowOf(ports, numbers)
  {
    var egress := ListText(ports.Keys, numbers);
    var untagged := ListText((set n | n in ports && ports[n]), numbers);
    row := Row(egress, untagged);
  }

  lemma RowPorts(d: Desired, s: State, numbers: map<Name, nat>, rows: Rows, v: Vid)
    requires numbers.Keys == d.ports.Keys && Turned(PortVlans(d, s), numbers, PortVlans(d, s).Keys, rows)
    ensures v in rows <==> InKernel(d, s, v) != {}
    ensures v in rows ==>
            rows[v].Keys == InKernel(d, s, v) && (set n | n in rows[v] && rows[v][n]) == UntaggedInKernel(d, s, v)
  {
    var pv := PortVlans(d, s);
    forall n ensures In(rows, v, n) <==> n in InKernel(d, s, v)
    {
      assert In(rows, v, n) <==> n in pv.Keys && Has(pv, numbers, n, v);
    }
    if v in rows {
      var n :| n in rows[v];
      assert In(rows, v, n);
      forall m | m in rows[v] ensures m in s.vlans && v in s.vlans[m] && rows[v][m] == s.vlans[m][v].untagged {
        assert In(rows, v, m);
        assert Has(pv, numbers, m, v);
      }
    }
    if InKernel(d, s, v) != {} {
      var n :| n in InKernel(d, s, v);
      assert In(rows, v, n);
    }
  }

  ghost function RowOf(ports: map<Name, bool>, numbers: map<Name, nat>): Row {
    Row(TextOf(ports.Keys, numbers), TextOf((set n | n in ports && ports[n]), numbers))
  }

  method FillRows(rows: Rows, numbers: map<Name, nat>) returns (table: map<Vid, Row>)
    requires Fits(numbers)
    ensures table.Keys == rows.Keys && forall v :: v in table ==> table[v] == RowOf(rows[v], numbers)
  {
    table := map[];
    var todo := rows.Keys;
    while todo != {}
      invariant todo <= rows.Keys && forall v :: v in table <==> v in rows && v !in todo
      invariant forall v :: v in table ==> table[v] == RowOf(rows[v], numbers)
      decreases todo
    {
      var v :| v in todo;
      todo := todo - {v};
      var row := CurrentRow(rows[v], numbers);
      table := table[v := row];
    }
  }

  method CurrentTable(d: Desired, s: State, numbers: map<Name, nat>) returns (table: map<Vid, Row>)
    requires numbers.Keys == d.ports.Keys && Fits(numbers)
    ensures IsCurrent(d, s, numbers, table)
  {
    var rows := TurnAll(PortVlans(d, s), numbers);
    table := FillRows(rows, numbers);
    forall v
      ensures v in table <==> InKernel(d, s, v) != {}
      ensures v in table ==>
              table[v] == Row(TextOf(InKernel(d, s, v), numbers), TextOf(UntaggedInKernel(d, s, v), numbers))
    {
      RowPorts(d, s, numbers, rows, v);
    }
  }

  method StaticTable(d: Desired, numbers: map<Name, nat>) returns (table: map<Vid, Row>)
    requires Fits(numbers)
    ensures IsStatic(d, numbers, table)
  {
    table := map[];
    var todo := d.vlans.Keys;
    while todo != {}
      invariant todo <= d.vlans.Keys && forall v :: v in table <==> v in d.vlans && v !in todo
      invariant forall v ::
                v in table ==> table[v] == Row(TextOf(Carrying(d, v), numbers), TextOf(Native(d, v), numbers))
      decreases todo
    {
      var v :| v in todo;
      todo := todo - {v};
      var egress := ListText(Carrying(d, v), numbers);
      var untagged := ListText(Native(d, v), numbers);
      table := table[v := Row(egress, untagged)];
    }
  }

  /** Both tables, as `q_bridge_xml` writes them. */
  method Tables(d: Desired, s: State) returns (current: map<Vid, Row>, static_: map<Vid, Row>)
    ensures IsCurrent(d, s, PortNumbers(d.ports.Keys), current) && IsStatic(d, PortNumbers(d.ports.Keys), static_)
  {
    var numbers := PortNumbersInPlace(d.ports.Keys);
    NumbersFit(d.ports.Keys);
    current := CurrentTable(d, s, numbers);
    static_ := StaticTable(d, numbers);
  }

  // ----- they agree -----

  lemma SamePort(d: Desired, s: State, n: Name, v: Vid)
    requires Matches(d, s) && n in d.ports && IsPort(s, n)
    ensures n in s.vlans && v in s.vlans[n] <==> d.ports[n].Carries(v)
    ensures n in s.vlans && v in s.vlans[n] ==> (s.vlans[n][v].untagged <==> d.ports[n].native == Some(v))
  {
    assert PortMatches(d, s, n);
    assert VlansOf(s, n) == PortTable(d.ports[n]);
    assert v in PortTable(d.ports[n]) <==> d.ports[n].Carries(v);
  }

  lemma SamePorts(d: Desired, s: State, v: Vid)
    requires Matches(d, s) && forall n :: n in d.ports ==> IsPort(s, n)
    ensures InKernel(d, s, v) == Carrying(d, v) && UntaggedInKernel(d, s, v) == Native(d, v)
  {
    forall n | n in d.ports
      ensures n in s.vlans && v in s.vlans[n] <==> d.ports[n].Carries(v)
      ensures n in s.vlans && v in s.vlans[n] ==> (s.vlans[n][v].untagged <==> d.ports[n].native == Some(v))
    {
      SamePort(d, s, n, v);
    }
  }

  lemma TextDecodes(names: set<Name>, numbers: map<Name, nat>)
    requires Fits(numbers)
    ensures Shown(TextOf(names, numbers)) == Some(NumbersOf(names, numbers))
  {
    TextShows(NumbersOf(names, numbers), OctetsFor(|numbers|));
  }

  /** A decoded list tells of every configured port whether it is one of `names`. */
  lemma TellsEach(names: set<Name>, ports: set<Name>, n: Name)
    requires |ports| <= MAX_NUMBER && names <= ports && n in ports
    ensures PortNumbers(ports)[n] in NumbersOf(names, PortNumbers(ports)) <==> n in names
  {
    NumbersBijective(ports);
  }

  lemma AgreeWith(d: Desired, s: State, numbers: map<Name, nat>, current: map<Vid, Row>, static_: map<Vid, Row>, v: Vid)
    requires Matches(d, s) && (forall n :: n in d.ports ==> IsPort(s, n))
             && (forall n, w :: n in d.ports && d.ports[n].Carries(w) ==> w in d.vlans)
    requires Fits(numbers) && IsCurrent(d, s, numbers, current) && IsStatic(d, numbers, static_)
    ensures v in current <==> exists n :: n in d.ports && d.ports[n].Carries(v)
    ensures v in current ==> v in static_ && current[v] == static_[v]
    ensures v in current ==> Shown(current[v].egress) == Some(NumbersOf(Carrying(d, v), numbers))
    ensures v in current ==> Shown(current[v].untagged) == Some(NumbersOf(Native(d, v), numbers))
  {
    SamePorts(d, s, v);
    TextDecodes(Carrying(d, v), numbers);
    TextDecodes(Native(d, v), numbers);
    if v in current {
      var n :| n in Carrying(d, v);
    }
    if n :| n in d.ports && d.ports[n].Carries(v) { assert n in Carrying(d, v); }
  }

  /**
   * Once the kernel matches, the current table has a row exactly for the VLANs that some port
   * carries. Each is in the static table with the same lists, and they tell of every port
   * whether it carries the VLAN and whether untagged, if the ports can be numbered apart.
   */
  lemma TablesAgree(d: Desired, s: State, current: map<Vid, Row>, static_: map<Vid, Row>, v: Vid)
    requires Matches(d, s) && (forall n :: n in d.ports ==> IsPort(s, n))
             && (forall n, w :: n in d.ports && d.ports[n].Carries(w) ==> w in d.vlans)
    requires IsCurrent(d, s, PortNumbers(d.ports.Keys), current) && IsStatic(d, PortNumbers(d.ports.Keys), static_)
    ensures v in current <==> exists n :: n in d.ports && d.ports[n].Carries(v)
    ensures v in current ==> v in static_ && current[v] == static_[v]
    ensures v in current ==> Shown(current[v].egress).Some? && Shown(current[v].untagged).Some?
    ensures v in current && |d.ports.Keys| <= MAX_NUMBER ==> forall n :: n in d.ports ==>
              && (PortNumbers(d.ports.Keys)[n] in Shown(current[v].egress).value <==> d.ports[n].Carries(v))
              && (PortNumbers(d.ports.Keys)[n] in Shown(current[v].untagged).value <==> d.ports[n].native == Some(v))
  {
    var ports := d.ports.Keys;
    NumbersFit(ports);
    AgreeWith(d, s, PortNumbers(ports), current, static_, v);
    if |ports| <= MAX_NUMBER {
      forall n | n in ports
        ensures PortNumbers(ports)[n] in NumbersOf(Carrying(d, v), PortNumbers(ports)) <==> n in Carrying(d, v)
        ensures PortNumbers(ports)[n] in NumbersOf(Native(d, v), PortNumbers(ports)) <==> n in Native(d, v)
      {
        TellsEach(Carrying(d, v), ports, n);
        TellsEach(Native(d, v), ports, n);
      }
    }
  }
}
