/** Port numbers and PortLists of the bridge MIBs (crates/switch-model/src/mib.rs). */
module PortLists {
  import opened Basics
  import opened VlanRanges
  import opened Base64

  // ----- numbering the ports -----

  const MAX_NUMBER := 65535

  function TrailingDigits(s: string): string {
    if s != [] && IsDigit(s[|s| - 1]) then TrailingDigits(s[..|s| - 1]) + [s[|s| - 1]] else []
  }

  /** The number at the end of a name, if it fits 32 bits. */
  function Trailing(n: Name): Option<nat> {
    var t := TrailingDigits(n.text);
    if t != [] && DigitsValue(t) < 0x1_0000_0000 then Some(DigitsValue(t)) else None
  }

  /** By number, then by name; names without a number last. */
  predicate Before(a: Name, b: Name) {
    var x, y := Trailing(a), Trailing(b);
    if x.None? != y.None? then x.Some?
    else if x != y then x.value < y.value
    else StringLe(a.text, b.text)
  }

  lemma BeforeIsOrder()
    ensures TotalOrder((a: Name, b: Name) => Before(a, b))
  {
    var le := (a: Name, b: Name) => Before(a, b);
    forall x: Name, y: Name
      ensures le(x, y) || le(y, x)
      ensures le(x, y) && le(y, x) ==> x == y
    {
      StringLeTotal(x.text, y.text);
    }
    forall x: Name, y: Name, z: Name | le(x, y) && le(y, z) ensures le(x, z) {
      if StringLe(x.text, y.text) && StringLe(y.text, z.text) { StringLeTransitive(x.text, y.text, z.text); }
    }
  }

  function Sorted(ports: set<Name>): (r: seq<Name>)
    ensures Lists(r, ports)
    ensures forall i, j :: 0 <= i < j < |r| ==> Before(r[i], r[j])
  {
    BeforeIsOrder();
    var r := Ascending(ports, (a: Name, b: Name) => Before(a, b));
    assert forall i, j :: 0 <= i < j < |r| ==> ((a: Name, b: Name) => Before(a, b))(r[i], r[j]);
    r
  }

  function Capped(n: nat): nat { if n <= MAX_NUMBER then n else MAX_NUMBER }

  /** The ports of `order` have the numbers 1, 2, ... up to the largest 16-bit one. */
  ghost predicate Numbering(order: seq<Name>, m: map<Name, nat>) {
    && (forall n :: n in m <==> n in order)
    && (forall i :: 0 <= i < |order| ==> order[i] in m && m[order[i]] == Capped(i + 1))
  }

  function NumbersIn(order: seq<Name>): (m: map<Name, nat>)
    ensures forall n :: n in m <==> n in order
  {
    if order == [] then map[] else
      var n := |order| - 1;
      TakeStep(order, n);
      NumbersIn(order[..n])[order[n] := Capped(n + 1)]
  }

  lemma {:induction false} NumberingIn(order: seq<Name>)
    requires forall i, j :: 0 <= i < j < |order| ==> order[i] != order[j]
    ensures Numbering(order, NumbersIn(order))
    decreases order
  {
    if order != [] {
      var n := |order| - 1;
      NumberingIn(order[..n]);
      NumberingStep(order[..n], order[n], NumbersIn(order[..n]));
      TakeStep(order, n);
      TakeAll(order);
    }
  }

  lemma NumberingStep(rest: seq<Name>, x: Name, m: map<Name, nat>)
    requires Numbering(rest, m) && x !in rest
    ensures Numbering(rest + [x], m[x := Capped(|rest| + 1)])
  {
    assert forall i :: 0 <= i < |rest| ==> rest[i] in rest && (rest + [x])[i] == rest[i];
  }

  function PortNumbers(ports: set<Name>): (m: map<Name, nat>)
    ensures m.Keys == ports
  {
    NumbersIn(Sorted(ports))
  }

  method PortNumbersInPlace(ports: set<Name>) returns (m: map<Name, nat>)
    ensures m == PortNumbers(ports)
  {
    var order := Sorted(ports);
    m := map[];
    for i := 0 to |order|
      invariant m == NumbersIn(order[..i])
    {
      TakeStep(order, i);
      m := m[order[i] := Capped(i + 1)];
    }
    TakeAll(order);
  }

  ghost predicate Injective(m: map<Name, nat>) { forall a, b :: a in m && b in m && m[a] == m[b] ==> a == b }

  ghost predicate Uses(m: map<Name, nat>, k: nat) { exists n :: n in m && m[n] == k }

  /**
   * The numbers are exactly 1..n, one for each port, in order of the trailing numbers, as long as
   * they fit 16 bits; beyond, two ports share one.
   */
  lemma NumbersBijective(ports: set<Name>)
    ensures var m := PortNumbers(ports);
            && (Injective(m) <==> |ports| <= MAX_NUMBER)
            && (|ports| <= MAX_NUMBER ==> forall k: nat :: Uses(m, k) <==> 1 <= k <= |ports|)
            && (forall a, b :: a in ports && b in ports && Before(a, b) ==> m[a] <= m[b])
  {
    var order, m := Sorted(ports), PortNumbers(ports);
    ListsLength(order, ports);
    NumberingIn(order);
    Numbered(order, m);
    AllInOrder(order, m, ports);
  }

  lemma AllInOrder(order: seq<Name>, m: map<Name, nat>, ports: set<Name>)
    requires Numbering(order, m) && Lists(order, ports)
             && forall i, j :: 0 <= i < j < |order| ==> Before(order[i], order[j])
    ensures forall a, b :: a in ports && b in ports && Before(a, b) ==> a in m && b in m && m[a] <= m[b]
  {
    forall a, b | a in ports && b in ports && Before(a, b) ensures a in m && b in m && m[a] <= m[b]
    {
      InOrder(order, m, a, b);
    }
  }

  lemma InOrder(order: seq<Name>, m: map<Name, nat>, a: Name, b: Name)
    requires Numbering(order, m) && a in order && b in order && Before(a, b)
    requires forall i, j :: 0 <= i < j < |order| ==> Before(order[i], order[j])
    ensures a in m && b in m && m[a] <= m[b]
  {
    var i :| 0 <= i < |order| && order[i] == a;
    var j :| 0 <= j < |order| && order[j] == b;
    if j < i {
      assert Before(b, a);
      StringLeTotal(a.text, b.text);
      assert a == b;
    }
  }

  lemma Numbered(order: seq<Name>, m: map<Name, nat>)
    requires Numbering(order, m) && forall i, j :: 0 <= i < j < |order| ==> order[i] != order[j]
    ensures Injective(m) <==> |order| <= MAX_NUMBER
    ensures |order| <= MAX_NUMBER ==> forall k: nat :: Uses(m, k) <==> 1 <= k <= |order|
  {
    if |order| > MAX_NUMBER {
      assert m[order[MAX_NUMBER - 1]] == m[order[MAX_NUMBER]];
    } else {
      forall a, b | a in m && b in m && m[a] == m[b] ensures a == b {
        var i :| 0 <= i < |order| && order[i] == a;
        var j :| 0 <= j < |order| && order[j] == b;
        assert m[a] == i + 1 && m[b] == j + 1;
      }
      forall k: nat ensures Uses(m, k) <==> 1 <= k <= |order| {
        if 1 <= k <= |order| { assert m[order[k - 1]] == k; }
        if Uses(m, k) {
          var n :| n in m && m[n] == k;
          var i :| 0 <= i < |order| && order[i] == n;
        }
      }
    }
  }

  // ----- bits of an octet, the most significant one first -----

  function Pow2(n: nat): (p: nat)
    ensures p > 0
  {
    if n == 0 then 1 else 2 * Pow2(n - 1)
  }

  function Value(bits: seq<bool>): (v: nat)
    ensures v < Pow2(|bits|)
  {
    if bits == [] then 0 else 2 * Value(bits[..|bits| - 1]) + (if bits[|bits| - 1] then 1 else 0)
  }

  function Halved(x: nat, times: nat): nat { if times == 0 then x else Halved(x / 2, times - 1) }

  /** The `k`-th most significant bit. */
  predicate Bit(x: Octet, k: nat)
    requires k < 8
  {
    Halved(x, 7 - k) % 2 == 1
  }

  lemma {:induction false} HalvedValue(bits: seq<bool>, k: nat)
    requires k < |bits|
    ensures Halved(Value(bits), |bits| - 1 - k) % 2 == if bits[k] then 1 else 0
    decreases bits
  {
    var n := |bits| - 1;
    if k < n {
      assert Value(bits) / 2 == Value(bits[..n]);
      HalvedValue(bits[..n], k);
    }
  }

  lemma {:induction false} SetValue(bits: seq<bool>, k: nat)
    requires k < |bits| && !bits[k]
    ensures Value(bits[k := true]) == Value(bits) + Pow2(|bits| - 1 - k)
    decreases bits
  {
    var n, set1 := |bits| - 1, bits[k := true];
    if k == n {
      assert set1[..n] == bits[..n];
    } else {
      assert set1[..n] == bits[..n][k := true] && set1[n] == bits[n];
      SetValue(bits[..n], k);
    }
  }

  lemma Pow8()
    ensures Pow2(8) == 256
  {
    assert Pow2(2) == 4 && Pow2(4) == 16;
    assert Pow2(6) == 64;
  }

  function OctetOf(bits: seq<bool>): Octet
    requires |bits| == 8
  {
    Pow8();
    Value(bits)
  }

  lemma {:induction false} RoomFor(x: nat, n: nat, m: nat)
    requires x < Pow2(n) && m < n && Halved(x, m) % 2 == 0
    ensures x + Pow2(m) < Pow2(n)
    decreases m
  {
    if m > 0 { RoomFor(x / 2, n - 1, m - 1); }
  }

  /** Or with the single bit `0x80 >> k`. */
  function OrBit(x: Octet, k: nat): Octet
    requires k < 8
  {
    Pow8();
    if Bit(x, k) then x else
      RoomFor(x, 8, 7 - k);
      x + Pow2(7 - k)
  }

  lemma OrBitSets(bits: seq<bool>, k: nat)
    requires |bits| == 8 && k < 8
    ensures OrBit(OctetOf(bits), k) == OctetOf(bits[k := true])
  {
    HalvedValue(bits, k);
    if bits[k] { assert bits[k := true] == bits; } else { SetValue(bits, k); }
  }

  // ----- a PortList -----

  function OctetsFor(n: nat): (k: nat)
    ensures 8 * k >= n && k >= 1
  {
    if n == 0 then 1 else (n + 7) / 8
  }

  /** The members whose bits are in octet `j`. */
  function BitsAt(members: set<nat>, j: nat): (bits: seq<bool>)
    ensures |bits| == 8 && forall k :: 0 <= k < 8 ==> (bits[k] <==> 8 * j + k + 1 in members)
  {
    seq(8, k requires 0 <= k < 8 => 8 * j + k + 1 in members)
  }

  function ListOf(members: set<nat>, octets: nat): (list: seq<Octet>)
    ensures |list| == octets && forall j :: 0 <= j < octets ==> list[j] == OctetOf(BitsAt(members, j))
  {
    seq(octets, j requires 0 <= j < octets => OctetOf(BitsAt(members, j)))
  }

  /** The numbers of the members a PortList shows. */
  function MembersIn(list: seq<Octet>): set<nat> { set i | 0 <= i < 8 * |list| && Bit(list[i / 8], i % 8) :: i + 1 }

  lemma ListShows(members: set<nat>, octets: nat)
    requires forall m :: m in members ==> 1 <= m <= 8 * octets
    ensures MembersIn(ListOf(members, octets)) == members
  {
    var list := ListOf(members, octets);
    forall i | 0 <= i < 8 * octets ensures Bit(list[i / 8], i % 8) <==> i + 1 in members {
      var bits := BitsAt(members, i / 8);
      HalvedValue(bits, i % 8);
      assert 8 * (i / 8) + i % 8 == i;
    }
    forall m | m in members ensures m in MembersIn(list) { assert Bit(list[(m - 1) / 8], (m - 1) % 8); }
  }

  ghost function MembersOf(names: seq<Name>, numbers: map<Name, nat>): set<nat> {
    set n | n in names && n in numbers :: numbers[n]
  }

  /** Setting the bit of one more member in its octet. */
  lemma AddMember(members: set<nat>, m: nat, j: nat)
    requires m >= 1
    ensures var octet := OctetOf(BitsAt(members, j));
            OctetOf(BitsAt(members + {m}, j)) == if j == (m - 1) / 8 then OrBit(octet, (m - 1) % 8) else octet
  {
    var was, now, k := BitsAt(members, j), BitsAt(members + {m}, j), (m - 1) % 8;
    if j == (m - 1) / 8 {
      assert 8 * j + k + 1 == m;
      assert now == was[k := true];
      OrBitSets(was, k);
    } else {
      forall i | 0 <= i < 8 ensures now[i] == was[i] { assert (8 * j + i) / 8 == j; }
      assert now == was;
    }
  }

  lemma AddToAll(members: set<nat>, m: nat, list: seq<Octet>)
    requires m >= 1 && forall j :: 0 <= j < |list| ==> list[j] == OctetOf(BitsAt(members, j))
    ensures forall j ::
            0 <= j < |list| ==>
            OctetOf(BitsAt(members + {m}, j)) == if j == (m - 1) / 8 then OrBit(list[j], (m - 1) % 8) else list[j]
  {
    forall j | 0 <= j < |list|
      ensures OctetOf(BitsAt(members + {m}, j)) == if j == (m - 1) / 8 then OrBit(list[j], (m - 1) % 8) else list[j]
    {
      AddMember(members, m, j);
    }
  }

  /** Sets the bit of member `m` in the buffer. */
  method SetBit(a: array<Octet>, m: nat, ghost done: set<nat>)
    requires 1 <= m <= 8 * a.Length && a[..] == ListOf(done, a.Length)
    modifies a
    ensures a[..] == ListOf(done + {m}, a.Length)
  {
    AddToAll(done, m, a[..]);
    a[(m - 1) / 8] := OrBit(a[(m - 1) / 8], (m - 1) % 8);
  }

  lemma MembersStep(names: seq<Name>, n: Name, numbers: map<Name, nat>)
    ensures MembersOf(names + [n], numbers) == if n in numbers then MembersOf(names, numbers) + {numbers[n]}
            else MembersOf(names, numbers)
  {
    assert forall x :: x in names + [n] <==> x in names || x == n;
  }

  /** The loop of `port_list`, in a buffer of octets. */
  method PortListInPlace(names: seq<Name>, numbers: map<Name, nat>) returns (list: seq<Octet>)
    requires forall n :: n in numbers ==> 1 <= numbers[n] <= 8 * OctetsFor(|numbers|)
    ensures list == ListOf(MembersOf(names, numbers), OctetsFor(|numbers|))
  {
    var size := OctetsFor(|numbers|);
    var a := new Octet[size](_ => 0);
    forall j | 0 <= j < size ensures a[j] == OctetOf(BitsAt({}, j)) { NoBits(BitsAt({}, j)); }
    assert a[..] == ListOf({}, size) && MembersOf(names[..0], numbers) == {};
    for i := 0 to |names|
      invariant a[..] == ListOf(MembersOf(names[..i], numbers), size)
    {
      MembersStep(names[..i], names[i], numbers);
      TakeStep(names, i);
      if names[i] in numbers { SetBit(a, numbers[names[i]], MembersOf(names[..i], numbers)); }
    }
    TakeAll(names);
    list := a[..];
  }

  lemma {:induction false} NoBits(bits: seq<bool>)
    requires forall k :: 0 <= k < |bits| ==> !bits[k]
    ensures Value(bits) == 0
    decreases bits
  {
    if bits != [] { NoBits(bits[..|bits| - 1]); }
  }

  // ----- as text -----

  function Text(members: set<nat>, octets: nat): string { Encode(ListOf(members, octets)) }

  function Shown(text: string): Option<set<nat>> {
    match Decode(text) case Some(list) => Some(MembersIn(list)) case None => None
  }

  /** A PortList read back, through base64 and the bits, shows exactly its members. */
  lemma TextShows(members: set<nat>, octets: nat)
    requires forall m :: m in members ==> 1 <= m <= 8 * octets
    ensures Shown(Text(members, octets)) == Some(members)
  {
    RoundTrip(ListOf(members, octets));
    ListShows(members, octets);
  }

  /**
   * Ports are numbered by the number in their name, equal ones by name, and ports without one come
   * last: strictly so while there are no more ports than numbers.
   */
  lemma NumbersFollowNames(ports: set<Name>, a: Name, b: Name)
    requires a in ports && b in ports
    requires Ahead(Trailing(a), Trailing(b)) || (Trailing(a) == Trailing(b) && StringLe(a.text, b.text))
    ensures var m := PortNumbers(ports); m[a] <= m[b] && (a != b && |ports| <= MAX_NUMBER ==> m[a] < m[b])
  {
    NamesBefore(a, b);
    NumberingIn(Sorted(ports));
    InOrder(Sorted(ports), PortNumbers(ports), a, b);
    if a != b && |ports| <= MAX_NUMBER { NumbersApart(ports, a, b); }
  }

  lemma NamesBefore(a: Name, b: Name)
    requires Ahead(Trailing(a), Trailing(b)) || (Trailing(a) == Trailing(b) && StringLe(a.text, b.text))
    ensures Before(a, b)
  {
  }

  lemma NumbersApart(ports: set<Name>, a: Name, b: Name)
    requires a in ports && b in ports && a != b && |ports| <= MAX_NUMBER
    ensures PortNumbers(ports)[a] != PortNumbers(ports)[b]
  {
    NumbersBijective(ports);
  }

  predicate Ahead(x: Option<nat>, y: Option<nat>) { x.Some? && (y.None? || x.value < y.value) }
}
