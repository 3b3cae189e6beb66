/** Sets of VLAN ids as ids and ranges "x..y", written and read back (crates/switch-model/src/stp.rs). */
module VlanRanges {
  import opened Basics
  import opened Model

  datatype Range = Range(low: nat, high: nat)

  // ----- joining -----

  /** One more id, above all before it. */
  function Extend(rs: seq<Range>, v: nat): seq<Range> {
    if rs != [] && rs[|rs| - 1].high + 1 == v then rs[..|rs| - 1] + [Range(rs[|rs| - 1].low, v)]
    else rs + [Range(v, v)]
  }

  function Join(vs: seq<nat>): seq<Range> {
    if vs == [] then [] else Extend(Join(vs[..|vs| - 1]), vs[|vs| - 1])
  }

  predicate Denotes(rs: seq<Range>, v: nat) { exists i :: 0 <= i < |rs| && rs[i].low <= v <= rs[i].high }

  /** Ranges are increasing, disjoint and not adjacent. */
  ghost predicate Separated(rs: seq<Range>) {
    && (forall i :: 0 <= i < |rs| ==> rs[i].low <= rs[i].high)
    && (forall i, j :: 0 <= i < j < |rs| ==> rs[i].high + 1 < rs[j].low)
  }

  lemma {:induction false} JoinSeparates(vs: seq<nat>)
    requires forall i, j :: 0 <= i < j < |vs| ==> vs[i] < vs[j]
    ensures Separated(Join(vs))
    ensures forall v :: Denotes(Join(vs), v) <==> v in vs
    ensures vs != [] ==> Join(vs) != [] && Join(vs)[|Join(vs)| - 1].high == vs[|vs| - 1]
    decreases |vs|
  {
    if vs != [] {
      var before, last := vs[..|vs| - 1], vs[|vs| - 1];
      JoinSeparates(before);
      JoinTake(vs, |vs| - 1);
      TakeStep(vs, |vs| - 1);
      TakeAll(vs);
      JoinStep(Join(before), before, last);
    }
  }

  lemma JoinTake(vs: seq<nat>, i: nat)
    requires i < |vs|
    ensures Join(vs[..i + 1]) == Extend(Join(vs[..i]), vs[i])
  {
    TakeStep(vs, i);
  }

  lemma JoinStep(rs: seq<Range>, vs: seq<nat>, x: nat)
    requires Separated(rs) && (forall v :: Denotes(rs, v) <==> v in vs) && (rs != [] ==> rs[|rs| - 1].high < x)
    ensures Separated(Extend(rs, x)) && (forall v :: Denotes(Extend(rs, x), v) <==> v in vs + [x])
    ensures Extend(rs, x) != [] && Extend(rs, x)[|Extend(rs, x)| - 1].high == x
  {
    ExtendSeparates(rs, x);
    forall v ensures Denotes(Extend(rs, x), v) <==> v in vs + [x] { ExtendDenotes(rs, x, v); }
  }

  lemma ExtendSeparates(rs: seq<Range>, x: nat)
    requires Separated(rs) && (rs != [] ==> rs[|rs| - 1].high < x)
    ensures Separated(Extend(rs, x))
  {
    var out := Extend(rs, x);
    forall i, j | 0 <= i < j < |out| ensures out[i].high + 1 < out[j].low {
      if rs != [] && rs[|rs| - 1].high + 1 == x {
        assert out[i] == rs[i] && out[j].low == rs[j].low;
      } else if j == |rs| {
        assert out[i] == rs[i] && rs[i].high <= rs[|rs| - 1].high;
      }
    }
  }

  lemma ExtendDenotes(rs: seq<Range>, x: nat, v: nat)
    requires rs != [] ==> rs[|rs| - 1].low <= rs[|rs| - 1].high
    ensures Denotes(Extend(rs, x), v) <==> Denotes(rs, v) || v == x
  {
    var out := Extend(rs, x);
    if Denotes(rs, v) {
      var i :| 0 <= i < |rs| && rs[i].low <= v <= rs[i].high;
      assert out[i].low <= v <= out[i].high;
    }
    if v == x { assert out[|out| - 1].low <= v <= out[|out| - 1].high; }
    if Denotes(out, v) {
      var i :| 0 <= i < |out| && out[i].low <= v <= out[i].high;
      if i < |rs| && v != x { assert rs[i].low <= v <= rs[i].high; }
    }
  }

  /** The last range grows, or a new one begins. */
  method ExtendInPlace(rs: seq<Range>, v: nat) returns (out: seq<Range>)
    ensures out == Extend(rs, v)
  {
    if rs != [] && rs[|rs| - 1].high + 1 == v {
      out := rs[|rs| - 1 := Range(rs[|rs| - 1].low, v)];
    } else {
      out := rs + [Range(v, v)];
    }
  }

  /** The ranges of a set. */
  method RangesOf(vlans: set<Vid>) returns (rs: seq<Range>)
    ensures rs == Join(Numbers(vlans))
  {
    rs := [];
    var vs := Numbers(vlans);
    for i := 0 to |vs|
      invariant rs == Join(vs[..i])
    {
      JoinTake(vs, i);
      rs := ExtendInPlace(rs, vs[i]);
    }
    TakeAll(vs);
  }

  function Ranges(vlans: set<Vid>): seq<Range> { Join(Numbers(vlans)) }

  lemma RangesDenote(vlans: set<Vid>)
    ensures Separated(Ranges(vlans))
    ensures forall v :: Denotes(Ranges(vlans), v) <==> v in vlans
  {
    JoinSeparates(Numbers(vlans));
  }

  // ----- no shorter list -----

  ghost function Cover(rs: seq<Range>, v: nat): (i: nat)
    requires Denotes(rs, v)
    ensures i < |rs| && rs[i].low <= v <= rs[i].high
  {
    var i :| 0 <= i < |rs| && rs[i].low <= v <= rs[i].high;
    i
  }

  /** Each range of a separated list needs its own range in any other list for the same set. */
  lemma NoShorter(rs: seq<Range>, other: seq<Range>)
    requires Separated(rs)
    requires forall v :: Denotes(rs, v) <==> Denotes(other, v)
    ensures |rs| <= |other|
  {
    var used: set<nat> := {};
    var k := 0;
    while k < |rs|
      invariant 0 <= k <= |rs| && |used| == k
      invariant forall i :: i in used ==> i < |other|
      invariant forall i :: i in used ==> exists a :: 0 <= a < k && LowIn(rs, other, a, i)
    {
      assert Denotes(rs, rs[k].low);
      var i := Cover(other, rs[k].low);
      if i in used {
        var a :| 0 <= a < k && LowIn(rs, other, a, i);
        GapBetween(rs, a, k);
        assert Denotes(other, rs[a].high + 1);
        assert false;
      }
      used := used + {i};
      assert LowIn(rs, other, k, i);
      k := k + 1;
    }
    SubsetOfInitial(used, |other|);
  }

  ghost predicate LowIn(rs: seq<Range>, other: seq<Range>, a: nat, i: nat) {
    a < |rs| && i < |other| && other[i].low <= rs[a].low <= other[i].high
  }

  lemma GapBetween(rs: seq<Range>, a: nat, b: nat)
    requires Separated(rs) && a < b < |rs|
    ensures !Denotes(rs, rs[a].high + 1) && rs[a].low <= rs[a].high + 1 < rs[b].low
  {
    forall i | 0 <= i < |rs| ensures !(rs[i].low <= rs[a].high + 1 <= rs[i].high) {
      if i < a { assert rs[i].high + 1 < rs[a].low; } else if i > a { assert rs[a].high + 1 < rs[i].low; }
    }
  }

  lemma {:induction false} SubsetOfInitial(s: set<nat>, n: nat)
    requires forall i :: i in s ==> i < n
    ensures |s| <= n
    decreases n
  {
    if n == 0 {
      assert s == {};
    } else {
      SubsetOfInitial(s - {n - 1}, n - 1);
    }
  }

  // ----- text -----

  predicate IsDigit(c: char) { '0' <= c <= '9' }

  function Digit(n: nat): char
    requires n < 10
  {
    '0' + n as char
  }

  function DigitValue(c: char): nat { if IsDigit(c) then (c as int) - ('0' as int) else 0 }

  function ToText(n: nat): string {
    if n < 10 then [Digit(n)] else ToText(n / 10) + [Digit(n % 10)]
  }

  predicate AllDigits(s: string) { forall i :: 0 <= i < |s| ==> IsDigit(s[i]) }

  function DigitsValue(s: string): nat {
    if s == [] then 0 else DigitsValue(s[..|s| - 1]) * 10 + DigitValue(s[|s| - 1])
  }

  const U64: nat := 0x1_0000_0000_0000_0000

  /** Parsing an unsigned 64-bit number: digits, with an optional plus sign. */
  function ParseU64(s: string): Option<nat> {
    var t := if s != [] && s[0] == '+' then s[1..] else s;
    if t != [] && AllDigits(t) && DigitsValue(t) < U64 then Some(DigitsValue(t)) else None
  }

  lemma {:induction false} ToTextDigits(n: nat)
    ensures ToText(n) != [] && AllDigits(ToText(n)) && DigitsValue(ToText(n)) == n
    decreases n
  {
    if n < 10 {
      assert DigitsValue(ToText(n)) == DigitsValue([]) * 10 + DigitValue(Digit(n));
    } else {
      ToTextDigits(n / 10);
      var t := ToText(n);
      assert t[..|t| - 1] == ToText(n / 10) && t[|t| - 1] == Digit(n % 10);
    }
  }

  lemma ParseToText(n: nat)
    requires n < U64
    ensures ParseU64(ToText(n)) == Some(n)
  {
    ToTextDigits(n);
  }

  /** The white space of Unicode. */
  predicate IsSpace(c: char) {
    var n := c as int;
    n == 0x20 || 0x09 <= n <= 0x0D || n == 0x85 || n == 0xA0 || n == 0x1680 || 0x2000 <= n <= 0x200A
    || n == 0x2028 || n == 0x2029 || n == 0x202F || n == 0x205F || n == 0x3000
  }

  function TrimStart(s: string): string { if s != [] && IsSpace(s[0]) then TrimStart(s[1..]) else s }
  function TrimEnd(s: string): string { if s != [] && IsSpace(s[|s| - 1]) then TrimEnd(s[..|s| - 1]) else s }
  function Trim(s: string): string { TrimEnd(TrimStart(s)) }

  /** Splits at the first "..". */
  function SplitDots(s: string): Option<(string, string)> {
    if |s| < 2 then None
    else if s[0] == '.' && s[1] == '.' then Some(("", s[2..]))
    else match SplitDots(s[1..])
      case None => None
      case Some((a, b)) => Some(([s[0]] + a, b))
  }

  lemma {:induction false} SplitDotsAt(a: string, b: string)
    requires AllDigits(a)
    ensures SplitDots(a + ".." + b) == Some((a, b))
    decreases a
  {
    var s := a + ".." + b;
    if a == [] {
      assert s == ".." + b && s[2..] == b;
    } else {
      assert s[1..] == a[1..] + ".." + b;
      SplitDotsAt(a[1..], b);
      assert IsDigit(a[0]) && s[0] == a[0];
      assert [a[0]] + a[1..] == a;
    }
  }

  // ----- reading an entry -----

  datatype Scalar = Number(n: nat) | Text(s: string)

  datatype EntryError = OutOfRange(id: nat) | Malformed | NotBelow(low: nat, high: nat)

  function AsU64(e: Scalar): Option<nat> {
    match e
    case Number(n) => Some(n)
    case Text(s) => ParseU64(s)
  }

  /** An id, or a range with all ids in it. */
  function VlanEntry(e: Scalar): Result<Range, EntryError> {
    match AsU64(e)
    case Some(id) => if ValidVid(id) then Ok(Range(id, id)) else Err(OutOfRange(id))
    case None =>
      match SplitDots(if e.Text? then e.s else "")
      case None => Err(Malformed)
      case Some((a, b)) =>
        match (ParseU64(Trim(a)), ParseU64(Trim(b)))
        case (Some(low), Some(high)) =>
          if !ValidVid(low) then Err(OutOfRange(low))
          else if !ValidVid(high) then Err(OutOfRange(high))
          else if low >= high then Err(NotBelow(low, high))
          else Ok(Range(low, high))
        case _ => Err(Malformed)
  }

  /** A range as `vlan_ranges` writes it. */
  function RangeText(r: Range): string {
    if r.low == r.high then ToText(r.low) else ToText(r.low) + ".." + ToText(r.high)
  }

  lemma TrimDigits(s: string)
    requires s != [] && AllDigits(s)
    ensures Trim(s) == s
  {
    assert IsDigit(s[0]) && IsDigit(s[|s| - 1]);
  }

  lemma EntryOfText(r: Range)
    requires ValidVid(r.low) && ValidVid(r.high) && r.low <= r.high
    ensures VlanEntry(Text(RangeText(r))) == Ok(r)
  {
    ToTextDigits(r.low);
    ToTextDigits(r.high);
    ParseToText(r.low);
    ParseToText(r.high);
    if r.low < r.high {
      var a, b := ToText(r.low), ToText(r.high);
      var t := a + ".." + b;
      assert t[|a|] == '.' && t[0] == a[0];
      assert !AllDigits(t) && ParseU64(t).None?;
      SplitDotsAt(a, b);
      TrimDigits(a);
      TrimDigits(b);
    }
  }

  /** What `vlan_ranges` writes for a set of valid ids reads back, entry by entry, as exactly that set. */
  lemma WrittenReadsBack(vlans: set<Vid>)
    requires forall v :: v in vlans ==> ValidVid(v)
    ensures forall i ::
            0 <= i < |Ranges(vlans)| ==> VlanEntry(Text(RangeText(Ranges(vlans)[i]))) == Ok(Ranges(vlans)[i])
    ensures forall v: nat ::
            v in vlans <==> exists i :: 0 <= i < |Ranges(vlans)| && InEntry(Text(RangeText(Ranges(vlans)[i])), v)
    ensures Separated(Ranges(vlans))
  {
    var rs := Ranges(vlans);
    RangesDenote(vlans);
    forall i | 0 <= i < |rs| ensures VlanEntry(Text(RangeText(rs[i]))) == Ok(rs[i]) {
      assert Denotes(rs, rs[i].low) && Denotes(rs, rs[i].high);
      EntryOfText(rs[i]);
    }
    forall v: nat | v in vlans ensures exists i :: 0 <= i < |rs| && InEntry(Text(RangeText(rs[i])), v) {
      var i := Cover(rs, v);
      assert InEntry(Text(RangeText(rs[i])), v);
    }
    forall v: nat, i | 0 <= i < |rs| && InEntry(Text(RangeText(rs[i])), v) ensures v in vlans {
      assert Denotes(rs, v);
    }
  }

  /** The ids an entry stands for. */
  predicate InEntry(e: Scalar, v: nat) { VlanEntry(e).Ok? && VlanEntry(e).value.low <= v <= VlanEntry(e).value.high }

  /** No list of entries that `vlan_entry` accepts for a set is shorter than what `vlan_ranges` writes. */
  lemma NoShorterEntries(vlans: set<Vid>, entries: seq<Scalar>)
    requires forall i :: 0 <= i < |entries| ==> VlanEntry(entries[i]).Ok?
    requires forall v: nat :: v in vlans <==> exists i :: 0 <= i < |entries| && InEntry(entries[i], v)
    ensures |Ranges(vlans)| <= |entries|
  {
    var rs := Ranges(vlans);
    RangesDenote(vlans);
    var other := seq(|entries|, i requires 0 <= i < |entries| => VlanEntry(entries[i]).value);
    forall v: nat ensures Denotes(other, v) <==> v in vlans {
      if Denotes(other, v) {
        var i :| 0 <= i < |other| && other[i].low <= v <= other[i].high;
        assert InEntry(entries[i], v);
      }
      if v in vlans {
        var i :| 0 <= i < |entries| && InEntry(entries[i], v);
        assert other[i].low <= v <= other[i].high;
      }
    }
    NoShorter(rs, other);
  }
}
