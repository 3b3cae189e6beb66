/** The base64 encoding of section 4 of RFC 4648 (crates/switch-model/src/mib.rs), and its decoding. */
module Base64 {
  import opened Basics

  type Octet = x: int | 0 <= x < 256

  /** The alphabet. */
  function CharOf(n: nat): char
    requires n < 64
  {
    if n < 26 then 'A' + n as char
    else if n < 52 then 'a' + (n - 26) as char
    else if n < 62 then '0' + (n - 52) as char
    else if n == 62 then '+' else '/'
  }

  function ValueOf(c: char): Option<nat> {
    if 'A' <= c <= 'Z' then Some((c - 'A') as int)
    else if 'a' <= c <= 'z' then Some((c - 'a') as int + 26)
    else if '0' <= c <= '9' then Some((c - '0') as int + 52)
    else if c == '+' then Some(62) else if c == '/' then Some(63) else None
  }

  lemma CharValue(n: nat)
    requires n < 64
    ensures ValueOf(CharOf(n)) == Some(n) && CharOf(n) != '='
  {
  }

  // ----- encoding -----

  /** Up to three octets as one number, missing ones zero. */
  function Joined(chunk: seq<Octet>): (n: nat)
    requires 1 <= |chunk| <= 3
    ensures n < 0x1000000
  {
    At(chunk, 0) * 0x10000 + At(chunk, 1) * 0x100 + At(chunk, 2)
  }

  function At(chunk: seq<Octet>, i: nat): (n: nat)
    ensures n < 256
  {
    if i < |chunk| then chunk[i] else 0
  }

  /** The `i`-th group of six bits, shifting by six bits at a time. */
  function Sextet(n: nat, i: nat): (v: nat)
    requires n < 0x1000000 && i < 4
    ensures v < 64
  {
    (if i == 0 then n / 64 / 64 / 64 else if i == 1 then n / 64 / 64 else if i == 2 then n / 64 else n) % 64
  }

  function Quartet(chunk: seq<Octet>): (s: string)
    requires 1 <= |chunk| <= 3
    ensures |s| == 4
  {
    var n := Joined(chunk);
    [CharOf(Sextet(n, 0)),
     CharOf(Sextet(n, 1)),
     if |chunk| >= 2 then CharOf(Sextet(n, 2)) else '=',
     if |chunk| >= 3 then CharOf(Sextet(n, 3)) else '=']
  }

  function Encode(octets: seq<Octet>): (s: string)
    ensures s == [] <==> octets == []
    decreases |octets|
  {
    if octets == [] then [] else if |octets| <= 3 then Quartet(octets) else Quartet(octets[..3]) + Encode(octets[3..])
  }

  method QuartetInPlace(chunk: seq<Octet>) returns (out: string)
    requires 1 <= |chunk| <= 3
    ensures out == Quartet(chunk)
  {
    var n := Joined(chunk);
    out := [];
    for i := 0 to 4
      invariant out == Quartet(chunk)[..i]
    {
      TakeStep(Quartet(chunk), i);
      if i <= |chunk| { out := out + [CharOf(Sextet(n, i))]; } else { out := out + ['=']; }
    }
    TakeAll(Quartet(chunk));
  }

  /** The loops of `base64`. */
  method EncodeInPlace(octets: seq<Octet>) returns (out: string)
    ensures out == Encode(octets)
  {
    out := [];
    var rest := octets;
    while rest != []
      invariant out + Encode(rest) == Encode(octets)
      decreases |rest|
    {
      var m := if |rest| < 3 then |rest| else 3;
      var four := QuartetInPlace(rest[..m]);
      EncodeStep(rest);
      Regroup(out, four, Encode(rest[m..]));
      out, rest := out + four, rest[m..];
    }
  }

  lemma Regroup(a: string, b: string, c: string)
    ensures a + (b + c) == (a + b) + c
  {
  }

  lemma EncodeStep(octets: seq<Octet>)
    requires octets != []
    ensures var m := if |octets| < 3 then |octets| else 3; Encode(octets) == Quartet(octets[..m]) + Encode(octets[m..])
  {
    if |octets| <= 3 {
      assert octets[..|octets|] == octets && octets[|octets|..] == [];
      assert Quartet(octets) + [] == Quartet(octets);
    }
  }

  // ----- decoding -----

  function First(a: nat, b: nat): Octet { (a * 4 + b / 16) % 256 }
  function Second(b: nat, c: nat): Octet { (b % 16 * 16 + c / 4) % 256 }
  function Third(c: nat, d: nat): Octet { (c % 4 * 64 + d) % 256 }

  /** One group of four characters; padding is allowed in the last one only, and the bits it leaves over are zero. */
  function DecodeFour(s: string, last: bool): Option<seq<Octet>>
    requires |s| == 4
  {
    var a, b, c, d := ValueOf(s[0]), ValueOf(s[1]), ValueOf(s[2]), ValueOf(s[3]);
    if a.None? || b.None? then None
    else if c.Some? && d.Some? then Some([First(a.value, b.value), Second(b.value, c.value), Third(c.value, d.value)])
    else if last && c.Some? && s[3] == '='
        && c.value % 4 == 0 then Some([First(a.value, b.value), Second(b.value, c.value)])
    else if last && s[2] == '=' && s[3] == '=' && b.value % 16 == 0 then Some([First(a.value, b.value)])
    else None
  }

  function Decode(s: string): Option<seq<Octet>>
    decreases |s|
  {
    if s == [] then Some([])
    else if |s| < 4 then None
    else match DecodeFour(s[..4], |s| == 4)
      case None => None
      case Some(first) => match Decode(s[4..]) case None => None case Some(rest) => Some(first + rest)
  }

  lemma Sextets(n: nat)
    requires n < 0x1000000
    ensures n == Sextet(n, 0) * 0x40000 + Sextet(n, 1) * 0x1000 + Sextet(n, 2) * 0x40 + Sextet(n, 3)
  {
    var x := n / 64;
    var y := x / 64;
    var z := y / 64;
    assert n == 64 * x + Sextet(n, 3);
    assert x == 64 * y + Sextet(n, 2);
    assert y == 64 * z + Sextet(n, 1);
    assert z < 64 && z == Sextet(n, 0);
  }

  lemma ThreeBack(x: nat, y: nat, z: nat, n: nat, a: nat, b: nat, c: nat, d: nat)
    requires n == x * 0x10000 + y * 0x100 + z && n == a * 0x40000 + b * 0x1000 + c * 0x40 + d && a < 64 && b < 64
             && c < 64 && d < 64
    requires x < 256 && y < 256 && z < 256
    ensures First(a, b) == x && Second(b, c) == y && Third(c, d) == z
    ensures y == 0 && z == 0 ==> b % 16 == 0
    ensures z == 0 ==> c % 4 == 0
  {
    Split(b, 16);
    Split(c, 4);
    SameDigits(x, y, z, 4 * a + b / 16, 16 * (b % 16) + c / 4, 64 * (c % 4) + d);
  }

  lemma Split(b: nat, k: nat)
    requires b < 64 && (k == 16 || k == 4)
    ensures b == k * (b / k) + b % k && b % k < k && b / k < 64 / k
  {
  }

  lemma SameDigits(x: nat, y: nat, z: nat, x': nat, y': nat, z': nat)
    requires x < 256 && y < 256 && z < 256 && x' < 256 && y' < 256 && z' < 256
    requires x * 0x10000 + y * 0x100 + z == x' * 0x10000 + y' * 0x100 + z'
    ensures x == x' && y == y' && z == z'
  {
  }

  lemma DecodeChars(chunk: seq<Octet>, last: bool, a: nat, b: nat, c: nat, d: nat)
    requires 1 <= |chunk| <= 3 && (|chunk| < 3 ==> last) && a < 64 && b < 64 && c < 64 && d < 64
    requires First(a, b) == At(chunk, 0) && Second(b, c) == At(chunk, 1) && Third(c, d) == At(chunk, 2)
    requires (|chunk| == 1 ==> b % 16 == 0) && (|chunk| == 2 ==> c % 4 == 0)
    ensures var third, fourth := if |chunk| >= 2 then CharOf(c) else '=', if |chunk| >= 3 then CharOf(d) else '=';
            DecodeFour([CharOf(a), CharOf(b), third, fourth], last) == Some(chunk)
  {
    CharValue(a);
    CharValue(b);
    CharValue(c);
    CharValue(d);
    assert ValueOf('=').None?;
    if |chunk| == 1 {
      assert chunk == [First(a, b)];
    } else if |chunk| == 2 {
      assert chunk == [First(a, b), Second(b, c)];
    } else {
      assert chunk == [First(a, b), Second(b, c), Third(c, d)];
    }
  }

  lemma QuartetBack(chunk: seq<Octet>, last: bool)
    requires 1 <= |chunk| <= 3 && (|chunk| < 3 ==> last)
    ensures DecodeFour(Quartet(chunk), last) == Some(chunk)
  {
    var n := Joined(chunk);
    Sextets(n);
    ThreeBack(At(chunk, 0), At(chunk, 1), At(chunk, 2), n, Sextet(n, 0), Sextet(n, 1), Sextet(n, 2), Sextet(n, 3));
    DecodeChars(chunk, last, Sextet(n, 0), Sextet(n, 1), Sextet(n, 2), Sextet(n, 3));
  }

  /** Decoding gives the octets back. */
  lemma {:induction false} RoundTrip(octets: seq<Octet>)
    ensures Decode(Encode(octets)) == Some(octets)
    decreases |octets|
  {
    if octets != [] {
      var m := if |octets| < 3 then |octets| else 3;
      var head, rest := octets[..m], octets[m..];
      EncodeStep(octets);
      RoundTrip(rest);
      var s := Encode(octets);
      assert s[..4] == Quartet(head) && s[4..] == Encode(rest);
      QuartetBack(head, rest == []);
      assert head + rest == octets;
    }
  }
}
