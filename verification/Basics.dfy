/** Names, ordered enumeration of sets, and flattening: what the other modules share. */
module Basics {

  datatype Option<+T> = None | Some(value: T)

  datatype Result<+T, +E> = Ok(value: T) | Err(error: E)

  /** An interface name. */
  datatype Name = Name(text: string)

  /** BRIDGE_NAME: the bridge that holds all switch ports. */
  const BR := Name("br-lan")
  /** The loopback link. */
  const LO := Name("lo")

  // ----- enumerating a set in ascending order, as a BTreeSet or BTreeMap is iterated -----

  ghost predicate TotalOrder<T(!new)>(le: (T, T) -> bool) {
    && (forall x, y :: le(x, y) || le(y, x))
    && (forall x, y :: le(x, y) && le(y, x) ==> x == y)
    && (forall x, y, z :: le(x, y) && le(y, z) ==> le(x, z))
  }

  /** `r` holds each element of `s` once. */
  ghost predicate Lists<T(!new)>(r: seq<T>, s: set<T>) {
    && (forall x :: x in r <==> x in s)
    && (forall i, j :: 0 <= i < j < |r| ==> r[i] != r[j])
  }

  function Elems<T(!new)>(r: seq<T>): (s: set<T>)
    ensures forall x :: x in s <==> x in r
  {
    if r == [] then {} else {r[0]} + Elems(r[1..])
  }

  lemma {:induction false} ListsLength<T(!new)>(r: seq<T>, s: set<T>)
    requires Lists(r, s)
    ensures |r| == |s|
    decreases r
  {
    if r == [] {
      assert s == {};
    } else {
      var n := |r| - 1;
      assert forall x :: x in r[..n] <==> x in s - {r[n]} by {
        assert forall x :: x in r <==> x in r[..n] || x == r[n];
      }
      ListsLength(r[..n], s - {r[n]});
    }
  }

  predicate IsLeast<T(==)>(x: T, s: set<T>, le: (T, T) -> bool) { x in s && forall y :: y in s ==> le(x, y) }

  lemma LeastOfTwo<T(!new)>(s: set<T>, le: (T, T) -> bool, a: T, b: T)
    requires TotalOrder(le) && a in s && IsLeast(b, s - {a}, le)
    ensures IsLeast(if le(a, b) then a else b, s, le)
  {
    var least := if le(a, b) then a else b;
    assert le(least, a) && le(least, b);
    forall y | y in s ensures le(least, y) {
      if y != a { assert y in s - {a} && le(b, y); }
    }
  }

  lemma {:induction false} LeastExists<T(!new)>(s: set<T>, le: (T, T) -> bool)
    requires TotalOrder(le)
    requires s != {}
    ensures exists x :: IsLeast(x, s, le)
    decreases s
  {
    var a :| a in s;
    if s == {a} {
      assert le(a, a);
      assert IsLeast(a, s, le);
    } else {
      LeastExists(s - {a}, le);
      var b :| IsLeast(b, s - {a}, le);
      LeastOfTwo(s, le, a, b);
    }
  }

  function Ascending<T(==, !new)>(s: set<T>, le: (T, T) -> bool): (r: seq<T>)
    requires TotalOrder(le)
    ensures Lists(r, s)
    ensures forall i, j :: 0 <= i < j < |r| ==> le(r[i], r[j])
    decreases s
  {
    if s == {} then [] else
      LeastExists(s, le);
      var x :| IsLeast(x, s, le);
      var rest := Ascending(s - {x}, le);
      assert forall y :: y in s ==> y == x || y in s - {x};
      [x] + rest
  }

  // ----- the orders -----

  predicate StringLe(a: string, b: string) {
    if a == [] then true
    else if b == [] then false
    else if a[0] == b[0] then StringLe(a[1..], b[1..])
    else a[0] < b[0]
  }

  lemma {:induction false} StringLeTotal(a: string, b: string)
    ensures StringLe(a, b) || StringLe(b, a)
    ensures StringLe(a, b) && StringLe(b, a) ==> a == b
    decreases a
  {
    if a != [] && b != [] && a[0] == b[0] {
      StringLeTotal(a[1..], b[1..]);
      assert a == [a[0]] + a[1..] && b == [b[0]] + b[1..];
    }
  }

  lemma {:induction false} StringLeTransitive(a: string, b: string, c: string)
    requires StringLe(a, b) && StringLe(b, c)
    ensures StringLe(a, c)
    decreases a
  {
    if a != [] && b != [] && c != [] && a[0] == b[0] == c[0] {
      StringLeTransitive(a[1..], b[1..], c[1..]);
    }
  }

  lemma NameOrder()
    ensures TotalOrder((a: Name, b: Name) => StringLe(a.text, b.text))
  {
    var le := (a: Name, b: Name) => StringLe(a.text, b.text);
    forall x: Name, y: Name
      ensures le(x, y) || le(y, x)
      ensures le(x, y) && le(y, x) ==> x == y
    {
      StringLeTotal(x.text, y.text);
    }
    forall x: Name, y: Name, z: Name | le(x, y) && le(y, z)
      ensures le(x, z)
    {
      StringLeTransitive(x.text, y.text, z.text);
    }
  }

  function Names(s: set<Name>): (r: seq<Name>)
    ensures Lists(r, s)
  {
    NameOrder();
    Ascending(s, (a: Name, b: Name) => StringLe(a.text, b.text))
  }

  function Numbers(s: set<nat>): (r: seq<nat>)
    ensures Lists(r, s)
    ensures forall i, j :: 0 <= i < j < |r| ==> r[i] < r[j]
  {
    Ascending(s, (a: nat, b: nat) => a <= b)
  }

  // ----- flattening -----

  function Flat<K, T>(keys: seq<K>, f: K -> seq<T>): (r: seq<T>) {
    if keys == [] then [] else f(keys[0]) + Flat(keys[1..], f)
  }

  lemma {:induction false} FlatAppend<K, T>(a: seq<K>, b: seq<K>, f: K -> seq<T>)
    ensures Flat(a + b, f) == Flat(a, f) + Flat(b, f)
    decreases a
  {
    if a == [] {
      assert a + b == b;
    } else {
      assert (a + b)[1..] == a[1..] + b;
      FlatAppend(a[1..], b, f);
    }
  }

  /** One more turn of a loop over `keys`. */
  lemma FlatStep<K, T>(keys: seq<K>, i: nat, f: K -> seq<T>)
    requires i < |keys|
    ensures Flat(keys[..i + 1], f) == Flat(keys[..i], f) + f(keys[i])
  {
    assert keys[..i + 1] == keys[..i] + [keys[i]];
    FlatAppend(keys[..i], [keys[i]], f);
    assert Flat([keys[i]], f) == f(keys[i]);
  }

  lemma {:induction false} FlatIn<K(!new), T>(keys: seq<K>, f: K -> seq<T>, x: T)
    ensures x in Flat(keys, f) <==> exists k :: k in keys && x in f(k)
    decreases keys
  {
    if keys != [] {
      FlatIn(keys[1..], f, x);
      assert forall k :: k in keys <==> k == keys[0] || k in keys[1..];
    }
  }

  lemma {:induction false} FlatEmpty<K(!new), T>(keys: seq<K>, f: K -> seq<T>)
    ensures Flat(keys, f) == [] <==> forall k :: k in keys ==> f(k) == []
    decreases keys
  {
    if keys != [] {
      FlatEmpty(keys[1..], f);
      assert forall k :: k in keys <==> k == keys[0] || k in keys[1..];
    }
  }

  lemma TakeStep<T>(xs: seq<T>, k: nat)
    requires k < |xs|
    ensures xs[..k + 1] == xs[..k] + [xs[k]] && xs[..k + 1][..k] == xs[..k]
  {
  }

  lemma TakeNone<T>(xs: seq<T>)
    ensures xs[..0] == []
  {
  }

  lemma TakeAll<T>(xs: seq<T>)
    ensures xs[..|xs|] == xs
  {
  }
}
