/** What deleting a link deletes with it: exactly the VLAN links stacked on it. */
module Deletion {
  import opened Basics
  import opened Model
  import opened Kernel
  import opened Devices

  // ----- stacks of VLAN links, as a map from each to the link under it -----

  type Stack = map<Name, Name>

  /** `n` is `root`, or `k` levels above it. */
  ghost predicate Above(up: Stack, n: Name, root: Name, k: nat)
    decreases k
  {
    if k == 0 then n == root else n in up && Above(up, up[n], root, k - 1)
  }

  ghost predicate Rests(up: Stack, n: Name, root: Name) { exists k: nat :: Above(up, n, root, k) }

  ghost predicate RestsOn(up: Stack, n: Name, roots: set<Name>) { exists r :: r in roots && Rests(up, n, r) }

  /** Nothing is left on a link of `gone`. */
  ghost predicate Closed(up: Stack, gone: set<Name>) { forall n :: n in up && up[n] in gone ==> n in gone }

  /** `gone` holds the roots and what rests on them, and no more. */
  ghost predicate Falls(up: Stack, roots: set<Name>, gone: set<Name>) {
    && roots <= gone
    && Closed(up, gone)
    && forall n :: n in gone ==> RestsOn(up, n, roots)
  }

  lemma {:induction false} AboveGrows(up: Stack, gone: set<Name>, n: Name, root: Name, k: nat)
    requires Above(up - gone, n, root, k)
    ensures Above(up, n, root, k)
    decreases k
  {
    if k > 0 { AboveGrows(up, gone, up[n], root, k - 1); }
  }

  lemma RestsGrows(up: Stack, gone: set<Name>, n: Name, roots: set<Name>, more: set<Name>)
    requires RestsOn(up - gone, n, roots) && roots <= more
    ensures RestsOn(up, n, more)
  {
    var r :| r in roots && Rests(up - gone, n, r);
    var k: nat :| Above(up - gone, n, r, k);
    AboveGrows(up, gone, n, r, k);
    assert Rests(up, n, r);
  }

  lemma FallsTwice(up: Stack, r1: set<Name>, a: set<Name>, r2: set<Name>, b: set<Name>)
    requires Falls(up, r1, a) && Falls(up - a, r2, b)
    ensures Falls(up, r1 + r2, a + b)
  {
    assert up - {} == up;
    forall n | n in a + b ensures RestsOn(up, n, r1 + r2) {
      if n in a { RestsGrows(up, {}, n, r1, r1 + r2); } else { RestsGrows(up, a, n, r2, r1 + r2); }
    }
    forall n | n in up && up[n] in a + b ensures n in a + b {
      if n !in a { assert n in up - a; }
    }
  }

  lemma {:induction false} AboveOneMore(up: Stack, n: Name, c: Name, root: Name, k: nat)
    requires Above(up, n, c, k) && c in up && up[c] == root
    ensures Above(up, n, root, k + 1)
    decreases k
  {
    if k == 0 {
      assert Above(up, root, root, 0);
    } else {
      AboveOneMore(up, up[n], c, root, k - 1);
    }
  }

  /** A root with everything that rests on its children. */
  lemma FallsWithChildren(up: Stack, root: Name, children: set<Name>, gone: set<Name>)
    requires forall c :: c in children <==> c in up - {root} && up[c] == root
    requires Falls(up - {root}, children, gone)
    ensures Falls(up, {root}, {root} + gone)
  {
    assert Above(up, root, root, 0) && Rests(up, root, root);
    forall n | n in gone ensures RestsOn(up, n, {root}) {
      var c :| c in children && Rests(up - {root}, n, c);
      var k: nat :| Above(up - {root}, n, c, k);
      AboveGrows(up, {root}, n, c, k);
      AboveOneMore(up, n, c, root, k);
      assert Rests(up, n, root);
    }
    forall n | n in up && up[n] in {root} + gone ensures n in {root} + gone {
      if n != root {
        assert n in up - {root};
        if up[n] == root { assert n in children; }
      }
    }
  }

  /** Children of a link that is not itself stacked do not rest on each other. */
  lemma SiblingsApart(up: Stack, c: Name, other: Name)
    requires c in up && up[c] !in up && up[c] != other && c != other
    ensures !RestsOn(up, c, {other})
  {
    forall k: nat ensures !Above(up, c, other, k) {
      if k > 0 { assert !Above(up, up[c], other, k - 1); }
    }
  }

  lemma {:induction false} ClosedAbove(up: Stack, gone: set<Name>, n: Name, r: Name, k: nat)
    requires Closed(up, gone) && r in gone && Above(up, n, r, k)
    ensures n in gone
    decreases k
  {
    if k > 0 { ClosedAbove(up, gone, up[n], r, k - 1); }
  }

  /** The links that fall are determined by the roots. */
  lemma FallsExactly(up: Stack, roots: set<Name>, gone: set<Name>, n: Name)
    requires Falls(up, roots, gone)
    ensures n in gone <==> RestsOn(up, n, roots)
  {
    if RestsOn(up, n, roots) {
      var r :| r in roots && Rests(up, n, r);
      var k: nat :| Above(up, n, r, k);
      ClosedAbove(up, gone, n, r, k);
    }
  }

  // ----- in the kernel -----

  ghost function StackOf(s: State): Stack { map n | n in s.links && s.links[n].kind.Vlan? :: s.links[n].kind.parent }

  /** A device once the links in `gone` are deleted. */
  ghost function Without(v: Device, n: Name, gone: set<Name>): Device {
    if n in gone then BLANK
    else if v.link.Some? && v.link.value.master.Some? && v.link.value.master.value in gone then
      v.(link := Some(v.link.value.(master := None)), vlans := map[])
    else v
  }

  ghost predicate Removes(s: State, s': State, gone: set<Name>) {
    && gone <= s.links.Keys
    && forall n :: View(s', n) == Without(View(s, n), n, gone)
  }

  lemma RemovesKeepsKinds(s: State, s': State, gone: set<Name>)
    requires Removes(s, s', gone)
    ensures s'.links.Keys == s.links.Keys - gone
    ensures StackOf(s') == StackOf(s) - gone
  {
    forall n
      ensures n in s'.links <==> n in s.links && n !in gone
      ensures n in s'.links ==> s'.links[n].kind == s.links[n].kind
    {
      assert View(s', n) == Without(View(s, n), n, gone);
    }
  }

  lemma RemovesTwice(s: State, s1: State, s2: State, a: set<Name>, b: set<Name>)
    requires Removes(s, s1, a) && Removes(s1, s2, b)
    ensures Removes(s, s2, a + b)
  {
    RemovesKeepsKinds(s, s1, a);
    forall n ensures View(s2, n) == Without(View(s, n), n, a + b) {
      assert View(s1, n) == Without(View(s, n), n, a);
      assert View(s2, n) == Without(View(s1, n), n, b);
    }
  }

  /** Distinct VLAN links on one link, which is not a VLAN link. */
  ghost predicate Siblings(s: State, ns: seq<Name>, parent: Name) {
    && (forall i, j :: 0 <= i < j < |ns| ==> ns[i] != ns[j])
    && (forall n :: n in ns ==> n in StackOf(s) && StackOf(s)[n] == parent)
    && parent !in StackOf(s)
  }

  lemma UnplugRelease(s: State, s2: State, root: Name, above: set<Name>)
    requires root in s.links && Removes(Unplug(s, root), s2, above)
    ensures Removes(s, Release(s2, root), {root} + above)
  {
    var s1, s3 := Unplug(s, root), Release(s2, root);
    forall n ensures View(s3, n) == Without(View(s, n), n, {root} + above) {
      assert View(s2, n) == Without(View(s1, n), n, above);
      assert View(s1, n) == if n == root then BLANK else View(s, n);
      ReleaseView(s2, root, n);
    }
  }

  lemma ReleaseView(s: State, root: Name, n: Name)
    ensures View(Release(s, root), n) ==
            if InBridge(s, n, root) then View(s, n).(link := Some(s.links[n].(master := None)), vlans := map[])
                else View(s, n)
  {
  }

  lemma {:induction false} DeleteFalls(s: State, root: Name) returns (gone: set<Name>)
    requires root in s.links
    ensures Delete(s, root).Accepted()
    ensures Removes(s, Delete(s, root).state, gone) && Falls(StackOf(s), {root}, gone)
    decreases s.links.Keys, 0
  {
    var s1 := Unplug(s, root);
    var children := Children(s1, root);
    assert root !in s1.links.Keys && s1.links.Keys < s.links.Keys;
    assert StackOf(s1) == StackOf(s) - {root};
    var above := DeleteAllFalls(s1, children, root);
    gone := {root} + above;
    UnplugRelease(s, DeleteAll(s1, children).state, root, above);
    FallsWithChildren(StackOf(s), root, Elems(children), above);
  }

  lemma {:induction false} DeleteAllFalls(s: State, ns: seq<Name>, parent: Name) returns (gone: set<Name>)
    requires Siblings(s, ns, parent)
    ensures DeleteAll(s, ns).Accepted()
    ensures Removes(s, DeleteAll(s, ns).state, gone) && Falls(StackOf(s), Elems(ns), gone)
    decreases s.links.Keys, |ns| + 1
  {
    if ns == [] {
      gone := {};
    } else {
      assert ns[0] in ns;
      var a := DeleteFalls(s, ns[0]);
      var s1 := Delete(s, ns[0]).state;
      RemovesKeepsKinds(s, s1, a);
      assert ns[0] in s.links.Keys && ns[0] !in s1.links.Keys;
      SiblingsSurvive(s, s1, ns, parent, a);
      var b := DeleteAllFalls(s1, ns[1..], parent);
      gone := a + b;
      RemovesTwice(s, s1, DeleteAll(s, ns).state, a, b);
      FallsTwice(StackOf(s), {ns[0]}, a, Elems(ns[1..]), b);
    }
  }

  lemma SiblingsSurvive(s: State, s1: State, ns: seq<Name>, parent: Name, a: set<Name>)
    requires ns != [] && Siblings(s, ns, parent)
    requires StackOf(s1) == StackOf(s) - a && Falls(StackOf(s), {ns[0]}, a)
    ensures Siblings(s1, ns[1..], parent)
  {
    assert ns[0] in ns;
    forall n | n in ns[1..] ensures n in StackOf(s) && n !in a {
      assert n in ns && n != ns[0];
      SiblingsApart(StackOf(s), n, ns[0]);
    }
  }

  function Deletes(ns: seq<Name>): seq<Op> { seq(|ns|, i requires 0 <= i < |ns| => DeleteLink(ns[i])) }

  lemma {:induction false} RunIsDeleteAll(s: State, ns: seq<Name>)
    ensures Run(s, Deletes(ns)) == DeleteAll(s, ns)
    decreases |ns|
  {
    if ns != [] {
      assert Deletes(ns)[1..] == Deletes(ns[1..]);
      RunIsDeleteAll(Delete(s, ns[0]).state, ns[1..]);
    }
  }
}
