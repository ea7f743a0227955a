/** Tuples of atom indices, their lexicographic order, and the bookkeeping
    for loops that append one block of tuples per atom they visit. */
module Tuples {
  predicate Increasing(s: seq<nat>) {
    forall a, b :: 0 <= a < b < |s| ==> s[a] < s[b]
  }

  // ---------------------------------------------------------------------
  // Lexicographic order of tuples.

  predicate LexLess(a: seq<nat>, b: seq<nat>) {
    exists d :: 0 <= d < |a| && d < |b| && a[d] < b[d] && forall e :: 0 <= e < d ==> a[e] == b[e]
  }

  /** Strictly increasing in lexicographic order: in particular no tuple
      occurs twice. */
  predicate StrictlySorted(s: seq<seq<nat>>) {
    forall x, y :: 0 <= x < y < |s| ==> LexLess(s[x], s[y])
  }

  lemma LexLessIrreflexive(a: seq<nat>)
    ensures !LexLess(a, a)
  {
  }

  /** A strictly sorted list holds each tuple at one position only. */
  lemma SortedDistinct(s: seq<seq<nat>>, x: nat, y: nat)
    requires StrictlySorted(s) && x < |s| && y < |s| && s[x] == s[y]
    ensures x == y
  {
    if x < y {
      LexLessIrreflexive(s[x]);
    } else if y < x {
      LexLessIrreflexive(s[x]);
    }
  }

  /** Two sorted blocks whose tuples agree below position d and are ordered at
      position d join into a sorted list. */
  lemma SortedJoin(a: seq<seq<nat>>, b: seq<seq<nat>>, d: nat)
    requires StrictlySorted(a) && StrictlySorted(b)
    requires forall x, y :: x in a && y in b ==>
      d < |x| && d < |y| && x[d] < y[d] && forall e :: 0 <= e < d ==> x[e] == y[e]
    ensures StrictlySorted(a + b)
  {
    forall x, y | 0 <= x < y < |a + b| ensures LexLess((a + b)[x], (a + b)[y]) {
      if y < |a| {
        assert (a + b)[x] == a[x] && (a + b)[y] == a[y];
      } else if x >= |a| {
        assert (a + b)[x] == b[x - |a|] && (a + b)[y] == b[y - |a|];
      } else {
        var u, v := a[x], b[y - |a|];
        assert (a + b)[x] == u && (a + b)[y] == v;
        assert u in a && v in b;
        assert d < |u| && d < |v| && u[d] < v[d];
      }
    }
  }

  lemma IncreasingBelowLast(s: seq<nat>, m: nat)
    requires Increasing(s) && m + 1 == |s|
    ensures Increasing(s[..m])
    ensures forall x :: x in s[..m] ==> x < s[m]
    ensures forall x :: x in s <==> x in s[..m] || x == s[m]
  {
  }

  /** t is longer than c and begins with it. */
  predicate Starts(t: seq<nat>, c: seq<nat>) {
    |c| < |t| && forall e :: 0 <= e < |c| ==> t[e] == c[e]
  }

  // ---------------------------------------------------------------------
  // A loop over a sequence of atoms that appends a block of tuples (or adds
  // a set of pairs) for each atom visited.

  function Flat(xs: seq<nat>, f: nat -> seq<seq<nat>>): seq<seq<nat>> {
    if xs == [] then [] else Flat(xs[..|xs| - 1], f) + f(xs[|xs| - 1])
  }

  function FlatSet(xs: seq<nat>, f: nat -> set<(nat, nat)>): set<(nat, nat)> {
    if xs == [] then {} else FlatSet(xs[..|xs| - 1], f) + f(xs[|xs| - 1])
  }

  /** The atoms lo, lo + 1, ..., hi - 1. */
  function Range(lo: nat, hi: nat): seq<nat>
    decreases hi - lo
  {
    if lo >= hi then [] else Range(lo, hi - 1) + [hi - 1]
  }

  lemma {:induction false} RangeFacts(lo: nat, hi: nat)
    ensures |Range(lo, hi)| == if lo <= hi then hi - lo else 0
    ensures forall a :: 0 <= a < |Range(lo, hi)| ==> Range(lo, hi)[a] == lo + a
    ensures Increasing(Range(lo, hi))
    ensures forall x :: x in Range(lo, hi) <==> lo <= x < hi
    decreases hi - lo
  {
    if lo < hi {
      RangeFacts(lo, hi - 1);
    }
  }

  lemma {:induction false} RangeMember(lo: nat, hi: nat, x: nat)
    ensures x in Range(lo, hi) <==> lo <= x < hi
    decreases hi - lo
  {
    if lo < hi {
      RangeMember(lo, hi - 1, x);
    }
  }

  lemma {:induction false} FlatMember(xs: seq<nat>, f: nat -> seq<seq<nat>>, t: seq<nat>)
    ensures t in Flat(xs, f) <==> exists x :: x in xs && t in f(x)
  {
    if xs != [] {
      var m := |xs| - 1;
      FlatMember(xs[..m], f, t);
      assert forall x :: x in xs <==> x in xs[..m] || x == xs[m];
    }
  }

  lemma {:induction false} FlatSetMember(xs: seq<nat>, f: nat -> set<(nat, nat)>, p: (nat, nat))
    ensures p in FlatSet(xs, f) <==> exists x :: x in xs && p in f(x)
  {
    if xs != [] {
      var m := |xs| - 1;
      FlatSetMember(xs[..m], f, p);
      assert forall x :: x in xs <==> x in xs[..m] || x == xs[m];
    }
  }

  /** Blocks that are each sorted, whose tuples all begin with c and carry the
      visited atom right after c, join in increasing atom order into a sorted
      list. */
  lemma {:induction false} FlatSorted(xs: seq<nat>, f: nat -> seq<seq<nat>>, c: seq<nat>)
    requires Increasing(xs)
    requires forall x :: x in xs ==> StrictlySorted(f(x))
    requires forall x, t :: x in xs && t in f(x) ==> Starts(t, c) && t[|c|] == x
    ensures StrictlySorted(Flat(xs, f))
    ensures forall t :: t in Flat(xs, f) ==> Starts(t, c) && t[|c|] in xs
  {
    if xs != [] {
      var m := |xs| - 1;
      IncreasingBelowLast(xs, m);
      FlatSorted(xs[..m], f, c);
      FlatJoin(Flat(xs[..m], f), f(xs[m]), c, xs[..m], xs[m]);
    }
  }

  lemma FlatJoin(prev: seq<seq<nat>>, here: seq<seq<nat>>, c: seq<nat>, xs: seq<nat>, x: nat)
    requires StrictlySorted(prev) && StrictlySorted(here)
    requires forall y :: y in xs ==> y < x
    requires forall t :: t in prev ==> Starts(t, c) && t[|c|] in xs
    requires forall t :: t in here ==> Starts(t, c) && t[|c|] == x
    ensures StrictlySorted(prev + here)
    ensures forall t :: t in prev + here ==> Starts(t, c) && t[|c|] in xs + [x]
  {
    forall u, v | u in prev && v in here
      ensures |c| < |u| && |c| < |v| && u[|c|] < v[|c|]
      ensures forall e :: 0 <= e < |c| ==> u[e] == v[e]
    {
      assert u[|c|] in xs;
    }
    SortedJoin(prev, here, |c|);
    forall t | t in prev + here ensures Starts(t, c) && t[|c|] in xs + [x] {
      assert t in prev || t in here;
    }
  }

  /** A four-element tuple is the display of its elements. */
  lemma Tuple4(t: seq<nat>)
    requires |t| == 4
    ensures t == [t[0], t[1], t[2], t[3]]
  {
  }

  lemma Tuple2(t: seq<nat>)
    requires |t| == 2
    ensures t == [t[0], t[1]]
  {
  }

  lemma Tuple3(t: seq<nat>)
    requires |t| == 3
    ensures t == [t[0], t[1], t[2]]
  {
  }

  /** One more turn of a loop over s appends the block of s[x]. */
  lemma FlatPrefix(s: seq<nat>, x: nat, f: nat -> seq<seq<nat>>)
    requires x < |s|
    ensures Flat(s[..x + 1], f) == Flat(s[..x], f) + f(s[x])
  {
    assert s[..x + 1][..x] == s[..x];
  }

  lemma FlatSetPrefix(s: seq<nat>, x: nat, f: nat -> set<(nat, nat)>)
    requires x < |s|
    ensures FlatSet(s[..x + 1], f) == FlatSet(s[..x], f) + f(s[x])
  {
    assert s[..x + 1][..x] == s[..x];
  }

  lemma FlatSnoc(xs: seq<nat>, x: nat, f: nat -> seq<seq<nat>>)
    ensures Flat(xs + [x], f) == Flat(xs, f) + f(x)
  {
    assert (xs + [x])[..|xs|] == xs;
  }

  lemma FlatSetSnoc(xs: seq<nat>, x: nat, f: nat -> set<(nat, nat)>)
    ensures FlatSet(xs + [x], f) == FlatSet(xs, f) + f(x)
  {
    assert (xs + [x])[..|xs|] == xs;
  }
}
