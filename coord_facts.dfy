/** Properties of the coordinate collections that follow from the
    enumeration: each bond, angle and torsion is listed in one direction
    only, impropers are ordered, and every pair of atoms falls in exactly one
    of the bond and pair collections. */
module CoordFacts {
  import opened Defs
  import opened Tuples
  import opened CoordSpec

  /** In a symmetric graph without self-bonds each bond is listed once, from
      its lower end (FManII.cpp:70-72). */
  lemma BondOneDirection(g: ConnData, i: nat, j: nat)
    requires WellFormed(g) && Symmetric(g) && LoopFree(g)
    requires i < |g| && j in g[i]
    ensures ([i, j] in Coordinates(g)[Bond]) != ([j, i] in Coordinates(g)[Bond])
    ensures [i, j] in Coordinates(g)[Bond] <==> i < j
  {
    CoordinatesEnumerate(g);
    var ca := Coordinates(g);
    assert [i, j] in ca[Bond] <==> IsBond(g, [i, j]);
    assert [j, i] in ca[Bond] <==> IsBond(g, [j, i]);
  }

  /** An angle i-j-k is listed in exactly one of its two directions, the one
      starting at the lower end (FManII.cpp:59-62). */
  lemma AngleOneDirection(g: ConnData, i: nat, j: nat, k: nat)
    requires WellFormed(g) && Symmetric(g)
    requires i < |g| && j in g[i] && k in g[j] && k != i
    ensures ([i, j, k] in Coordinates(g)[Angle]) != ([k, j, i] in Coordinates(g)[Angle])
    ensures [i, j, k] in Coordinates(g)[Angle] <==> i < k
  {
    CoordinatesEnumerate(g);
    var ca := Coordinates(g);
    assert [i, j, k] in ca[Angle] <==> IsAngle(g, [i, j, k]);
    assert [k, j, i] in ca[Angle] <==> IsAngle(g, [k, j, i]);
  }

  /** A torsion i-j-k-l is listed in exactly one of its two directions, the
      one whose middle bond runs upwards (FManII.cpp:57). */
  lemma TorsionOneDirection(g: ConnData, i: nat, j: nat, k: nat, l: nat)
    requires WellFormed(g) && Symmetric(g) && LoopFree(g)
    requires i < |g| && j in g[i] && k in g[j] && k != i && l in g[k] && l != j
    ensures ([i, j, k, l] in Coordinates(g)[Torsion]) != ([l, k, j, i] in Coordinates(g)[Torsion])
    ensures [i, j, k, l] in Coordinates(g)[Torsion] <==> j < k
  {
    TorsionWalkReversed(g, i, j, k, l);
    CoordinatesEnumerate(g);
    var ca := Coordinates(g);
    assert [i, j, k, l] in ca[Torsion] <==> IsTorsion(g, [i, j, k, l]);
    assert [l, k, j, i] in ca[Torsion] <==> IsTorsion(g, [l, k, j, i]);
  }

  lemma TorsionWalkReversed(g: ConnData, i: nat, j: nat, k: nat, l: nat)
    requires WellFormed(g) && Symmetric(g) && LoopFree(g)
    requires i < |g| && j in g[i] && k in g[j] && k != i && l in g[k] && l != j
    ensures IsTorsion(g, [i, j, k, l]) <==> j < k
    ensures IsTorsion(g, [l, k, j, i]) <==> k < j
  {
    assert j < |g| && i in g[j];
    assert k < |g| && j in g[k];
    assert l < |g| && k in g[l];
    assert j != k;
  }

  /** An improper i-j-k-l has the centre j with its three distinct
      neighbours in increasing order i < k < l (FManII.cpp:63-65). */
  lemma ImproperOrdered(g: ConnData, t: seq<nat>)
    requires WellFormed(g)
    requires t in Coordinates(g)[ImpTorsion]
    ensures |t| == 4 && t[0] < t[2] < t[3] && t[1] < |g| && |g[t[1]]| == 3
    ensures t[0] < |g| && t[1] in g[t[0]]
    ensures t[2] in g[t[1]] && t[3] in g[t[1]]
  {
    CoordinatesEnumerate(g);
    assert IsImproper(g, t);
  }

  /** In a symmetric graph an angle i-j-k has at most one improper: the
      centre j has exactly three neighbours, two of which are i and k, so the
      fourth atom l is the remaining one (FManII.cpp:63-65). */
  lemma ImproperPerAngle(g: ConnData, t: seq<nat>, u: seq<nat>)
    requires WellFormed(g) && Symmetric(g)
    requires t in Coordinates(g)[ImpTorsion] && u in Coordinates(g)[ImpTorsion]
    ensures |t| == 4 && |u| == 4
    ensures t[0] == u[0] && t[1] == u[1] && t[2] == u[2] ==> t == u
  {
    CoordinatesEnumerate(g);
    assert IsImproper(g, t) && IsImproper(g, u);
    if t[0] == u[0] && t[1] == u[1] && t[2] == u[2] {
      SameAngleSameImproper(g, t, u);
    }
  }

  /** Two impropers on the same angle of a symmetric graph coincide. */
  lemma SameAngleSameImproper(g: ConnData, t: seq<nat>, u: seq<nat>)
    requires Symmetric(g) && IsImproper(g, t) && IsImproper(g, u)
    requires Increasing(g[t[1]])
    requires t[0] == u[0] && t[1] == u[1] && t[2] == u[2]
    ensures t == u
  {
    var i, j := t[0], t[1];
    assert i in g[j];
    OnlyThird(g[j], i, t[2], t[3], u[3]);
    assert forall n :: 0 <= n < 4 ==> t[n] == u[n];
  }

  /** Of three distinct values, the one that is neither a nor b is fixed. */
  lemma OnlyThird(s: seq<nat>, a: nat, b: nat, x: nat, y: nat)
    requires Increasing(s) && |s| == 3
    requires a in s && b in s && x in s && y in s
    requires a != b && x != a && x != b && y != a && y != b
    ensures x == y
  {
    assert s[0] < s[1] < s[2];
  }

  /** A graph that is not symmetric: atom 1 lists 2, 3 and 4 as neighbours
      but atom 0 is missing from its row. */
  const OneSided: ConnData := [[1], [2, 3, 4], [], [], []]

  /** The improper loop does not check that i is itself a neighbour of the
      centre j, so in a graph that is not symmetric the angle 0-1-2 gets two
      impropers. */
  lemma OneSidedImpropers()
    ensures [0, 1, 2, 3] in Coordinates(OneSided)[ImpTorsion]
    ensures [0, 1, 2, 4] in Coordinates(OneSided)[ImpTorsion]
  {
    var g := OneSided;
    assert WellFormed(g) by {
      assert Increasing(g[0]) && Increasing(g[1]) && InRange(g, g[1]);
    }
    CoordinatesEnumerate(g);
    assert IsImproper(g, [0, 1, 2, 3]);
    assert IsImproper(g, [0, 1, 2, 4]);
  }

  /** Every pair i < j of atoms is in exactly one of the bond, PAIR13,
      PAIR14 and PAIR collections (FManII.cpp:70-85). */
  lemma PairPartition(g: ConnData, i: nat, j: nat)
    requires WellFormed(g)
    requires i < j < |g|
    ensures var ca := Coordinates(g);
      var inB, in13, in14, inP := [i, j] in ca[Bond], [i, j] in ca[Pair13],
                                  [i, j] in ca[Pair14], [i, j] in ca[Pair];
      (inB || in13 || in14 || inP)
      && !(inB && in13) && !(inB && in14) && !(inB && inP)
      && !(in13 && in14) && !(in13 && inP) && !(in14 && inP)
  {
    CoordinatesEnumerate(g);
    var ca := Coordinates(g);
    var t := [i, j];
    assert t in ca[Bond] <==> IsBond(g, t);
    assert t in ca[Pair13] <==> IsPairOf(g, t) && OneThree(g, i, j);
    assert t in ca[Pair14] <==> IsPairOf(g, t) && !OneThree(g, i, j) && OneFour(g, i, j);
    assert t in ca[Pair] <==> IsPairOf(g, t) && !OneThree(g, i, j) && !OneFour(g, i, j);
  }

  /** A three-membered ring. */
  const Triangle: ConnData := [[1, 2], [0, 2], [0, 1]]

  /** In a three-membered ring the torsion loop walks back to its start: the
      source does not exclude l == i, so i-j-k-i is listed as a torsion. */
  lemma RingTorsionDegenerate()
    ensures [0, 1, 2, 0] in Coordinates(Triangle)[Torsion]
  {
    var g := Triangle;
    assert WellFormed(g) by {
      assert Increasing(g[0]) && Increasing(g[1]) && Increasing(g[2]);
    }
    CoordinatesEnumerate(g);
    assert IsTorsion(g, [0, 1, 2, 0]);
  }
}
