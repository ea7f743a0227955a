/** get_coords (FManII.cpp:31-87): the four-deep walk over the connectivity
    graph that appends bonds, angles, torsions and impropers and fills the
    1,2 / 1,3 / 1,4 pair sets, followed by the loop that sorts every other
    pair into PAIR13, PAIR14 or PAIR. Each loop level is a method proved
    against the spec function of that level. */
module Coords {
  import opened Defs
  import opened Tuples
  import opened CoordSpec

  /** The two debug checks of get_coords: the number of atoms in the
      Cartesian input differs from the number of rows of the graph
      (FManII.cpp:34), or the walk meets an atom listed as its own neighbour
      (FManII.cpp:47, 49, 52). */
  datatype CoordError = AtomCountMismatch | SelfBond

  /** The collections the pair loop appends to. */
  predicate IsPairKind(c: IntCoord) {
    c == Pair13 || c == Pair14 || c == Pair
  }

  /** The l loop of the walk i-j-k (FManII.cpp:51-58): the 1,4 pair is
      recorded before the j <= k test that decides the torsion. */
  method WalkL(g: ConnData, i: nat, j: nat, k: nat, w: Walk) returns (w': Walk)
    requires k < |g|
    ensures w' == w.(torsions := w.torsions + TorsionsL(i, j, k, g[k]),
                     pair14 := w.pair14 + Pair14L(i, j, g[k]))
  {
    w' := w;
    for x := 0 to |g[k]|
      invariant w' == w.(torsions := w.torsions + TorsionsL(i, j, k, g[k][..x]),
                         pair14 := w.pair14 + Pair14L(i, j, g[k][..x]))
    {
      var l := g[k][x];
      FlatPrefix(g[k], x, TorsionStep(i, j, k));
      FlatSetPrefix(g[k], x, Pair14Step(i, j));
      if l == j {
        continue;
      }
      if l > i {
        w' := w'.(pair14 := w'.pair14 + {(i, l)});
      }
      if k < j {
        continue;
      }
      w' := w'.(torsions := w'.torsions + [[i, j, k, l]]);
    }
    assert g[k][..|g[k]|] == g[k];
  }

  /** The improper loop over the row of the centre j (FManII.cpp:64-66). */
  method ImpLoop(g: ConnData, i: nat, j: nat, k: nat, w: Walk) returns (w': Walk)
    requires j < |g|
    ensures w' == w.(imps := w.imps + ImpsL(i, j, k, g[j]))
  {
    w' := w;
    for x := 0 to |g[j]|
      invariant w' == w.(imps := w.imps + ImpsL(i, j, k, g[j][..x]))
    {
      var l := g[j][x];
      FlatPrefix(g[j], x, ImpStep(i, j, k));
      if l == k || l == i || l < k {
        continue;
      }
      w' := w'.(imps := w'.imps + [[i, j, k, l]]);
    }
    assert g[j][..|g[j]|] == g[j];
  }

  /** One turn of the k loop for the walk i-j-k (FManII.cpp:49-67): a k
      that turns back to i contributes nothing; a k below i still
      contributes its torsions and 1,4 pairs, but no angle, 1,3 pair or
      improper. */
  method VisitK(g: ConnData, i: nat, j: nat, k: nat, w: Walk) returns (w': Walk)
    requires j < |g| && k < |g|
    ensures w' == w.(angles := w.angles + AngleAt(i, j, k),
                     torsions := w.torsions + TorsionsOf(g, i, j, k),
                     imps := w.imps + ImpsOf(g, i, j, k),
                     pair13 := w.pair13 + Pair13At(i, k),
                     pair14 := w.pair14 + Pair14Of(g, i, j, k))
  {
    w' := w;
    if k == i {
      return;
    }
    w' := WalkL(g, i, j, k, w');
    if k < i {
      return;
    }
    w' := w'.(pair13 := w'.pair13 + {(i, k)});
    w' := w'.(angles := w'.angles + [[i, j, k]]);
    if |g[j]| == 3 {
      w' := ImpLoop(g, i, j, k, w');
    }
  }

  /** The k loop of the walk i-j (FManII.cpp:48-68). */
  method WalkK(g: ConnData, i: nat, j: nat, w: Walk) returns (w': Walk)
    requires WellFormed(g) && j < |g|
    ensures w' == w.(angles := w.angles + AnglesK(i, j, g[j]),
                     torsions := w.torsions + TorsionsK(g, i, j, g[j]),
                     imps := w.imps + ImpsK(g, i, j, g[j]),
                     pair13 := w.pair13 + Pair13K(i, g[j]),
                     pair14 := w.pair14 + Pair14K(g, i, j, g[j]))
  {
    w' := w;
    assert InRange(g, g[j]);
    for x := 0 to |g[j]|
      invariant w'.bonds == w.bonds && w'.pair12 == w.pair12
      invariant w'.angles == w.angles + AnglesK(i, j, g[j][..x])
      invariant w'.torsions == w.torsions + TorsionsK(g, i, j, g[j][..x])
      invariant w'.imps == w.imps + ImpsK(g, i, j, g[j][..x])
      invariant w'.pair13 == w.pair13 + Pair13K(i, g[j][..x])
      invariant w'.pair14 == w.pair14 + Pair14K(g, i, j, g[j][..x])
    {
      var k := g[j][x];
      FlatPrefix(g[j], x, AnglesKStep(i, j));
      FlatPrefix(g[j], x, TorsionsKStep(g, i, j));
      FlatPrefix(g[j], x, ImpsKStep(g, i, j));
      FlatSetPrefix(g[j], x, Pair13KStep(i));
      FlatSetPrefix(g[j], x, Pair14KStep(g, i, j));
      w' := VisitK(g, i, j, k, w');
      AppendAssoc(w.angles, AnglesK(i, j, g[j][..x]), AngleAt(i, j, k));
      AppendAssoc(w.torsions, TorsionsK(g, i, j, g[j][..x]), TorsionsOf(g, i, j, k));
      AppendAssoc(w.imps, ImpsK(g, i, j, g[j][..x]), ImpsOf(g, i, j, k));
    }
    assert g[j][..|g[j]|] == g[j];
  }

  /** One turn of the j loop for the walk i-j (FManII.cpp:46-72): the k
      loop runs for every j, the bond and the 1,2 pair only when i <= j. */
  method VisitJ(g: ConnData, i: nat, j: nat, w: Walk) returns (w': Walk)
    requires WellFormed(g) && j < |g|
    ensures w' == Walk(w.bonds + BondAt(i, j),
                       w.angles + AnglesK(i, j, g[j]),
                       w.torsions + TorsionsK(g, i, j, g[j]),
                       w.imps + ImpsK(g, i, j, g[j]),
                       w.pair12 + Pair12At(i, j),
                       w.pair13 + Pair13K(i, g[j]),
                       w.pair14 + Pair14K(g, i, j, g[j]))
  {
    w' := WalkK(g, i, j, w);
    if j < i {
      return;
    }
    w' := w'.(pair12 := w'.pair12 + {(i, j)});
    w' := w'.(bonds := w'.bonds + [[i, j]]);
  }

  /** The j loop over the neighbours of i (FManII.cpp:46-73). */
  method WalkJ(g: ConnData, i: nat, w: Walk) returns (w': Walk)
    requires WellFormed(g) && i < |g|
    ensures w' == Walk(w.bonds + BondsJ(i, g[i]),
                       w.angles + AnglesJ(g, i, g[i]),
                       w.torsions + TorsionsJ(g, i, g[i]),
                       w.imps + ImpsJ(g, i, g[i]),
                       w.pair12 + Pair12J(i, g[i]),
                       w.pair13 + Pair13J(g, i, g[i]),
                       w.pair14 + Pair14J(g, i, g[i]))
  {
    w' := w;
    assert InRange(g, g[i]);
    for x := 0 to |g[i]|
      invariant w'.bonds == w.bonds + BondsJ(i, g[i][..x])
      invariant w'.angles == w.angles + AnglesJ(g, i, g[i][..x])
      invariant w'.torsions == w.torsions + TorsionsJ(g, i, g[i][..x])
      invariant w'.imps == w.imps + ImpsJ(g, i, g[i][..x])
      invariant w'.pair12 == w.pair12 + Pair12J(i, g[i][..x])
      invariant w'.pair13 == w.pair13 + Pair13J(g, i, g[i][..x])
      invariant w'.pair14 == w.pair14 + Pair14J(g, i, g[i][..x])
    {
      var j := g[i][x];
      FlatPrefix(g[i], x, BondsJStep(i));
      FlatPrefix(g[i], x, AnglesJStep(g, i));
      FlatPrefix(g[i], x, TorsionsJStep(g, i));
      FlatPrefix(g[i], x, ImpsJStep(g, i));
      FlatSetPrefix(g[i], x, Pair12JStep(i));
      FlatSetPrefix(g[i], x, Pair13JStep(g, i));
      FlatSetPrefix(g[i], x, Pair14JStep(g, i));
      w' := VisitJ(g, i, j, w');
      AppendAssoc(w.bonds, BondsJ(i, g[i][..x]), BondAt(i, j));
      AppendAssoc(w.angles, AnglesJ(g, i, g[i][..x]), AnglesK(i, j, g[j]));
      AppendAssoc(w.torsions, TorsionsJ(g, i, g[i][..x]), TorsionsK(g, i, j, g[j]));
      AppendAssoc(w.imps, ImpsJ(g, i, g[i][..x]), ImpsK(g, i, j, g[j]));
    }
    assert g[i][..|g[i]|] == g[i];
  }

  /** The i loop over every atom (FManII.cpp:45-74). */
  method WalkGraph(g: ConnData) returns (w: Walk)
    requires WellFormed(g)
    ensures w == WalkUpTo(g, |g|)
  {
    w := Walk([], [], [], [], {}, {}, {});
    for i := 0 to |g|
      invariant w == WalkUpTo(g, i)
    {
      assert Range(0, i + 1) == Range(0, i) + [i];
      FlatSnoc(Range(0, i), i, BondsIStep(g));
      FlatSnoc(Range(0, i), i, AnglesIStep(g));
      FlatSnoc(Range(0, i), i, TorsionsIStep(g));
      FlatSnoc(Range(0, i), i, ImpsIStep(g));
      FlatSetSnoc(Range(0, i), i, Pair12IStep(g));
      FlatSetSnoc(Range(0, i), i, Pair13IStep(g));
      FlatSetSnoc(Range(0, i), i, Pair14IStep(g));
      w := WalkJ(g, i, w);
    }
  }

  /** One step of the pair loop (FManII.cpp:77-83): an unbonded pair goes
      to PAIR13 if it is a 1,3 pair, else to PAIR14 if it is a 1,4 pair, else
      to PAIR. */
  method FilePair(w: Walk, i: nat, j: nat, found: CoordArray) returns (found': CoordArray)
    requires Pair13 in found && Pair14 in found && Pair in found
    ensures found'.Keys == found.Keys
    ensures forall c :: c in found ==>
      found'[c] == found[c] + if IsPairKind(c) then PairAt(w, c, i, j) else []
  {
    var pair := (i, j);
    if pair in w.pair12 {
      return found;
    }
    var is13, is14 := pair in w.pair13, pair in w.pair14;
    var ctype := Pair;
    if is13 {
      ctype := Pair13;
    } else if is14 {
      ctype := Pair14;
    }
    found' := found[ctype := found[ctype] + [[i, j]]];
  }

  /** The j loop of the pair loop for one i (FManII.cpp:76-84). */
  method ClassifyRow(w: Walk, n: nat, i: nat, found: CoordArray) returns (found': CoordArray)
    requires i < n
    requires Pair13 in found && Pair14 in found && Pair in found
    ensures found'.Keys == found.Keys
    ensures forall c :: c in found ==>
      found'[c] == found[c] + if IsPairKind(c) then PairsJ(w, c, i, Range(i + 1, n)) else []
  {
    found' := found;
    for j := i + 1 to n
      invariant found'.Keys == found.Keys
      invariant forall c :: c in found ==>
        found'[c] == found[c] + if IsPairKind(c) then PairsJ(w, c, i, Range(i + 1, j)) else []
    {
      assert Range(i + 1, j + 1) == Range(i + 1, j) + [j];
      ghost var before := found';
      found' := FilePair(w, i, j, found');
      forall c | c in found && IsPairKind(c)
        ensures found'[c] == found[c] + PairsJ(w, c, i, Range(i + 1, j + 1))
      {
        FlatSnoc(Range(i + 1, j), j, PairsJStep(w, c, i));
        AppendAssoc(found[c], PairsJ(w, c, i, Range(i + 1, j)), PairAt(w, c, i, j));
      }
    }
  }

  /** The pair loop over every i < j < n (FManII.cpp:75-86). */
  method ClassifyPairs(w: Walk, n: nat, found: CoordArray) returns (found': CoordArray)
    requires Pair13 in found && Pair14 in found && Pair in found
    ensures found'.Keys == found.Keys
    ensures forall c :: c in found ==>
      found'[c] == found[c] + if IsPairKind(c) then PairsI(w, c, n, n) else []
  {
    found' := found;
    for i := 0 to n
      invariant found'.Keys == found.Keys
      invariant forall c :: c in found ==>
        found'[c] == found[c] + if IsPairKind(c) then PairsI(w, c, n, i) else []
    {
      assert Range(0, i + 1) == Range(0, i) + [i];
      forall c {
        FlatSnoc(Range(0, i), i, PairsIStep(w, c, n));
      }
      ghost var before := found';
      found' := ClassifyRow(w, n, i, found');
      forall c | c in found && IsPairKind(c) {
        AppendAssoc(found[c], PairsI(w, c, n, i), PairsJ(w, c, i, Range(i + 1, n)));
      }
    }
  }

  /** Whether some atom is listed as its own neighbour. The walk visits the
      row of every atom at FManII.cpp:46, so the check of line 47 fires
      exactly then; the checks of lines 49 and 52 can only fire earlier for
      an atom that line 47 would also reject. */
  method FindSelfBond(g: ConnData) returns (found: bool)
    ensures found <==> !LoopFree(g)
  {
    for i := 0 to |g|
      invariant forall a :: 0 <= a < i ==> a !in g[a]
    {
      if i in g[i] {
        return true;
      }
    }
    return false;
  }

  /** Files the walk's lists into their collections and runs the pair loop
      (FManII.cpp:38-43, 68-86). */
  method Collect(w: Walk, n: nat) returns (found: CoordArray)
    ensures found == Collections(w, n)
  {
    found := map[Bond := w.bonds, Angle := w.angles, Torsion := w.torsions,
                 ImpTorsion := w.imps, Pair := [], Pair14 := [], Pair13 := []];
    ghost var initial := found;
    found := ClassifyPairs(w, n, found);
    assert [] + PairsI(w, Pair, n, n) == PairsI(w, Pair, n, n);
    assert [] + PairsI(w, Pair14, n, n) == PairsI(w, Pair14, n, n);
    assert [] + PairsI(w, Pair13, n, n) == PairsI(w, Pair13, n, n);
    assert found[Bond] == initial[Bond];
    assert found[Angle] == initial[Angle];
    assert found[Torsion] == initial[Torsion];
    assert found[ImpTorsion] == initial[ImpTorsion];
    CollectedIsCollections(w, n, found);
  }

  /** The collections get_coords creates before the walk, as written at
      FManII.cpp:38-43: there is none for PAIR13. */
  function SourceCollections(w: Walk): (ca: CoordArray)
    ensures ca.Keys == {Bond, Angle, Torsion, ImpTorsion, Pair, Pair14}
  {
    map[Bond := w.bonds, Angle := w.angles, Torsion := w.torsions,
        ImpTorsion := w.imps, Pair := [], Pair14 := []]
  }

  /** Three atoms in a row, 0-1-2. */
  const Chain: ConnData := [[1], [0, 2], [1]]

  /** Any unbonded pair i < k spanning an angle i-j-k is filed under
      PAIR13 by the pair loop (FManII.cpp:80-83). */
  lemma AnglePairFiledPair13(g: ConnData, i: nat, j: nat, k: nat)
    requires Angle3(g, i, j, k) && k < |g| && !Bond2(g, i, k)
    ensures PairKind(WalkUpTo(g, |g|), i, k) == Some(Pair13)
  {
    Pair12IMember(g, |g|, (i, k));
    Pair13IMember(g, |g|, (i, k));
  }

  /** On the chain 0-1-2 the pair loop files (0, 2) under PAIR13, a
      collection the source never created; std::map::operator[] then
      default-constructs a null pointer and line 83 dereferences it. */
  lemma Pair13CollectionMissing()
    ensures PairKind(WalkUpTo(Chain, 3), 0, 2) == Some(Pair13)
  {
    assert Angle3(Chain, 0, 1, 2);
    assert !Bond2(Chain, 0, 2);
    AnglePairFiledPair13(Chain, 0, 1, 2);
  }

  /** get_coords: fails on the debug checks, and otherwise returns the
      coordinate collections, which are exactly the ones the spec describes. */
  method GetCoords(carts: seq<real>, g: ConnData) returns (r: Result<CoordArray, CoordError>)
    requires WellFormed(g)
    ensures r.Failure? <==> |carts| / 3 != |g| || !LoopFree(g)
    ensures r.Failure? ==> r.error == if |carts| / 3 != |g| then AtomCountMismatch else SelfBond
    ensures r.Success? ==> r.value == Coordinates(g) && Enumerates(g, r.value)
  {
    var nAtoms := |carts| / 3;
    if nAtoms != |g| {
      return Failure(AtomCountMismatch);
    }
    var selfBonded := FindSelfBond(g);
    if selfBonded {
      return Failure(SelfBond);
    }
    var w := WalkGraph(g);
    var found := Collect(w, nAtoms);
    CoordinatesEnumerate(g);
    return Success(found);
  }

  /** The collections get_coords fills are the ones a finished walk yields. */
  lemma CollectedIsCollections(w: Walk, n: nat, found: CoordArray)
    requires found.Keys == {Bond, Angle, Torsion, ImpTorsion, Pair, Pair14, Pair13}
    requires found[Bond] == w.bonds && found[Angle] == w.angles
    requires found[Torsion] == w.torsions && found[ImpTorsion] == w.imps
    requires found[Pair] == PairsI(w, Pair, n, n)
    requires found[Pair14] == PairsI(w, Pair14, n, n)
    requires found[Pair13] == PairsI(w, Pair13, n, n)
    ensures found == Collections(w, n)
  {
  }

  /** Regrouping of appends, kept apart from the loop bodies: asserted
      inline in their larger context it runs out of resource. */
  lemma AppendAssoc(a: seq<seq<nat>>, b: seq<seq<nat>>, c: seq<seq<nat>>)
    ensures (a + b) + c == a + (b + c)
  {
  }
}


