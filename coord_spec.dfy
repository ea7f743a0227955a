/** What the coordinate enumerator computes: the connectivity graph, the
    tuples each loop level appends, the pair classification, and what the
    resulting collections contain. */
module CoordSpec {
  import opened Defs
  import opened Tuples

  /** Connectivity: row i lists the atoms bonded to atom i. The source keeps
      each row in a std::set, which is iterated in increasing order, so a
      row is modelled as a strictly increasing sequence. */
  type ConnData = seq<seq<nat>>

  /** Every entry of xs names an atom of g. */
  predicate InRange(g: ConnData, xs: seq<nat>) {
    forall a :: 0 <= a < |xs| ==> xs[a] < |g|
  }

  /** Every row is a set in iteration order and names only existing atoms. */
  predicate WellFormed(g: ConnData) {
    forall i :: 0 <= i < |g| ==> Increasing(g[i]) && InRange(g, g[i])
  }

  predicate Symmetric(g: ConnData) {
    forall i, j :: 0 <= i < |g| && j in g[i] ==> j < |g| && i in g[j]
  }

  predicate LoopFree(g: ConnData) {
    forall i :: 0 <= i < |g| ==> i !in g[i]
  }

  // ---------------------------------------------------------------------
  // What each collection contains, stated on atom indices.

  /** i-j is a bond recorded from its lower end. */
  predicate Bond2(g: ConnData, i: nat, j: nat) {
    i < |g| && j in g[i] && i <= j
  }

  /** i-j-k is a walk that does not turn back, recorded with i <= k. */
  predicate Angle3(g: ConnData, i: nat, j: nat, k: nat) {
    i < |g| && j in g[i] && j < |g| && k in g[j] && k != i && i <= k
  }

  /** i-j-k-l is a walk that never turns back, recorded with j <= k. */
  predicate Torsion4(g: ConnData, i: nat, j: nat, k: nat, l: nat) {
    i < |g| && j in g[i] && j < |g| && k in g[j] && k != i && k < |g|
    && l in g[k] && l != j && j <= k
  }

  /** Within the angle i-j-k, l is the third neighbour of a centre j that
      has exactly three neighbours, and k <= l. */
  predicate Improper4(g: ConnData, i: nat, j: nat, k: nat, l: nat) {
    Angle3(g, i, j, k) && |g[j]| == 3 && l in g[j] && l != k && l != i && k <= l
  }

  /** The last step k-l of a walk i-j-k-l that records the 1,4 pair (i, l). */
  predicate Step14(g: ConnData, i: nat, j: nat, k: nat, l: nat) {
    k != i && k < |g| && l in g[k] && l != j && l > i
  }

  /** i-j-k-l is a walk that never turns back and ends above where it began. */
  predicate Via14(g: ConnData, i: nat, j: nat, k: nat, l: nat) {
    i < |g| && j in g[i] && j < |g| && k in g[j] && Step14(g, i, j, k, l)
  }

  predicate IsBond(g: ConnData, t: seq<nat>) { |t| == 2 && Bond2(g, t[0], t[1]) }
  predicate IsAngle(g: ConnData, t: seq<nat>) { |t| == 3 && Angle3(g, t[0], t[1], t[2]) }
  predicate IsTorsion(g: ConnData, t: seq<nat>) { |t| == 4 && Torsion4(g, t[0], t[1], t[2], t[3]) }
  predicate IsImproper(g: ConnData, t: seq<nat>) { |t| == 4 && Improper4(g, t[0], t[1], t[2], t[3]) }

  // ---------------------------------------------------------------------
  // Torsions: l over the row of k, k over the row of j, j over the row of
  // i, i over the first m atoms (FManII.cpp:44-58).

  /** The torsion the innermost loop appends for l, if any. */
  function TorsionAt(i: nat, j: nat, k: nat, l: nat): seq<seq<nat>> {
    if l != j && j <= k then [[i, j, k, l]] else []
  }

  function TorsionStep(i: nat, j: nat, k: nat): nat -> seq<seq<nat>> {
    (l: nat) => TorsionAt(i, j, k, l)
  }

  function TorsionsL(i: nat, j: nat, k: nat, ls: seq<nat>): seq<seq<nat>> {
    Flat(ls, TorsionStep(i, j, k))
  }

  /** The torsions through i-j-k; none when the walk turns back to i. */
  function TorsionsOf(g: ConnData, i: nat, j: nat, k: nat): seq<seq<nat>> {
    if k == i || k >= |g| then [] else TorsionsL(i, j, k, g[k])
  }

  function TorsionsKStep(g: ConnData, i: nat, j: nat): nat -> seq<seq<nat>> {
    (k: nat) => TorsionsOf(g, i, j, k)
  }

  function TorsionsK(g: ConnData, i: nat, j: nat, ks: seq<nat>): seq<seq<nat>> {
    Flat(ks, TorsionsKStep(g, i, j))
  }

  function TorsionsJStep(g: ConnData, i: nat): nat -> seq<seq<nat>> {
    (j: nat) => if j < |g| then TorsionsK(g, i, j, g[j]) else []
  }

  function TorsionsJ(g: ConnData, i: nat, js: seq<nat>): seq<seq<nat>> {
    Flat(js, TorsionsJStep(g, i))
  }

  function TorsionsIStep(g: ConnData): nat -> seq<seq<nat>> {
    (i: nat) => if i < |g| then TorsionsJ(g, i, g[i]) else []
  }

  /** The torsions found from the first m start atoms. */
  function TorsionsI(g: ConnData, m: nat): seq<seq<nat>> {
    Flat(Range(0, m), TorsionsIStep(g))
  }


  lemma TorsionsLMember(i: nat, j: nat, k: nat, ls: seq<nat>, t: seq<nat>)
    ensures t in TorsionsL(i, j, k, ls) <==>
      |t| == 4 && t[0] == i && t[1] == j && t[2] == k && t[3] in ls && t[3] != j && j <= k
  {
    FlatMember(ls, TorsionStep(i, j, k), t);
    if |t| == 4 && t[3] in ls {
      Tuple4(t);
      assert t in TorsionStep(i, j, k)(t[3]) <==> t[0] == i && t[1] == j && t[2] == k && t[3] != j && j <= k;
    }
  }

  lemma TorsionsKMember(g: ConnData, i: nat, j: nat, ks: seq<nat>, t: seq<nat>)
    ensures t in TorsionsK(g, i, j, ks) <==>
      |t| == 4 && t[0] == i && t[1] == j && t[2] in ks && t[2] != i && t[2] < |g|
      && t[3] in g[t[2]] && t[3] != j && j <= t[2]
  {
    FlatMember(ks, TorsionsKStep(g, i, j), t);
    if t in TorsionsK(g, i, j, ks) {
      var k :| k in ks && t in TorsionsKStep(g, i, j)(k);
      TorsionsLMember(i, j, k, g[k], t);
    }
    if |t| == 4 && t[0] == i && t[1] == j && t[2] in ks && t[2] != i && t[2] < |g| {
      var k := t[2];
      TorsionsLMember(i, j, k, g[k], t);
      assert TorsionsKStep(g, i, j)(k) == TorsionsOf(g, i, j, k);
    }
  }

  lemma TorsionsJMember(g: ConnData, i: nat, js: seq<nat>, t: seq<nat>)
    ensures t in TorsionsJ(g, i, js) <==>
      |t| == 4 && t[0] == i && t[1] in js && t[1] < |g| && t[2] in g[t[1]] && t[2] != i
      && t[2] < |g| && t[3] in g[t[2]] && t[3] != t[1] && t[1] <= t[2]
  {
    FlatMember(js, TorsionsJStep(g, i), t);
    if t in TorsionsJ(g, i, js) {
      var j :| j in js && t in TorsionsJStep(g, i)(j);
      TorsionsKMember(g, i, j, g[j], t);
    }
    if |t| == 4 && t[0] == i && t[1] in js && t[1] < |g| {
      var j := t[1];
      TorsionsKMember(g, i, j, g[j], t);
      assert TorsionsJStep(g, i)(j) == TorsionsK(g, i, j, g[j]);
    }
  }

  /** The torsions found from the first m start atoms are exactly the walks
      i-j-k-l that never turn back, with j <= k and i < m. */
  lemma TorsionsIMember(g: ConnData, m: nat, t: seq<nat>)
    ensures t in TorsionsI(g, m) <==> IsTorsion(g, t) && t[0] < m
  {
    FlatMember(Range(0, m), TorsionsIStep(g), t);
    RangeFacts(0, m);
    if t in TorsionsI(g, m) {
      var i :| i in Range(0, m) && t in TorsionsIStep(g)(i);
      TorsionsJMember(g, i, g[i], t);
    }
    if |t| == 4 && t[0] < m && t[0] < |g| {
      var i := t[0];
      TorsionsJMember(g, i, g[i], t);
      assert TorsionsIStep(g)(i) == TorsionsJ(g, i, g[i]);
      assert i in Range(0, m);
    }
  }

  lemma TorsionsLSorted(i: nat, j: nat, k: nat, ls: seq<nat>)
    requires Increasing(ls)
    ensures StrictlySorted(TorsionsL(i, j, k, ls))
    ensures forall t :: t in TorsionsL(i, j, k, ls) ==> Starts(t, [i, j]) && t[2] == k
  {
    var f := TorsionStep(i, j, k);
    forall l | l in ls ensures StrictlySorted(f(l)) {
    }
    forall l, t | l in ls && t in f(l) ensures Starts(t, [i, j, k]) && t[3] == l {
    }
    FlatSorted(ls, f, [i, j, k]);
  }

  lemma TorsionsKSorted(g: ConnData, i: nat, j: nat, ks: seq<nat>)
    requires WellFormed(g) && Increasing(ks)
    ensures StrictlySorted(TorsionsK(g, i, j, ks))
    ensures forall t :: t in TorsionsK(g, i, j, ks) ==> Starts(t, [i]) && t[1] == j
  {
    var f := TorsionsKStep(g, i, j);
    forall k | k in ks
      ensures StrictlySorted(f(k))
      ensures forall t :: t in f(k) ==> Starts(t, [i, j]) && t[2] == k
    {
      if k != i && k < |g| {
        TorsionsLSorted(i, j, k, g[k]);
      }
    }
    FlatSorted(ks, f, [i, j]);
  }

  lemma TorsionsJSorted(g: ConnData, i: nat, js: seq<nat>)
    requires WellFormed(g) && Increasing(js)
    ensures StrictlySorted(TorsionsJ(g, i, js))
    ensures forall t :: t in TorsionsJ(g, i, js) ==> Starts(t, []) && t[0] == i
  {
    var f := TorsionsJStep(g, i);
    forall j | j in js
      ensures StrictlySorted(f(j))
      ensures forall t :: t in f(j) ==> Starts(t, [i]) && t[1] == j
    {
      if j < |g| {
        TorsionsKSorted(g, i, j, g[j]);
      }
    }
    FlatSorted(js, f, [i]);
  }

  lemma TorsionsISorted(g: ConnData, m: nat)
    requires WellFormed(g)
    ensures StrictlySorted(TorsionsI(g, m))
  {
    var f := TorsionsIStep(g);
    RangeFacts(0, m);
    forall i | i in Range(0, m)
      ensures StrictlySorted(f(i))
      ensures forall t :: t in f(i) ==> Starts(t, []) && t[0] == i
    {
      if i < |g| {
        TorsionsJSorted(g, i, g[i]);
      }
    }
    FlatSorted(Range(0, m), f, []);
  }

  // ---------------------------------------------------------------------
  // Angles: k over the row of j, j over the row of i, i over the first m
  // atoms (FManII.cpp:50, 59-62).

  /** The angle the k loop appends, if any: none when the walk turns back
      to i or when k < i (the reverse direction). */
  function AngleAt(i: nat, j: nat, k: nat): seq<seq<nat>> {
    if k == i || k < i then [] else [[i, j, k]]
  }

  function AnglesKStep(i: nat, j: nat): nat -> seq<seq<nat>> {
    (k: nat) => AngleAt(i, j, k)
  }

  function AnglesK(i: nat, j: nat, ks: seq<nat>): seq<seq<nat>> {
    Flat(ks, AnglesKStep(i, j))
  }

  function AnglesJStep(g: ConnData, i: nat): nat -> seq<seq<nat>> {
    (j: nat) => if j < |g| then AnglesK(i, j, g[j]) else []
  }

  function AnglesJ(g: ConnData, i: nat, js: seq<nat>): seq<seq<nat>> {
    Flat(js, AnglesJStep(g, i))
  }

  function AnglesIStep(g: ConnData): nat -> seq<seq<nat>> {
    (i: nat) => if i < |g| then AnglesJ(g, i, g[i]) else []
  }

  function AnglesI(g: ConnData, m: nat): seq<seq<nat>> {
    Flat(Range(0, m), AnglesIStep(g))
  }

  lemma AnglesKMember(i: nat, j: nat, ks: seq<nat>, t: seq<nat>)
    ensures t in AnglesK(i, j, ks) <==>
      |t| == 3 && t[0] == i && t[1] == j && t[2] in ks && t[2] != i && i <= t[2]
  {
    FlatMember(ks, AnglesKStep(i, j), t);
    if |t| == 3 && t[2] in ks {
      Tuple3(t);
      assert t in AnglesKStep(i, j)(t[2]) <==> t[0] == i && t[1] == j && t[2] != i && i <= t[2];
    }
  }

  lemma AnglesJMember(g: ConnData, i: nat, js: seq<nat>, t: seq<nat>)
    ensures t in AnglesJ(g, i, js) <==>
      |t| == 3 && t[0] == i && t[1] in js && t[1] < |g| && t[2] in g[t[1]] && t[2] != i && i <= t[2]
  {
    FlatMember(js, AnglesJStep(g, i), t);
    if t in AnglesJ(g, i, js) {
      var j :| j in js && t in AnglesJStep(g, i)(j);
      AnglesKMember(i, j, g[j], t);
    }
    if |t| == 3 && t[0] == i && t[1] in js && t[1] < |g| {
      var j := t[1];
      AnglesKMember(i, j, g[j], t);
      assert AnglesJStep(g, i)(j) == AnglesK(i, j, g[j]);
    }
  }

  /** The angles found from the first m start atoms are exactly the walks
      i-j-k that do not turn back, with i <= k and i < m. */
  lemma AnglesIMember(g: ConnData, m: nat, t: seq<nat>)
    ensures t in AnglesI(g, m) <==> IsAngle(g, t) && t[0] < m
  {
    FlatMember(Range(0, m), AnglesIStep(g), t);
    RangeFacts(0, m);
    if t in AnglesI(g, m) {
      var i :| i in Range(0, m) && t in AnglesIStep(g)(i);
      AnglesJMember(g, i, g[i], t);
    }
    if |t| == 3 && t[0] < m && t[0] < |g| {
      var i := t[0];
      AnglesJMember(g, i, g[i], t);
      assert AnglesIStep(g)(i) == AnglesJ(g, i, g[i]);
      assert i in Range(0, m);
    }
  }

  lemma AnglesKSorted(i: nat, j: nat, ks: seq<nat>)
    requires Increasing(ks)
    ensures StrictlySorted(AnglesK(i, j, ks))
    ensures forall t :: t in AnglesK(i, j, ks) ==> Starts(t, [i]) && t[1] == j
  {
    var f := AnglesKStep(i, j);
    forall k | k in ks ensures StrictlySorted(f(k)) {
    }
    forall k, t | k in ks && t in f(k) ensures Starts(t, [i, j]) && t[2] == k {
    }
    FlatSorted(ks, f, [i, j]);
  }

  lemma AnglesJSorted(g: ConnData, i: nat, js: seq<nat>)
    requires WellFormed(g) && Increasing(js)
    ensures StrictlySorted(AnglesJ(g, i, js))
    ensures forall t :: t in AnglesJ(g, i, js) ==> Starts(t, []) && t[0] == i
  {
    var f := AnglesJStep(g, i);
    forall j | j in js
      ensures StrictlySorted(f(j))
      ensures forall t :: t in f(j) ==> Starts(t, [i]) && t[1] == j
    {
      if j < |g| {
        AnglesKSorted(i, j, g[j]);
      }
    }
    FlatSorted(js, f, [i]);
  }

  lemma AnglesISorted(g: ConnData, m: nat)
    requires WellFormed(g)
    ensures StrictlySorted(AnglesI(g, m))
  {
    var f := AnglesIStep(g);
    RangeFacts(0, m);
    forall i | i in Range(0, m)
      ensures StrictlySorted(f(i))
      ensures forall t :: t in f(i) ==> Starts(t, []) && t[0] == i
    {
      if i < |g| {
        AnglesJSorted(g, i, g[i]);
      }
    }
    FlatSorted(Range(0, m), f, []);
  }

  // ---------------------------------------------------------------------
  // Improper torsions: within each angle i-j-k kept above, l over the row
  // of a centre j that has exactly three neighbours (FManII.cpp:63-67).

  function ImpAt(i: nat, j: nat, k: nat, l: nat): seq<seq<nat>> {
    if l == k || l == i || l < k then [] else [[i, j, k, l]]
  }

  function ImpStep(i: nat, j: nat, k: nat): nat -> seq<seq<nat>> {
    (l: nat) => ImpAt(i, j, k, l)
  }

  function ImpsL(i: nat, j: nat, k: nat, ls: seq<nat>): seq<seq<nat>> {
    Flat(ls, ImpStep(i, j, k))
  }

  function ImpsOf(g: ConnData, i: nat, j: nat, k: nat): seq<seq<nat>> {
    if k == i || k < i then []
    else if j < |g| && |g[j]| == 3 then ImpsL(i, j, k, g[j])
    else []
  }

  function ImpsKStep(g: ConnData, i: nat, j: nat): nat -> seq<seq<nat>> {
    (k: nat) => ImpsOf(g, i, j, k)
  }

  function ImpsK(g: ConnData, i: nat, j: nat, ks: seq<nat>): seq<seq<nat>> {
    Flat(ks, ImpsKStep(g, i, j))
  }

  function ImpsJStep(g: ConnData, i: nat): nat -> seq<seq<nat>> {
    (j: nat) => if j < |g| then ImpsK(g, i, j, g[j]) else []
  }

  function ImpsJ(g: ConnData, i: nat, js: seq<nat>): seq<seq<nat>> {
    Flat(js, ImpsJStep(g, i))
  }

  function ImpsIStep(g: ConnData): nat -> seq<seq<nat>> {
    (i: nat) => if i < |g| then ImpsJ(g, i, g[i]) else []
  }

  function ImpsI(g: ConnData, m: nat): seq<seq<nat>> {
    Flat(Range(0, m), ImpsIStep(g))
  }

  lemma ImpsLMember(i: nat, j: nat, k: nat, ls: seq<nat>, t: seq<nat>)
    ensures t in ImpsL(i, j, k, ls) <==>
      |t| == 4 && t[0] == i && t[1] == j && t[2] == k && t[3] in ls
      && t[3] != k && t[3] != i && k <= t[3]
  {
    FlatMember(ls, ImpStep(i, j, k), t);
    if |t| == 4 && t[3] in ls {
      Tuple4(t);
      assert t in ImpStep(i, j, k)(t[3]) <==>
        t[0] == i && t[1] == j && t[2] == k && t[3] != k && t[3] != i && k <= t[3];
    }
  }

  lemma ImpsKMember(g: ConnData, i: nat, j: nat, ks: seq<nat>, t: seq<nat>)
    ensures t in ImpsK(g, i, j, ks) <==>
      |t| == 4 && t[0] == i && t[1] == j && t[2] in ks && t[2] != i && i <= t[2]
      && j < |g| && |g[j]| == 3 && t[3] in g[j] && t[3] != t[2] && t[3] != i && t[2] <= t[3]
  {
    FlatMember(ks, ImpsKStep(g, i, j), t);
    if t in ImpsK(g, i, j, ks) {
      var k :| k in ks && t in ImpsKStep(g, i, j)(k);
      ImpsLMember(i, j, k, g[j], t);
    }
    if |t| == 4 && t[0] == i && t[1] == j && t[2] in ks && j < |g| {
      var k := t[2];
      ImpsLMember(i, j, k, g[j], t);
      assert ImpsKStep(g, i, j)(k) == ImpsOf(g, i, j, k);
    }
  }

  lemma ImpsJMember(g: ConnData, i: nat, js: seq<nat>, t: seq<nat>)
    ensures t in ImpsJ(g, i, js) <==>
      |t| == 4 && t[0] == i && t[1] in js && t[1] < |g| && t[2] in g[t[1]] && t[2] != i
      && i <= t[2] && |g[t[1]]| == 3 && t[3] in g[t[1]] && t[3] != t[2] && t[3] != i
      && t[2] <= t[3]
  {
    FlatMember(js, ImpsJStep(g, i), t);
    if t in ImpsJ(g, i, js) {
      var j :| j in js && t in ImpsJStep(g, i)(j);
      ImpsKMember(g, i, j, g[j], t);
    }
    if |t| == 4 && t[0] == i && t[1] in js && t[1] < |g| {
      var j := t[1];
      ImpsKMember(g, i, j, g[j], t);
      assert ImpsJStep(g, i)(j) == ImpsK(g, i, j, g[j]);
    }
  }

  /** The impropers found from the first m start atoms are exactly the
      tuples i-j-k-l of an angle i-j-k with i <= k whose centre has three
      neighbours, l being a neighbour of j other than i and k with k <= l. */
  lemma ImpsIMember(g: ConnData, m: nat, t: seq<nat>)
    ensures t in ImpsI(g, m) <==> IsImproper(g, t) && t[0] < m
  {
    FlatMember(Range(0, m), ImpsIStep(g), t);
    RangeFacts(0, m);
    if t in ImpsI(g, m) {
      var i :| i in Range(0, m) && t in ImpsIStep(g)(i);
      ImpsJMember(g, i, g[i], t);
    }
    if |t| == 4 && t[0] < m && t[0] < |g| {
      var i := t[0];
      ImpsJMember(g, i, g[i], t);
      assert ImpsIStep(g)(i) == ImpsJ(g, i, g[i]);
      assert i in Range(0, m);
    }
  }

  lemma ImpsLSorted(i: nat, j: nat, k: nat, ls: seq<nat>)
    requires Increasing(ls)
    ensures StrictlySorted(ImpsL(i, j, k, ls))
    ensures forall t :: t in ImpsL(i, j, k, ls) ==> Starts(t, [i, j]) && t[2] == k
  {
    var f := ImpStep(i, j, k);
    forall l | l in ls ensures StrictlySorted(f(l)) {
    }
    forall l, t | l in ls && t in f(l) ensures Starts(t, [i, j, k]) && t[3] == l {
    }
    FlatSorted(ls, f, [i, j, k]);
  }

  lemma ImpsKSorted(g: ConnData, i: nat, j: nat, ks: seq<nat>)
    requires WellFormed(g) && Increasing(ks)
    ensures StrictlySorted(ImpsK(g, i, j, ks))
    ensures forall t :: t in ImpsK(g, i, j, ks) ==> Starts(t, [i]) && t[1] == j
  {
    var f := ImpsKStep(g, i, j);
    forall k | k in ks
      ensures StrictlySorted(f(k))
      ensures forall t :: t in f(k) ==> Starts(t, [i, j]) && t[2] == k
    {
      if k != i && i <= k && j < |g| && |g[j]| == 3 {
        ImpsLSorted(i, j, k, g[j]);
      }
    }
    FlatSorted(ks, f, [i, j]);
  }

  lemma ImpsJSorted(g: ConnData, i: nat, js: seq<nat>)
    requires WellFormed(g) && Increasing(js)
    ensures StrictlySorted(ImpsJ(g, i, js))
    ensures forall t :: t in ImpsJ(g, i, js) ==> Starts(t, []) && t[0] == i
  {
    var f := ImpsJStep(g, i);
    forall j | j in js
      ensures StrictlySorted(f(j))
      ensures forall t :: t in f(j) ==> Starts(t, [i]) && t[1] == j
    {
      if j < |g| {
        ImpsKSorted(g, i, j, g[j]);
      }
    }
    FlatSorted(js, f, [i]);
  }

  lemma ImpsISorted(g: ConnData, m: nat)
    requires WellFormed(g)
    ensures StrictlySorted(ImpsI(g, m))
  {
    var f := ImpsIStep(g);
    RangeFacts(0, m);
    forall i | i in Range(0, m)
      ensures StrictlySorted(f(i))
      ensures forall t :: t in f(i) ==> Starts(t, []) && t[0] == i
    {
      if i < |g| {
        ImpsJSorted(g, i, g[i]);
      }
    }
    FlatSorted(Range(0, m), f, []);
  }

  // ---------------------------------------------------------------------
  // Bonds: j over the row of i, i over the first m atoms (FManII.cpp:70-72).

  function BondAt(i: nat, j: nat): seq<seq<nat>> {
    if j < i then [] else [[i, j]]
  }

  function BondsJStep(i: nat): nat -> seq<seq<nat>> {
    (j: nat) => BondAt(i, j)
  }

  function BondsJ(i: nat, js: seq<nat>): seq<seq<nat>> {
    Flat(js, BondsJStep(i))
  }

  function BondsIStep(g: ConnData): nat -> seq<seq<nat>> {
    (i: nat) => if i < |g| then BondsJ(i, g[i]) else []
  }

  function BondsI(g: ConnData, m: nat): seq<seq<nat>> {
    Flat(Range(0, m), BondsIStep(g))
  }

  lemma BondsJMember(i: nat, js: seq<nat>, t: seq<nat>)
    ensures t in BondsJ(i, js) <==> |t| == 2 && t[0] == i && t[1] in js && i <= t[1]
  {
    FlatMember(js, BondsJStep(i), t);
    if |t| == 2 && t[1] in js {
      Tuple2(t);
      assert t in BondsJStep(i)(t[1]) <==> t[0] == i && i <= t[1];
    }
  }

  /** The bonds found from the first m start atoms are exactly the edges
      i-j listed in row i with i <= j and i < m. */
  lemma BondsIMember(g: ConnData, m: nat, t: seq<nat>)
    ensures t in BondsI(g, m) <==> IsBond(g, t) && t[0] < m
  {
    FlatMember(Range(0, m), BondsIStep(g), t);
    RangeFacts(0, m);
    if t in BondsI(g, m) {
      var i :| i in Range(0, m) && t in BondsIStep(g)(i);
      BondsJMember(i, g[i], t);
    }
    if |t| == 2 && t[0] < m && t[0] < |g| {
      var i := t[0];
      BondsJMember(i, g[i], t);
      assert BondsIStep(g)(i) == BondsJ(i, g[i]);
      assert i in Range(0, m);
    }
  }

  lemma BondsJSorted(i: nat, js: seq<nat>)
    requires Increasing(js)
    ensures StrictlySorted(BondsJ(i, js))
    ensures forall t :: t in BondsJ(i, js) ==> Starts(t, []) && t[0] == i
  {
    var f := BondsJStep(i);
    forall j | j in js ensures StrictlySorted(f(j)) {
    }
    forall j, t | j in js && t in f(j) ensures Starts(t, [i]) && t[1] == j {
    }
    FlatSorted(js, f, [i]);
  }

  lemma BondsISorted(g: ConnData, m: nat)
    requires WellFormed(g)
    ensures StrictlySorted(BondsI(g, m))
  {
    var f := BondsIStep(g);
    RangeFacts(0, m);
    forall i | i in Range(0, m)
      ensures StrictlySorted(f(i))
      ensures forall t :: t in f(i) ==> Starts(t, []) && t[0] == i
    {
      if i < |g| {
        BondsJSorted(i, g[i]);
      }
    }
    FlatSorted(Range(0, m), f, []);
  }

  // ---------------------------------------------------------------------
  // The 1,2 / 1,3 / 1,4 pair sets filled during the walk.

  /** i and k are the ends of an angle i-j-k recorded from i. */
  ghost predicate OneThree(g: ConnData, i: nat, k: nat) {
    exists j: nat :: Angle3(g, i, j, k)
  }

  /** i and l are the ends of a walk i-j-k-l that never turns back, l > i. */
  ghost predicate OneFour(g: ConnData, i: nat, l: nat) {
    exists j: nat, k: nat :: Via14(g, i, j, k, l)
  }

  function Pair14At(i: nat, j: nat, l: nat): set<(nat, nat)> {
    if l != j && l > i then {(i, l)} else {}
  }

  function Pair14Step(i: nat, j: nat): nat -> set<(nat, nat)> {
    (l: nat) => Pair14At(i, j, l)
  }

  function Pair14L(i: nat, j: nat, ls: seq<nat>): set<(nat, nat)> {
    FlatSet(ls, Pair14Step(i, j))
  }

  /** The 1,4 pairs through i-j-k: recorded for every l, before and
      independently of the j <= k test that decides the torsion itself. */
  function Pair14Of(g: ConnData, i: nat, j: nat, k: nat): set<(nat, nat)> {
    if k == i || k >= |g| then {} else Pair14L(i, j, g[k])
  }

  function Pair14KStep(g: ConnData, i: nat, j: nat): nat -> set<(nat, nat)> {
    (k: nat) => Pair14Of(g, i, j, k)
  }

  function Pair14K(g: ConnData, i: nat, j: nat, ks: seq<nat>): set<(nat, nat)> {
    FlatSet(ks, Pair14KStep(g, i, j))
  }

  function Pair14JStep(g: ConnData, i: nat): nat -> set<(nat, nat)> {
    (j: nat) => if j < |g| then Pair14K(g, i, j, g[j]) else {}
  }

  function Pair14J(g: ConnData, i: nat, js: seq<nat>): set<(nat, nat)> {
    FlatSet(js, Pair14JStep(g, i))
  }

  function Pair14IStep(g: ConnData): nat -> set<(nat, nat)> {
    (i: nat) => if i < |g| then Pair14J(g, i, g[i]) else {}
  }

  function Pair14I(g: ConnData, m: nat): set<(nat, nat)> {
    FlatSet(Range(0, m), Pair14IStep(g))
  }

  lemma Pair14LMember(i: nat, j: nat, ls: seq<nat>, p: (nat, nat))
    ensures p in Pair14L(i, j, ls) <==> p.0 == i && p.1 in ls && p.1 != j && p.1 > i
  {
    FlatSetMember(ls, Pair14Step(i, j), p);
    if p.1 in ls {
      assert p in Pair14Step(i, j)(p.1) <==> p.0 == i && p.1 != j && p.1 > i;
    }
  }

  lemma Pair14KMember(g: ConnData, i: nat, j: nat, ks: seq<nat>, p: (nat, nat))
    ensures p in Pair14K(g, i, j, ks) <==>
      p.0 == i && exists k: nat :: k in ks && Step14(g, i, j, k, p.1)
  {
    FlatSetMember(ks, Pair14KStep(g, i, j), p);
    if p in Pair14K(g, i, j, ks) {
      var k :| k in ks && p in Pair14KStep(g, i, j)(k);
      Pair14LMember(i, j, g[k], p);
      assert Step14(g, i, j, k, p.1);
    }
    if p.0 == i && exists k: nat :: k in ks && Step14(g, i, j, k, p.1) {
      var k: nat :| k in ks && Step14(g, i, j, k, p.1);
      Pair14LMember(i, j, g[k], p);
      assert Pair14KStep(g, i, j)(k) == Pair14Of(g, i, j, k);
    }
  }

  lemma Pair14JMember(g: ConnData, i: nat, js: seq<nat>, p: (nat, nat))
    ensures p in Pair14J(g, i, js) <==>
      p.0 == i && exists j: nat, k: nat :: j in js && j < |g| && k in g[j] && Step14(g, i, j, k, p.1)
  {
    FlatSetMember(js, Pair14JStep(g, i), p);
    if p in Pair14J(g, i, js) {
      var j :| j in js && p in Pair14JStep(g, i)(j);
      Pair14KMember(g, i, j, g[j], p);
      var k: nat :| k in g[j] && Step14(g, i, j, k, p.1);
    }
    if p.0 == i && exists j: nat, k: nat :: j in js && j < |g| && k in g[j] && Step14(g, i, j, k, p.1) {
      var j: nat, k: nat :| j in js && j < |g| && k in g[j] && Step14(g, i, j, k, p.1);
      Pair14KMember(g, i, j, g[j], p);
      assert Pair14JStep(g, i)(j) == Pair14K(g, i, j, g[j]);
    }
  }

  /** The 1,4 set after the first m start atoms holds exactly the ends
      (i, l) of the walks i-j-k-l that never turn back, with i < l and
      i < m. */
  lemma Pair14IMember(g: ConnData, m: nat, p: (nat, nat))
    ensures p in Pair14I(g, m) <==> p.0 < m && OneFour(g, p.0, p.1)
  {
    FlatSetMember(Range(0, m), Pair14IStep(g), p);
    RangeFacts(0, m);
    if p in Pair14I(g, m) {
      var i :| i in Range(0, m) && p in Pair14IStep(g)(i);
      Pair14JMember(g, i, g[i], p);
      var j: nat, k: nat :| j in g[i] && j < |g| && k in g[j] && Step14(g, i, j, k, p.1);
      assert Via14(g, i, j, k, p.1);
    }
    if p.0 < m && OneFour(g, p.0, p.1) {
      var i := p.0;
      var j: nat, k: nat :| Via14(g, i, j, k, p.1);
      Pair14JMember(g, i, g[i], p);
      assert Pair14IStep(g)(i) == Pair14J(g, i, g[i]);
      assert i in Range(0, m);
    }
  }

  function Pair13At(i: nat, k: nat): set<(nat, nat)> {
    if k == i || k < i then {} else {(i, k)}
  }

  function Pair13KStep(i: nat): nat -> set<(nat, nat)> {
    (k: nat) => Pair13At(i, k)
  }

  function Pair13K(i: nat, ks: seq<nat>): set<(nat, nat)> {
    FlatSet(ks, Pair13KStep(i))
  }

  function Pair13JStep(g: ConnData, i: nat): nat -> set<(nat, nat)> {
    (j: nat) => if j < |g| then Pair13K(i, g[j]) else {}
  }

  function Pair13J(g: ConnData, i: nat, js: seq<nat>): set<(nat, nat)> {
    FlatSet(js, Pair13JStep(g, i))
  }

  function Pair13IStep(g: ConnData): nat -> set<(nat, nat)> {
    (i: nat) => if i < |g| then Pair13J(g, i, g[i]) else {}
  }

  function Pair13I(g: ConnData, m: nat): set<(nat, nat)> {
    FlatSet(Range(0, m), Pair13IStep(g))
  }

  lemma Pair13KMember(i: nat, ks: seq<nat>, p: (nat, nat))
    ensures p in Pair13K(i, ks) <==> p.0 == i && p.1 in ks && p.1 != i && i <= p.1
  {
    FlatSetMember(ks, Pair13KStep(i), p);
    if p.1 in ks {
      assert p in Pair13KStep(i)(p.1) <==> p.0 == i && p.1 != i && i <= p.1;
    }
  }

  lemma Pair13JMember(g: ConnData, i: nat, js: seq<nat>, p: (nat, nat))
    ensures p in Pair13J(g, i, js) <==>
      p.0 == i && exists j: nat :: j in js && j < |g| && p.1 in g[j] && p.1 != i && i <= p.1
  {
    FlatSetMember(js, Pair13JStep(g, i), p);
    if p in Pair13J(g, i, js) {
      var j :| j in js && p in Pair13JStep(g, i)(j);
      Pair13KMember(i, g[j], p);
    }
    if p.0 == i && exists j: nat :: j in js && j < |g| && p.1 in g[j] && p.1 != i && i <= p.1 {
      var j: nat :| j in js && j < |g| && p.1 in g[j] && p.1 != i && i <= p.1;
      Pair13KMember(i, g[j], p);
      assert Pair13JStep(g, i)(j) == Pair13K(i, g[j]);
    }
  }

  /** The 1,3 set after the first m start atoms holds exactly the ends
      (i, k) of the angles i-j-k recorded from i, with i < m. */
  lemma Pair13IMember(g: ConnData, m: nat, p: (nat, nat))
    ensures p in Pair13I(g, m) <==> p.0 < m && OneThree(g, p.0, p.1)
  {
    FlatSetMember(Range(0, m), Pair13IStep(g), p);
    RangeFacts(0, m);
    if p in Pair13I(g, m) {
      var i :| i in Range(0, m) && p in Pair13IStep(g)(i);
      Pair13JMember(g, i, g[i], p);
      var j: nat :| j in g[i] && j < |g| && p.1 in g[j] && p.1 != i && i <= p.1;
      assert Angle3(g, i, j, p.1);
    }
    if p.0 < m && OneThree(g, p.0, p.1) {
      var i := p.0;
      var j: nat :| Angle3(g, i, j, p.1);
      Pair13JMember(g, i, g[i], p);
      assert Pair13IStep(g)(i) == Pair13J(g, i, g[i]);
      assert i in Range(0, m);
    }
  }

  function Pair12At(i: nat, j: nat): set<(nat, nat)> {
    if j < i then {} else {(i, j)}
  }

  function Pair12JStep(i: nat): nat -> set<(nat, nat)> {
    (j: nat) => Pair12At(i, j)
  }

  function Pair12J(i: nat, js: seq<nat>): set<(nat, nat)> {
    FlatSet(js, Pair12JStep(i))
  }

  function Pair12IStep(g: ConnData): nat -> set<(nat, nat)> {
    (i: nat) => if i < |g| then Pair12J(i, g[i]) else {}
  }

  function Pair12I(g: ConnData, m: nat): set<(nat, nat)> {
    FlatSet(Range(0, m), Pair12IStep(g))
  }

  lemma Pair12JMember(i: nat, js: seq<nat>, p: (nat, nat))
    ensures p in Pair12J(i, js) <==> p.0 == i && p.1 in js && i <= p.1
  {
    FlatSetMember(js, Pair12JStep(i), p);
    if p.1 in js {
      assert p in Pair12JStep(i)(p.1) <==> p.0 == i && i <= p.1;
    }
  }

  /** The 1,2 set after the first m start atoms holds exactly the bonds
      (i, j) recorded from i, with i < m. */
  lemma Pair12IMember(g: ConnData, m: nat, p: (nat, nat))
    ensures p in Pair12I(g, m) <==> p.0 < m && Bond2(g, p.0, p.1)
  {
    FlatSetMember(Range(0, m), Pair12IStep(g), p);
    RangeFacts(0, m);
    if p in Pair12I(g, m) {
      var i :| i in Range(0, m) && p in Pair12IStep(g)(i);
      Pair12JMember(i, g[i], p);
    }
    if p.0 < m && p.0 < |g| {
      var i := p.0;
      Pair12JMember(i, g[i], p);
      assert Pair12IStep(g)(i) == Pair12J(i, g[i]);
      assert i in Range(0, m);
    }
  }

  // ---------------------------------------------------------------------
  // The pair loop: every i < j that is not bonded goes to exactly one of
  // PAIR13, PAIR14 and PAIR (FManII.cpp:75-85).

  /** What the walk leaves behind: the four tuple lists and the three pair
      sets. */
  datatype Walk = Walk(
    bonds: seq<seq<nat>>,
    angles: seq<seq<nat>>,
    torsions: seq<seq<nat>>,
    imps: seq<seq<nat>>,
    pair12: set<(nat, nat)>,
    pair13: set<(nat, nat)>,
    pair14: set<(nat, nat)>)

  /** The walk's results after the first m start atoms. */
  function WalkUpTo(g: ConnData, m: nat): Walk {
    Walk(BondsI(g, m), AnglesI(g, m), TorsionsI(g, m), ImpsI(g, m),
         Pair12I(g, m), Pair13I(g, m), Pair14I(g, m))
  }

  /** The collection the pair loop appends i-j to: none for a bonded pair,
      and 1,3 ahead of 1,4. */
  function PairKind(w: Walk, i: nat, j: nat): Option<IntCoord> {
    if (i, j) in w.pair12 then None
    else if (i, j) in w.pair13 then Some(Pair13)
    else if (i, j) in w.pair14 then Some(Pair14)
    else Some(Pair)
  }

  function PairAt(w: Walk, c: IntCoord, i: nat, j: nat): seq<seq<nat>> {
    if PairKind(w, i, j) == Some(c) then [[i, j]] else []
  }

  function PairsJStep(w: Walk, c: IntCoord, i: nat): nat -> seq<seq<nat>> {
    (j: nat) => PairAt(w, c, i, j)
  }

  function PairsJ(w: Walk, c: IntCoord, i: nat, js: seq<nat>): seq<seq<nat>> {
    Flat(js, PairsJStep(w, c, i))
  }

  function PairsIStep(w: Walk, c: IntCoord, n: nat): nat -> seq<seq<nat>> {
    (i: nat) => PairsJ(w, c, i, Range(i + 1, n))
  }

  /** What collection c receives from the pair loop over the first m
      values of i, with j running from i + 1 to n - 1. */
  function PairsI(w: Walk, c: IntCoord, n: nat, m: nat): seq<seq<nat>> {
    Flat(Range(0, m), PairsIStep(w, c, n))
  }

  lemma PairsJMember(w: Walk, c: IntCoord, i: nat, js: seq<nat>, t: seq<nat>)
    ensures t in PairsJ(w, c, i, js) <==>
      |t| == 2 && t[0] == i && t[1] in js && PairKind(w, i, t[1]) == Some(c)
  {
    FlatMember(js, PairsJStep(w, c, i), t);
    if |t| == 2 && t[1] in js {
      Tuple2(t);
      assert t in PairsJStep(w, c, i)(t[1]) <==> t[0] == i && PairKind(w, i, t[1]) == Some(c);
    }
  }

  /** After the first m rows, collection c holds exactly the pairs i < j < n
      with i < m that the classification sends to c. */
  lemma PairsIMember(w: Walk, c: IntCoord, n: nat, m: nat, t: seq<nat>)
    ensures t in PairsI(w, c, n, m) <==>
      |t| == 2 && t[0] < m && t[0] < t[1] < n && PairKind(w, t[0], t[1]) == Some(c)
  {
    FlatMember(Range(0, m), PairsIStep(w, c, n), t);
    if t in PairsI(w, c, n, m) {
      PairsIFound(w, c, n, m, t);
    }
    if |t| == 2 && t[0] < m {
      var i := t[0];
      PairsJMember(w, c, i, Range(i + 1, n), t);
      RangeMember(i + 1, n, t[1]);
      RangeMember(0, m, i);
      assert PairsIStep(w, c, n)(i) == PairsJ(w, c, i, Range(i + 1, n));
    }
  }

  lemma PairsIFound(w: Walk, c: IntCoord, n: nat, m: nat, t: seq<nat>)
    requires exists i :: i in Range(0, m) && t in PairsIStep(w, c, n)(i)
    ensures |t| == 2 && t[0] < m && t[0] < t[1] < n && PairKind(w, t[0], t[1]) == Some(c)
  {
    var i :| i in Range(0, m) && t in PairsIStep(w, c, n)(i);
    RangeMember(0, m, i);
    PairsJMember(w, c, i, Range(i + 1, n), t);
    RangeMember(i + 1, n, t[1]);
  }

  lemma PairsJSorted(w: Walk, c: IntCoord, i: nat, js: seq<nat>)
    requires Increasing(js)
    ensures StrictlySorted(PairsJ(w, c, i, js))
    ensures forall t :: t in PairsJ(w, c, i, js) ==> Starts(t, []) && t[0] == i
  {
    var f := PairsJStep(w, c, i);
    forall j | j in js ensures StrictlySorted(f(j)) {
    }
    forall j, t | j in js && t in f(j) ensures Starts(t, [i]) && t[1] == j {
    }
    FlatSorted(js, f, [i]);
  }

  /** The pairs are visited, and so appended, in lexicographic order. */
  lemma PairsISorted(w: Walk, c: IntCoord, n: nat, m: nat)
    ensures StrictlySorted(PairsI(w, c, n, m))
  {
    var f := PairsIStep(w, c, n);
    RangeFacts(0, m);
    forall i | i in Range(0, m)
      ensures StrictlySorted(f(i))
      ensures forall t :: t in f(i) ==> Starts(t, []) && t[0] == i
    {
      RangeFacts(i + 1, n);
      PairsJSorted(w, c, i, Range(i + 1, n));
    }
    FlatSorted(Range(0, m), f, []);
  }

  // ---------------------------------------------------------------------
  // The whole enumeration.

  /** What get_coords returns for a graph of |g| atoms. */
  function Coordinates(g: ConnData): CoordArray {
    Collections(WalkUpTo(g, |g|), |g|)
  }

  /** The collections a finished walk over n atoms yields. */
  function Collections(w: Walk, n: nat): CoordArray {
    map[Bond := w.bonds, Angle := w.angles, Torsion := w.torsions, ImpTorsion := w.imps,
        Pair := PairsI(w, Pair, n, n), Pair14 := PairsI(w, Pair14, n, n),
        Pair13 := PairsI(w, Pair13, n, n)]
  }

  /** An unbonded pair i < j of atoms of g. */
  predicate IsPairOf(g: ConnData, t: seq<nat>) {
    |t| == 2 && t[0] < t[1] < |g| && !Bond2(g, t[0], t[1])
  }

  /** ca lists every bond, angle, torsion and improper of g in the one
      direction the tie-breaks select. */
  ghost predicate ListsEnumerated(g: ConnData, ca: CoordArray)
    requires Bond in ca && Angle in ca && Torsion in ca && ImpTorsion in ca
  {
    && (forall t :: t in ca[Bond] <==> IsBond(g, t))
    && (forall t :: t in ca[Angle] <==> IsAngle(g, t))
    && (forall t :: t in ca[Torsion] <==> IsTorsion(g, t))
    && (forall t :: t in ca[ImpTorsion] <==> IsImproper(g, t))
  }

  /** ca puts every unbonded pair i < j of g in exactly the collection its
      1,3 / 1,4 status selects. */
  ghost predicate PairsEnumerated(g: ConnData, ca: CoordArray)
    requires Pair13 in ca && Pair14 in ca && Pair in ca
  {
    && (forall t :: t in ca[Pair13] <==> IsPairOf(g, t) && OneThree(g, t[0], t[1]))
    && (forall t :: t in ca[Pair14] <==>
          IsPairOf(g, t) && !OneThree(g, t[0], t[1]) && OneFour(g, t[0], t[1]))
    && (forall t :: t in ca[Pair] <==>
          IsPairOf(g, t) && !OneThree(g, t[0], t[1]) && !OneFour(g, t[0], t[1]))
  }

  /** The seven collections, each in strictly increasing lexicographic order
      and so without repetition, with the contents stated above. */
  ghost predicate Enumerates(g: ConnData, ca: CoordArray) {
    && ca.Keys == {Bond, Pair13, Pair14, Pair, Angle, Torsion, ImpTorsion}
    && (forall c :: c in ca ==> StrictlySorted(ca[c]))
    && ListsEnumerated(g, ca)
    && PairsEnumerated(g, ca)
  }

  lemma CoordinatesEnumerate(g: ConnData)
    requires WellFormed(g)
    ensures Enumerates(g, Coordinates(g))
  {
    CoordinatesSorted(g);
    CoordinatesLists(g);
    CoordinatesPairs(g);
  }

  lemma CoordinatesSorted(g: ConnData)
    requires WellFormed(g)
    ensures forall c :: c in Coordinates(g) ==> StrictlySorted(Coordinates(g)[c])
  {
    var n := |g|;
    var w := WalkUpTo(g, n);
    var ca := Coordinates(g);
    forall c | c in ca ensures StrictlySorted(ca[c]) {
      match c
      case Bond => BondsISorted(g, n);
      case Angle => AnglesISorted(g, n);
      case Torsion => TorsionsISorted(g, n);
      case ImpTorsion => ImpsISorted(g, n);
      case _ => PairsISorted(w, c, n, n);
    }
  }

  lemma CoordinatesLists(g: ConnData)
    ensures ListsEnumerated(g, Coordinates(g))
  {
    var n := |g|;
    AllBonds(g);
    AllAngles(g);
    AllTorsions(g);
    AllImps(g);
    var ca := Coordinates(g);
    assert ca[Bond] == BondsI(g, n) && ca[Angle] == AnglesI(g, n);
    assert ca[Torsion] == TorsionsI(g, n) && ca[ImpTorsion] == ImpsI(g, n);
  }

  lemma AllBonds(g: ConnData)
    ensures forall t :: t in BondsI(g, |g|) <==> IsBond(g, t)
  {
    forall t ensures t in BondsI(g, |g|) <==> IsBond(g, t) {
      BondsIMember(g, |g|, t);
    }
  }

  lemma AllAngles(g: ConnData)
    ensures forall t :: t in AnglesI(g, |g|) <==> IsAngle(g, t)
  {
    forall t ensures t in AnglesI(g, |g|) <==> IsAngle(g, t) {
      AnglesIMember(g, |g|, t);
    }
  }

  lemma AllTorsions(g: ConnData)
    ensures forall t :: t in TorsionsI(g, |g|) <==> IsTorsion(g, t)
  {
    forall t ensures t in TorsionsI(g, |g|) <==> IsTorsion(g, t) {
      TorsionsIMember(g, |g|, t);
    }
  }

  lemma AllImps(g: ConnData)
    ensures forall t :: t in ImpsI(g, |g|) <==> IsImproper(g, t)
  {
    forall t ensures t in ImpsI(g, |g|) <==> IsImproper(g, t) {
      ImpsIMember(g, |g|, t);
    }
  }

  /** With all atoms walked, the pair classification reads the graph: none
      for a bond, PAIR13 for the ends of an angle, PAIR14 for the ends of a
      non-backtracking three-bond walk, PAIR otherwise. */
  lemma PairKindOfGraph(g: ConnData, i: nat, j: nat)
    requires i < j < |g|
    ensures PairKind(WalkUpTo(g, |g|), i, j) ==
      if Bond2(g, i, j) then None
      else if OneThree(g, i, j) then Some(Pair13)
      else if OneFour(g, i, j) then Some(Pair14)
      else Some(Pair)
  {
    Pair12IMember(g, |g|, (i, j));
    Pair13IMember(g, |g|, (i, j));
    Pair14IMember(g, |g|, (i, j));
  }

  lemma AllPairs(g: ConnData, c: IntCoord)
    ensures forall t :: t in PairsI(WalkUpTo(g, |g|), c, |g|, |g|) <==>
      IsPairOf(g, t) && PairKind(WalkUpTo(g, |g|), t[0], t[1]) == Some(c)
  {
    var w := WalkUpTo(g, |g|);
    forall t ensures t in PairsI(w, c, |g|, |g|) <==> IsPairOf(g, t) && PairKind(w, t[0], t[1]) == Some(c) {
      PairsIMember(w, c, |g|, |g|, t);
      if |t| == 2 && t[0] < t[1] < |g| {
        PairKindOfGraph(g, t[0], t[1]);
      }
    }
  }

  lemma CoordinatesPairs(g: ConnData)
    ensures PairsEnumerated(g, Coordinates(g))
  {
    var n := |g|;
    var w := WalkUpTo(g, n);
    AllPairs(g, Pair13);
    AllPairs(g, Pair14);
    AllPairs(g, Pair);
    forall t: seq<nat> | IsPairOf(g, t) {
      PairKindOfGraph(g, t[0], t[1]);
    }
    var ca := Coordinates(g);
    assert ca[Pair13] == PairsI(w, Pair13, n, n) && ca[Pair14] == PairsI(w, Pair14, n, n);
    assert ca[Pair] == PairsI(w, Pair, n, n);
  }
}
