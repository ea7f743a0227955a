/** Parameter assignment (FManII.cpp:89-145): for every term of the force
    field, every coordinate collection the term acts on and every tuple of
    that collection, the atoms are mapped to types (or classes), the tuple is
    canonicalised by the term's ordering rule, and each parameter of the
    term's model is resolved, by a combination rule over single-atom entries
    or by direct lookup, and appended to the term's parameter vectors. */
module Assign {
  import opened Defs

  /** Why assignment stops. MissingParamType, MissingCoords, MissingClass
      and MissingParam are a failing std::map::at in the source. BadShape is
      either the debug check of FManII.cpp:134 (a directly looked-up entry
      that is not a single value) or an empty single-atom entry under a
      combination rule, whose first component FManII.cpp:115 and :120 read
      without a check (undefined behaviour in the source). */
  datatype AssignError =
    | MissingParamType(term: TermType)
    | MissingCoords(coord: IntCoord)
    | MissingClass(atomType: nat)
    | MissingParam(term: TermType, param: Param, key: seq<nat>)
    | BadShape(term: TermType, param: Param, key: seq<nat>)

  /** What the model takes from outside: the ordering functions named by an
      OrderRule, and the n-th root std::pow(x, 1.0/n) used by the geometric
      combination rule. */
  datatype Hooks = Hooks(order: (OrderRule, seq<nat>) -> seq<nat>, root: (real, nat) -> real)

  /** The parameter vectors of one term, by parameter name. */
  type Acc = map<Param, seq<real>>

  function Get(acc: Acc, p: Param): seq<real> {
    if p in acc then acc[p] else []
  }

  // ---------------------------------------------------------------------
  // Inputs the source reads without checking.

  /** A tuple of atom indices, each an index into Types (Types[t] is
      unchecked vector indexing). Tuples are never empty: every internal
      coordinate has two to four atoms. */
  predicate AtomsIn(t: seq<nat>, n: nat) {
    |t| > 0 && forall a :: 0 <= a < |t| ==> t[a] < n
  }

  predicate InstancesIn(insts: seq<seq<nat>>, n: nat) {
    forall b :: 0 <= b < |insts| ==> AtomsIn(insts[b], n)
  }

  predicate CoordsIn(coords: CoordArray, n: nat) {
    forall c :: c in coords ==> InstancesIn(coords[c], n)
  }

  // ---------------------------------------------------------------------
  // Type mapping (FManII.cpp:99-103).

  /** The type or, for a CLASS term, the class of an atom type. */
  function ClassOf(ff: ForceField, useClass: bool, ti: nat): nat
    requires useClass ==> ti in ff.type2class
  {
    if useClass then ff.type2class[ti] else ti
  }

  /** Every atom type of the tuple has a class, if classes are used. */
  predicate Classified(ff: ForceField, types: seq<nat>, useClass: bool, atoms: seq<nat>)
    requires forall a :: 0 <= a < |atoms| ==> atoms[a] < |types|
  {
    useClass ==> forall a :: 0 <= a < |atoms| ==> types[atoms[a]] in ff.type2class
  }

  /** acc followed by the types (or classes) of atoms; fails on the first
      type without a class. */
  function TypesFrom(ff: ForceField, types: seq<nat>, useClass: bool, acc: seq<nat>, atoms: seq<nat>)
    : (r: Result<seq<nat>, AssignError>)
    requires forall a :: 0 <= a < |atoms| ==> atoms[a] < |types|
    ensures r.Success? <==> Classified(ff, types, useClass, atoms)
    ensures r.Success? ==>
      |r.value| == |acc| + |atoms| && r.value[..|acc|] == acc
      && forall a :: 0 <= a < |atoms| ==> r.value[|acc| + a] == ClassOf(ff, useClass, types[atoms[a]])
    ensures r.Failure? ==> r.error.MissingClass?
    decreases |atoms|
  {
    if atoms == [] then Success(acc)
    else
      var ti := types[atoms[0]];
      if useClass && ti !in ff.type2class then Failure(MissingClass(ti))
      else
        TypesFrom(ff, types, useClass, acc + [ClassOf(ff, useClass, ti)], atoms[1..])
  }

  function TypesOf(ff: ForceField, types: seq<nat>, useClass: bool, atoms: seq<nat>): Result<seq<nat>, AssignError>
    requires forall a :: 0 <= a < |atoms| ==> atoms[a] < |types|
  {
    TypesFrom(ff, types, useClass, [], atoms)
  }

  /** The loop of FManII.cpp:100-103. */
  method MapTypes(ff: ForceField, types: seq<nat>, useClass: bool, atoms: seq<nat>)
    returns (r: Result<seq<nat>, AssignError>)
    requires forall a :: 0 <= a < |atoms| ==> atoms[a] < |types|
    ensures r == TypesOf(ff, types, useClass, atoms)
  {
    var mapped: seq<nat> := [];
    for i := 0 to |atoms|
      invariant TypesOf(ff, types, useClass, atoms) == TypesFrom(ff, types, useClass, mapped, atoms[i..])
    {
      assert atoms[i..][1..] == atoms[i + 1..];
      var ti := types[atoms[i]];
      if useClass {
        if ti !in ff.type2class {
          return Failure(MissingClass(ti));
        }
        mapped := mapped + [ff.type2class[ti]];
      } else {
        mapped := mapped + [ti];
      }
    }
    assert atoms[|atoms|..] == [];
    return Success(mapped);
  }

  /** The tuple canonicalised by the term's ordering rule, or left as it is
      when none is registered (FManII.cpp:104-105). */
  function Ordered(ff: ForceField, tt: TermType, order: (OrderRule, seq<nat>) -> seq<nat>, ts: seq<nat>): seq<nat> {
    if tt in ff.orderrules then order(ff.orderrules[tt], ts) else ts
  }

  // ---------------------------------------------------------------------
  // Resolving one parameter (FManII.cpp:106-138).

  /** ff.params.at(tt).at(p).at(key). */
  function Lookup(ff: ForceField, tt: TermType, p: Param, key: seq<nat>): Result<seq<real>, AssignError> {
    if tt in ff.params && p in ff.params[tt] && key in ff.params[tt][p] then Success(ff.params[tt][p][key])
    else Failure(MissingParam(tt, p, key))
  }

  predicate HasEntry(ff: ForceField, tt: TermType, p: Param, key: seq<nat>) {
    tt in ff.params && p in ff.params[tt] && key in ff.params[tt][p]
  }

  /** The single-atom entry of ti exists and has a first component. */
  predicate HasComponent(ff: ForceField, tt: TermType, p: Param, ti: nat) {
    HasEntry(ff, tt, p, [ti]) && |ff.params[tt][p][[ti]]| > 0
  }

  /** acc followed by the first component of the single-atom entry of each
      type of ts. A missing entry fails; an empty one has no first component
      and fails as malformed. */
  function Components(ff: ForceField, tt: TermType, p: Param, acc: seq<real>, ts: seq<nat>)
    : Result<seq<real>, AssignError>
    decreases |ts|
  {
    if ts == [] then Success(acc)
    else
      var vs :- Lookup(ff, tt, p, [ts[0]]);
      if |vs| == 0 then Failure(BadShape(tt, p, [ts[0]]))
      else
        Components(ff, tt, p, acc + [vs[0]], ts[1..])
  }

  /** Components succeeds exactly when every type has a first component,
      and then lists those components after acc, in order. */
  lemma {:induction false} ComponentsFacts(ff: ForceField, tt: TermType, p: Param, acc: seq<real>, ts: seq<nat>)
    ensures var r := Components(ff, tt, p, acc, ts);
      && (r.Success? <==> forall a :: 0 <= a < |ts| ==> HasComponent(ff, tt, p, ts[a]))
      && (r.Success? ==>
           |r.value| == |acc| + |ts| && r.value[..|acc|] == acc
           && forall a :: 0 <= a < |ts| ==>
                HasComponent(ff, tt, p, ts[a]) && r.value[|acc| + a] == ff.params[tt][p][[ts[a]]][0])
    decreases |ts|
  {
    if ts != [] && HasComponent(ff, tt, p, ts[0]) {
      var v := ff.params[tt][p][[ts[0]]][0];
      ComponentsFacts(ff, tt, p, acc + [v], ts[1..]);
      var r := Components(ff, tt, p, acc, ts);
      if r.Success? {
        assert r.value[..|acc| + 1][..|acc|] == acc;
        forall a | 1 <= a < |ts| ensures r.value[|acc| + a] == ff.params[tt][p][[ts[a]]][0] {
          assert ts[1..][a - 1] == ts[a];
        }
      }
      assert (forall a :: 0 <= a < |ts| ==> HasComponent(ff, tt, p, ts[a]))
         <==> (forall a :: 0 <= a < |ts| - 1 ==> HasComponent(ff, tt, p, ts[1..][a])) by {
        forall a | 1 <= a < |ts| ensures ts[1..][a - 1] == ts[a] {}
      }
    }
  }

  /** The first component of the single-atom entry of each type of ts. */
  function FirstComponents(ff: ForceField, tt: TermType, p: Param, ts: seq<nat>): (xs: seq<real>)
    requires forall a :: 0 <= a < |ts| ==> HasComponent(ff, tt, p, ts[a])
    ensures |xs| == |ts|
  {
    seq(|ts|, a requires 0 <= a < |ts| && HasComponent(ff, tt, p, ts[a]) => ff.params[tt][p][[ts[a]]][0])
  }

  function Sum(xs: seq<real>): real {
    if xs == [] then 0.0 else Sum(xs[..|xs| - 1]) + xs[|xs| - 1]
  }

  function Product(xs: seq<real>): real {
    if xs == [] then 1.0 else Product(xs[..|xs| - 1]) * xs[|xs| - 1]
  }

  /** The arithmetic mean, the plain product, or the n-th root of the
      product (FManII.cpp:111-124). */
  function Combine(rule: CombRule, xs: seq<real>, root: (real, nat) -> real): real
    requires |xs| > 0
  {
    match rule
    case Arithmetic => Sum(xs) / (|xs| as real)
    case Product => Product(xs)
    case Geometric => root(Product(xs), |xs|)
  }

  /** The value a combination rule gives for the (class-mapped, unordered)
      types ts. */
  function CombinedValue(ff: ForceField, tt: TermType, p: Param, rule: CombRule, ts: seq<nat>,
                         root: (real, nat) -> real): Result<real, AssignError>
    requires |ts| > 0
  {
    ComponentsFacts(ff, tt, p, [], ts);
    var xs :- Components(ff, tt, p, [], ts);
    Success(Combine(rule, xs, root))
  }

  /** The running value of the combination loop: a sum for the arithmetic
      rule, a product for the others. */
  function Running(rule: CombRule, xs: seq<real>): real {
    if rule == Arithmetic then Sum(xs) else Product(xs)
  }

  lemma RunningSnoc(rule: CombRule, xs: seq<real>, x: real)
    ensures Running(rule, xs + [x]) == if rule == Arithmetic then Running(rule, xs) + x else Running(rule, xs) * x
  {
    assert (xs + [x])[..|xs|] == xs;
  }

  /** The accumulation loops of FManII.cpp:112-114 and 118-120. */
  method Accumulate(ff: ForceField, tt: TermType, p: Param, rule: CombRule, ts: seq<nat>)
    returns (r: Result<real, AssignError>)
    ensures r == (var xs :- Components(ff, tt, p, [], ts); Success(Running(rule, xs)))
  {
    var val: real := if rule == Arithmetic then 0.0 else 1.0;
    ghost var xs: seq<real> := [];
    for i := 0 to |ts|
      invariant Components(ff, tt, p, [], ts) == Components(ff, tt, p, xs, ts[i..])
      invariant val == Running(rule, xs)
    {
      assert ts[i..][1..] == ts[i + 1..];
      var vs :- Lookup(ff, tt, p, [ts[i]]);
      if |vs| == 0 {
        return Failure(BadShape(tt, p, [ts[i]]));
      }
      RunningSnoc(rule, xs, vs[0]);
      if rule == Arithmetic {
        val := val + vs[0];
      } else {
        val := val * vs[0];
      }
      xs := xs + [vs[0]];
    }
    assert ts[|ts|..] == [];
    return Success(val);
  }

  /** The combination branch of FManII.cpp:110-125. */
  method CombineParam(ff: ForceField, tt: TermType, p: Param, rule: CombRule, ts: seq<nat>,
                      root: (real, nat) -> real) returns (r: Result<real, AssignError>)
    requires |ts| > 0
    ensures r == CombinedValue(ff, tt, p, rule, ts, root)
  {
    ComponentsFacts(ff, tt, p, [], ts);
    var val :- Accumulate(ff, tt, p, rule, ts);
    if rule == Arithmetic {
      val := val / (|ts| as real);
    } else if rule == Geometric {
      val := root(val, |ts|);
    }
    return Success(val);
  }

  /** The first three stored components, zero-padded. */
  function Padded(vs: seq<real>): seq<real> {
    seq(3, i requires 0 <= i < 3 => if i < |vs| then vs[i] else 0.0)
  }

  /** How many values one instance contributes to parameter p. */
  function Width(ff: ForceField, tt: TermType, p: Param): nat {
    if (tt.model, p) !in ff.combrules && tt.model == FourierSeries then 3 else 1
  }

  /** The values one coordinate instance contributes to parameter p: one
      combined value when a rule is registered for (model, p); otherwise the
      entry of the ordered tuple, padded to three for a Fourier series and
      required to be a single value for the other models. */
  function ParamValues(ff: ForceField, tt: TermType, p: Param, mapped: seq<nat>, ordered: seq<nat>,
                       root: (real, nat) -> real): (r: Result<seq<real>, AssignError>)
    requires |mapped| > 0
    ensures r.Success? ==> |r.value| == Width(ff, tt, p)
    ensures (tt.model, p) !in ff.combrules ==>
      (r.Success? <==> HasEntry(ff, tt, p, ordered)
                       && (tt.model == FourierSeries || |ff.params[tt][p][ordered]| == 1))
    ensures (tt.model, p) !in ff.combrules && r.Success? ==>
      var vs := ff.params[tt][p][ordered];
      forall i :: 0 <= i < |r.value| ==> r.value[i] == if i < |vs| then vs[i] else 0.0
    ensures (tt.model, p) in ff.combrules ==>
      (r.Success? <==> forall a :: 0 <= a < |mapped| ==> HasComponent(ff, tt, p, mapped[a]))
    ensures (tt.model, p) in ff.combrules && r.Success? ==>
      r.value == [Combine(ff.combrules[(tt.model, p)], FirstComponents(ff, tt, p, mapped), root)]
  {
    if (tt.model, p) in ff.combrules then
      ComponentsFacts(ff, tt, p, [], mapped);
      assert Components(ff, tt, p, [], mapped).Success? ==>
        Components(ff, tt, p, [], mapped).value == FirstComponents(ff, tt, p, mapped);
      var v :- CombinedValue(ff, tt, p, ff.combrules[(tt.model, p)], mapped, root);
      Success([v])
    else
      var vs :- Lookup(ff, tt, p, ordered);
      if tt.model == FourierSeries then Success(Padded(vs))
      else if |vs| != 1 then Failure(BadShape(tt, p, ordered))
      else Success(vs)
  }

  /** acc with the values of one instance for p appended to p's vector. */
  function StepParam(acc: Acc, ff: ForceField, tt: TermType, p: Param, mapped: seq<nat>, ordered: seq<nat>,
                     root: (real, nat) -> real): Result<Acc, AssignError>
    requires |mapped| > 0
  {
    var v :- ParamValues(ff, tt, p, mapped, ordered, root);
    Success(acc[p := Get(acc, p) + v])
  }

  /** One iteration of the parameter loop (FManII.cpp:107-137). */
  method PushParam(acc: Acc, ff: ForceField, tt: TermType, p: Param, mapped: seq<nat>, ordered: seq<nat>,
                   root: (real, nat) -> real) returns (r: Result<Acc, AssignError>)
    requires |mapped| > 0
    ensures r == StepParam(acc, ff, tt, p, mapped, ordered, root)
  {
    var prule := (tt.model, p);
    if prule in ff.combrules {
      var val :- CombineParam(ff, tt, p, ff.combrules[prule], mapped, root);
      return Success(acc[p := Get(acc, p) + [val]]);
    }
    var vs :- Lookup(ff, tt, p, ordered);
    var pushed := Get(acc, p);
    if tt.model == FourierSeries {
      for i := 0 to 3
        invariant pushed == Get(acc, p) + Padded(vs)[..i]
      {
        assert Padded(vs)[..i + 1] == Padded(vs)[..i] + [Padded(vs)[i]];
        pushed := pushed + [if |vs| > i then vs[i] else 0.0];
      }
      assert Padded(vs)[..3] == Padded(vs);
    } else {
      if |vs| != 1 {
        return Failure(BadShape(tt, p, ordered));
      }
      pushed := pushed + [vs[0]];
      assert [vs[0]] == vs;
    }
    return Success(acc[p := pushed]);
  }

  // ---------------------------------------------------------------------
  // The loops over parameters, instances and coordinate collections.

  /** The parameter loop for one instance. */
  function ParamsFrom(acc: Acc, ff: ForceField, tt: TermType, params: seq<Param>, mapped: seq<nat>,
                      ordered: seq<nat>, root: (real, nat) -> real): Result<Acc, AssignError>
    requires |mapped| > 0
    decreases |params|
  {
    if params == [] then Success(acc)
    else
      var acc' :- StepParam(acc, ff, tt, params[0], mapped, ordered, root);
      ParamsFrom(acc', ff, tt, params[1..], mapped, ordered, root)
  }

  method PushParams(acc: Acc, ff: ForceField, tt: TermType, params: seq<Param>, mapped: seq<nat>,
                    ordered: seq<nat>, root: (real, nat) -> real) returns (r: Result<Acc, AssignError>)
    requires |mapped| > 0
    ensures r == ParamsFrom(acc, ff, tt, params, mapped, ordered, root)
  {
    var cur := acc;
    for i := 0 to |params|
      invariant ParamsFrom(acc, ff, tt, params, mapped, ordered, root)
             == ParamsFrom(cur, ff, tt, params[i..], mapped, ordered, root)
    {
      assert params[i..][1..] == params[i + 1..];
      cur :- PushParam(cur, ff, tt, params[i], mapped, ordered, root);
    }
    assert params[|params|..] == [];
    return Success(cur);
  }

  /** The instance loop over one coordinate collection: map, order, then
      resolve every parameter. */
  function InstancesFrom(acc: Acc, ff: ForceField, tt: TermType, useClass: bool, params: seq<Param>,
                         insts: seq<seq<nat>>, types: seq<nat>, hooks: Hooks): Result<Acc, AssignError>
    requires InstancesIn(insts, |types|)
    decreases |insts|
  {
    if insts == [] then Success(acc)
    else
      var mapped :- TypesOf(ff, types, useClass, insts[0]);
      var acc' :- ParamsFrom(acc, ff, tt, params, mapped, Ordered(ff, tt, hooks.order, mapped), hooks.root);
      assert InstancesIn(insts[1..], |types|) by {
        forall b | 0 <= b < |insts| - 1 ensures AtomsIn(insts[1..][b], |types|) {
          assert insts[1..][b] == insts[b + 1];
        }
      }
      InstancesFrom(acc', ff, tt, useClass, params, insts[1..], types, hooks)
  }

  method PushInstances(acc: Acc, ff: ForceField, tt: TermType, useClass: bool, params: seq<Param>,
                       insts: seq<seq<nat>>, types: seq<nat>, hooks: Hooks) returns (r: Result<Acc, AssignError>)
    requires InstancesIn(insts, |types|)
    ensures r == InstancesFrom(acc, ff, tt, useClass, params, insts, types, hooks)
  {
    var cur := acc;
    for i := 0 to |insts|
      invariant InstancesIn(insts[i..], |types|)
      invariant InstancesFrom(acc, ff, tt, useClass, params, insts, types, hooks)
             == InstancesFrom(cur, ff, tt, useClass, params, insts[i..], types, hooks)
    {
      assert insts[i..][0] == insts[i];
      assert insts[i..][1..] == insts[i + 1..];
      var mapped :- MapTypes(ff, types, useClass, insts[i]);
      var ordered := Ordered(ff, tt, hooks.order, mapped);
      cur :- PushParams(cur, ff, tt, params, mapped, ordered, hooks.root);
    }
    assert insts[|insts|..] == [];
    return Success(cur);
  }

  /** The loop over the coordinate kinds the term acts on; a kind with no
      collection fails. */
  function CoordsFrom(acc: Acc, coords: CoordArray, ff: ForceField, tt: TermType, useClass: bool,
                      params: seq<Param>, cs: seq<IntCoord>, types: seq<nat>, hooks: Hooks): Result<Acc, AssignError>
    requires CoordsIn(coords, |types|)
    decreases |cs|
  {
    if cs == [] then Success(acc)
    else if cs[0] !in coords then Failure(MissingCoords(cs[0]))
    else
      var acc' :- InstancesFrom(acc, ff, tt, useClass, params, coords[cs[0]], types, hooks);
      CoordsFrom(acc', coords, ff, tt, useClass, params, cs[1..], types, hooks)
  }

  method PushCoords(acc: Acc, coords: CoordArray, ff: ForceField, tt: TermType, useClass: bool,
                    params: seq<Param>, cs: seq<IntCoord>, types: seq<nat>, hooks: Hooks)
    returns (r: Result<Acc, AssignError>)
    requires CoordsIn(coords, |types|)
    ensures r == CoordsFrom(acc, coords, ff, tt, useClass, params, cs, types, hooks)
  {
    var cur := acc;
    for i := 0 to |cs|
      invariant CoordsFrom(acc, coords, ff, tt, useClass, params, cs, types, hooks)
             == CoordsFrom(cur, coords, ff, tt, useClass, params, cs[i..], types, hooks)
    {
      assert cs[i..][1..] == cs[i + 1..];
      if cs[i] !in coords {
        return Failure(MissingCoords(cs[i]));
      }
      cur :- PushInstances(cur, ff, tt, useClass, params, coords[cs[i]], types, hooks);
    }
    assert cs[|cs|..] == [];
    return Success(cur);
  }

  /** The parameter vectors of one term; fails first on a term without a
      parameterisation type (FManII.cpp:96). */
  function TermParams(coords: CoordArray, ff: ForceField, types: seq<nat>, hooks: Hooks, tt: TermType)
    : Result<Acc, AssignError>
    requires tt in ff.terms && CoordsIn(coords, |types|)
  {
    if tt !in ff.paramtypes then Failure(MissingParamType(tt))
    else CoordsFrom(map[], coords, ff, tt, ff.paramtypes[tt] == ByClass,
                    ff.terms[tt].params, ff.terms[tt].coords, types, hooks)
  }

  method AssignTerm(coords: CoordArray, ff: ForceField, types: seq<nat>, hooks: Hooks, tt: TermType)
    returns (r: Result<Acc, AssignError>)
    requires tt in ff.terms && CoordsIn(coords, |types|)
    ensures r == TermParams(coords, ff, types, hooks, tt)
  {
    if tt !in ff.paramtypes {
      return Failure(MissingParamType(tt));
    }
    var useClass := ff.paramtypes[tt] == ByClass;
    r := PushCoords(map[], coords, ff, tt, useClass, ff.terms[tt].params, ff.terms[tt].coords, types, hooks);
  }

  /** assign_params: fails exactly when some term fails, with the error of
      one such term; otherwise each term's vectors are its own resolution,
      whatever order the terms are visited in, and a term that pushed
      nothing has no entry. */
  method AssignParams(coords: CoordArray, ff: ForceField, types: seq<nat>, hooks: Hooks)
    returns (r: Result<ParamSet, AssignError>)
    requires CoordsIn(coords, |types|)
    ensures r.Failure? <==> exists tt :: tt in ff.terms && TermParams(coords, ff, types, hooks, tt).Failure?
    ensures r.Failure? ==>
      exists tt :: tt in ff.terms && TermParams(coords, ff, types, hooks, tt) == Failure(r.error)
    ensures r.Success? ==> forall tt :: tt in r.value <==>
      tt in ff.terms && TermParams(coords, ff, types, hooks, tt).value != map[]
    ensures r.Success? ==> forall tt :: tt in r.value ==>
      tt in ff.terms && r.value[tt] == TermParams(coords, ff, types, hooks, tt).value
  {
    var ps: ParamSet := map[];
    var todo := ff.terms.Keys;
    while todo != {}
      invariant todo <= ff.terms.Keys
      invariant forall tt :: tt in ff.terms && tt !in todo ==> TermParams(coords, ff, types, hooks, tt).Success?
      invariant forall tt :: tt in ps <==>
        tt in ff.terms && tt !in todo && TermParams(coords, ff, types, hooks, tt).value != map[]
      invariant forall tt :: tt in ps ==>
        tt in ff.terms && ps[tt] == TermParams(coords, ff, types, hooks, tt).value
      decreases |todo|
    {
      var tt :| tt in todo;
      var acc := AssignTerm(coords, ff, types, hooks, tt);
      if acc.Failure? {
        return Failure(acc.error);
      }
      if acc.value != map[] {
        ps := ps[tt := acc.value];
      }
      todo := todo - {tt};
    }
    return Success(ps);
  }
}
