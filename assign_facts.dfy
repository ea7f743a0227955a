/** What assignment guarantees about its output: the parameter vectors of a
    term hold, block by block, the values of its coordinate instances in
    loop order, and a combination rule does not depend on the order in which
    the atoms are listed. */
module AssignFacts {
  import opened Defs
  import opened Assign

  /** The instances of the collections cs in the order the loops of
      FManII.cpp:98-100 visit them: collection by collection, and tuple by
      tuple within each collection. */
  function AllInstances(coords: CoordArray, cs: seq<IntCoord>): seq<seq<nat>>
    decreases |cs|
  {
    if cs == [] then [] else (if cs[0] in coords then coords[cs[0]] else []) + AllInstances(coords, cs[1..])
  }

  /** The number of instances the collections cs hold. */
  function Instances(coords: CoordArray, cs: seq<IntCoord>): nat {
    |AllInstances(coords, cs)|
  }

  /** The values one instance contributes to each parameter. */
  function PerInstance(ff: ForceField, tt: TermType, params: seq<Param>, q: Param): nat {
    multiset(params)[q] * Width(ff, tt, q)
  }

  lemma StepAligned(acc: Acc, ff: ForceField, tt: TermType, p: Param,
                    mapped: seq<nat>, ordered: seq<nat>, root: (real, nat) -> real)
    requires |mapped| > 0
    requires StepParam(acc, ff, tt, p, mapped, ordered, root).Success?
    ensures var r := StepParam(acc, ff, tt, p, mapped, ordered, root).value;
      && (forall q :: |Get(r, q)| == |Get(acc, q)| + if q == p then Width(ff, tt, q) else 0)
      && r.Keys == acc.Keys + {p}
  {
    var v := ParamValues(ff, tt, p, mapped, ordered, root);
    assert |v.value| == Width(ff, tt, p);
  }

  lemma {:induction false} ParamsAligned(acc: Acc, ff: ForceField, tt: TermType, params: seq<Param>,
                                         mapped: seq<nat>, ordered: seq<nat>, root: (real, nat) -> real)
    requires |mapped| > 0
    requires ParamsFrom(acc, ff, tt, params, mapped, ordered, root).Success?
    ensures var r := ParamsFrom(acc, ff, tt, params, mapped, ordered, root).value;
      && (forall q :: |Get(r, q)| == |Get(acc, q)| + PerInstance(ff, tt, params, q))
      && r.Keys == acc.Keys + set q | q in params
  {
    forall q ensures |Get(ParamsFrom(acc, ff, tt, params, mapped, ordered, root).value, q)|
                     == |Get(acc, q)| + PerInstance(ff, tt, params, q) {
      ParamsCount(acc, ff, tt, params, mapped, ordered, root, q);
    }
    ParamsKeys(acc, ff, tt, params, mapped, ordered, root);
  }

  lemma {:induction false} ParamsCount(acc: Acc, ff: ForceField, tt: TermType, params: seq<Param>,
                                       mapped: seq<nat>, ordered: seq<nat>, root: (real, nat) -> real, q: Param)
    requires |mapped| > 0
    requires ParamsFrom(acc, ff, tt, params, mapped, ordered, root).Success?
    ensures |Get(ParamsFrom(acc, ff, tt, params, mapped, ordered, root).value, q)|
            == |Get(acc, q)| + PerInstance(ff, tt, params, q)
    decreases |params|
  {
    if params != [] {
      var p := params[0];
      StepAligned(acc, ff, tt, p, mapped, ordered, root);
      var acc1 := StepParam(acc, ff, tt, p, mapped, ordered, root).value;
      ParamsUnfold(acc, ff, tt, params, mapped, ordered, root);
      ParamsCount(acc1, ff, tt, params[1..], mapped, ordered, root, q);
      CountCons(params, q);
      var c := if q == p then 1 else 0;
      assert c * Width(ff, tt, q) + multiset(params[1..])[q] * Width(ff, tt, q)
          == (c + multiset(params[1..])[q]) * Width(ff, tt, q);
    }
  }

  lemma ParamsUnfold(acc: Acc, ff: ForceField, tt: TermType, params: seq<Param>,
                     mapped: seq<nat>, ordered: seq<nat>, root: (real, nat) -> real)
    requires |mapped| > 0 && params != []
    requires StepParam(acc, ff, tt, params[0], mapped, ordered, root).Success?
    ensures ParamsFrom(acc, ff, tt, params, mapped, ordered, root)
         == ParamsFrom(StepParam(acc, ff, tt, params[0], mapped, ordered, root).value,
                       ff, tt, params[1..], mapped, ordered, root)
  {
  }

  lemma CountCons(params: seq<Param>, q: Param)
    requires params != []
    ensures multiset(params)[q] == (if q == params[0] then 1 else 0) + multiset(params[1..])[q]
  {
    assert params == [params[0]] + params[1..];
  }

  lemma {:induction false} ParamsKeys(acc: Acc, ff: ForceField, tt: TermType, params: seq<Param>,
                                      mapped: seq<nat>, ordered: seq<nat>, root: (real, nat) -> real)
    requires |mapped| > 0
    requires ParamsFrom(acc, ff, tt, params, mapped, ordered, root).Success?
    ensures ParamsFrom(acc, ff, tt, params, mapped, ordered, root).value.Keys == acc.Keys + set q | q in params
    decreases |params|
  {
    if params != [] {
      var p := params[0];
      StepAligned(acc, ff, tt, p, mapped, ordered, root);
      var acc1 := StepParam(acc, ff, tt, p, mapped, ordered, root).value;
      ParamsUnfold(acc, ff, tt, params, mapped, ordered, root);
      ParamsKeys(acc1, ff, tt, params[1..], mapped, ordered, root);
      assert params == [p] + params[1..];
      assert (set q | q in params) == {p} + set q | q in params[1..];
    }
  }

  lemma {:induction false} InstancesAligned(acc: Acc, ff: ForceField, tt: TermType, useClass: bool,
                                            params: seq<Param>, insts: seq<seq<nat>>, types: seq<nat>, hooks: Hooks)
    requires InstancesIn(insts, |types|)
    requires InstancesFrom(acc, ff, tt, useClass, params, insts, types, hooks).Success?
    ensures var r := InstancesFrom(acc, ff, tt, useClass, params, insts, types, hooks).value;
      && (forall q :: |Get(r, q)| == |Get(acc, q)| + |insts| * PerInstance(ff, tt, params, q))
      && r.Keys == acc.Keys + if insts == [] then {} else set q | q in params
    decreases |insts|
  {
    if insts != [] {
      var mapped := TypesOf(ff, types, useClass, insts[0]).value;
      var ordered := Ordered(ff, tt, hooks.order, mapped);
      ParamsAligned(acc, ff, tt, params, mapped, ordered, hooks.root);
      var acc1 := ParamsFrom(acc, ff, tt, params, mapped, ordered, hooks.root).value;
      assert InstancesIn(insts[1..], |types|) by {
        forall b | 0 <= b < |insts| - 1 ensures AtomsIn(insts[1..][b], |types|) {
          assert insts[1..][b] == insts[b + 1];
        }
      }
      InstancesAligned(acc1, ff, tt, useClass, params, insts[1..], types, hooks);
      forall q ensures PerInstance(ff, tt, params, q) + (|insts| - 1) * PerInstance(ff, tt, params, q)
                       == |insts| * PerInstance(ff, tt, params, q) {
        var w := PerInstance(ff, tt, params, q);
        assert w + (|insts| - 1) * w == |insts| * w;
      }
    }
  }

  lemma {:induction false} CoordsAligned(acc: Acc, coords: CoordArray, ff: ForceField, tt: TermType, useClass: bool,
                                         params: seq<Param>, cs: seq<IntCoord>, types: seq<nat>, hooks: Hooks)
    requires CoordsIn(coords, |types|)
    requires CoordsFrom(acc, coords, ff, tt, useClass, params, cs, types, hooks).Success?
    ensures var r := CoordsFrom(acc, coords, ff, tt, useClass, params, cs, types, hooks).value;
      && (forall q :: |Get(r, q)| == |Get(acc, q)| + Instances(coords, cs) * PerInstance(ff, tt, params, q))
      && r.Keys == acc.Keys + if Instances(coords, cs) == 0 then {} else set q | q in params
    decreases |cs|
  {
    if cs != [] {
      var insts := coords[cs[0]];
      InstancesAligned(acc, ff, tt, useClass, params, insts, types, hooks);
      var acc1 := InstancesFrom(acc, ff, tt, useClass, params, insts, types, hooks).value;
      CoordsAligned(acc1, coords, ff, tt, useClass, params, cs[1..], types, hooks);
      assert Instances(coords, cs) == |insts| + Instances(coords, cs[1..]);
      forall q ensures |insts| * PerInstance(ff, tt, params, q) + Instances(coords, cs[1..]) * PerInstance(ff, tt, params, q)
                       == Instances(coords, cs) * PerInstance(ff, tt, params, q) {
        var a, b, w := |insts|, Instances(coords, cs[1..]), PerInstance(ff, tt, params, q);
        assert a * w + b * w == (a + b) * w;
      }
    }
  }

  /** A resolved term has, for each parameter p of its model, a vector of
      Width values per coordinate instance (three for a directly looked-up
      Fourier parameter, one otherwise), counted once per occurrence of p in
      the model's parameter list; it has a vector exactly for the model's
      parameters, and none when there are no instances. */
  lemma TermAligned(coords: CoordArray, ff: ForceField, types: seq<nat>, hooks: Hooks, tt: TermType)
    requires tt in ff.terms && CoordsIn(coords, |types|)
    requires TermParams(coords, ff, types, hooks, tt).Success?
    ensures var r := TermParams(coords, ff, types, hooks, tt).value;
      var n := Instances(coords, ff.terms[tt].coords);
      && (forall q :: |Get(r, q)| == n * PerInstance(ff, tt, ff.terms[tt].params, q))
      && (forall q :: q in r <==> q in ff.terms[tt].params && n > 0)
  {
    CoordsAligned(map[], coords, ff, tt, ff.paramtypes[tt] == ByClass, ff.terms[tt].params,
                  ff.terms[tt].coords, types, hooks);
  }

  // ---------------------------------------------------------------------
  // What each instance's block of a parameter vector holds.

  /** k copies of v, one after another. */
  function Repeat(v: seq<real>, k: nat): (r: seq<real>)
    ensures |r| == k * |v|
  {
    if k == 0 then [] else v + Repeat(v, k - 1)
  }

  /** The values an instance whose mapped tuple is `mapped` contributes to
      q: the values q resolves to, once per occurrence of q in the model's
      parameter list, and none when q is not a parameter of the model. */
  function Copies(ff: ForceField, tt: TermType, params: seq<Param>, q: Param, mapped: seq<nat>,
                  ordered: seq<nat>, root: (real, nat) -> real): seq<real>
    requires |mapped| > 0
  {
    var v := ParamValues(ff, tt, q, mapped, ordered, root);
    if v.Success? then Repeat(v.value, multiset(params)[q]) else []
  }

  /** The parameter loop for one instance appends to each vector exactly
      that instance's values for it. */
  lemma {:induction false} ParamsContents(acc: Acc, ff: ForceField, tt: TermType, params: seq<Param>,
                                          mapped: seq<nat>, ordered: seq<nat>, root: (real, nat) -> real, q: Param)
    requires |mapped| > 0
    requires ParamsFrom(acc, ff, tt, params, mapped, ordered, root).Success?
    ensures q in params ==> ParamValues(ff, tt, q, mapped, ordered, root).Success?
    ensures Get(ParamsFrom(acc, ff, tt, params, mapped, ordered, root).value, q)
            == Get(acc, q) + Copies(ff, tt, params, q, mapped, ordered, root)
    decreases |params|
  {
    if params != [] {
      var p := params[0];
      var acc1 := StepParam(acc, ff, tt, p, mapped, ordered, root).value;
      ParamsUnfold(acc, ff, tt, params, mapped, ordered, root);
      ParamsContents(acc1, ff, tt, params[1..], mapped, ordered, root, q);
      CountCons(params, q);
      var v := ParamValues(ff, tt, q, mapped, ordered, root);
      if q == p {
        var rest := Copies(ff, tt, params[1..], q, mapped, ordered, root);
        assert Get(acc1, q) == Get(acc, q) + v.value;
        assert Copies(ff, tt, params, q, mapped, ordered, root) == v.value + rest;
        assert (Get(acc, q) + v.value) + rest == Get(acc, q) + (v.value + rest);
      } else {
        assert Get(acc1, q) == Get(acc, q);
        assert q in params ==> q in params[1..];
      }
    }
  }

  /** The values instance t contributes to q: its atoms mapped to types (or
      classes), put in canonical order, and q resolved for that tuple. */
  function TupleValues(ff: ForceField, tt: TermType, useClass: bool, params: seq<Param>, t: seq<nat>,
                       types: seq<nat>, hooks: Hooks, q: Param): seq<real>
    requires AtomsIn(t, |types|)
  {
    var m := TypesOf(ff, types, useClass, t);
    if m.Success? then Copies(ff, tt, params, q, m.value, Ordered(ff, tt, hooks.order, m.value), hooks.root)
    else []
  }

  /** Instance t maps to types and every parameter of the model resolves
      for it. */
  predicate Resolves(ff: ForceField, tt: TermType, useClass: bool, params: seq<Param>, t: seq<nat>,
                     types: seq<nat>, hooks: Hooks)
    requires AtomsIn(t, |types|)
  {
    var m := TypesOf(ff, types, useClass, t);
    m.Success? && forall q :: q in params ==>
      ParamValues(ff, tt, q, m.value, Ordered(ff, tt, hooks.order, m.value), hooks.root).Success?
  }

  /** A resolving instance contributes PerInstance values to each vector. */
  lemma ResolvedWidth(ff: ForceField, tt: TermType, useClass: bool, params: seq<Param>, t: seq<nat>,
                      types: seq<nat>, hooks: Hooks, q: Param)
    requires AtomsIn(t, |types|) && Resolves(ff, tt, useClass, params, t, types, hooks)
    ensures |TupleValues(ff, tt, useClass, params, t, types, hooks, q)| == PerInstance(ff, tt, params, q)
  {
    if q !in params {
      assert multiset(params)[q] == 0;
    }
  }

  lemma InstancesTail(insts: seq<seq<nat>>, n: nat)
    requires InstancesIn(insts, n) && insts != []
    ensures InstancesIn(insts[1..], n)
  {
    forall b | 0 <= b < |insts| - 1 ensures AtomsIn(insts[1..][b], n) {
      assert insts[1..][b] == insts[b + 1];
    }
  }

  /** The blocks one after another. */
  function Flatten(blocks: seq<seq<real>>): seq<real>
    decreases |blocks|
  {
    if blocks == [] then [] else blocks[0] + Flatten(blocks[1..])
  }

  lemma {:induction false} FlattenAppend(pre: seq<real>, xs: seq<seq<real>>, ys: seq<seq<real>>)
    ensures Flatten(xs + ys) == Flatten(xs) + Flatten(ys)
    ensures pre + Flatten(xs + ys) == (pre + Flatten(xs)) + Flatten(ys)
    decreases |xs|
  {
    if xs == [] {
      assert xs + ys == ys;
    } else {
      FlattenAppend(pre, xs[1..], ys);
      assert (xs + ys)[1..] == xs[1..] + ys;
    }
  }

  /** Flattening after a prefix: the first block, then the others. */
  lemma FlattenAfter(pre: seq<real>, blocks: seq<seq<real>>)
    requires blocks != []
    ensures pre + Flatten(blocks) == (pre + blocks[0]) + Flatten(blocks[1..])
  {
  }

  /** Blocks of equal width w flatten to |blocks| * w values. */
  lemma {:induction false} FlattenLength(blocks: seq<seq<real>>, w: nat)
    requires forall c :: 0 <= c < |blocks| ==> |blocks[c]| == w
    ensures |Flatten(blocks)| == |blocks| * w
    decreases |blocks|
  {
    if blocks != [] {
      FlattenLength(blocks[1..], w);
      var n := |blocks| - 1;
      assert (n + 1) * w == n * w + w;
    }
  }

  /** In blocks of equal width w, block b of the flattening sits at
      b * w .. (b + 1) * w. */
  lemma {:induction false} FlattenBlock(blocks: seq<seq<real>>, w: nat, b: nat)
    requires forall c :: 0 <= c < |blocks| ==> |blocks[c]| == w
    requires b < |blocks|
    ensures (b + 1) * w <= |Flatten(blocks)| && Flatten(blocks)[b * w .. (b + 1) * w] == blocks[b]
    decreases b
  {
    FlattenLength(blocks, w);
    var rest := blocks[1..];
    if b == 0 {
      assert Flatten(blocks)[..w] == blocks[0];
    } else {
      FlattenBlock(rest, w, b - 1);
      assert rest[b - 1] == blocks[b];
      var lo := (b - 1) * w;
      assert b * w == lo + w && (b + 1) * w == lo + w + w;
      assert (blocks[0] + Flatten(rest))[lo + w .. lo + w + w] == Flatten(rest)[lo .. lo + w];
    }
  }

  /** The values of each instance of insts for q, in order. */
  function Blocks(ff: ForceField, tt: TermType, useClass: bool, params: seq<Param>, insts: seq<seq<nat>>,
                  types: seq<nat>, hooks: Hooks, q: Param): (bs: seq<seq<real>>)
    requires InstancesIn(insts, |types|)
    ensures |bs| == |insts|
    decreases |insts|
  {
    if insts == [] then []
    else
      InstancesTail(insts, |types|);
      [TupleValues(ff, tt, useClass, params, insts[0], types, hooks, q)]
      + Blocks(ff, tt, useClass, params, insts[1..], types, hooks, q)
  }

  /** Block b is the values of instance b. */
  lemma {:induction false} BlocksAt(ff: ForceField, tt: TermType, useClass: bool, params: seq<Param>,
                                    insts: seq<seq<nat>>, types: seq<nat>, hooks: Hooks, q: Param, b: nat)
    requires InstancesIn(insts, |types|) && b < |insts|
    ensures Blocks(ff, tt, useClass, params, insts, types, hooks, q)[b]
            == TupleValues(ff, tt, useClass, params, insts[b], types, hooks, q)
    decreases b
  {
    if b > 0 {
      InstancesTail(insts, |types|);
      BlocksAt(ff, tt, useClass, params, insts[1..], types, hooks, q, b - 1);
      assert insts[1..][b - 1] == insts[b];
    }
  }

  /** Every tuple of a collection the instance loop gets through maps to
      types, and every parameter resolves for it. */
  lemma {:induction false} InstancesResolve(acc: Acc, ff: ForceField, tt: TermType, useClass: bool,
                                            params: seq<Param>, insts: seq<seq<nat>>, types: seq<nat>, hooks: Hooks)
    requires InstancesIn(insts, |types|)
    requires InstancesFrom(acc, ff, tt, useClass, params, insts, types, hooks).Success?
    ensures forall b :: 0 <= b < |insts| ==> Resolves(ff, tt, useClass, params, insts[b], types, hooks)
    decreases |insts|
  {
    if insts != [] {
      var m := TypesOf(ff, types, useClass, insts[0]).value;
      var ordered := Ordered(ff, tt, hooks.order, m);
      forall q | q in params ensures ParamValues(ff, tt, q, m, ordered, hooks.root).Success? {
        ParamsContents(acc, ff, tt, params, m, ordered, hooks.root, q);
      }
      var acc1 := ParamsFrom(acc, ff, tt, params, m, ordered, hooks.root).value;
      InstancesTail(insts, |types|);
      InstancesResolve(acc1, ff, tt, useClass, params, insts[1..], types, hooks);
      forall b | 1 <= b < |insts| ensures Resolves(ff, tt, useClass, params, insts[b], types, hooks) {
        assert insts[1..][b - 1] == insts[b];
      }
    }
  }

  /** The instance loop over one collection appends to each vector the
      values of its tuples, in order. */
  lemma {:induction false} InstancesContents(acc: Acc, ff: ForceField, tt: TermType, useClass: bool,
                                             params: seq<Param>, insts: seq<seq<nat>>, types: seq<nat>,
                                             hooks: Hooks, q: Param)
    requires InstancesIn(insts, |types|)
    requires InstancesFrom(acc, ff, tt, useClass, params, insts, types, hooks).Success?
    ensures Get(InstancesFrom(acc, ff, tt, useClass, params, insts, types, hooks).value, q)
            == Get(acc, q) + Flatten(Blocks(ff, tt, useClass, params, insts, types, hooks, q))
    decreases |insts|
  {
    if insts != [] {
      var m := TypesOf(ff, types, useClass, insts[0]).value;
      var ordered := Ordered(ff, tt, hooks.order, m);
      var acc1 := ParamsFrom(acc, ff, tt, params, m, ordered, hooks.root).value;
      InstancesTail(insts, |types|);
      var bs := Blocks(ff, tt, useClass, params, insts, types, hooks, q);
      var rest := Blocks(ff, tt, useClass, params, insts[1..], types, hooks, q);
      assert Get(acc1, q) == Get(acc, q) + bs[0] by {
        ParamsContents(acc, ff, tt, params, m, ordered, hooks.root, q);
      }
      assert Get(InstancesFrom(acc1, ff, tt, useClass, params, insts[1..], types, hooks).value, q)
          == Get(acc1, q) + Flatten(rest) by {
        InstancesContents(acc1, ff, tt, useClass, params, insts[1..], types, hooks, q);
      }
      assert bs == [bs[0]] + rest;
      FlattenAfter(Get(acc, q), bs);
      assert InstancesFrom(acc, ff, tt, useClass, params, insts, types, hooks)
          == InstancesFrom(acc1, ff, tt, useClass, params, insts[1..], types, hooks);
    }
  }

  lemma {:induction false} BlocksAppend(ff: ForceField, tt: TermType, useClass: bool, params: seq<Param>,
                                        xs: seq<seq<nat>>, ys: seq<seq<nat>>, types: seq<nat>, hooks: Hooks, q: Param)
    requires InstancesIn(xs, |types|) && InstancesIn(ys, |types|) && InstancesIn(xs + ys, |types|)
    ensures Blocks(ff, tt, useClass, params, xs + ys, types, hooks, q)
            == Blocks(ff, tt, useClass, params, xs, types, hooks, q)
               + Blocks(ff, tt, useClass, params, ys, types, hooks, q)
    decreases |xs|
  {
    if xs == [] {
      assert xs + ys == ys;
    } else {
      InstancesTail(xs, |types|);
      InstancesTail(xs + ys, |types|);
      assert (xs + ys)[0] == xs[0];
      assert (xs + ys)[1..] == xs[1..] + ys;
      BlocksAppend(ff, tt, useClass, params, xs[1..], ys, types, hooks, q);
      var h := [TupleValues(ff, tt, useClass, params, xs[0], types, hooks, q)];
      var a := Blocks(ff, tt, useClass, params, xs[1..], types, hooks, q);
      var c := Blocks(ff, tt, useClass, params, ys, types, hooks, q);
      assert h + (a + c) == (h + a) + c;
    }
  }

  lemma {:induction false} AllInstancesIn(coords: CoordArray, cs: seq<IntCoord>, n: nat)
    requires CoordsIn(coords, n)
    ensures InstancesIn(AllInstances(coords, cs), n)
    decreases |cs|
  {
    if cs != [] {
      AllInstancesIn(coords, cs[1..], n);
      var xs := if cs[0] in coords then coords[cs[0]] else [];
      var ys := AllInstances(coords, cs[1..]);
      forall b | 0 <= b < |xs + ys| ensures AtomsIn((xs + ys)[b], n) {
        if b < |xs| { assert (xs + ys)[b] == xs[b]; } else { assert (xs + ys)[b] == ys[b - |xs|]; }
      }
    }
  }

  /** Every instance of the collections the coordinate loop gets through
      resolves. */
  lemma {:induction false} CoordsResolve(acc: Acc, coords: CoordArray, ff: ForceField, tt: TermType,
                                         useClass: bool, params: seq<Param>, cs: seq<IntCoord>,
                                         types: seq<nat>, hooks: Hooks)
    requires CoordsIn(coords, |types|)
    requires CoordsFrom(acc, coords, ff, tt, useClass, params, cs, types, hooks).Success?
    ensures InstancesIn(AllInstances(coords, cs), |types|)
    ensures forall b :: 0 <= b < Instances(coords, cs) ==>
      Resolves(ff, tt, useClass, params, AllInstances(coords, cs)[b], types, hooks)
    decreases |cs|
  {
    AllInstancesIn(coords, cs, |types|);
    if cs != [] {
      var insts := coords[cs[0]];
      var later := AllInstances(coords, cs[1..]);
      var all := AllInstances(coords, cs);
      assert all == insts + later;
      InstancesResolve(acc, ff, tt, useClass, params, insts, types, hooks);
      var acc1 := InstancesFrom(acc, ff, tt, useClass, params, insts, types, hooks).value;
      CoordsResolve(acc1, coords, ff, tt, useClass, params, cs[1..], types, hooks);
      forall b | 0 <= b < |all| ensures Resolves(ff, tt, useClass, params, all[b], types, hooks) {
        if b < |insts| { assert all[b] == insts[b]; } else { assert all[b] == later[b - |insts|]; }
      }
    }
  }

  /** The coordinate loop appends to each vector the values of all the
      term's instances, in loop order. */
  lemma {:induction false} CoordsContents(acc: Acc, coords: CoordArray, ff: ForceField, tt: TermType,
                                          useClass: bool, params: seq<Param>, cs: seq<IntCoord>,
                                          types: seq<nat>, hooks: Hooks, q: Param)
    requires CoordsIn(coords, |types|)
    requires CoordsFrom(acc, coords, ff, tt, useClass, params, cs, types, hooks).Success?
    ensures InstancesIn(AllInstances(coords, cs), |types|)
    ensures Get(CoordsFrom(acc, coords, ff, tt, useClass, params, cs, types, hooks).value, q)
            == Get(acc, q) + Flatten(Blocks(ff, tt, useClass, params, AllInstances(coords, cs), types, hooks, q))
    decreases |cs|
  {
    AllInstancesIn(coords, cs, |types|);
    if cs != [] {
      var insts := coords[cs[0]];
      var later := AllInstances(coords, cs[1..]);
      assert AllInstances(coords, cs) == insts + later;
      InstancesContents(acc, ff, tt, useClass, params, insts, types, hooks, q);
      var acc1 := InstancesFrom(acc, ff, tt, useClass, params, insts, types, hooks).value;
      CoordsContents(acc1, coords, ff, tt, useClass, params, cs[1..], types, hooks, q);
      var bi := Blocks(ff, tt, useClass, params, insts, types, hooks, q);
      var bl := Blocks(ff, tt, useClass, params, later, types, hooks, q);
      BlocksAppend(ff, tt, useClass, params, insts, later, types, hooks, q);
      FlattenAppend(Get(acc, q), bi, bl);
    }
  }

  /** Block b of each parameter vector of a resolved term holds the values
      of its instance b, where the instances are the tuples of the term's
      collections in the order the loops visit them; block b has
      PerInstance values, and instance b resolves (FManII.cpp:98-141). So
      the vectors are aligned position by position with the instances. */
  lemma TermContents(coords: CoordArray, ff: ForceField, types: seq<nat>, hooks: Hooks, tt: TermType,
                     q: Param, b: nat)
    requires tt in ff.terms && CoordsIn(coords, |types|)
    requires TermParams(coords, ff, types, hooks, tt).Success?
    requires b < Instances(coords, ff.terms[tt].coords)
    ensures var info := ff.terms[tt];
      var all := AllInstances(coords, info.coords);
      var r := TermParams(coords, ff, types, hooks, tt).value;
      var useClass := tt in ff.paramtypes && ff.paramtypes[tt] == ByClass;
      var w := PerInstance(ff, tt, info.params, q);
      && InstancesIn(all, |types|)
      && Resolves(ff, tt, useClass, info.params, all[b], types, hooks)
      && (b + 1) * w <= |Get(r, q)|
      && Get(r, q)[b * w .. (b + 1) * w] == TupleValues(ff, tt, useClass, info.params, all[b], types, hooks, q)
  {
    var info := ff.terms[tt];
    assert tt in ff.paramtypes;
    var useClass := ff.paramtypes[tt] == ByClass;
    var all := AllInstances(coords, info.coords);
    var r := CoordsFrom(map[], coords, ff, tt, useClass, info.params, info.coords, types, hooks);
    assert TermParams(coords, ff, types, hooks, tt) == r;
    CoordsResolve(map[], coords, ff, tt, useClass, info.params, info.coords, types, hooks);
    CoordsContents(map[], coords, ff, tt, useClass, info.params, info.coords, types, hooks, q);
    var bs := Blocks(ff, tt, useClass, info.params, all, types, hooks, q);
    var w := PerInstance(ff, tt, info.params, q);
    forall c | 0 <= c < |bs| ensures |bs[c]| == w {
      BlocksAt(ff, tt, useClass, info.params, all, types, hooks, q, c);
      ResolvedWidth(ff, tt, useClass, info.params, all[c], types, hooks, q);
    }
    BlocksAt(ff, tt, useClass, info.params, all, types, hooks, q, b);
    FlattenBlock(bs, w, b);
    assert Get(r.value, q) == Flatten(bs) by {
      assert Get(map[], q) + Flatten(bs) == Flatten(bs);
    }
  }

  /** For a parameter that occurs once in the model, the block of a
      resolving instance is exactly what ParamValues gives for the
      instance's mapped tuple and its canonical ordering. */
  lemma SingleBlock(ff: ForceField, tt: TermType, useClass: bool, params: seq<Param>, t: seq<nat>,
                    types: seq<nat>, hooks: Hooks, q: Param)
    requires AtomsIn(t, |types|) && Resolves(ff, tt, useClass, params, t, types, hooks)
    requires multiset(params)[q] == 1
    ensures var m := TypesOf(ff, types, useClass, t).value;
      && |m| == |t|
      && var v := ParamValues(ff, tt, q, m, Ordered(ff, tt, hooks.order, m), hooks.root);
         && v.Success?
         && TupleValues(ff, tt, useClass, params, t, types, hooks, q) == v.value
  {
    var m := TypesOf(ff, types, useClass, t).value;
    var v := ParamValues(ff, tt, q, m, Ordered(ff, tt, hooks.order, m), hooks.root).value;
    assert Repeat(v, 1) == v + [];
  }

  // ---------------------------------------------------------------------
  // Combination rules are symmetric in the atoms.

  lemma {:induction false} RunningRemove(rule: CombRule, s: seq<real>, k: nat)
    requires k < |s|
    ensures Running(rule, s) == if rule == Arithmetic then Running(rule, s[..k] + s[k + 1..]) + s[k]
                                else Running(rule, s[..k] + s[k + 1..]) * s[k]
    decreases |s|
  {
    var last := |s| - 1;
    assert s == s[..last] + [s[last]];
    RunningSnoc(rule, s[..last], s[last]);
    if k == last {
      assert s[..k] + s[k + 1..] == s[..last];
    } else {
      var front := s[..last];
      var rest := front[..k] + front[k + 1..];
      RunningRemove(rule, front, k);
      assert s[..k] + s[k + 1..] == rest + [s[last]];
      RunningSnoc(rule, rest, s[last]);
      var a := Running(rule, rest);
      assert if rule == Arithmetic then (a + s[k]) + s[last] == (a + s[last]) + s[k]
             else (a * s[k]) * s[last] == (a * s[last]) * s[k];
    }
  }

  lemma {:induction false} RunningPermutation(rule: CombRule, xs: seq<real>, ys: seq<real>)
    requires multiset(xs) == multiset(ys)
    ensures Running(rule, xs) == Running(rule, ys)
    decreases |xs|
  {
    if xs == [] {
      assert |ys| == |multiset(ys)| == 0;
    } else {
      var last := |xs| - 1;
      var x := xs[last];
      var k := IndexOf(xs, ys);
      RemoveOne(xs, ys, k);
      RunningPermutation(rule, xs[..last], ys[..k] + ys[k + 1..]);
      assert xs == xs[..last] + [x];
      RunningSnoc(rule, xs[..last], x);
      RunningRemove(rule, ys, k);
    }
  }

  /** Where the last element of xs sits in its permutation ys. */
  lemma IndexOf(xs: seq<real>, ys: seq<real>) returns (k: nat)
    requires xs != [] && multiset(xs) == multiset(ys)
    ensures k < |ys| && ys[k] == xs[|xs| - 1]
  {
    assert xs[|xs| - 1] in multiset(xs);
    k :| 0 <= k < |ys| && ys[k] == xs[|xs| - 1];
  }

  lemma RemoveOne(xs: seq<real>, ys: seq<real>, k: nat)
    requires xs != [] && k < |ys| && ys[k] == xs[|xs| - 1]
    requires multiset(xs) == multiset(ys)
    ensures multiset(xs[..|xs| - 1]) == multiset(ys[..k] + ys[k + 1..])
  {
    var x := ys[k];
    assert xs == xs[..|xs| - 1] + [x];
    assert ys == ys[..k] + [x] + ys[k + 1..];
    assert multiset(xs) == multiset(xs[..|xs| - 1]) + multiset{x};
    assert multiset(ys) == multiset(ys[..k]) + multiset{x} + multiset(ys[k + 1..]);
    assert multiset(ys[..k] + ys[k + 1..]) == multiset(ys[..k]) + multiset(ys[k + 1..]);
    assert multiset(xs[..|xs| - 1]) == multiset(xs) - multiset{x};
    assert multiset(ys[..k] + ys[k + 1..]) == multiset(ys) - multiset{x};
  }

  /** The combined value depends only on the multiset of the atoms'
      components: listing the atoms in another order gives the same value
      (FManII.cpp:110-124). */
  lemma CombinePermutation(rule: CombRule, xs: seq<real>, ys: seq<real>, root: (real, nat) -> real)
    requires |xs| > 0 && multiset(xs) == multiset(ys)
    ensures |ys| > 0 && Combine(rule, xs, root) == Combine(rule, ys, root)
  {
    assert |xs| == |multiset(xs)| == |multiset(ys)| == |ys|;
    RunningPermutation(rule, xs, ys);
  }
}
