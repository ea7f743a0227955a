/** What the parser guarantees to parameter assignment. */
module ParseFacts {
  import opened Defs
  import opened Parse
  import Assign

  /** For every term of a parsed force field, assignment finds a typing, so
      it never fails for a missing one; it resolves the charges by atom type
      and every other term except the 6-12 ones by atom class; and it
      canonicalises a tuple with the ordering rule the term's kind calls for,
      leaving the tuples of unordered terms as they are. */
  lemma ParsedTermResolves(lines: seq<string>, isCharmm: bool, cx: Context, tt: TermType,
                           coords: CoordArray, types: seq<nat>, root: (real, nat) -> real)
    requires ParseSpec(lines, isCharmm, cx).Success?
    requires tt in ParseSpec(lines, isCharmm, cx).value.terms
    requires Assign.CoordsIn(coords, |types|)
    ensures var ff := ParseSpec(lines, isCharmm, cx).value;
      && tt in ff.paramtypes
      && Assign.TermParams(coords, ff, types, Assign.Hooks(cx.order, root), tt)
         == Assign.CoordsFrom(map[], coords, ff, tt, ff.paramtypes[tt] == ByClass,
                              cx.getTerm(tt).params, cx.getTerm(tt).coords, types, Assign.Hooks(cx.order, root))
      && (tt != Lj && tt != Lj14 ==> (ff.paramtypes[tt] == ByClass <==> tt.model != Electrostatics))
      && forall ts :: Assign.Ordered(ff, tt, cx.order, ts)
           == if RuleOf(tt).Some? then cx.order(RuleOf(tt).value, ts) else ts
  {
    ParseSpecRegistered(lines, isCharmm, cx);
  }
}
