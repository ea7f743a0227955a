/** The force-field file parser: a keyword dispatcher that updates a
    ForceField record line by line, the record builders it calls, and the
    linking step run once the whole file has been read. */
module Parse {
  import opened Defs
  import opened Tokens

  /** The scaled numbers a line can carry. Turning a token into its value
      (std::stod together with the unit factors, the 0.5 Tinker factor, the
      sigma scale and the reciprocal 1-4 scales) is the `scaled` hook; the
      quantity says which conversion applies. */
  datatype Quantity =
    | TorsionScale | ImpTorScale | Vdw14Scale | Chg14Scale
    | BondForce | BondLength | AngleForce | AngleValue | UreyForce | UreyLength
    | TorsionAmplitude | TorsionPhase | TorsionPeriod
    | ImpAmplitude | HarmImpForce | ImpPhase | ImpPeriod
    | Radius(isRMin: bool, isRadius: bool) | WellDepth | PointCharge

  /** What the parser takes from outside:
      addParam  ForceField::add_param on the parameter table,
      link      ForceField::link_terms on the parameter table,
      getTerm   get_term, the registration record of a term type,
      order     the ordering function named by an order rule,
      index     std::stoi / std::stoul on an atom type or class token,
      scaled    std::stod followed by the unit conversion of a quantity,
      halfTurn  180 degrees in the caller's angle unit. */
  datatype Context = Context(
    addParam: (ParamTable, TermType, Param, seq<nat>, seq<real>) -> ParamTable,
    link: (ParamTable, TermType, TermType) -> ParamTable,
    getTerm: TermType -> TermInfo,
    order: (OrderRule, seq<nat>) -> seq<nat>,
    index: string -> nat,
    scaled: (Quantity, string) -> real,
    halfTurn: real)

  /** A line too short for what its keyword reads. */
  datatype ParseError = MalformedLine(tokens: seq<string>)

  /** The parser's state between lines: the record and the two radius flags. */
  datatype ParseState = ParseState(ff: ForceField, isRMin: bool, isRadius: bool)

  const Initial := ParseState(EmptyForceField, true, true)

  // ---------------------------------------------------------------------
  // Keywords
  // ---------------------------------------------------------------------

  datatype Keyword =
    | KwRadiusRule | KwTorsionUnit | KwImpTorUnit | KwVdwIndex | KwRadiusType
    | KwRadiusSize | KwEpsilonRule | KwVdw14Scale | KwChg14Scale | KwAtom
    | KwBond | KwAngle | KwUreyBrad | KwImpTors | KwImproper | KwTorsion
    | KwCharge | KwVdw | KwVdw14

  function KeywordName(k: Keyword): string {
    match k
    case KwRadiusRule => "radiusrule"
    case KwTorsionUnit => "torsionunit"
    case KwImpTorUnit => "imptorunit"
    case KwVdwIndex => "vdwindex"
    case KwRadiusType => "radiustype"
    case KwRadiusSize => "radiussize"
    case KwEpsilonRule => "epsilonrule"
    case KwVdw14Scale => "vdw-14-scale"
    case KwChg14Scale => "chg-14-scale"
    case KwAtom => "atom"
    case KwBond => "bond"
    case KwAngle => "angle"
    case KwUreyBrad => "ureybrad"
    case KwImpTors => "imptors"
    case KwImproper => "improper"
    case KwTorsion => "torsion"
    case KwCharge => "charge"
    case KwVdw => "vdw"
    case KwVdw14 => "vdw14"
  }

  /** The keywords in the order the dispatch chain tests them. */
  const KeywordOrder: seq<Keyword> :=
    [KwRadiusRule, KwTorsionUnit, KwImpTorUnit, KwVdwIndex, KwRadiusType, KwRadiusSize,
     KwEpsilonRule, KwVdw14Scale, KwChg14Scale, KwAtom, KwBond, KwAngle, KwUreyBrad,
     KwImpTors, KwImproper, KwTorsion, KwCharge, KwVdw, KwVdw14]

  lemma KeywordListed(k: Keyword)
    ensures k in KeywordOrder
  {
    match k
    case KwRadiusRule => assert KeywordOrder[0] == k;
    case KwTorsionUnit => assert KeywordOrder[1] == k;
    case KwImpTorUnit => assert KeywordOrder[2] == k;
    case KwVdwIndex => assert KeywordOrder[3] == k;
    case KwRadiusType => assert KeywordOrder[4] == k;
    case KwRadiusSize => assert KeywordOrder[5] == k;
    case KwEpsilonRule => assert KeywordOrder[6] == k;
    case KwVdw14Scale => assert KeywordOrder[7] == k;
    case KwChg14Scale => assert KeywordOrder[8] == k;
    case KwAtom => assert KeywordOrder[9] == k;
    case KwBond => assert KeywordOrder[10] == k;
    case KwAngle => assert KeywordOrder[11] == k;
    case KwUreyBrad => assert KeywordOrder[12] == k;
    case KwImpTors => assert KeywordOrder[13] == k;
    case KwImproper => assert KeywordOrder[14] == k;
    case KwTorsion => assert KeywordOrder[15] == k;
    case KwCharge => assert KeywordOrder[16] == k;
    case KwVdw => assert KeywordOrder[17] == k;
    case KwVdw14 => assert KeywordOrder[18] == k;
  }

  /** The first keyword of ks whose name the token matches case-insensitively. */
  function FirstMatch(tok: string, ks: seq<Keyword>): (r: Option<Keyword>)
    ensures r.Some? ==> r.value in ks && SComp(tok, KeywordName(r.value))
  {
    if ks == [] then None
    else if SComp(tok, KeywordName(ks[0])) then Some(ks[0])
    else FirstMatch(tok, ks[1..])
  }

  /** The keyword the dispatch chain picks for a first token. */
  function KeywordOf(tok: string): Option<Keyword> {
    FirstMatch(tok, KeywordOrder)
  }

  /** The search finds a keyword whenever one matches, and the one it finds
      is preceded only by keywords that do not match. */
  lemma {:induction false} FirstMatchIsFirst(tok: string, ks: seq<Keyword>)
    ensures FirstMatch(tok, ks).None? <==> forall k :: k in ks ==> !SComp(tok, KeywordName(k))
    ensures FirstMatch(tok, ks).Some? ==>
      exists i :: 0 <= i < |ks| && ks[i] == FirstMatch(tok, ks).value
        && forall j :: 0 <= j < i ==> !SComp(tok, KeywordName(ks[j]))
  {
    if ks != [] {
      FirstMatchIsFirst(tok, ks[1..]);
      if SComp(tok, KeywordName(ks[0])) {
        assert ks[0] == FirstMatch(tok, ks).value;
      } else {
        assert forall k :: k in ks ==> k == ks[0] || k in ks[1..];
        if FirstMatch(tok, ks).Some? {
          var i :| 0 <= i < |ks[1..]| && ks[1..][i] == FirstMatch(tok, ks).value
            && forall j :: 0 <= j < i ==> !SComp(tok, KeywordName(ks[1..][j]));
          assert ks[i + 1] == FirstMatch(tok, ks).value;
          assert forall j :: 0 <= j < i + 1 ==> !SComp(tok, KeywordName(ks[j])) by {
            forall j | 0 <= j < i + 1 ensures !SComp(tok, KeywordName(ks[j])) {
              if j > 0 { assert ks[j] == ks[1..][j - 1]; }
            }
          }
        }
      }
    }
  }

  /** A line is dispatched on keyword k only when its first token matches k,
      and it is ignored exactly when its first token matches no keyword. */
  lemma KeywordOfMatches(tok: string, k: Keyword)
    ensures KeywordOf(tok) == Some(k) ==> SComp(tok, KeywordName(k))
    ensures KeywordOf(tok) == None <==> forall k' :: !SComp(tok, KeywordName(k'))
    ensures SComp(tok, KeywordName(k)) ==> KeywordOf(tok).Some?
  {
    FirstMatchIsFirst(tok, KeywordOrder);
    KeywordListed(k);
    forall k' ensures k' in KeywordOrder { KeywordListed(k'); }
  }

  /** The number of tokens a keyword's line must have for every token the
      keyword reads to exist. */
  function MinTokens(k: Keyword, isCharmm: bool): nat {
    match k
    case KwAtom => 3
    case KwBond => 5
    case KwAngle => 6
    case KwUreyBrad => 6
    case KwImpTors => 8
    case KwImproper => if isCharmm then 6 else 7
    case KwTorsion => 5
    case KwCharge => 3
    case KwVdw => 4
    case KwVdw14 => 4
    case _ => 2
  }

  // ---------------------------------------------------------------------
  // set_mean
  // ---------------------------------------------------------------------

  /** The combination rule a radiusrule / epsilonrule token names, if any. */
  function MeanRule(token: string): (r: Option<CombRule>)
    ensures r == Some(Geometric) <==> SComp(token, "GEOMETRIC")
    ensures r == Some(Arithmetic) <==> SComp(token, "ARITHMETIC")
    ensures r.Some? ==> r.value != Product
  {
    if SComp(token, "GEOMETRIC") then Some(Geometric)
    else if SComp(token, "ARITHMETIC") then Some(Arithmetic)
    else None
  }

  function SetMean(ff: ForceField, p: (Model, Param), token: string): (r: ForceField)
    ensures r.(combrules := ff.combrules) == ff
    ensures MeanRule(token).Some? ==> r.combrules == ff.combrules[p := MeanRule(token).value]
    ensures MeanRule(token).None? ==> r == ff
  {
    match MeanRule(token)
    case Some(rule) => ff.(combrules := ff.combrules[p := rule])
    case None => ff
  }

  /** The rule a token names does not depend on its letter case. */
  lemma MeanRuleCaseInsensitive(token: string)
    ensures MeanRule(token) == MeanRule(UpperString(token))
  {
    SCompCaseInsensitive(token, "GEOMETRIC");
    SCompCaseInsensitive(token, "ARITHMETIC");
  }

  // ---------------------------------------------------------------------
  // generic_fill
  // ---------------------------------------------------------------------

  /** The type tuple read from tokens 1..n. */
  function TypeKey(tokens: seq<string>, n: nat, cx: Context): (r: seq<nat>)
    requires n < |tokens|
    ensures |r| == n
    ensures forall i :: 0 <= i < n ==> r[i] == cx.index(tokens[i + 1])
  {
    if n == 0 then [] else TypeKey(tokens, n - 1, cx) + [cx.index(tokens[n])]
  }

  /** Every parameter vector handed to the filler is non-empty. */
  predicate Complete(ps: seq<(Param, seq<real>)>) {
    forall i :: 0 <= i < |ps| ==> ps[i].1 != []
  }

  /** The parameter table after storing each (name, values) of ps under key. */
  function AddAll(params: ParamTable, tt: TermType, key: seq<nat>,
                  ps: seq<(Param, seq<real>)>, cx: Context): ParamTable
    decreases |ps|
  {
    if ps == [] then params
    else AddAll(cx.addParam(params, tt, ps[0].0, key, ps[0].1), tt, key, ps[1..], cx)
  }

  /** A term registered with default typing: the type is set and the term
      record fetched only when absent. */
  function Enrol(ff: ForceField, tt: TermType, typing: TypeType, cx: Context): ForceField {
    ff.(paramtypes := if tt in ff.paramtypes then ff.paramtypes else ff.paramtypes[tt := typing],
        terms := if tt in ff.terms then ff.terms else ff.terms[tt := cx.getTerm(tt)])
  }

  function Typing(isClass: bool): TypeType {
    if isClass then ByClass else ByType
  }

  function Filled(ff: ForceField, tt: TermType, tokens: seq<string>, size: nat, rule: OrderRule,
                  isClass: bool, ps: seq<(Param, seq<real>)>, cx: Context): ForceField
    requires size < |tokens|
  {
    var reg := Enrol(ff.(orderrules := ff.orderrules[tt := rule]), tt, Typing(isClass), cx);
    var key := cx.order(rule, TypeKey(tokens, size, cx));
    if Complete(ps) then reg.(params := AddAll(reg.params, tt, key, ps, cx)) else reg
  }

  method GenericFill(ff: ForceField, tt: TermType, tokens: seq<string>, size: nat, rule: OrderRule,
                     isClass: bool, ps: seq<(Param, seq<real>)>, cx: Context) returns (r: ForceField)
    requires size < |tokens|
    ensures r == Filled(ff, tt, tokens, size, rule, isClass, ps, cx)
  {
    r := Register(ff, tt, rule, isClass, cx);
    var vals := ReadKey(tokens, size, cx);
    vals := cx.order(rule, vals);
    var complete := AllComplete(ps);
    if !complete {
      return;
    }
    var params := AddParams(r.params, tt, vals, ps, cx);
    r := r.(params := params);
  }

  /** What generic_fill does to the registry: the order rule is always
      overwritten, the typing and term record are set only when absent. */
  lemma FilledRegistry(ff: ForceField, tt: TermType, tokens: seq<string>, size: nat, rule: OrderRule,
                       isClass: bool, ps: seq<(Param, seq<real>)>, cx: Context)
    requires size < |tokens|
    ensures var r := Filled(ff, tt, tokens, size, rule, isClass, ps, cx);
      && r.orderrules == ff.orderrules[tt := rule]
      && r.paramtypes == (if tt in ff.paramtypes then ff.paramtypes else ff.paramtypes[tt := Typing(isClass)])
      && r.terms == (if tt in ff.terms then ff.terms else ff.terms[tt := cx.getTerm(tt)])
  {
    var reg := Enrol(ff.(orderrules := ff.orderrules[tt := rule]), tt, Typing(isClass), cx);
    var r := Filled(ff, tt, tokens, size, rule, isClass, ps, cx);
    assert r.orderrules == reg.orderrules && r.paramtypes == reg.paramtypes && r.terms == reg.terms;
  }

  /** What generic_fill does to the parameters: nothing is stored when any
      vector is empty, and otherwise every one is stored under the ordered
      type tuple; the rules, scales and classes stay. */
  lemma FilledParams(ff: ForceField, tt: TermType, tokens: seq<string>, size: nat, rule: OrderRule,
                     isClass: bool, ps: seq<(Param, seq<real>)>, cx: Context)
    requires size < |tokens|
    ensures var r := Filled(ff, tt, tokens, size, rule, isClass, ps, cx);
      && (!Complete(ps) ==> r.params == ff.params)
      && (Complete(ps) ==> r.params == AddAll(ff.params, tt, cx.order(rule, TypeKey(tokens, size, cx)), ps, cx))
      && r.combrules == ff.combrules && r.scaleFactors == ff.scaleFactors && r.type2class == ff.type2class
  {
  }

  /** The registration steps of generic_fill: the order rule is always
      overwritten, the typing and the term record only set when absent. */
  method Register(ff: ForceField, tt: TermType, rule: OrderRule, isClass: bool, cx: Context)
    returns (r: ForceField)
    ensures r == Enrol(ff.(orderrules := ff.orderrules[tt := rule]), tt, Typing(isClass), cx)
  {
    r := ff.(orderrules := ff.orderrules[tt := rule]);
    if tt !in r.paramtypes {
      r := r.(paramtypes := r.paramtypes[tt := if isClass then ByClass else ByType]);
    }
    if tt !in r.terms {
      r := r.(terms := r.terms[tt := cx.getTerm(tt)]);
    }
  }

  /** The loop that looks for an empty parameter vector. */
  method AllComplete(ps: seq<(Param, seq<real>)>) returns (b: bool)
    ensures b == Complete(ps)
  {
    var i := 0;
    while i < |ps|
      invariant 0 <= i <= |ps|
      invariant forall j :: 0 <= j < i ==> ps[j].1 != []
    {
      if ps[i].1 == [] {
        return false;
      }
      i := i + 1;
    }
    return true;
  }

  /** The loop that reads the type tuple of a line. */
  method ReadKey(tokens: seq<string>, size: nat, cx: Context) returns (vals: seq<nat>)
    requires size < |tokens|
    ensures vals == TypeKey(tokens, size, cx)
  {
    vals := [];
    var i := 1;
    while i <= size
      invariant 1 <= i <= size + 1
      invariant vals == TypeKey(tokens, i - 1, cx)
    {
      vals := vals + [cx.index(tokens[i])];
      i := i + 1;
    }
  }

  /** The loop that stores every parameter of a line under its tuple. */
  method AddParams(start: ParamTable, tt: TermType, key: seq<nat>, ps: seq<(Param, seq<real>)>,
                   cx: Context) returns (params: ParamTable)
    ensures params == AddAll(start, tt, key, ps, cx)
  {
    params := start;
    var i := 0;
    while i < |ps|
      invariant 0 <= i <= |ps|
      invariant AddAll(start, tt, key, ps, cx) == AddAll(params, tt, key, ps[i..], cx)
    {
      assert ps[i..][1..] == ps[i + 1..];
      params := cx.addParam(params, tt, ps[i].0, key, ps[i].1);
      i := i + 1;
    }
  }

  // ---------------------------------------------------------------------
  // parse_imp / parse_himp
  // ---------------------------------------------------------------------

  /** The position of the centre atom on an improper line. */
  function Centre(isCharmm: bool): nat {
    if isCharmm then 0 else 2
  }

  /** The improper tuple with the centre atom moved to position 1; the other
      three atoms keep their relative order around it. */
  function CentreSecond(temp: seq<nat>, centre: nat): (r: seq<nat>)
    requires |temp| == 4 && centre < 4
    ensures |r| == 4
  {
    [temp[Skip(0, centre)], temp[centre], temp[Skip(1, centre)], temp[Skip(2, centre)]]
  }

  /** The position of the i-th atom that is not the centre. */
  function Skip(i: nat, centre: nat): (p: nat)
    ensures p != centre && (p == i || p == i + 1)
  {
    if i < centre then i else i + 1
  }

  /** The positions CentreSecond reads, in order. */
  function Positions(centre: nat): seq<nat> {
    [Skip(0, centre), centre, Skip(1, centre), Skip(2, centre)]
  }

  /** Moving the centre is a permutation of the four atoms that puts the
      centre second: the tuple reads every position of the line's tuple
      exactly once. The CHARMM centre (first token) swaps with its
      neighbour; the other centre (third token) swaps with the second atom. */
  lemma CentreSecondFacts(temp: seq<nat>, centre: nat)
    requires |temp| == 4 && centre < 4
    ensures forall i :: 0 <= i < 4 ==>
      Positions(centre)[i] < 4 && CentreSecond(temp, centre)[i] == temp[Positions(centre)[i]]
    ensures forall p :: 0 <= p < 4 ==> p in Positions(centre)
    ensures CentreSecond(temp, centre)[1] == temp[centre]
    ensures centre == 0 ==> CentreSecond(temp, centre) == [temp[1], temp[0], temp[2], temp[3]]
    ensures centre == 2 ==> CentreSecond(temp, centre) == [temp[0], temp[2], temp[1], temp[3]]
  {
    var ps := Positions(centre);
    forall p | 0 <= p < 4 ensures p in ps {
      if p == centre {
        assert ps[1] == p;
      } else if p < centre {
        assert ps[if p == 0 then 0 else p + 1] == p;
      } else {
        assert ps[if p == 1 then 0 else p] == p;
      }
    }
  }

  /** The loop that collects the three non-centre atoms, then the tuple. */
  method CentreTuple(temp: seq<nat>, centre: nat) returns (t: seq<nat>)
    requires |temp| == 4 && centre < 4
    ensures t == CentreSecond(temp, centre)
  {
    var types := [];
    var ti := 0;
    while ti < 4
      invariant 0 <= ti <= 4
      invariant types == if ti <= centre then temp[..ti] else temp[..centre] + temp[centre + 1..ti]
    {
      if ti != centre {
        types := types + [temp[ti]];
      }
      ti := ti + 1;
    }
    assert temp[centre + 1..4] == temp[centre + 1..];
    t := [types[0], temp[centre], types[1], types[2]];
  }

  /** The (amp, phi, n) entries of an imptors line. */
  function ImpParams(tokens: seq<string>, isCharmm: bool, cx: Context): seq<(Param, seq<real>)>
    requires |tokens| >= 8
  {
    var phi := if isCharmm then cx.halfTurn else cx.scaled(ImpPhase, tokens[6]);
    [(Amp, [cx.scaled(ImpAmplitude, tokens[5])]), (Phi, [phi]), (N, [cx.scaled(ImpPeriod, tokens[7])])]
  }

  /** The (K, r0) entries of an improper line. */
  function HarmImpParams(tokens: seq<string>, isCharmm: bool, cx: Context): seq<(Param, seq<real>)>
    requires |tokens| >= if isCharmm then 6 else 7
  {
    var phi := if isCharmm then cx.halfTurn else cx.scaled(ImpPhase, tokens[6]);
    [(K, [cx.scaled(HarmImpForce, tokens[5])]), (R0, [phi])]
  }

  /** The ordered key of an improper line. */
  function ImproperKey(tokens: seq<string>, isCharmm: bool, cx: Context): seq<nat>
    requires |tokens| >= 5
  {
    cx.order(ImpOrder, CentreSecond(TypeKey(tokens, 4, cx), Centre(isCharmm)))
  }

  function ImproperFilled(ff: ForceField, tt: TermType, tokens: seq<string>, isCharmm: bool,
                          ps: seq<(Param, seq<real>)>, cx: Context): ForceField
    requires |tokens| >= 5
  {
    var reg := ff.(orderrules := ff.orderrules[tt := ImpOrder], paramtypes := ff.paramtypes[tt := ByClass]);
    var reg' := Enrol(reg, tt, ByClass, cx);
    reg'.(params := AddAll(reg'.params, tt, ImproperKey(tokens, isCharmm, cx), ps, cx))
  }

  /** An improper line always forces CLASS typing and the improper order
      rule, and stores every entry under the reordered, ordered tuple. */
  lemma ImproperFacts(ff: ForceField, tt: TermType, tokens: seq<string>, isCharmm: bool,
                      ps: seq<(Param, seq<real>)>, cx: Context)
    requires |tokens| >= 5
    ensures var r := ImproperFilled(ff, tt, tokens, isCharmm, ps, cx);
      && r.orderrules == ff.orderrules[tt := ImpOrder]
      && r.paramtypes == ff.paramtypes[tt := ByClass]
      && r.terms == (if tt in ff.terms then ff.terms else ff.terms[tt := cx.getTerm(tt)])
      && r.params == AddAll(ff.params, tt, ImproperKey(tokens, isCharmm, cx), ps, cx)
      && r.combrules == ff.combrules && r.scaleFactors == ff.scaleFactors && r.type2class == ff.type2class
  {
  }

  /** parse_imp and parse_himp: the same steps on FS_IMP and HO_IMP. */
  method FillImproper(ff: ForceField, tt: TermType, tokens: seq<string>, isCharmm: bool,
                      ps: seq<(Param, seq<real>)>, cx: Context) returns (r: ForceField)
    requires |tokens| >= 5
    ensures r == ImproperFilled(ff, tt, tokens, isCharmm, ps, cx)
  {
    var types := ReadImproperKey(tokens, isCharmm, cx);
    r := ff.(orderrules := ff.orderrules[tt := ImpOrder], paramtypes := ff.paramtypes[tt := ByClass]);
    if tt !in r.terms {
      r := r.(terms := r.terms[tt := cx.getTerm(tt)]);
    }
    var params := AddParams(r.params, tt, types, ps, cx);
    r := r.(params := params);
  }

  /** The type tuple of an improper line, centre second, then ordered. */
  method ReadImproperKey(tokens: seq<string>, isCharmm: bool, cx: Context) returns (types: seq<nat>)
    requires |tokens| >= 5
    ensures types == ImproperKey(tokens, isCharmm, cx)
  {
    var temp := ReadKey(tokens, 4, cx);
    var centre := if isCharmm then 0 else 2;
    types := CentreTuple(temp, centre);
    types := cx.order(ImpOrder, types);
  }

  // ---------------------------------------------------------------------
  // The torsion triples
  // ---------------------------------------------------------------------

  /** How many complete (amp, phi, n) triples a torsion line of n tokens
      carries from token 5 on, at most three. */
  function TripleCount(n: nat): (c: nat)
    ensures c <= 3
    ensures c > 0 ==> 5 + 3 * c <= n
    ensures c < 3 ==> n < 8 + 3 * c
  {
    if n < 8 then 0 else if n < 11 then 1 else if n < 14 then 2 else 3
  }

  /** The j-th value (0 amp, 1 phi, 2 n) of triple ti. */
  function TripleValue(tokens: seq<string>, ti: nat, j: nat, cx: Context): real
    requires j < 3 && 8 + 3 * ti <= |tokens|
  {
    var q := if j == 0 then TorsionAmplitude else if j == 1 then TorsionPhase else TorsionPeriod;
    cx.scaled(q, tokens[5 + 3 * ti + j])
  }

  /** The j-th component of every complete triple, in order. */
  function TripleColumn(tokens: seq<string>, j: nat, cx: Context): (r: seq<real>)
    requires j < 3
    ensures |r| == TripleCount(|tokens|)
    ensures forall ti :: 0 <= ti < |r| ==> 8 + 3 * ti <= |tokens| && r[ti] == TripleValue(tokens, ti, j, cx)
  {
    var c := TripleCount(|tokens|);
    seq(c, ti requires 0 <= ti < c => TripleValue(tokens, ti, j, cx))
  }

  function TorsionParams(tokens: seq<string>, cx: Context): seq<(Param, seq<real>)> {
    [(Amp, TripleColumn(tokens, 0, cx)), (Phi, TripleColumn(tokens, 1, cx)), (N, TripleColumn(tokens, 2, cx))]
  }

  /** The triple loop of a torsion line: it stops at the first incomplete
      triple, so the three vectors have the same length, at most three. */
  method ReadTriples(tokens: seq<string>, cx: Context) returns (v: seq<real>, phi: seq<real>, n: seq<real>)
    ensures |v| == |phi| == |n| <= 3
    ensures 5 + 3 * |v| <= |tokens| || v == []
    ensures |v| < 3 ==> |tokens| < 8 + 3 * |v|
    ensures v == TripleColumn(tokens, 0, cx) && phi == TripleColumn(tokens, 1, cx)
      && n == TripleColumn(tokens, 2, cx)
  {
    v, phi, n := [], [], [];
    var ti := 0;
    while ti < 3
      invariant 0 <= ti <= 3 && ti <= TripleCount(|tokens|)
      invariant |v| == |phi| == |n| == ti
      invariant forall q :: 0 <= q < ti ==>
        8 + 3 * q <= |tokens| && v[q] == TripleValue(tokens, q, 0, cx)
        && phi[q] == TripleValue(tokens, q, 1, cx) && n[q] == TripleValue(tokens, q, 2, cx)
    {
      if |tokens| < 5 + 3 * (ti + 1) {
        break;
      }
      v := v + [cx.scaled(TorsionAmplitude, tokens[5 + 3 * ti])];
      phi := phi + [cx.scaled(TorsionPhase, tokens[6 + 3 * ti])];
      n := n + [cx.scaled(TorsionPeriod, tokens[7 + 3 * ti])];
      ti := ti + 1;
    }
    assert ti == TripleCount(|tokens|);
  }

  /** A torsion line without a complete triple registers the term but
      stores no parameter. */
  lemma ShortTorsionStoresNothing(ff: ForceField, tokens: seq<string>, cx: Context)
    requires 5 <= |tokens| < 8
    ensures Filled(ff, FsTorsion, tokens, 4, TorsionOrder, true, TorsionParams(tokens, cx), cx).params == ff.params
    ensures FsTorsion in Filled(ff, FsTorsion, tokens, 4, TorsionOrder, true, TorsionParams(tokens, cx), cx).terms
  {
    assert TorsionParams(tokens, cx)[0].1 == [];
  }

  // ---------------------------------------------------------------------
  // parse_lj / parse_chg
  // ---------------------------------------------------------------------

  /** The two pair kinds the 6-12 and charge terms are registered on. */
  const PairCoords: seq<IntCoord> := [Pair, Pair14]

  /** The registration loop over PAIR and PAIR14: with `forced` the typing
      is always overwritten (parse_chg), without it it defaults to CLASS
      when absent (parse_lj); the term record is fetched when absent. */
  function EnrolPairs(ff: ForceField, model: Model, forced: Option<TypeType>, cs: seq<IntCoord>,
                      cx: Context): ForceField
    decreases |cs|
  {
    if cs == [] then ff
    else
      var tt := TermType(model, cs[0]);
      var next := match forced
        case Some(t) => Enrol(ff.(paramtypes := ff.paramtypes[tt := t]), tt, t, cx)
        case None => Enrol(ff, tt, ByClass, cx);
      EnrolPairs(next, model, forced, cs[1..], cx)
  }

  method RegisterPairs(ff: ForceField, model: Model, forced: Option<TypeType>, cx: Context)
    returns (r: ForceField)
    ensures r == EnrolPairs(ff, model, forced, PairCoords, cx)
  {
    r := ff;
    var i := 0;
    while i < |PairCoords|
      invariant 0 <= i <= |PairCoords|
      invariant EnrolPairs(ff, model, forced, PairCoords, cx) == EnrolPairs(r, model, forced, PairCoords[i..], cx)
    {
      assert PairCoords[i..][1..] == PairCoords[i + 1..];
      var tt := TermType(model, PairCoords[i]);
      if forced.Some? {
        r := r.(paramtypes := r.paramtypes[tt := forced.value]);
      } else if tt !in r.paramtypes {
        r := r.(paramtypes := r.paramtypes[tt := ByClass]);
      }
      if tt !in r.terms {
        r := r.(terms := r.terms[tt := cx.getTerm(tt)]);
      }
      i := i + 1;
    }
  }

  /** The registration loop touches only the typing and the term records. */
  lemma {:induction false} EnrolPairsFrame(ff: ForceField, model: Model, forced: Option<TypeType>,
                                           cs: seq<IntCoord>, cx: Context)
    ensures var r := EnrolPairs(ff, model, forced, cs, cx);
      r.params == ff.params && r.orderrules == ff.orderrules && r.combrules == ff.combrules
      && r.scaleFactors == ff.scaleFactors && r.type2class == ff.type2class
    decreases |cs|
  {
    if cs != [] {
      var tt := TermType(model, cs[0]);
      var next := match forced
        case Some(t) => Enrol(ff.(paramtypes := ff.paramtypes[tt := t]), tt, t, cx)
        case None => Enrol(ff, tt, ByClass, cx);
      EnrolPairsFrame(next, model, forced, cs[1..], cx);
    }
  }

  /** Every term of the loop is registered, with the record get_term gives
      unless one was there already. */
  lemma {:induction false} EnrolPairsTerms(ff: ForceField, model: Model, forced: Option<TypeType>,
                                           cs: seq<IntCoord>, cx: Context)
    ensures var r := EnrolPairs(ff, model, forced, cs, cx);
      && (forall tt :: tt in r.terms <==> tt in ff.terms || (tt.model == model && tt.coord in cs))
      && (forall tt :: tt in r.terms ==> r.terms[tt] == if tt in ff.terms then ff.terms[tt] else cx.getTerm(tt))
    decreases |cs|
  {
    if cs != [] {
      var tt := TermType(model, cs[0]);
      var next := match forced
        case Some(t) => Enrol(ff.(paramtypes := ff.paramtypes[tt := t]), tt, t, cx)
        case None => Enrol(ff, tt, ByClass, cx);
      EnrolPairsTerms(next, model, forced, cs[1..], cx);
      assert forall c :: c in cs <==> c == cs[0] || c in cs[1..];
    }
  }

  /** Every term of the loop gets the forced typing, or keeps the one it
      had and defaults to CLASS; other typings are kept. */
  lemma {:induction false} EnrolPairsTypes(ff: ForceField, model: Model, forced: Option<TypeType>,
                                           cs: seq<IntCoord>, cx: Context)
    ensures var r := EnrolPairs(ff, model, forced, cs, cx);
      && (forall tt :: tt in r.paramtypes <==> tt in ff.paramtypes || (tt.model == model && tt.coord in cs))
      && (forall tt :: tt in r.paramtypes ==>
            r.paramtypes[tt] == if tt.model == model && tt.coord in cs && forced.Some? then forced.value
                                else if tt in ff.paramtypes then ff.paramtypes[tt] else ByClass)
    decreases |cs|
  {
    if cs != [] {
      var tt := TermType(model, cs[0]);
      var next := match forced
        case Some(t) => Enrol(ff.(paramtypes := ff.paramtypes[tt := t]), tt, t, cx)
        case None => Enrol(ff, tt, ByClass, cx);
      EnrolPairsTypes(next, model, forced, cs[1..], cx);
      assert forall c :: c in cs <==> c == cs[0] || c in cs[1..];
    }
  }

  /** Sigma and epsilon of a vdw / vdw14 line. */
  function LjParams(tokens: seq<string>, isRMin: bool, isRadius: bool, cx: Context): seq<(Param, seq<real>)>
    requires |tokens| >= 4
  {
    [(Sigma, [cx.scaled(Radius(isRMin, isRadius), tokens[2])]), (Epsilon, [cx.scaled(WellDepth, tokens[3])])]
  }

  /** The values and type tuple of a vdw / vdw14 line: the sigma scale
      depends on the radiustype and radiussize settings in force. */
  function LjFilled(ff: ForceField, tokens: seq<string>, isRMin: bool, isRadius: bool, is14: bool,
                    cx: Context): ForceField
    requires |tokens| >= 4
  {
    var tt := if is14 then Lj14 else Lj;
    var ps := LjParams(tokens, isRMin, isRadius, cx);
    var params := AddAll(ff.params, tt, [cx.index(tokens[1])], ps, cx);
    EnrolPairs(ff.(params := params), LennardJones, None, PairCoords, cx)
  }

  method ParseLj(ff: ForceField, tokens: seq<string>, isRMin: bool, isRadius: bool, is14: bool,
                 cx: Context) returns (r: ForceField)
    requires |tokens| >= 4
    ensures r == LjFilled(ff, tokens, isRMin, isRadius, is14, cx)
  {
    var tt := if is14 then Lj14 else Lj;
    var ps := LjParams(tokens, isRMin, isRadius, cx);
    var params := AddParams(ff.params, tt, [cx.index(tokens[1])], ps, cx);
    r := RegisterPairs(ff.(params := params), LennardJones, None, cx);
  }

  /** A charge line: the charge is stored under the atom type, untouched by
      any ordering, and both electrostatics terms are typed by TYPE. */
  function ChargeFilled(ff: ForceField, tokens: seq<string>, cx: Context): ForceField
    requires |tokens| >= 3
  {
    var params := cx.addParam(ff.params, Cl, Q, [cx.index(tokens[1])], [cx.scaled(PointCharge, tokens[2])]);
    EnrolPairs(ff.(params := params), Electrostatics, Some(ByType), PairCoords, cx)
  }

  method ParseCharge(ff: ForceField, tokens: seq<string>, cx: Context) returns (r: ForceField)
    requires |tokens| >= 3
    ensures r == ChargeFilled(ff, tokens, cx)
  {
    var params := cx.addParam(ff.params, Cl, Q, [cx.index(tokens[1])], [cx.scaled(PointCharge, tokens[2])]);
    r := RegisterPairs(ff.(params := params), Electrostatics, Some(ByType), cx);
  }

  // ---------------------------------------------------------------------
  // One line
  // ---------------------------------------------------------------------

  function BondParams(tokens: seq<string>, cx: Context): seq<(Param, seq<real>)>
    requires |tokens| >= 5
  {
    [(K, [cx.scaled(BondForce, tokens[3])]), (R0, [cx.scaled(BondLength, tokens[4])])]
  }

  function AngleParams(tokens: seq<string>, cx: Context): seq<(Param, seq<real>)>
    requires |tokens| >= 6
  {
    [(K, [cx.scaled(AngleForce, tokens[4])]), (R0, [cx.scaled(AngleValue, tokens[5])])]
  }

  function UreyParams(tokens: seq<string>, cx: Context): seq<(Param, seq<real>)>
    requires |tokens| >= 6
  {
    [(K, [cx.scaled(UreyForce, tokens[4])]), (R0, [cx.scaled(UreyLength, tokens[5])])]
  }

  /** The typing a vdwindex line selects for both 6-12 terms. */
  function IndexTyping(token: string): TypeType {
    if SComp(token, "type") then ByType else ByClass
  }

  /** The effect of a line whose first token selected keyword k. */
  function Apply(k: Keyword, s: ParseState, tokens: seq<string>, isCharmm: bool, cx: Context): ParseState
    requires |tokens| >= MinTokens(k, isCharmm)
  {
    var ff := s.ff;
    match k
    case KwRadiusRule => s.(ff := SetMean(ff, (LennardJones, Sigma), tokens[1]))
    case KwTorsionUnit => s.(ff := ff.(scaleFactors := ff.scaleFactors[FsTorsion := cx.scaled(TorsionScale, tokens[1])]))
    case KwImpTorUnit => s.(ff := ff.(scaleFactors := ff.scaleFactors[FsImp := cx.scaled(ImpTorScale, tokens[1])]))
    case KwVdwIndex =>
      var t := IndexTyping(tokens[1]);
      s.(ff := ff.(paramtypes := ff.paramtypes[Lj := t][Lj14 := t]))
    case KwRadiusType => s.(isRMin := SComp(tokens[1], "R-MIN"))
    case KwRadiusSize => s.(isRadius := SComp(tokens[1], "RADIUS"))
    case KwEpsilonRule => s.(ff := SetMean(ff, (LennardJones, Epsilon), tokens[1]))
    case KwVdw14Scale => s.(ff := ff.(scaleFactors := ff.scaleFactors[Lj14 := cx.scaled(Vdw14Scale, tokens[1])]))
    case KwChg14Scale => s.(ff := ff.(scaleFactors := ff.scaleFactors[Cl14 := cx.scaled(Chg14Scale, tokens[1])]))
    case KwAtom => s.(ff := ff.(type2class := ff.type2class[cx.index(tokens[1]) := cx.index(tokens[2])]))
    case KwBond => s.(ff := Filled(ff, HoBond, tokens, 2, PairOrder, true, BondParams(tokens, cx), cx))
    case KwAngle => s.(ff := Filled(ff, HoAngle, tokens, 3, AngleOrder, true, AngleParams(tokens, cx), cx))
    case KwUreyBrad => s.(ff := Filled(ff, HoPair13, tokens, 3, AngleOrder, true, UreyParams(tokens, cx), cx))
    case KwImpTors => s.(ff := ImproperFilled(ff, FsImp, tokens, isCharmm, ImpParams(tokens, isCharmm, cx), cx))
    case KwImproper => s.(ff := ImproperFilled(ff, HoImp, tokens, isCharmm, HarmImpParams(tokens, isCharmm, cx), cx))
    case KwTorsion => s.(ff := Filled(ff, FsTorsion, tokens, 4, TorsionOrder, true, TorsionParams(tokens, cx), cx))
    case KwCharge => s.(ff := ChargeFilled(ff, tokens, cx))
    case KwVdw => s.(ff := LjFilled(ff, tokens, s.isRMin, s.isRadius, false, cx))
    case KwVdw14 => s.(ff := LjFilled(ff, tokens, s.isRMin, s.isRadius, true, cx))
  }

  /** What one tokenized line does: lines of at most one token and lines
      whose first token names no keyword leave the state alone; a line too
      short for its keyword is an error. */
  function LineEffect(s: ParseState, tokens: seq<string>, isCharmm: bool, cx: Context): (r: Result<ParseState, ParseError>)
    ensures r.Failure? ==> r.error == MalformedLine(tokens)
  {
    if |tokens| <= 1 then Success(s)
    else match KeywordOf(tokens[0])
      case None => Success(s)
      case Some(k) =>
        if |tokens| < MinTokens(k, isCharmm) then Failure(MalformedLine(tokens))
        else Success(Apply(k, s, tokens, isCharmm, cx))
  }

  /** Lines with at most one token, and lines whose first token matches no
      keyword, change nothing. */
  lemma LineSkipped(s: ParseState, tokens: seq<string>, isCharmm: bool, cx: Context)
    requires |tokens| <= 1 || forall k :: !SComp(tokens[0], KeywordName(k))
    ensures LineEffect(s, tokens, isCharmm, cx) == Success(s)
  {
    if |tokens| > 1 {
      KeywordOfMatches(tokens[0], KwAtom);
    }
  }

  /** A line fails exactly when its keyword reads a token it does not have. */
  lemma LineFails(s: ParseState, tokens: seq<string>, isCharmm: bool, cx: Context)
    ensures LineEffect(s, tokens, isCharmm, cx).Failure? <==>
      |tokens| > 1 && exists k :: KeywordOf(tokens[0]) == Some(k) && SComp(tokens[0], KeywordName(k)) && |tokens| < MinTokens(k, isCharmm)
  {
    if |tokens| > 1 && KeywordOf(tokens[0]).Some? {
      KeywordOfMatches(tokens[0], KeywordOf(tokens[0]).value);
    }
  }

  /** The keyword chosen does not depend on the letter case of the token. */
  lemma {:induction false} FirstMatchCaseInsensitive(tok: string, ks: seq<Keyword>)
    ensures FirstMatch(UpperString(tok), ks) == FirstMatch(tok, ks)
  {
    if ks != [] {
      SCompCaseInsensitive(tok, KeywordName(ks[0]));
      FirstMatchCaseInsensitive(tok, ks[1..]);
    }
  }

  lemma KeywordOfCaseInsensitive(tok: string)
    ensures KeywordOf(UpperString(tok)) == KeywordOf(tok)
  {
    FirstMatchCaseInsensitive(tok, KeywordOrder);
  }

  /** The keywords that set a flag, a rule, a scale or a class rather than
      build parameter entries. */
  predicate IsSetting(k: Keyword) {
    !(k.KwBond? || k.KwAngle? || k.KwUreyBrad? || k.KwImpTors? || k.KwImproper?
      || k.KwTorsion? || k.KwCharge? || k.KwVdw? || k.KwVdw14?)
  }

  /** The settings keywords: the first nine branches of the dispatch chain
      and the atom line. */
  method ApplySetting(k: Keyword, s: ParseState, tokens: seq<string>, isCharmm: bool, cx: Context)
    returns (r: ParseState)
    requires IsSetting(k)
    requires |tokens| >= MinTokens(k, isCharmm)
    ensures r == Apply(k, s, tokens, isCharmm, cx)
  {
    r := s;
    var ff := s.ff;
    match k {
      case KwRadiusRule =>
        r := r.(ff := SetMean(ff, (LennardJones, Sigma), tokens[1]));
      case KwTorsionUnit =>
        r := r.(ff := ff.(scaleFactors := ff.scaleFactors[FsTorsion := cx.scaled(TorsionScale, tokens[1])]));
      case KwImpTorUnit =>
        r := r.(ff := ff.(scaleFactors := ff.scaleFactors[FsImp := cx.scaled(ImpTorScale, tokens[1])]));
      case KwVdwIndex =>
        var t := if SComp(tokens[1], "type") then ByType else ByClass;
        ff := ff.(paramtypes := ff.paramtypes[Lj := t]);
        ff := ff.(paramtypes := ff.paramtypes[Lj14 := t]);
        r := r.(ff := ff);
      case KwRadiusType =>
        r := r.(isRMin := SComp(tokens[1], "R-MIN"));
      case KwRadiusSize =>
        r := r.(isRadius := SComp(tokens[1], "RADIUS"));
      case KwEpsilonRule =>
        r := r.(ff := SetMean(ff, (LennardJones, Epsilon), tokens[1]));
      case KwVdw14Scale =>
        r := r.(ff := ff.(scaleFactors := ff.scaleFactors[Lj14 := cx.scaled(Vdw14Scale, tokens[1])]));
      case KwChg14Scale =>
        r := r.(ff := ff.(scaleFactors := ff.scaleFactors[Cl14 := cx.scaled(Chg14Scale, tokens[1])]));
      case KwAtom =>
        r := r.(ff := ff.(type2class := ff.type2class[cx.index(tokens[1]) := cx.index(tokens[2])]));
    }
  }

  /** The keywords that build parameter entries. */
  method ApplyTerm(k: Keyword, s: ParseState, tokens: seq<string>, isCharmm: bool, cx: Context)
    returns (r: ParseState)
    requires !IsSetting(k)
    requires |tokens| >= MinTokens(k, isCharmm)
    ensures r == Apply(k, s, tokens, isCharmm, cx)
  {
    var ff := s.ff;
    match k {
      case KwBond =>
        ff := GenericFill(ff, HoBond, tokens, 2, PairOrder, true, BondParams(tokens, cx), cx);
      case KwAngle =>
        ff := GenericFill(ff, HoAngle, tokens, 3, AngleOrder, true, AngleParams(tokens, cx), cx);
      case KwUreyBrad =>
        ff := GenericFill(ff, HoPair13, tokens, 3, AngleOrder, true, UreyParams(tokens, cx), cx);
      case KwImpTors =>
        ff := FillImproper(ff, FsImp, tokens, isCharmm, ImpParams(tokens, isCharmm, cx), cx);
      case KwImproper =>
        ff := FillImproper(ff, HoImp, tokens, isCharmm, HarmImpParams(tokens, isCharmm, cx), cx);
      case KwTorsion =>
        var v, phi, n := ReadTriples(tokens, cx);
        ff := GenericFill(ff, FsTorsion, tokens, 4, TorsionOrder, true, [(Amp, v), (Phi, phi), (N, n)], cx);
      case KwCharge =>
        ff := ParseCharge(ff, tokens, cx);
      case KwVdw =>
        ff := ParseLj(ff, tokens, s.isRMin, s.isRadius, false, cx);
      case KwVdw14 =>
        ff := ParseLj(ff, tokens, s.isRMin, s.isRadius, true, cx);
    }
    r := s.(ff := ff);
  }

  /** One iteration of the line loop of parse_file. */
  method ParseLine(s: ParseState, line: string, isCharmm: bool, cx: Context)
    returns (r: Result<ParseState, ParseError>)
    ensures r == LineEffect(s, Words(line), isCharmm, cx)
  {
    var tokens := Tokenize(line);
    if |tokens| <= 1 {
      return Success(s);
    }
    var kw := KeywordOf(tokens[0]);
    if kw.None? {
      return Success(s);
    }
    var k := kw.value;
    if |tokens| < MinTokens(k, isCharmm) {
      return Failure(MalformedLine(tokens));
    }
    var next;
    if IsSetting(k) {
      next := ApplySetting(k, s, tokens, isCharmm, cx);
    } else {
      next := ApplyTerm(k, s, tokens, isCharmm, cx);
    }
    return Success(next);
  }

  // ---------------------------------------------------------------------
  // The end of the file
  // ---------------------------------------------------------------------

  /** An electrostatics term has been registered on one of the first i pair kinds. */
  predicate ChargedUpTo(ff: ForceField, i: nat)
    requires i <= |PairCoords|
  {
    exists j :: 0 <= j < i && TermType(Electrostatics, PairCoords[j]) in ff.terms
  }

  /** The record after the final linking: LJ14 is linked to LJ, CL14 to CL,
      and the charges combine by product once any electrostatics term is
      registered. */
  function Finished(ff: ForceField, cx: Context): ForceField {
    var linked := cx.link(cx.link(ff.params, Lj14, Lj), Cl14, Cl);
    var charged := Cl in ff.terms || Cl14 in ff.terms;
    ff.(params := linked,
        combrules := if charged then ff.combrules[(Electrostatics, Q) := Product] else ff.combrules)
  }

  method Finish(ff: ForceField, cx: Context) returns (r: ForceField)
    ensures r == Finished(ff, cx)
  {
    r := ff.(params := cx.link(ff.params, Lj14, Lj));
    r := r.(params := cx.link(r.params, Cl14, Cl));
    var linked := r.params;
    var i := 0;
    while i < |PairCoords|
      invariant 0 <= i <= |PairCoords|
      invariant r == ff.(params := linked, combrules := r.combrules)
      invariant r.combrules == if ChargedUpTo(ff, i) then ff.combrules[(Electrostatics, Q) := Product]
                               else ff.combrules
    {
      var ffterm := TermType(Electrostatics, PairCoords[i]);
      if ffterm in r.terms {
        r := r.(combrules := r.combrules[(Electrostatics, Q) := Product]);
      }
      assert ChargedUpTo(ff, i + 1) <==> ChargedUpTo(ff, i) || ffterm in ff.terms;
      i := i + 1;
    }
    assert ChargedUpTo(ff, 2) <==> Cl in ff.terms || Cl14 in ff.terms by {
      assert PairCoords[0] == Pair && PairCoords[1] == Pair14;
    }
  }

  // ---------------------------------------------------------------------
  // The whole file
  // ---------------------------------------------------------------------

  /** The states after each line of the file in turn, or the first error. */
  function ParseFrom(s: ParseState, lines: seq<string>, isCharmm: bool, cx: Context)
    : Result<ParseState, ParseError>
    decreases |lines|
  {
    if lines == [] then Success(s)
    else
      var next :- LineEffect(s, Words(lines[0]), isCharmm, cx);
      ParseFrom(next, lines[1..], isCharmm, cx)
  }

  /** parse_file on the lines of a file. */
  function ParseSpec(lines: seq<string>, isCharmm: bool, cx: Context): Result<ForceField, ParseError> {
    var s :- ParseFrom(Initial, lines, isCharmm, cx);
    Success(Finished(s.ff, cx))
  }

  method ParseFile(lines: seq<string>, isCharmm: bool, cx: Context) returns (r: Result<ForceField, ParseError>)
    ensures r == ParseSpec(lines, isCharmm, cx)
    ensures r.Success? ==> WellRegistered(r.value, cx)
    ensures r.Success? ==>
      ((Electrostatics, Q) in r.value.combrules <==> Cl in r.value.terms || Cl14 in r.value.terms)
    ensures r.Success? && (Electrostatics, Q) in r.value.combrules ==>
      r.value.combrules[(Electrostatics, Q)] == Product
  {
    var s := Initial;
    var i := 0;
    while i < |lines|
      invariant 0 <= i <= |lines|
      invariant ParseFrom(Initial, lines, isCharmm, cx) == ParseFrom(s, lines[i..], isCharmm, cx)
      invariant WellRegistered(s.ff, cx) && OnlyLjRules(s.ff)
    {
      assert lines[i..][1..] == lines[i + 1..];
      var next := ParseLine(s, lines[i], isCharmm, cx);
      if next.Failure? {
        return Failure(next.error);
      }
      LinePreserves(s, Words(lines[i]), isCharmm, cx);
      LineKeepsRules(s, Words(lines[i]), isCharmm, cx);
      s := next.value;
      i := i + 1;
    }
    var ff := Finish(s.ff, cx);
    return Success(ff);
  }

  // ---------------------------------------------------------------------
  // The registration invariant
  // ---------------------------------------------------------------------

  /** The term types the parser can register. */
  const KnownTerms: set<TermType> := {HoBond, HoAngle, HoPair13, HoImp, FsTorsion, FsImp, Cl14, Cl, Lj14, Lj}

  /** The typing every known term gets, except the 6-12 terms, whose typing
      a vdwindex line chooses. */
  function DefaultTyping(tt: TermType): TypeType {
    if tt.model == Electrostatics then ByType else ByClass
  }

  /** The ordering function each ordered term is registered with. */
  function RuleOf(tt: TermType): Option<OrderRule> {
    if tt == HoBond then Some(PairOrder)
    else if tt == HoAngle || tt == HoPair13 then Some(AngleOrder)
    else if tt == FsTorsion then Some(TorsionOrder)
    else if tt == FsImp || tt == HoImp then Some(ImpOrder)
    else None
  }

  /** What every record the parser builds satisfies: each registered term
      has a typing and the record get_term gives; only known terms are
      typed, with their default typing apart from the 6-12 terms; order
      rules are the right ones, and every registered ordered term has one. */
  predicate WellRegistered(ff: ForceField, cx: Context) {
    && (forall tt :: tt in ff.terms ==> tt in ff.paramtypes && ff.terms[tt] == cx.getTerm(tt))
    && (forall tt :: tt in ff.paramtypes ==> tt in KnownTerms)
    && (forall tt :: tt in ff.paramtypes && tt != Lj && tt != Lj14 ==> ff.paramtypes[tt] == DefaultTyping(tt))
    && (forall tt :: tt in ff.orderrules ==> RuleOf(tt) == Some(ff.orderrules[tt]))
    && (forall tt :: tt in ff.terms && RuleOf(tt).Some? ==> tt in ff.orderrules)
  }

  /** Every line keeps the invariant. */
  lemma LinePreserves(s: ParseState, tokens: seq<string>, isCharmm: bool, cx: Context)
    requires WellRegistered(s.ff, cx)
    ensures LineEffect(s, tokens, isCharmm, cx).Success? ==>
      WellRegistered(LineEffect(s, tokens, isCharmm, cx).value.ff, cx)
  {
    if |tokens| > 1 && KeywordOf(tokens[0]).Some? {
      var k := KeywordOf(tokens[0]).value;
      if |tokens| >= MinTokens(k, isCharmm) {
        ApplyPreserves(k, s, tokens, isCharmm, cx);
      }
    }
  }

  lemma ApplyPreserves(k: Keyword, s: ParseState, tokens: seq<string>, isCharmm: bool, cx: Context)
    requires WellRegistered(s.ff, cx) && |tokens| >= MinTokens(k, isCharmm)
    ensures WellRegistered(Apply(k, s, tokens, isCharmm, cx).ff, cx)
  {
    if IsSetting(k) {
      SettingPreserves(k, s, tokens, isCharmm, cx);
    } else {
      TermPreserves(k, s, tokens, isCharmm, cx);
    }
  }

  lemma SettingPreserves(k: Keyword, s: ParseState, tokens: seq<string>, isCharmm: bool, cx: Context)
    requires WellRegistered(s.ff, cx) && |tokens| >= MinTokens(k, isCharmm) && IsSetting(k)
    ensures WellRegistered(Apply(k, s, tokens, isCharmm, cx).ff, cx)
  {
    if k == KwVdwIndex {
      var t := IndexTyping(tokens[1]);
      TypingSetPreserves(s.ff, Lj, t, cx);
      TypingSetPreserves(s.ff.(paramtypes := s.ff.paramtypes[Lj := t]), Lj14, t, cx);
    }
  }

  lemma TermPreserves(k: Keyword, s: ParseState, tokens: seq<string>, isCharmm: bool, cx: Context)
    requires WellRegistered(s.ff, cx) && |tokens| >= MinTokens(k, isCharmm) && !IsSetting(k)
    ensures WellRegistered(Apply(k, s, tokens, isCharmm, cx).ff, cx)
  {
    if k in {KwCharge, KwVdw, KwVdw14} {
      PairTermPreserves(k, s, tokens, isCharmm, cx);
    } else {
      RecordTermPreserves(k, s, tokens, isCharmm, cx);
    }
  }

  lemma RecordTermPreserves(k: Keyword, s: ParseState, tokens: seq<string>, isCharmm: bool, cx: Context)
    requires WellRegistered(s.ff, cx) && |tokens| >= MinTokens(k, isCharmm)
    requires k in {KwBond, KwAngle, KwUreyBrad, KwTorsion, KwImpTors, KwImproper}
    ensures WellRegistered(Apply(k, s, tokens, isCharmm, cx).ff, cx)
  {
    var ff := s.ff;
    match k
    case KwBond => FilledPreserves(ff, HoBond, tokens, 2, PairOrder, BondParams(tokens, cx), cx);
    case KwAngle => FilledPreserves(ff, HoAngle, tokens, 3, AngleOrder, AngleParams(tokens, cx), cx);
    case KwUreyBrad => FilledPreserves(ff, HoPair13, tokens, 3, AngleOrder, UreyParams(tokens, cx), cx);
    case KwTorsion => FilledPreserves(ff, FsTorsion, tokens, 4, TorsionOrder, TorsionParams(tokens, cx), cx);
    case KwImpTors => ImproperPreserves(ff, FsImp, tokens, isCharmm, ImpParams(tokens, isCharmm, cx), cx);
    case KwImproper => ImproperPreserves(ff, HoImp, tokens, isCharmm, HarmImpParams(tokens, isCharmm, cx), cx);
  }

  lemma PairTermPreserves(k: Keyword, s: ParseState, tokens: seq<string>, isCharmm: bool, cx: Context)
    requires WellRegistered(s.ff, cx) && |tokens| >= MinTokens(k, isCharmm)
    requires k in {KwCharge, KwVdw, KwVdw14}
    ensures WellRegistered(Apply(k, s, tokens, isCharmm, cx).ff, cx)
  {
    var ff := s.ff;
    match k
    case KwCharge =>
      var params := cx.addParam(ff.params, Cl, Q, [cx.index(tokens[1])], [cx.scaled(PointCharge, tokens[2])]);
      ParamsIrrelevant(ff, params, cx);
      PairsPreserve(ff.(params := params), Electrostatics, Some(ByType), PairCoords, cx);
    case KwVdw => LjPreserves(ff, tokens, s.isRMin, s.isRadius, false, cx);
    case KwVdw14 => LjPreserves(ff, tokens, s.isRMin, s.isRadius, true, cx);
  }

  lemma FilledPreserves(ff: ForceField, tt: TermType, tokens: seq<string>, size: nat, rule: OrderRule,
                        ps: seq<(Param, seq<real>)>, cx: Context)
    requires WellRegistered(ff, cx) && size < |tokens|
    requires tt in KnownTerms && RuleOf(tt) == Some(rule) && DefaultTyping(tt) == ByClass
    ensures WellRegistered(Filled(ff, tt, tokens, size, rule, true, ps, cx), cx)
  {
    var ruled := ff.(orderrules := ff.orderrules[tt := rule]);
    RuleSetPreserves(ff, tt, rule, cx);
    EnrolPreserves(ruled, tt, ByClass, cx);
    var reg := Enrol(ruled, tt, ByClass, cx);
    ParamsIrrelevant(reg, AddAll(reg.params, tt, cx.order(rule, TypeKey(tokens, size, cx)), ps, cx), cx);
  }

  lemma ImproperPreserves(ff: ForceField, tt: TermType, tokens: seq<string>, isCharmm: bool,
                          ps: seq<(Param, seq<real>)>, cx: Context)
    requires WellRegistered(ff, cx) && |tokens| >= 5
    requires tt in KnownTerms && RuleOf(tt) == Some(ImpOrder) && DefaultTyping(tt) == ByClass
    ensures WellRegistered(ImproperFilled(ff, tt, tokens, isCharmm, ps, cx), cx)
  {
    var ruled := ff.(orderrules := ff.orderrules[tt := ImpOrder]);
    RuleSetPreserves(ff, tt, ImpOrder, cx);
    TypingSetPreserves(ruled, tt, ByClass, cx);
    var typed := ruled.(paramtypes := ruled.paramtypes[tt := ByClass]);
    EnrolPreserves(typed, tt, ByClass, cx);
    var reg := Enrol(typed, tt, ByClass, cx);
    ParamsIrrelevant(reg, AddAll(reg.params, tt, ImproperKey(tokens, isCharmm, cx), ps, cx), cx);
  }

  lemma LjPreserves(ff: ForceField, tokens: seq<string>, isRMin: bool, isRadius: bool, is14: bool, cx: Context)
    requires WellRegistered(ff, cx) && |tokens| >= 4
    ensures WellRegistered(LjFilled(ff, tokens, isRMin, isRadius, is14, cx), cx)
  {
    var tt := if is14 then Lj14 else Lj;
    var ps := LjParams(tokens, isRMin, isRadius, cx);
    var params := AddAll(ff.params, tt, [cx.index(tokens[1])], ps, cx);
    ParamsIrrelevant(ff, params, cx);
    PairsPreserve(ff.(params := params), LennardJones, None, PairCoords, cx);
  }

  /** The registration loop keeps the invariant for the 6-12 terms with any
      typing and for the electrostatics terms with TYPE. */
  lemma {:induction false} PairsPreserve(ff: ForceField, model: Model, forced: Option<TypeType>,
                                         cs: seq<IntCoord>, cx: Context)
    requires WellRegistered(ff, cx)
    requires model == LennardJones || (model == Electrostatics && forced == Some(ByType))
    requires forall i :: 0 <= i < |cs| ==> cs[i] == Pair || cs[i] == Pair14
    ensures WellRegistered(EnrolPairs(ff, model, forced, cs, cx), cx)
    decreases |cs|
  {
    if cs != [] {
      var tt := TermType(model, cs[0]);
      assert tt in KnownTerms && RuleOf(tt).None?;
      match forced
      case Some(t) =>
        TypingSetPreserves(ff, tt, t, cx);
        EnrolPreserves(ff.(paramtypes := ff.paramtypes[tt := t]), tt, t, cx);
        PairsPreserve(Enrol(ff.(paramtypes := ff.paramtypes[tt := t]), tt, t, cx), model, forced, cs[1..], cx);
      case None =>
        EnrolPreserves(ff, tt, ByClass, cx);
        PairsPreserve(Enrol(ff, tt, ByClass, cx), model, forced, cs[1..], cx);
    }
  }

  /** The invariant speaks only of the registry, not of the parameter table. */
  lemma ParamsIrrelevant(ff: ForceField, params: ParamTable, cx: Context)
    requires WellRegistered(ff, cx)
    ensures WellRegistered(ff.(params := params), cx)
  {
  }

  /** Storing the right order rule keeps the invariant. */
  lemma RuleSetPreserves(ff: ForceField, tt: TermType, rule: OrderRule, cx: Context)
    requires WellRegistered(ff, cx) && RuleOf(tt) == Some(rule)
    ensures WellRegistered(ff.(orderrules := ff.orderrules[tt := rule]), cx)
  {
  }

  /** Storing the expected typing of a known term keeps the invariant. */
  lemma TypingSetPreserves(ff: ForceField, tt: TermType, t: TypeType, cx: Context)
    requires WellRegistered(ff, cx) && tt in KnownTerms
    requires tt != Lj && tt != Lj14 ==> t == DefaultTyping(tt)
    ensures WellRegistered(ff.(paramtypes := ff.paramtypes[tt := t]), cx)
  {
  }

  /** Registering a known term whose order rule is in place keeps the invariant. */
  lemma EnrolPreserves(ff: ForceField, tt: TermType, typing: TypeType, cx: Context)
    requires WellRegistered(ff, cx) && tt in KnownTerms
    requires tt != Lj && tt != Lj14 ==> typing == DefaultTyping(tt)
    requires RuleOf(tt).Some? ==> tt in ff.orderrules
    ensures WellRegistered(Enrol(ff, tt, typing, cx), cx)
  {
  }

  /** Before the final linking, only 6-12 combination rules are set. */
  predicate OnlyLjRules(ff: ForceField) {
    forall p :: p in ff.combrules ==> p.0 == LennardJones
  }

  lemma LineKeepsRules(s: ParseState, tokens: seq<string>, isCharmm: bool, cx: Context)
    requires OnlyLjRules(s.ff)
    ensures LineEffect(s, tokens, isCharmm, cx).Success? ==> OnlyLjRules(LineEffect(s, tokens, isCharmm, cx).value.ff)
  {
    if |tokens| > 1 && KeywordOf(tokens[0]).Some? {
      var k := KeywordOf(tokens[0]).value;
      if |tokens| >= MinTokens(k, isCharmm) && !IsSetting(k) {
        TermKeepsRules(k, s, tokens, isCharmm, cx);
      }
    }
  }

  /** The record builders leave the combination rules alone. */
  lemma TermKeepsRules(k: Keyword, s: ParseState, tokens: seq<string>, isCharmm: bool, cx: Context)
    requires |tokens| >= MinTokens(k, isCharmm) && !IsSetting(k)
    ensures Apply(k, s, tokens, isCharmm, cx).ff.combrules == s.ff.combrules
  {
    if k in {KwCharge, KwVdw, KwVdw14} {
      PairTermKeepsRules(k, s, tokens, isCharmm, cx);
    } else {
      RecordTermKeepsRules(k, s, tokens, isCharmm, cx);
    }
  }

  lemma RecordTermKeepsRules(k: Keyword, s: ParseState, tokens: seq<string>, isCharmm: bool, cx: Context)
    requires |tokens| >= MinTokens(k, isCharmm)
    requires k in {KwBond, KwAngle, KwUreyBrad, KwTorsion, KwImpTors, KwImproper}
    ensures Apply(k, s, tokens, isCharmm, cx).ff.combrules == s.ff.combrules
  {
    var ff := s.ff;
    match k
    case KwBond => FilledParams(ff, HoBond, tokens, 2, PairOrder, true, BondParams(tokens, cx), cx);
    case KwAngle => FilledParams(ff, HoAngle, tokens, 3, AngleOrder, true, AngleParams(tokens, cx), cx);
    case KwUreyBrad => FilledParams(ff, HoPair13, tokens, 3, AngleOrder, true, UreyParams(tokens, cx), cx);
    case KwTorsion => FilledParams(ff, FsTorsion, tokens, 4, TorsionOrder, true, TorsionParams(tokens, cx), cx);
    case KwImpTors => ImproperFacts(ff, FsImp, tokens, isCharmm, ImpParams(tokens, isCharmm, cx), cx);
    case KwImproper => ImproperFacts(ff, HoImp, tokens, isCharmm, HarmImpParams(tokens, isCharmm, cx), cx);
  }

  lemma PairTermKeepsRules(k: Keyword, s: ParseState, tokens: seq<string>, isCharmm: bool, cx: Context)
    requires |tokens| >= MinTokens(k, isCharmm)
    requires k in {KwCharge, KwVdw, KwVdw14}
    ensures Apply(k, s, tokens, isCharmm, cx).ff.combrules == s.ff.combrules
  {
    var ff := s.ff;
    match k
    case KwCharge =>
      var params := cx.addParam(ff.params, Cl, Q, [cx.index(tokens[1])], [cx.scaled(PointCharge, tokens[2])]);
      EnrolPairsFrame(ff.(params := params), Electrostatics, Some(ByType), PairCoords, cx);
    case KwVdw | KwVdw14 =>
      var tt := if k == KwVdw14 then Lj14 else Lj;
      var ps := LjParams(tokens, s.isRMin, s.isRadius, cx);
      var params := AddAll(ff.params, tt, [cx.index(tokens[1])], ps, cx);
      EnrolPairsFrame(ff.(params := params), LennardJones, None, PairCoords, cx);
  }

  /** Every state the line fold reaches keeps the invariant. */
  lemma {:induction false} ParseFromPreserves(s: ParseState, lines: seq<string>, isCharmm: bool, cx: Context)
    requires WellRegistered(s.ff, cx)
    ensures ParseFrom(s, lines, isCharmm, cx).Success? ==>
      WellRegistered(ParseFrom(s, lines, isCharmm, cx).value.ff, cx)
    decreases |lines|
  {
    if lines != [] {
      LinePreserves(s, Words(lines[0]), isCharmm, cx);
      var next := LineEffect(s, Words(lines[0]), isCharmm, cx);
      if next.Success? {
        ParseFromPreserves(next.value, lines[1..], isCharmm, cx);
      }
    }
  }

  /** Every record parse_file returns satisfies the invariant. */
  lemma ParseSpecRegistered(lines: seq<string>, isCharmm: bool, cx: Context)
    ensures ParseSpec(lines, isCharmm, cx).Success? ==> WellRegistered(ParseSpec(lines, isCharmm, cx).value, cx)
  {
    ParseFromPreserves(Initial, lines, isCharmm, cx);
  }

  lemma {:induction false} ParseFromKeepsRules(s: ParseState, lines: seq<string>, isCharmm: bool, cx: Context)
    requires OnlyLjRules(s.ff)
    ensures ParseFrom(s, lines, isCharmm, cx).Success? ==> OnlyLjRules(ParseFrom(s, lines, isCharmm, cx).value.ff)
    decreases |lines|
  {
    if lines != [] {
      LineKeepsRules(s, Words(lines[0]), isCharmm, cx);
      var next := LineEffect(s, Words(lines[0]), isCharmm, cx);
      if next.Success? {
        ParseFromKeepsRules(next.value, lines[1..], isCharmm, cx);
      }
    }
  }

  /** The charges combine by product exactly when the file registered an
      electrostatics term. */
  lemma ParseSpecChargeRule(lines: seq<string>, isCharmm: bool, cx: Context)
    ensures var r := ParseSpec(lines, isCharmm, cx);
      r.Success? ==>
        ((Electrostatics, Q) in r.value.combrules <==> Cl in r.value.terms || Cl14 in r.value.terms)
        && ((Electrostatics, Q) in r.value.combrules ==> r.value.combrules[(Electrostatics, Q)] == Product)
  {
    ParseFromKeepsRules(Initial, lines, isCharmm, cx);
  }
}
