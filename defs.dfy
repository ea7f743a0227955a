/** Shared vocabulary of the force-field engine: parameter names, coordinate
    kinds, model kinds, term types, the force-field record and the parameter
    set that assignment produces. */
module Defs {

  /** Options and results with an error payload. */
  datatype Option<+T> = None | Some(value: T)

  datatype Result<+T, +E> = Success(value: T) | Failure(error: E) {
    predicate IsFailure() { Failure? }
    function PropagateFailure<U>(): Result<U, E>
      requires Failure?
    {
      Failure(error)
    }
    function Extract(): T
      requires Success?
    {
      value
    }
  }

  /** The recognised parameter names. */
  datatype Param = K | R0 | Amp | Phi | N | Q | Sigma | Epsilon

  /** The recognised internal-coordinate kinds. */
  datatype IntCoord = Bond | Pair13 | Pair14 | Pair | Angle | Torsion | ImpTorsion

  /** The recognised model potentials. */
  datatype Model = HarmonicOscillator | FourierSeries | Electrostatics | LennardJones

  /** Whether a term is parameterised by atom type or by atom class. */
  datatype TypeType = ByType | ByClass

  /** Combination rules for synthesising a multi-atom parameter. */
  datatype CombRule = Arithmetic | Geometric | Product

  /** The ordering functions a term can be registered with; what each one
      does to a tuple is supplied from outside (see Hooks in the parser and
      the `order` argument of assignment). */
  datatype OrderRule = PairOrder | AngleOrder | TorsionOrder | ImpOrder

  /** A term type: the model together with the coordinate kind it acts on. */
  datatype TermType = TermType(model: Model, coord: IntCoord)

  const HoBond := TermType(HarmonicOscillator, Bond)
  const HoAngle := TermType(HarmonicOscillator, Angle)
  const HoPair13 := TermType(HarmonicOscillator, Pair13)
  const HoImp := TermType(HarmonicOscillator, ImpTorsion)
  const FsTorsion := TermType(FourierSeries, Torsion)
  const FsImp := TermType(FourierSeries, ImpTorsion)
  const Cl14 := TermType(Electrostatics, Pair14)
  const Cl := TermType(Electrostatics, Pair)
  const Lj14 := TermType(LennardJones, Pair14)
  const Lj := TermType(LennardJones, Pair)

  /** A registered term: the parameter names its model needs and the
      coordinate kinds it is evaluated on. */
  datatype TermInfo = TermInfo(params: seq<Param>, coords: seq<IntCoord>)

  /** term type -> parameter name -> canonical type tuple -> values */
  type ParamTable = map<TermType, map<Param, map<seq<nat>, seq<real>>>>

  /** The force field: parameter table plus the per-term rule registry. */
  datatype ForceField = ForceField(
    orderrules: map<TermType, OrderRule>,
    paramtypes: map<TermType, TypeType>,
    terms: map<TermType, TermInfo>,
    params: ParamTable,
    combrules: map<(Model, Param), CombRule>,
    scaleFactors: map<TermType, real>,
    type2class: map<nat, nat>)

  const EmptyForceField := ForceField(map[], map[], map[], map[], map[], map[], map[])

  /** Coordinate collections by kind: each is a list of atom-index tuples. */
  type CoordArray = map<IntCoord, seq<seq<nat>>>

  /** Resolved parameters: term type -> parameter name -> values, aligned
      with the term's coordinate instances. */
  type ParamSet = map<TermType, map<Param, seq<real>>>
}
