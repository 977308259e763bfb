/** The thermodynamic context a stream is built on: the chemical set and
    the mixture correlations. Both are external collaborators; every
    correlation is an uninterpreted function value supplied by the caller. */
module Thermo {
  import opened Wrappers
  import opened Vectors

  /** A phase tag: 'l' liquid, 'L' second liquid, 'g' gas, 's' solid. */
  type Phase = char

  /** CAS number of water, the key the moisture adjustment looks up. */
  const WaterCAS: string := "7732-18-5"

  /** The chemical set, one entry per chemical in the registry's order. */
  datatype Chemicals = Chemicals(
    IDs: seq<string>,
    CAS: seq<string>,
    MW: seq<real>,              // molecular weights, g/mol
    isEquilibrium: seq<bool>)   // whether the chemical takes part in phase equilibrium
  {
    ghost predicate Valid()
    {
      && |CAS| == |IDs| && |MW| == |IDs| && |isEquilibrium| == |IDs|
      && forall i :: 0 <= i < |MW| ==> MW[i] > 0.0
    }

    function Size(): nat
    {
      |IDs|
    }

    /** Position of water in the set, looked up by its CAS number. */
    function WaterIndex(): (r: Option<nat>)
      requires Valid()
      ensures r.Some? ==> r.value < Size() && CAS[r.value] == WaterCAS
      ensures r.None? ==> forall i :: 0 <= i < Size() ==> CAS[i] != WaterCAS
    {
      IndexOfCAS(CAS, WaterCAS)
    }
  }

  /** Position of the first chemical whose CAS number is `cas`, or None when
      the chemical set has none (the indexer then raises). */
  function IndexOfCAS(cas: seq<string>, key: string): (r: Option<nat>)
    ensures r.Some? ==> r.value < |cas| && cas[r.value] == key
    ensures r.None? ==> forall i :: 0 <= i < |cas| ==> cas[i] != key
  {
    if |cas| == 0 then None
    else if cas[0] == key then Some(0)
    else match IndexOfCAS(cas[1..], key)
      case None => None
      case Some(i) => Some(i + 1)
  }

  /** A mixture correlation evaluated at a phase, a composition, T and P. */
  type Correlation = (Phase, seq<real>, real, real) -> real

  /** A correlation that does not take the phase. */
  type PhaselessCorrelation = (seq<real>, real, real) -> real

  /** The mixture object of the thermodynamic context. */
  datatype Mixture = Mixture(
    V: Correlation,
    kappa: Correlation,
    Cn: Correlation,
    mu: Correlation,
    sigma: PhaselessCorrelation,
    epsilon: PhaselessCorrelation,
    H: Correlation,
    /** Temperature at which the given molar flows have enthalpy H:
        (phase, mol, H, T guess, P) -> T. */
    solveT: (Phase, seq<real>, real, real, real) -> real,
    /** Per-chemical molar volumes at (phase, T, P), the weights of the
        volumetric flow view. */
    molarVolumes: (Phase, real, real) -> seq<real>)
  {
    /** The volumetric view can be written through: one nonzero molar
        volume per chemical. */
    ghost predicate Valid(n: nat)
    {
      forall ph: Phase, T: real, P: real {:trigger molarVolumes(ph, T, P)} ::
        |molarVolumes(ph, T, P)| == n && NonZero(molarVolumes(ph, T, P))
    }
  }
}
