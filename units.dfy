/** Resolution of a flow unit string to the indexer it addresses and the
    factor that converts that indexer's canonical units to it, behind a
    process-wide cache that is never evicted. */
module Units {
  import opened Wrappers
  import opened Exceptions

  /** The three flow views: molar (`imol`), mass (`imass`), volumetric (`ivol`). */
  datatype Basis = Mol | Mass | Vol

  /** Physical dimensionality of a unit string. */
  datatype Dimension = MolarFlow | MassFlow | VolumetricFlow | OtherDimension(name: string)

  /** The external unit registry: the dimensionality of a unit string and,
      for each basis, the factor from its canonical units (kmol/hr, kg/hr,
      m3/hr) to a unit string of that dimensionality. */
  datatype UnitRegistry = UnitRegistry(
    dimensionality: string -> Dimension,
    molFactor: string -> real,
    massFactor: string -> real,
    volFactor: string -> real)
  {
    /** Conversion factors are never zero, so flows can be divided by them. */
    ghost predicate Valid()
    {
      forall u :: molFactor(u) != 0.0 && massFactor(u) != 0.0 && volFactor(u) != 0.0
    }
  }

  function DimensionOf(b: Basis): Dimension
  {
    match b
    case Mol => MolarFlow
    case Mass => MassFlow
    case Vol => VolumetricFlow
  }

  function FactorOf(reg: UnitRegistry, b: Basis, units: string): real
  {
    match b
    case Mol => reg.molFactor(units)
    case Mass => reg.massFactor(units)
    case Vol => reg.volFactor(units)
  }

  /** What the resolver computes on a cache miss. */
  function Classify(reg: UnitRegistry, units: string): (r: Result<(Basis, real), Error>)
    ensures r.Success? <==> !reg.dimensionality(units).OtherDimension?
    ensures r.Failure? ==> r.error == DimensionError
    ensures r.Success? ==>
      && DimensionOf(r.value.0) == reg.dimensionality(units)
      && r.value.1 == FactorOf(reg, r.value.0, units)
  {
    var dim := reg.dimensionality(units);
    if dim == MolarFlow then Success((Mol, reg.molFactor(units)))
    else if dim == MassFlow then Success((Mass, reg.massFactor(units)))
    else if dim == VolumetricFlow then Success((Vol, reg.volFactor(units)))
    else Failure(DimensionError)
  }

  /** Every resolution the resolver hands out has a nonzero factor when the
      registry's factors are nonzero. */
  lemma ClassifiedFactorNonZero(reg: UnitRegistry, units: string)
    requires reg.Valid()
    requires Classify(reg, units).Success?
    ensures Classify(reg, units).value.1 != 0.0
  {
    assert reg.molFactor(units) != 0.0 && reg.massFactor(units) != 0.0 && reg.volFactor(units) != 0.0;
  }

  /** The class-level `_index_cache` dictionary shared by every stream. */
  class IndexCache {
    var entries: map<string, (Basis, real)>

    constructor ()
      ensures entries == map[]
    {
      entries := map[];
    }

    /** Every cached entry is what the registry would compute afresh. */
    ghost predicate Consistent(reg: UnitRegistry)
      reads this
    {
      forall u :: u in entries ==> Classify(reg, u) == Success(entries[u])
    }

    /** `_get_indexer_and_factor`: the cached entry on a hit; on a miss the
        classification, stored only when it succeeds. */
    method Resolve(reg: UnitRegistry, units: string) returns (r: Result<(Basis, real), Error>)
      modifies this
      ensures units in old(entries) ==> r == Success(old(entries)[units]) && entries == old(entries)
      ensures units !in old(entries) ==> r == Classify(reg, units)
      ensures units !in old(entries) && r.Success? ==> entries == old(entries)[units := r.value]
      ensures r.Failure? ==> entries == old(entries)
      // entries are never removed nor changed
      ensures forall u :: u in old(entries) ==> u in entries && entries[u] == old(entries)[u]
      // with a consistent cache the answer is the uncached one, and the cache stays consistent
      ensures old(Consistent(reg)) ==> Consistent(reg) && r == Classify(reg, units)
    {
      if units in entries {
        r := Success(entries[units]);
      } else {
        r := Classify(reg, units);
        if r.Success? {
          entries := entries[units := r.value];
        }
      }
    }
  }
}
