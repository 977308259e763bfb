/** A material stream: molar flows over a fixed chemical set, a phase tag
    and a thermal condition, each held in its own object so that linked
    streams can share any of them by reference. */
module Streams {
  import opened Wrappers
  import opened Exceptions
  import opened Vectors
  import opened Units
  import opened Thermo

  /** A stream is single-phase until its phase set is assigned; the cast
      to a multi-phase stream cannot be undone. */
  datatype Kind = SinglePhase | MultiPhase(phases: seq<Phase>)

  /** The positions 0, 1, ..., n - 1: the chemical subset `...` (all). */
  function AllIndices(n: nat): (idx: seq<nat>)
    ensures |idx| == n && InRange(idx, n) && Distinct(idx)
    ensures forall k :: 0 <= k < n ==> idx[k] == k
  {
    seq(n, i => i)
  }

  // ---------------------------------------------------------------------
  // Flow views: molar flows seen through the weights of a basis
  // ---------------------------------------------------------------------

  /** The flows read through a view: `mol` weighted per chemical by `w`,
      restricted to `IDs` and converted to the caller's units by `factor`. */
  function ReadFlow(mol: seq<real>, w: seq<real>, factor: real, IDs: seq<nat>): (r: seq<real>)
    requires |w| == |mol| && InRange(IDs, |mol|)
    ensures |r| == |IDs|
    ensures forall k :: 0 <= k < |IDs| ==> r[k] == mol[IDs[k]] * w[IDs[k]] * factor
  {
    Scale(Gather(Mul(mol, w), IDs), factor)
  }

  /** The molar flows that give the view values `d` at `IDs`. */
  function MolarValues(d: seq<real>, IDs: seq<nat>, w: seq<real>, factor: real): (r: seq<real>)
    requires |d| == |IDs| && InRange(IDs, |w|) && NonZero(w) && factor != 0.0
    ensures |r| == |IDs|
    ensures forall k :: 0 <= k < |IDs| ==> r[k] == d[k] / factor / w[IDs[k]]
  {
    seq(|IDs|, k requires 0 <= k < |IDs| => d[k] / factor / w[IDs[k]])
  }

  /** The flows after writing `d`, given in units whose factor is `factor`,
      at `IDs` of a view: `d` is divided by the factor and by the view's
      weights into molar flows. */
  function WriteFlow(mol: seq<real>, w: seq<real>, factor: real, IDs: seq<nat>, d: seq<real>): (r: seq<real>)
    requires |w| == |mol| && NonZero(w) && factor != 0.0
    requires InRange(IDs, |mol|) && |d| == |IDs|
    ensures |r| == |mol|
  {
    Assign(mol, IDs, MolarValues(d, IDs, w, factor))
  }

  /** Writing a flow and reading it back in the same units returns what was
      written, and chemicals outside `IDs` keep their flows. */
  lemma ReadAfterWrite(mol: seq<real>, w: seq<real>, factor: real, IDs: seq<nat>, d: seq<real>)
    requires |w| == |mol| && NonZero(w) && factor != 0.0
    requires InRange(IDs, |mol|) && |d| == |IDs| && Distinct(IDs)
    ensures ReadFlow(WriteFlow(mol, w, factor, IDs, d), w, factor, IDs) == d
    ensures forall j :: 0 <= j < |mol| && (forall k :: 0 <= k < |IDs| ==> IDs[k] != j) ==>
      WriteFlow(mol, w, factor, IDs, d)[j] == mol[j]
  {
    var vals := MolarValues(d, IDs, w, factor);
    var m := WriteFlow(mol, w, factor, IDs, d);
    forall k | 0 <= k < |IDs|
      ensures ReadFlow(m, w, factor, IDs)[k] == d[k]
    {
      AssignAt(mol, IDs, vals, k);
      var i := IDs[k];
      var a := d[k] / factor;
      assert m[i] == a / w[i];
      DivMulCancel(a, w[i]);
      DivMulCancel(d[k], factor);
    }
    forall j | 0 <= j < |mol| && (forall k :: 0 <= k < |IDs| ==> IDs[k] != j)
      ensures m[j] == mol[j]
    {
      AssignOutside(mol, IDs, vals, j);
    }
  }

  /** Writing back the flow just read in the same units leaves the molar
      flows unchanged. */
  lemma WriteAfterRead(mol: seq<real>, w: seq<real>, factor: real, IDs: seq<nat>)
    requires |w| == |mol| && NonZero(w) && factor != 0.0
    requires InRange(IDs, |mol|)
    ensures WriteFlow(mol, w, factor, IDs, ReadFlow(mol, w, factor, IDs)) == mol
  {
    var d := ReadFlow(mol, w, factor, IDs);
    var vals := MolarValues(d, IDs, w, factor);
    forall k | 0 <= k < |IDs|
      ensures vals[k] == mol[IDs[k]]
    {
      var i := IDs[k];
      var mw := mol[i] * w[i];
      assert d[k] == mw * factor;
      MulDivCancel(mw, factor);
      assert d[k] / factor == mw;
      MulDivCancel(mol[i], w[i]);
      assert vals[k] == mw / w[i];
    }
    AssignSame(mol, IDs, vals);
  }

  /** Writing every entry with its current value changes nothing. */
  lemma {:induction false} AssignSame(s: seq<real>, idx: seq<nat>, vals: seq<real>)
    requires InRange(idx, |s|) && |vals| == |idx|
    requires forall k :: 0 <= k < |idx| ==> vals[k] == s[idx[k]]
    ensures Assign(s, idx, vals) == s
  {
    if |idx| > 0 {
      AssignSame(s, idx[..|idx| - 1], vals[..|idx| - 1]);
    }
  }

  // ---------------------------------------------------------------------
  // Composition and intensive properties
  // ---------------------------------------------------------------------

  /** Fractions of the total when it is nonzero, or else the (zero-sum)
      vector itself. */
  function Fractions(v: seq<real>): (z: seq<real>)
    ensures |z| == |v|
    ensures Sum(v) != 0.0 ==> Sum(z) == 1.0 && z == Scale(v, 1.0 / Sum(v))
    ensures Sum(v) == 0.0 ==> z == v
  {
    if Sum(v) != 0.0 then
      var z := Scale(v, 1.0 / Sum(v));
      SumScale(v, 1.0 / Sum(v));
      z
    else v
  }

  /** Each fraction times the total gives back the flow it came from. */
  lemma FractionsRecover(v: seq<real>, i: nat)
    requires Sum(v) != 0.0 && i < |v|
    ensures Fractions(v)[i] * Sum(v) == v[i]
  {
    assert Fractions(v)[i] == v[i] * (1.0 / Sum(v));
    MulInvCancel(v[i], Sum(v));
  }

  /** An intensive property guarded against zero flow: the correlation is
      evaluated at the mole fractions, and never at all when the total is
      zero. */
  function Intensive(correlation: seq<real> -> real, mol: seq<real>): (r: real)
    ensures Sum(mol) == 0.0 ==> r == 0.0
    ensures Sum(mol) != 0.0 ==> r == correlation(Fractions(mol))
  {
    if Sum(mol) != 0.0 then correlation(Fractions(mol)) else 0.0
  }

  /** Rescaling by `value / Sum(mol)` makes the total `value`, keeps the
      composition when `value` is nonzero, and is the identity when `value`
      is the current total. */
  lemma RescaleToTotal(mol: seq<real>, value: real)
    requires Sum(mol) != 0.0
    ensures Sum(Scale(mol, value / Sum(mol))) == value
    ensures value != 0.0 ==> Fractions(Scale(mol, value / Sum(mol))) == Fractions(mol)
    ensures value == Sum(mol) ==> Scale(mol, value / Sum(mol)) == mol
  {
    var S := Sum(mol);
    var c := value / S;
    var s := Scale(mol, c);
    SumScale(mol, c);
    DivMulCancel(value, S);
    assert Sum(s) == value;
    if value != 0.0 {
      FractionsScale(mol, c);
    }
    if value == S {
      assert c == 1.0;
      assert forall i :: 0 <= i < |mol| ==> s[i] == mol[i];
    }
  }

  lemma DivMulCancel(x: real, y: real)
    requires y != 0.0
    ensures (x / y) * y == x
  {
  }

  lemma MulInvCancel(x: real, y: real)
    requires y != 0.0
    ensures (x * (1.0 / y)) * y == x
  {
  }

  lemma MulDivCancel(x: real, y: real)
    requires y != 0.0
    ensures (x * y) / y == x
  {
  }

  /** Scaling a vector of nonzero total by a nonzero factor keeps its
      fractions. */
  lemma FractionsScale(v: seq<real>, c: real)
    requires Sum(v) != 0.0 && c != 0.0
    ensures Fractions(Scale(v, c)) == Fractions(v)
  {
    var w := Scale(v, c);
    var S, T := Sum(v), Sum(w);
    SumScale(v, c);
    assert T == c * S;
    var a, b := Fractions(w), Fractions(v);
    assert a == Scale(w, 1.0 / T) && b == Scale(v, 1.0 / S);
    forall i | 0 <= i < |v|
      ensures a[i] == b[i]
    {
      var x := v[i];
      assert w[i] == x * c;
      RescaledFraction(x, c, S, T);
    }
  }

  lemma RescaledFraction(x: real, c: real, s: real, t: real)
    requires c != 0.0 && s != 0.0 && t == c * s
    ensures (x * c) * (1.0 / t) == x * (1.0 / s)
  {
  }

  /** Rescaling the molar flows by `value / F_mass` makes the mass total
      `value`. */
  lemma RescaleToMassTotal(mw: seq<real>, mol: seq<real>, value: real)
    requires |mw| == |mol| && Sum(Mul(mw, mol)) != 0.0
    ensures Sum(Mul(mw, Scale(mol, value / Sum(Mul(mw, mol))))) == value
  {
    var c := value / Sum(Mul(mw, mol));
    assert Mul(mw, Scale(mol, c)) == Scale(Mul(mw, mol), c) by {
      forall i | 0 <= i < |mol|
        ensures Mul(mw, Scale(mol, c))[i] == Scale(Mul(mw, mol), c)[i]
      {
        assert mw[i] * (mol[i] * c) == (mw[i] * mol[i]) * c;
      }
    }
    SumScale(Mul(mw, mol), c);
  }

  /** A sum of non-negative entries with one positive entry is positive. */
  lemma {:induction false} SumPositive(s: seq<real>, j: nat)
    requires NonNegative(s) && j < |s| && s[j] > 0.0
    ensures Sum(s) > 0.0
  {
    var n := |s| - 1;
    if j < n {
      SumPositive(s[..n], j);
    } else {
      SumNonNegative(s[..n]);
    }
  }

  /** Positions below `n` of equilibrium chemicals whose flow is nonzero,
      in increasing order. */
  function EquilibriumIndices(isEq: seq<bool>, mol: seq<real>, n: nat): (idx: seq<nat>)
    requires n <= |isEq| && |isEq| == |mol|
    ensures InRange(idx, n)
    ensures forall a, b :: 0 <= a < b < |idx| ==> idx[a] < idx[b]
    ensures forall k :: 0 <= k < |idx| ==> isEq[idx[k]] && mol[idx[k]] != 0.0
    ensures forall j :: 0 <= j < n && isEq[j] && mol[j] != 0.0 ==> j in idx
  {
    if n == 0 then []
    else
      var rest := EquilibriumIndices(isEq, mol, n - 1);
      if isEq[n - 1] && mol[n - 1] != 0.0 then rest + [n - 1] else rest
  }

  /** Per-chemical weights that turn molar flows into the flows of a view:
      1 for `imol`, the molecular weights for `imass`, the molar volumes at
      (phase, T, P) for `ivol`. */
  function Weights(b: Basis, chemicals: Chemicals, mix: Mixture, phase: Phase, T: real, P: real): (w: seq<real>)
    requires chemicals.Valid() && mix.Valid(chemicals.Size())
    ensures |w| == chemicals.Size() && NonZero(w)
  {
    match b
    case Mol => seq(chemicals.Size(), i => 1.0)
    case Mass => chemicals.MW
    case Vol => mix.molarVolumes(phase, T, P)
  }

  // ---------------------------------------------------------------------
  // Flows given in units at construction
  // ---------------------------------------------------------------------

  /** The molar flows the constructor stores when `units` is given, as the
      code is written: the view addressed by `units` is set to the given
      flows times the factor, with no conversion on the way in. */
  function InitialMolAsWritten(flow: seq<real>, w: seq<real>, factor: real): (m: seq<real>)
    requires |w| == |flow| && NonZero(w)
    ensures |m| == |flow|
  {
    WriteFlow(flow, w, 1.0, AllIndices(|flow|), Scale(flow, factor))
  }

  /** The molar flows the constructor is meant to store: the given flows
      are in `units`, so, as in `set_flow`, they are divided by the
      factor. Reading them back in `units` returns the given flows. */
  function InitialMol(flow: seq<real>, w: seq<real>, factor: real): (m: seq<real>)
    requires |w| == |flow| && NonZero(w) && factor != 0.0
    ensures |m| == |flow|
    ensures ReadFlow(m, w, factor, AllIndices(|flow|)) == flow
  {
    ReadAfterWrite(flow, w, factor, AllIndices(|flow|), flow);
    WriteFlow(flow, w, factor, AllIndices(|flow|), flow)
  }

  lemma ViewRoundTripAsWritten(x: real, y: real, f: real)
    requires y != 0.0
    ensures ((x * f) / 1.0 / y) * y * f == x * (f * f)
  {
  }

  /** As written, flows given in `units` read back in the same units come
      out multiplied by the square of the factor. */
  lemma InitialMolAsWrittenReadBack(flow: seq<real>, w: seq<real>, factor: real)
    requires |w| == |flow| && NonZero(w)
    ensures ReadFlow(InitialMolAsWritten(flow, w, factor), w, factor, AllIndices(|flow|)) == Scale(flow, factor * factor)
  {
    var all := AllIndices(|flow|);
    var vals := MolarValues(Scale(flow, factor), all, w, 1.0);
    var m := InitialMolAsWritten(flow, w, factor);
    forall k | 0 <= k < |flow|
      ensures ReadFlow(m, w, factor, all)[k] == Scale(flow, factor * factor)[k]
    {
      AssignAt(flow, all, vals, k);
      ViewRoundTripAsWritten(flow[k], w[k], factor);
    }
  }

  /** One kilogram per second of water: the stream reports 1/12960000
      kg/s, not 1. */
  lemma InitialMolAsWrittenCounterexample()
    ensures ReadFlow(InitialMolAsWritten([1.0], [18.01528], 1.0 / 3600.0), [18.01528], 1.0 / 3600.0, [0])
      == [1.0 / 12960000.0]
  {
    InitialMolAsWrittenReadBack([1.0], [18.01528], 1.0 / 3600.0);
    assert AllIndices(1) == [0];
    assert Scale([1.0], (1.0 / 3600.0) * (1.0 / 3600.0)) == [1.0 / 12960000.0];
  }

  /** With non-negative flows, the equilibrium chemicals present have a
      zero total exactly when every equilibrium chemical has zero flow. */
  lemma EquilibriumTotalZero(isEq: seq<bool>, mol: seq<real>)
    requires |isEq| == |mol| && NonNegative(mol)
    ensures Sum(Gather(mol, EquilibriumIndices(isEq, mol, |mol|))) == 0.0 <==>
      forall j :: 0 <= j < |mol| && isEq[j] ==> mol[j] == 0.0
  {
    var idx := EquilibriumIndices(isEq, mol, |mol|);
    var g := Gather(mol, idx);
    if |idx| == 0 {
      assert g == [];
    } else {
      assert NonNegative(g);
      assert g[0] > 0.0;
      SumPositive(g, 0);
    }
  }

  /** `z_equilibrium_chemicals`: the mole fractions among the equilibrium
      chemicals present, with their positions; an assertion fails when
      their flows sum to zero. */
  function EquilibriumComposition(isEq: seq<bool>, mol: seq<real>): (r: Result<(seq<real>, seq<nat>), Error>)
    requires |isEq| == |mol|
    ensures r.Failure? <==> Sum(Gather(mol, EquilibriumIndices(isEq, mol, |mol|))) == 0.0
    ensures r.Failure? ==> r.error == AssertionError
    ensures r.Success? ==>
      var (z, idx) := r.value;
      && |z| == |idx| && InRange(idx, |mol|) && Sum(z) == 1.0
      && (forall k :: 0 <= k < |idx| ==> isEq[idx[k]] && mol[idx[k]] != 0.0)
      && (forall j :: 0 <= j < |mol| && isEq[j] && mol[j] != 0.0 ==> j in idx)
      && (forall k :: 0 <= k < |idx| ==> z[k] * Sum(Gather(mol, idx)) == mol[idx[k]])
  {
    var idx := EquilibriumIndices(isEq, mol, |mol|);
    var flow := Gather(mol, idx);
    if Sum(flow) == 0.0 then Failure(AssertionError)
    else
      Success((Fractions(flow), idx))
  }

  // ---------------------------------------------------------------------
  // Named properties in arbitrary units
  // ---------------------------------------------------------------------

  /** The registry of canonical units per property name
      (`stream_units_of_measure`) and the unit registry's conversion
      factors; a pair of units it cannot convert between (units of
      another dimensionality) has no factor. */
  datatype PropertyUnits = PropertyUnits(
    canonical: map<string, string>,
    conversion: (string, string) -> Option<real>)
  {
    /** Every factor the unit registry hands out can be divided by. */
    ghost predicate Valid()
    {
      forall a, b :: conversion(a, b).Some? ==> conversion(a, b).value != 0.0
    }
  }

  /** `get_property`: the attribute's current value converted to `units`.
      A name outside the registry raises ValueError before any conversion
      is attempted; units the canonical units cannot be converted to raise
      DimensionError. */
  function GetProperty(reg: PropertyUnits, name: string, units: string, current: real): (r: Result<real, Error>)
    ensures r.Failure? <==>
      name !in reg.canonical || reg.conversion(reg.canonical[name], units).None?
    ensures name !in reg.canonical ==> r == Failure(ValueError)
    ensures name in reg.canonical && reg.conversion(reg.canonical[name], units).None? ==>
      r == Failure(DimensionError)
    ensures r.Success? ==> r.value == current * reg.conversion(reg.canonical[name], units).value
  {
    if name !in reg.canonical then Failure(ValueError)
    else
      match reg.conversion(reg.canonical[name], units)
      case None => Failure(DimensionError)
      case Some(f) => Success(current * f)
  }

  /** `set_property`: the value in canonical units that is assigned to the
      attribute, with the same two failures as `get_property`, in the same
      order. */
  function SetPropertyValue(reg: PropertyUnits, name: string, value: real, units: string): (r: Result<real, Error>)
    requires reg.Valid()
    ensures r.Failure? <==>
      name !in reg.canonical || reg.conversion(reg.canonical[name], units).None?
    ensures name !in reg.canonical ==> r == Failure(ValueError)
    ensures name in reg.canonical && reg.conversion(reg.canonical[name], units).None? ==>
      r == Failure(DimensionError)
    ensures r.Success? ==> r.value * reg.conversion(reg.canonical[name], units).value == value
  {
    if name !in reg.canonical then Failure(ValueError)
    else
      match reg.conversion(reg.canonical[name], units)
      case None => Failure(DimensionError)
      case Some(f) =>
        assert f != 0.0;
        DivMulCancel(value, f);
        Success(value / f)
  }

  /** Setting a named property and reading it back in the same units gives
      the value that was set; getting and setting fail together. */
  lemma PropertyRoundTrip(reg: PropertyUnits, name: string, value: real, units: string, current: real)
    requires reg.Valid()
    ensures SetPropertyValue(reg, name, value, units).Failure? <==>
      GetProperty(reg, name, units, current).Failure?
    ensures SetPropertyValue(reg, name, value, units).Success? ==>
      GetProperty(reg, name, units, SetPropertyValue(reg, name, value, units).value) == Success(value)
  {
    if name in reg.canonical && reg.conversion(reg.canonical[name], units).Some? {
      var f := reg.conversion(reg.canonical[name], units).value;
      assert f != 0.0;
      assert SetPropertyValue(reg, name, value, units) == Success(value / f);
      DivMulCancel(value, f);
      var r := GetProperty(reg, name, units, value / f);
      assert r.Success? && r.value == (value / f) * f;
    }
  }

  // ---------------------------------------------------------------------
  // The shared facets
  // ---------------------------------------------------------------------

  /** Temperature (K) and pressure (Pa), mutable in place. */
  class ThermalCondition {
    var T: real
    var P: real

    constructor (T: real, P: real)
      ensures this.T == T && this.P == P
    {
      this.T := T;
      this.P := P;
    }

    method Copy() returns (c: ThermalCondition)
      ensures fresh(c) && c.T == T && c.P == P
    {
      c := new ThermalCondition(T, P);
    }

    method CopyLike(other: ThermalCondition)
      modifies this
      ensures T == old(other.T) && P == old(other.P)
    {
      T, P := other.T, other.P;
    }
  }

  /** The box that holds a stream's phase tag. */
  class PhaseBox {
    var phase: Phase

    constructor (phase: Phase)
      ensures this.phase == phase
    {
      this.phase := phase;
    }

    method Copy() returns (c: PhaseBox)
      ensures fresh(c) && c.phase == phase
    {
      c := new PhaseBox(phase);
    }
  }

  /** Cache of the derived (mass, volumetric) views of a molar indexer;
      only its keys are modelled. */
  class DataCache {
    var views: set<Basis>

    constructor ()
      ensures views == {}
    {
      views := {};
    }

    method Clear()
      modifies this
      ensures views == {}
    {
      views := {};
    }
  }

  /** The molar flow indexer `_imol`: the molar data array, the phase box
      and the derived-view cache. */
  class MolarIndexer {
    var data: array<real>
    var phaseBox: PhaseBox
    var dataCache: DataCache

    constructor FromData(values: seq<real>, phase: Phase)
      ensures fresh(data) && fresh(phaseBox) && fresh(dataCache)
      ensures data[..] == values && phaseBox.phase == phase && dataCache.views == {}
    {
      data := new real[|values|](i requires 0 <= i < |values| => values[i]);
      phaseBox := new PhaseBox(phase);
      dataCache := new DataCache();
    }

    method Copy() returns (c: MolarIndexer)
      ensures fresh(c) && fresh(c.data) && fresh(c.phaseBox) && fresh(c.dataCache)
      ensures c.data[..] == data[..] && c.phaseBox.phase == phaseBox.phase && c.dataCache.views == {}
    {
      c := new MolarIndexer.FromData(data[..], phaseBox.phase);
    }

    /** Copies the flows and the phase of `other` into this indexer's own
        array and phase box. */
    method CopyLike(other: MolarIndexer)
      requires other.data.Length == data.Length
      modifies data, phaseBox
      ensures data[..] == old(other.data[..]) && phaseBox.phase == old(other.phaseBox.phase)
    {
      var values := other.data[..];
      var phase := other.phaseBox.phase;
      forall i | 0 <= i < data.Length {
        data[i] := values[i];
      }
      phaseBox.phase := phase;
    }

    /** Writes `values` into the molar flows at `IDs`, one after
        another, so a repeated position keeps its last value. */
    method SetItems(IDs: seq<nat>, values: seq<real>)
      requires InRange(IDs, data.Length) && |values| == |IDs|
      modifies data
      ensures data[..] == Assign(old(data[..]), IDs, values)
    {
      ghost var before := data[..];
      var k := 0;
      while k < |IDs|
        invariant 0 <= k <= |IDs|
        invariant data[..] == Assign(before, IDs[..k], values[..k])
      {
        data[IDs[k]] := values[k];
        k := k + 1;
        assert IDs[..k][..k - 1] == IDs[..k - 1];
        assert values[..k][..k - 1] == values[..k - 1];
      }
      assert IDs[..k] == IDs && values[..k] == values;
    }
  }

  // ---------------------------------------------------------------------
  // The stream
  // ---------------------------------------------------------------------

  class Stream {
    var ID: Option<string>
    var imol: MolarIndexer
    var TP: ThermalCondition
    /** None when the attribute was never set (a stream made by `copy`). */
    var price: Option<real>
    var kind: Kind
    const chemicals: Chemicals

    ghost predicate Valid()
      reads this, imol
    {
      chemicals.Valid() && imol.data.Length == chemicals.Size()
    }

    constructor (ID: string, flow: seq<real>, phase: Phase, T: real, P: real, price: real, chemicals: Chemicals)
      requires chemicals.Valid() && |flow| == chemicals.Size()
      ensures Valid() && fresh(imol) && fresh(imol.data) && fresh(imol.phaseBox) && fresh(imol.dataCache) && fresh(TP)
      ensures this.ID == Some(ID) && this.chemicals == chemicals && this.price == Some(price) && kind == SinglePhase
      ensures Mol() == flow && CurrentPhase() == phase && this.T() == T && this.P() == P
      ensures imol.dataCache.views == {}
    {
      this.ID := Some(ID);
      this.chemicals := chemicals;
      this.imol := new MolarIndexer.FromData(flow, phase);
      this.TP := new ThermalCondition(T, P);
      this.price := Some(price);
      this.kind := SinglePhase;
    }

    /** A stream built on an existing indexer shares it, and the indexer's
        phase is overwritten with `phase`. */
    constructor FromIndexer(ID: string, imol: MolarIndexer, phase: Phase, T: real, P: real, price: real, chemicals: Chemicals)
      requires chemicals.Valid() && imol.data.Length == chemicals.Size()
      modifies imol.phaseBox
      ensures Valid() && this.imol == imol && fresh(TP)
      ensures imol.data == old(imol.data) && imol.phaseBox == old(imol.phaseBox) && imol.dataCache == old(imol.dataCache)
      ensures this.ID == Some(ID) && this.chemicals == chemicals && this.price == Some(price) && kind == SinglePhase
      ensures Mol() == old(imol.data[..]) && CurrentPhase() == phase && this.T() == T && this.P() == P
    {
      this.ID := Some(ID);
      this.chemicals := chemicals;
      this.imol := imol;
      this.TP := new ThermalCondition(T, P);
      this.price := Some(price);
      this.kind := SinglePhase;
      imol.phaseBox.phase := phase;
    }

    /** Builds a stream from already made parts (`cls.__new__` followed by
        attribute assignment). */
    constructor Assemble(ID: Option<string>, imol: MolarIndexer, TP: ThermalCondition, price: Option<real>, kind: Kind, chemicals: Chemicals)
      ensures this.ID == ID && this.imol == imol && this.TP == TP && this.price == price
      ensures this.kind == kind && this.chemicals == chemicals
    {
      this.ID := ID;
      this.imol := imol;
      this.TP := TP;
      this.price := price;
      this.kind := kind;
      this.chemicals := chemicals;
    }

    /** The constructor called with `units`: the flows are given in those
        units and stored as molar flows, so that reading them back in the
        same units returns them. An unknown dimension fails. */
    static method WithUnits(ID: string, flow: seq<real>, phase: Phase, T: real, P: real, price: real,
                            chemicals: Chemicals, units: string, cache: IndexCache, reg: UnitRegistry, mix: Mixture)
      returns (r: Result<Stream, Error>)
      requires chemicals.Valid() && |flow| == chemicals.Size() && mix.Valid(chemicals.Size()) && reg.Valid()
      requires cache.Consistent(reg)
      modifies cache
      ensures cache.Consistent(reg)
      ensures forall u :: u in old(cache.entries) ==> u in cache.entries && cache.entries[u] == old(cache.entries)[u]
      ensures Classify(reg, units).Failure? ==> r == Failure(DimensionError)
      ensures Classify(reg, units).Success? ==>
        var (b, f) := Classify(reg, units).value;
        var w := Weights(b, chemicals, mix, phase, T, P);
        && r.Success? && fresh(r.value) && r.value.Valid() && r.value.chemicals == chemicals
        && r.value.Mol() == InitialMol(flow, w, f)
        && ReadFlow(r.value.Mol(), w, f, AllIndices(|flow|)) == flow
        && r.value.CurrentPhase() == phase && r.value.T() == T && r.value.P() == P
    {
      var s := new Stream(ID, flow, phase, T, P, price, chemicals);
      var out := s.SetFlow(flow, units, AllIndices(|flow|), cache, reg, mix);
      if out.Fail? {
        r := Failure(out.error);
      } else {
        r := Success(s);
      }
    }

    // ----- state read through the facets -----

    function Mol(): (m: seq<real>)
      reads this, imol, imol.data
      ensures |m| == imol.data.Length
    {
      imol.data[..]
    }

    function T(): real
      reads this, TP
    {
      TP.T
    }

    function P(): real
      reads this, TP
    {
      TP.P
    }

    function CurrentPhase(): Phase
      reads this, imol, imol.phaseBox
    {
      imol.phaseBox.phase
    }

    // ----- net flows and composition -----

    function FMol(): real
      reads this, imol, imol.data
    {
      Sum(Mol())
    }

    function FMass(): real
      reads this, imol, imol.data
      requires Valid()
    {
      Sum(Mul(chemicals.MW, Mol()))
    }

    /** Average molecular weight; the source divides without a guard. */
    function MW(): (r: real)
      reads this, imol, imol.data
      requires Valid() && FMol() != 0.0
      ensures r * FMol() == FMass()
    {
      FMass() / FMol()
    }

    /** Mole fractions; the all-zero vector when the total is zero. */
    function ZMol(): (z: seq<real>)
      reads this, imol, imol.data
      ensures |z| == imol.data.Length
      ensures FMol() != 0.0 ==> Sum(z) == 1.0 && forall i :: 0 <= i < |z| ==> z[i] * FMol() == Mol()[i]
      ensures FMol() == 0.0 ==> z == Mol()
    {
      Fractions(Mol())
    }

    /** Mass fractions; the (zero-sum) mass flows when the mass total is zero. */
    function ZMass(): (z: seq<real>)
      reads this, imol, imol.data
      requires Valid()
      ensures |z| == imol.data.Length
      ensures FMass() != 0.0 ==>
        Sum(z) == 1.0 && forall i :: 0 <= i < |z| ==> z[i] * FMass() == chemicals.MW[i] * Mol()[i]
      ensures FMass() == 0.0 ==> z == Mul(chemicals.MW, Mol())
    {
      Fractions(Mul(chemicals.MW, Mol()))
    }

    /** Molar volume. */
    function V(mix: Mixture): (r: real)
      reads this, imol, imol.data, imol.phaseBox, TP
      ensures FMol() == 0.0 ==> r == 0.0
      ensures FMol() != 0.0 ==> r == mix.V(CurrentPhase(), ZMol(), T(), P())
    {
      var ph, t, p := CurrentPhase(), T(), P();
      Intensive(z => mix.V(ph, z, t, p), Mol())
    }

    /** Thermal conductivity. */
    function Kappa(mix: Mixture): (r: real)
      reads this, imol, imol.data, imol.phaseBox, TP
      ensures FMol() == 0.0 ==> r == 0.0
      ensures FMol() != 0.0 ==> r == mix.kappa(CurrentPhase(), ZMol(), T(), P())
    {
      var ph, t, p := CurrentPhase(), T(), P();
      Intensive(z => mix.kappa(ph, z, t, p), Mol())
    }

    /** Molar heat capacity. */
    function Cn(mix: Mixture): (r: real)
      reads this, imol, imol.data, imol.phaseBox, TP
      ensures FMol() == 0.0 ==> r == 0.0
      ensures FMol() != 0.0 ==> r == mix.Cn(CurrentPhase(), ZMol(), T(), P())
    {
      var ph, t, p := CurrentPhase(), T(), P();
      Intensive(z => mix.Cn(ph, z, t, p), Mol())
    }

    /** Dynamic viscosity. */
    function Mu(mix: Mixture): (r: real)
      reads this, imol, imol.data, imol.phaseBox, TP
      ensures FMol() == 0.0 ==> r == 0.0
      ensures FMol() != 0.0 ==> r == mix.mu(CurrentPhase(), ZMol(), T(), P())
    {
      var ph, t, p := CurrentPhase(), T(), P();
      Intensive(z => mix.mu(ph, z, t, p), Mol())
    }

    /** Surface tension (no phase argument). */
    function Sigma(mix: Mixture): (r: real)
      reads this, imol, imol.data, TP
      ensures FMol() == 0.0 ==> r == 0.0
      ensures FMol() != 0.0 ==> r == mix.sigma(ZMol(), T(), P())
    {
      var t, p := T(), P();
      Intensive(z => mix.sigma(z, t, p), Mol())
    }

    /** Relative permittivity (no phase argument). */
    function Epsilon(mix: Mixture): (r: real)
      reads this, imol, imol.data, TP
      ensures FMol() == 0.0 ==> r == 0.0
      ensures FMol() != 0.0 ==> r == mix.epsilon(ZMol(), T(), P())
    {
      var t, p := T(), P();
      Intensive(z => mix.epsilon(z, t, p), Mol())
    }

    /** Mole fractions among the equilibrium chemicals present, with their
        positions; an assertion fails when their flows sum to zero. */
    function ZEquilibriumChemicals(): (r: Result<(seq<real>, seq<nat>), Error>)
      reads this, imol, imol.data
      requires Valid()
      ensures r == EquilibriumComposition(chemicals.isEquilibrium, Mol())
    {
      EquilibriumComposition(chemicals.isEquilibrium, Mol())
    }

    /** Reading the phase set fails on a stream that was never cast. */
    function Phases(): (r: Result<seq<Phase>, Error>)
      reads this
      ensures r.Success? <==> kind.MultiPhase?
      ensures r.Success? ==> r.value == kind.phases
      ensures r.Failure? ==> r.error == AttributeError
    {
      match kind
      case SinglePhase => Failure(AttributeError)
      case MultiPhase(p) => Success(p)
    }

    /** Per-chemical weights of a flow view at the current phase, T and P. */
    function ViewWeights(b: Basis, mix: Mixture): (w: seq<real>)
      reads this, imol, imol.phaseBox, TP
      requires Valid() && mix.Valid(chemicals.Size())
      ensures |w| == chemicals.Size() && NonZero(w)
    {
      Weights(b, chemicals, mix, CurrentPhase(), T(), P())
    }

    // ----- setters -----

    method SetT(T: real)
      modifies TP
      ensures this.T() == T && TP.P == old(TP.P)
    {
      TP.T := T;
    }

    method SetP(P: real)
      modifies TP
      ensures this.P() == P && TP.T == old(TP.T)
    {
      TP.P := P;
    }

    method SetPhase(phase: Phase)
      modifies imol.phaseBox
      ensures CurrentPhase() == phase
    {
      imol.phaseBox.phase := phase;
    }

    /** Assigning the molar flows copies into the existing array, keeping
        its identity. */
    method SetMol(value: seq<real>)
      requires |value| == imol.data.Length
      modifies imol.data
      ensures Mol() == value
    {
      forall i | 0 <= i < imol.data.Length {
        imol.data[i] := value[i];
      }
    }

    /** Setting the total molar flow to `value` rescales every flow by
        `value / F_mol`. */
    method SetFMol(value: real)
      requires FMol() != 0.0
      modifies imol.data
      ensures Mol() == Scale(old(Mol()), value / old(FMol()))
      ensures FMol() == value
    {
      var c := value / FMol();
      ghost var before := Mol();
      forall i | 0 <= i < imol.data.Length {
        imol.data[i] := imol.data[i] * c;
      }
      assert forall i :: 0 <= i < |before| ==> Mol()[i] == Scale(before, c)[i];
      assert Mol() == Scale(before, c);
      RescaleToTotal(before, value);
    }

    /** Setting the total mass flow to `value` rescales every molar flow by
        `value / F_mass`. */
    method SetFMass(value: real)
      requires Valid() && FMass() != 0.0
      modifies imol.data
      ensures Mol() == Scale(old(Mol()), value / old(FMass()))
      ensures FMass() == value
    {
      var c := value / FMass();
      ghost var before := Mol();
      forall i | 0 <= i < imol.data.Length {
        imol.data[i] := imol.data[i] * c;
      }
      assert forall i :: 0 <= i < |before| ==> Mol()[i] == Scale(before, c)[i];
      assert Mol() == Scale(before, c);
      RescaleToMassTotal(chemicals.MW, before, value);
    }

    /** Zeroes the (possibly shared) molar array. */
    method Empty()
      modifies imol.data
      ensures Mol() == Zeros(imol.data.Length)
    {
      forall i | 0 <= i < imol.data.Length {
        imol.data[i] := 0.0;
      }
    }

    /** Casts to a multi-phase stream; the tag is never reset. */
    method SetPhases(phases: seq<Phase>)
      modifies this
      ensures kind == MultiPhase(phases)
      ensures ID == old(ID) && imol == old(imol) && TP == old(TP) && price == old(price)
    {
      kind := MultiPhase(phases);
    }

    // ----- flows in arbitrary units -----

    /** `get_flow`: resolves the units, then reads the view at `IDs`. */
    method GetFlow(units: string, IDs: seq<nat>, cache: IndexCache, reg: UnitRegistry, mix: Mixture)
      returns (r: Result<seq<real>, Error>)
      requires Valid() && mix.Valid(chemicals.Size()) && InRange(IDs, chemicals.Size())
      requires cache.Consistent(reg)
      modifies cache
      ensures cache.Consistent(reg)
      ensures forall u :: u in old(cache.entries) ==> u in cache.entries && cache.entries[u] == old(cache.entries)[u]
      ensures Classify(reg, units).Failure? ==> r == Failure(DimensionError)
      ensures Classify(reg, units).Success? ==>
        var (b, f) := Classify(reg, units).value;
        r == Success(ReadFlow(Mol(), ViewWeights(b, mix), f, IDs))
    {
      var res := cache.Resolve(reg, units);
      match res
      case Failure(e) =>
        r := Failure(e);
      case Success(bf) =>
        r := Success(ReadFlow(Mol(), ViewWeights(bf.0, mix), bf.1, IDs));
    }

    /** `set_flow`: resolves the units, divides by the factor and writes the
        view at `IDs`, one chemical after another. */
    method SetFlow(d: seq<real>, units: string, IDs: seq<nat>, cache: IndexCache, reg: UnitRegistry, mix: Mixture)
      returns (r: Outcome<Error>)
      requires Valid() && mix.Valid(chemicals.Size()) && reg.Valid()
      requires InRange(IDs, chemicals.Size()) && |d| == |IDs|
      requires cache.Consistent(reg)
      modifies cache, imol.data
      ensures cache.Consistent(reg)
      ensures forall u :: u in old(cache.entries) ==> u in cache.entries && cache.entries[u] == old(cache.entries)[u]
      ensures Classify(reg, units).Failure? ==> r == Fail(DimensionError) && Mol() == old(Mol())
      ensures Classify(reg, units).Success? ==>
        var (b, f) := Classify(reg, units).value;
        r == Pass && f != 0.0 && Mol() == WriteFlow(old(Mol()), ViewWeights(b, mix), f, IDs, d)
    {
      var res := cache.Resolve(reg, units);
      match res
      case Failure(e) =>
        r := Fail(e);
      case Success(bf) =>
        ClassifiedFactorNonZero(reg, units);
        var w := ViewWeights(bf.0, mix);
        var vals := MolarValues(d, IDs, w, bf.1);
        imol.SetItems(IDs, vals);
        r := Pass;
    }

    // ----- linking, copying, splitting, mixing -----

    /** Makes the selected facets reference `other`'s objects. The cache is
        adopted only when all three are shared; otherwise both caches are
        cleared in place. */
    method Link(other: Stream, shareTP: bool, shareFlow: bool, sharePhase: bool)
      requires Valid() && other.Valid() && other.chemicals == chemicals
      modifies this, imol, imol.dataCache, other.imol.dataCache
      ensures Valid()
      ensures imol == old(imol) && ID == old(ID) && price == old(price) && kind == old(kind)
      ensures TP == (if shareTP then old(other.TP) else old(TP))
      ensures imol.data == (if shareFlow then old(other.imol.data) else old(imol.data))
      ensures imol.phaseBox == (if sharePhase then old(other.imol.phaseBox) else old(imol.phaseBox))
      ensures shareTP && shareFlow && sharePhase ==>
        && imol.dataCache == old(other.imol.dataCache) && imol.dataCache.views == old(other.imol.dataCache.views)
        && old(imol.dataCache).views == old(imol.dataCache.views)
      ensures !(shareTP && shareFlow && sharePhase) ==>
        imol.dataCache == old(imol.dataCache) && imol.dataCache.views == {} && other.imol.dataCache.views == {}
      ensures other.TP == old(other.TP) && other.imol == old(other.imol)
      ensures other.imol.data == old(other.imol.data) && other.imol.phaseBox == old(other.imol.phaseBox)
      ensures other.imol.dataCache == old(other.imol.dataCache)
    {
      if shareTP && shareFlow && sharePhase {
        imol.dataCache := other.imol.dataCache;
      } else {
        imol.dataCache.Clear();
        other.imol.dataCache.Clear();
      }
      if shareTP {
        TP := other.TP;
      }
      if shareFlow {
        imol.data := other.imol.data;
      }
      if sharePhase {
        imol.phaseBox := other.imol.phaseBox;
      }
    }

    /** Replaces every shared facet with a private copy of equal value, and
        clears (but keeps) the cache object. */
    method Unlink()
      requires Valid()
      modifies this, imol, imol.dataCache
      ensures Valid()
      ensures imol == old(imol) && ID == old(ID) && price == old(price) && kind == old(kind)
      ensures imol.dataCache == old(imol.dataCache) && imol.dataCache.views == {}
      ensures fresh(TP) && T() == old(T()) && P() == old(P())
      ensures fresh(imol.data) && Mol() == old(Mol())
      ensures fresh(imol.phaseBox) && CurrentPhase() == old(CurrentPhase())
    {
      imol.dataCache.Clear();
      TP := TP.Copy();
      var values := imol.data[..];
      var data := new real[|values|](i requires 0 <= i < |values| => values[i]);
      imol.data := data;
      imol.phaseBox := imol.phaseBox.Copy();
    }

    /** Writes `other`'s flows, phase, T and P into this stream's own
        objects, keeping their identity. */
    method CopyLike(other: Stream)
      requires Valid() && other.Valid() && other.chemicals.Size() == chemicals.Size()
      modifies imol.data, imol.phaseBox, TP
      ensures Mol() == old(other.Mol()) && CurrentPhase() == old(other.CurrentPhase())
      ensures T() == old(other.T()) && P() == old(other.P())
    {
      imol.CopyLike(other.imol);
      TP.CopyLike(other.TP);
    }

    /** A new stream with no ID and fresh objects of equal value; `price`
        is left unset. */
    method Copy() returns (s: Stream)
      requires Valid()
      ensures fresh(s) && fresh(s.imol) && fresh(s.imol.data) && fresh(s.imol.phaseBox)
      ensures fresh(s.imol.dataCache) && fresh(s.TP)
      ensures s.Valid() && s.ID == None && s.chemicals == chemicals && s.price == None && s.kind == kind
      ensures s.Mol() == Mol() && s.CurrentPhase() == CurrentPhase() && s.T() == T() && s.P() == P()
    {
      var i := imol.Copy();
      var tp := TP.Copy();
      s := new Stream.Assemble(None, i, tp, None, kind, chemicals);
    }

    /** `split_to`: `s1` receives `split * mol` and `s2` receives
        `mol - split * mol`, where `mol` is this stream's array read after
        the first write. */
    method SplitTo(s1: Stream, s2: Stream, split: seq<real>)
      requires Valid() && s1.Valid() && s2.Valid()
      requires s1.chemicals.Size() == chemicals.Size() && s2.chemicals.Size() == chemicals.Size()
      requires |split| == chemicals.Size()
      modifies s1.imol.data, s2.imol.data
      ensures s1.imol.data != s2.imol.data ==> s1.Mol() == Mul(old(Mol()), split)
      ensures s2.Mol() ==
        Sub(if imol.data == s1.imol.data then Mul(old(Mol()), split) else old(Mol()), Mul(old(Mol()), split))
      ensures imol.data != s1.imol.data && s1.imol.data != s2.imol.data ==> Add(s1.Mol(), s2.Mol()) == old(Mol())
    {
      var mol := imol.data;
      var dummy := Mul(mol[..], split);
      forall i | 0 <= i < s1.imol.data.Length {
        s1.imol.data[i] := dummy[i];
      }
      var rest := Sub(mol[..], dummy);
      forall i | 0 <= i < s2.imol.data.Length {
        s2.imol.data[i] := rest[i];
      }
      SplitShares(old(Mol()), split);
    }

    /** `mix_from`: the molar flows become the sum of the inlets' flows and
        T is solved so that the enthalpy equals the inlets' total. */
    method MixFrom(others: seq<Stream>, mix: Mixture)
      requires Valid()
      requires forall s :: s in others ==> s.imol.data.Length == chemicals.Size()
      modifies imol.data, TP
      ensures Mol() == old(TotalMol(others, chemicals.Size()))
      ensures (forall s :: s in others ==> s.TP != TP) ==>
        T() == mix.solveT(CurrentPhase(), Mol(), TotalEnthalpy(others, mix), old(T()), P())
      ensures P() == old(P())
    {
      var total := TotalMol(others, chemicals.Size());
      forall i | 0 <= i < imol.data.Length {
        imol.data[i] := total[i];
      }
      var H := TotalEnthalpy(others, mix);
      TP.T := mix.solveT(imol.phaseBox.phase, imol.data[..], H, TP.T, TP.P);
    }
  }

  /** Sum of the inlets' molar flows; zero for no inlets. */
  function TotalMol(others: seq<Stream>, n: nat): (r: seq<real>)
    reads set s | s in others :: s
    reads set s | s in others :: s.imol
    reads set s | s in others :: s.imol.data
    requires forall s :: s in others ==> s.imol.data.Length == n
    ensures |r| == n
    decreases |others|
  {
    if |others| == 0 then Zeros(n)
    else
      assert forall s :: s in others[..|others| - 1] ==> s in others;
      Add(TotalMol(others[..|others| - 1], n), others[|others| - 1].Mol())
  }

  /** Sum of the inlets' enthalpies. */
  function TotalEnthalpy(others: seq<Stream>, mix: Mixture): real
    reads set s | s in others :: s
    reads set s | s in others :: s.imol
    reads set s | s in others :: s.imol.data
    reads set s | s in others :: s.imol.phaseBox
    reads set s | s in others :: s.TP
    decreases |others|
  {
    if |others| == 0 then 0.0
    else
      var prefix := others[..|others| - 1];
      assert forall s :: s in prefix ==> s in others;
      assert (set s | s in prefix :: s.imol.phaseBox) <= (set s | s in others :: s.imol.phaseBox);
      assert (set s | s in prefix :: s.TP) <= (set s | s in others :: s.TP);
      assert (set s | s in prefix :: s.imol.data) <= (set s | s in others :: s.imol.data);
      var s := others[|others| - 1];
      TotalEnthalpy(others[..|others| - 1], mix) + mix.H(s.CurrentPhase(), s.Mol(), s.T(), s.P())
  }
}
