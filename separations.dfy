/** Mass balances of separation steps: splitting, mixing and splitting,
    moisture adjustment, partitioning by given partition coefficients and
    the efficiency blend of liquid-liquid equilibrium. Each works in place
    on the molar arrays of the streams it is given. */
module Separations {
  import opened Wrappers
  import opened Exceptions
  import opened Vectors
  import opened Thermo
  import opened Streams

  // ---------------------------------------------------------------------
  // Splitting
  // ---------------------------------------------------------------------

  /** `split`: `top` receives `split * feed.mol` and `bottom` the rest of
      the feed; the copy into `top` is skipped when `feed` is `top`. Both
      outlets take the feed's phase, T and P. When `top` and `bottom`
      share one array, the in-place subtraction leaves it all zero. */
  method Split(feed: Stream, top: Stream, bottom: Stream, split: seq<real>)
    requires feed.Valid() && top.Valid() && bottom.Valid()
    requires top.chemicals.Size() == feed.chemicals.Size() && bottom.chemicals.Size() == feed.chemicals.Size()
    requires |split| == feed.chemicals.Size()
    modifies top.imol.data, top.imol.phaseBox, top.TP, bottom.imol.data, bottom.imol.phaseBox, bottom.TP
    ensures top.imol.data != bottom.imol.data ==>
      && top.Mol() == Mul(old(feed.Mol()), split)
      && bottom.Mol() == Sub(old(feed.Mol()), Mul(old(feed.Mol()), split))
      && Add(top.Mol(), bottom.Mol()) == old(feed.Mol())
    ensures top.imol.data == bottom.imol.data ==> AllZero(top.Mol())
    ensures top.T() == old(feed.T()) && bottom.T() == old(feed.T())
    ensures top.P() == old(feed.P()) && bottom.P() == old(feed.P())
    ensures top.CurrentPhase() == old(feed.CurrentPhase()) && bottom.CurrentPhase() == old(feed.CurrentPhase())
  {
    if feed != top {
      top.CopyLike(feed);
    }
    bottom.CopyLike(top);
    SplitInPlace(top, bottom, split);
  }

  /** On two streams whose arrays hold the same flows: the top's flows are
      multiplied by `split` in place, then the bottom's are lowered by the
      top's new flows. */
  method SplitInPlace(top: Stream, bottom: Stream, split: seq<real>)
    requires top.Valid() && bottom.Valid() && bottom.chemicals.Size() == top.chemicals.Size()
    requires |split| == top.chemicals.Size() && bottom.Mol() == top.Mol()
    modifies top.imol.data, bottom.imol.data
    ensures top.imol.data != bottom.imol.data ==>
      && top.Mol() == Mul(old(top.Mol()), split)
      && bottom.Mol() == Sub(old(top.Mol()), Mul(old(top.Mol()), split))
      && Add(top.Mol(), bottom.Mol()) == old(top.Mol())
    ensures top.imol.data == bottom.imol.data ==> AllZero(top.Mol())
  {
    ghost var before := top.Mol();
    var topMol := top.imol.data;
    forall i | 0 <= i < topMol.Length {
      topMol[i] := topMol[i] * split[i];
    }
    var taken := topMol[..];
    assert |taken| == |before|;
    assert forall i :: 0 <= i < |taken| ==> taken[i] == Mul(before, split)[i];
    assert taken == Mul(before, split);
    var bottomMol := bottom.imol.data;
    forall i | 0 <= i < bottomMol.Length {
      bottomMol[i] := bottomMol[i] - taken[i];
    }
    if topMol != bottomMol {
      assert topMol[..] == taken;
      assert bottomMol[..] == Sub(before, taken);
      assert Add(taken, Sub(before, taken)) == before;
    }
  }

  /** `mix_and_split`: `top` becomes the mixture of `ins`, `bottom` copies
      it (flows, phase, T and P), and the mixture is then split as in
      `Split`. */
  method MixAndSplit(ins: seq<Stream>, top: Stream, bottom: Stream, split: seq<real>, mix: Mixture)
    requires top.Valid() && bottom.Valid() && bottom.chemicals.Size() == top.chemicals.Size()
    requires forall s :: s in ins ==> s.imol.data.Length == top.chemicals.Size()
    requires |split| == top.chemicals.Size()
    modifies top.imol.data, top.TP, bottom.imol.data, bottom.imol.phaseBox, bottom.TP
    ensures top.imol.data != bottom.imol.data ==>
      var total := old(TotalMol(ins, top.chemicals.Size()));
      && top.Mol() == Mul(total, split)
      && bottom.Mol() == Sub(total, Mul(total, split))
      && Add(top.Mol(), bottom.Mol()) == total
    ensures top.imol.data == bottom.imol.data ==> AllZero(top.Mol())
    ensures bottom.T() == top.T() && bottom.P() == top.P() && top.P() == old(top.P())
    ensures bottom.CurrentPhase() == top.CurrentPhase()
  {
    top.MixFrom(ins, mix);
    bottom.CopyLike(top);
    SplitInPlace(top, bottom, split);
  }

  // ---------------------------------------------------------------------
  // Moisture content
  // ---------------------------------------------------------------------

  /** Molecular weight of water used by the moisture adjustment, g/mol. */
  const WaterMW: real := 18.01528

  /** The mass flow times `mc / (1 - mc)`, over water's molecular weight
      18.01528: the molar flow of water whose
      mass, added to `massFlow`, makes up the fraction `mc` of the total. */
  function WaterFlow(massFlow: real, mc: real): (water: real)
    requires mc != 1.0
    ensures water * WaterMW * (1.0 - mc) == massFlow * mc
  {
    massFlow * mc / (1.0 - mc) / WaterMW
  }

  /** Adding the water to a dry retentate of nonzero mass gives exactly the
      requested moisture content. */
  lemma MoistureContentReached(massFlow: real, mc: real)
    requires mc != 1.0 && massFlow != 0.0
    ensures massFlow + WaterFlow(massFlow, mc) * WaterMW != 0.0
    ensures WaterFlow(massFlow, mc) * WaterMW / (massFlow + WaterFlow(massFlow, mc) * WaterMW) == mc
  {
    var w := WaterFlow(massFlow, mc) * WaterMW;
    assert w * (1.0 - mc) == massFlow * mc;
    assert massFlow + w == massFlow / (1.0 - mc) by {
      assert (massFlow + w) * (1.0 - mc) == massFlow;
      DivMulCancel(massFlow, 1.0 - mc);
      CancelFactor(massFlow + w, massFlow / (1.0 - mc), 1.0 - mc);
    }
    assert w == mc * (massFlow + w) by {
      assert w * (1.0 - mc) == massFlow * mc;
    }
    CancelFactor(w / (massFlow + w), mc, massFlow + w);
  }

  /** Two numbers with the same nonzero multiple are equal. */
  lemma CancelFactor(x: real, y: real, c: real)
    requires c != 0.0 && x * c == y * c
    ensures x == y
  {
  }

  /** `adjust_moisture_content`: the retentate's water is overwritten with
      the water flow for moisture content `mc` (computed from the
      retentate's mass flow before the write), and the permeate's water is
      lowered by the same amount. A chemical set without water fails where
      the indexer is used; a negative permeate water fails after the writes
      are made. */
  method AdjustMoistureContent(retentate: Stream, permeate: Stream, mc: real) returns (r: Outcome<Error>)
    requires retentate.Valid() && permeate.Valid() && mc != 1.0
    modifies retentate.imol.data, permeate.imol.data
    ensures
      var water := WaterFlow(old(retentate.FMass()), mc);
      var ir := retentate.chemicals.WaterIndex();
      var ip := permeate.chemicals.WaterIndex();
      var shared := retentate.imol.data == permeate.imol.data;
      && (ir.None? ==>
            r == Fail(UndefinedChemical)
            && retentate.Mol() == old(retentate.Mol()) && permeate.Mol() == old(permeate.Mol()))
      && (ir.Some? && ip.None? ==>
            r == Fail(UndefinedChemical)
            && retentate.Mol() == old(retentate.Mol())[ir.value := water]
            && (!shared ==> permeate.Mol() == old(permeate.Mol())))
      && (ir.Some? && ip.Some? ==>
            var retentateWet := old(retentate.Mol())[ir.value := water];
            var base := if shared then retentateWet else old(permeate.Mol());
            var permeateDry := base[ip.value := base[ip.value] - water];
            && permeate.Mol() == permeateDry
            && retentate.Mol() == (if shared then permeateDry else retentateWet)
            && r == (if permeateDry[ip.value] < 0.0 then Fail(InfeasibleRegion) else Pass))
  {
    var water := WaterFlow(retentate.FMass(), mc);
    var ir := retentate.chemicals.WaterIndex();
    if ir.None? {
      return Fail(UndefinedChemical);
    }
    retentate.imol.data[ir.value] := water;
    ghost var wet := retentate.Mol();
    assert wet == old(retentate.Mol())[ir.value := water];
    var ip := permeate.chemicals.WaterIndex();
    if ip.None? {
      return Fail(UndefinedChemical);
    }
    ghost var base := permeate.Mol();
    assert base == if retentate.imol.data == permeate.imol.data then wet else old(permeate.Mol());
    permeate.imol.data[ip.value] := permeate.imol.data[ip.value] - water;
    assert permeate.Mol() == base[ip.value := base[ip.value] - water];
    if permeate.imol.data[ip.value] < 0.0 {
      r := Fail(InfeasibleRegion);
    } else {
      r := Pass;
    }
  }

  /** `mix_and_split_with_moisture_content`: mixes and splits (the
      retentate takes `split`), then sets the retentate's moisture content
      with water from the permeate. The water the split sent to the
      retentate is replaced, not added to, so the outlets together hold
      the inlets' flows less that water. */
  method MixAndSplitWithMoistureContent(ins: seq<Stream>, retentate: Stream, permeate: Stream,
                                        split: seq<real>, mc: real, mix: Mixture)
    returns (r: Outcome<Error>)
    requires retentate.Valid() && permeate.Valid() && permeate.chemicals.Size() == retentate.chemicals.Size()
    requires forall s :: s in ins ==> s.imol.data.Length == retentate.chemicals.Size()
    requires |split| == retentate.chemicals.Size() && mc != 1.0
    modifies retentate.imol.data, retentate.TP, permeate.imol.data, permeate.imol.phaseBox, permeate.TP
    ensures retentate.imol.data != permeate.imol.data && permeate.chemicals == retentate.chemicals ==>
      && (retentate.chemicals.WaterIndex().None? ==>
            && r == Fail(UndefinedChemical)
            && Add(retentate.Mol(), permeate.Mol()) == old(TotalMol(ins, retentate.chemicals.Size())))
      && (retentate.chemicals.WaterIndex().Some? ==>
            && retentate.Mol()[retentate.chemicals.WaterIndex().value]
               == WaterFlow(Sum(Mul(retentate.chemicals.MW, Mul(old(TotalMol(ins, retentate.chemicals.Size())), split))), mc)
            && r == (if permeate.Mol()[retentate.chemicals.WaterIndex().value] < 0.0 then Fail(InfeasibleRegion) else Pass)
            && Add(retentate.Mol(), permeate.Mol())
               == LessRetainedWater(old(TotalMol(ins, retentate.chemicals.Size())), split, retentate.chemicals.WaterIndex().value))
    ensures permeate.T() == retentate.T() && permeate.P() == retentate.P()
  {
    ghost var total := TotalMol(ins, retentate.chemicals.Size());
    MixAndSplit(ins, retentate, permeate, split, mix);
    ghost var wet := retentate.Mol();
    ghost var dry := permeate.Mol();
    r := AdjustMoistureContent(retentate, permeate, mc);
    if retentate.imol.data != permeate.imol.data && permeate.chemicals == retentate.chemicals {
      var iw := retentate.chemicals.WaterIndex();
      assert total == old(TotalMol(ins, retentate.chemicals.Size()));
      if iw.Some? {
        var w := iw.value;
        assert retentate.Mol()[w] == WaterFlow(Sum(Mul(retentate.chemicals.MW, wet)), mc);
        assert wet == Mul(total, split);
        MoistureSplitBalance(total, split, w, retentate.Mol()[w], retentate.Mol(), permeate.Mol());
      }
    }
  }

  /** The mixed flows `total` less the water that `split` sends to the
      retentate. */
  function LessRetainedWater(total: seq<real>, split: seq<real>, w: nat): (r: seq<real>)
    requires |split| == |total| && w < |total|
    ensures |r| == |total| && r[w] == total[w] - total[w] * split[w]
    ensures forall j :: 0 <= j < |total| && j != w ==> r[j] == total[j]
  {
    total[w := total[w] - total[w] * split[w]]
  }

  /** After a split, replacing the retentate's water with `water` and
      taking the same amount from the permeate leaves the two outlets
      holding the feed less the water the split had sent to the
      retentate. */
  lemma MoistureSplitBalance(total: seq<real>, split: seq<real>, w: nat, water: real,
                             retentate: seq<real>, permeate: seq<real>)
    requires |split| == |total| && w < |total|
    requires retentate == Mul(total, split)[w := water]
    requires permeate == Sub(total, Mul(total, split))[w := Sub(total, Mul(total, split))[w] - water]
    ensures Add(retentate, permeate) == LessRetainedWater(total, split, w)
  {
    var expected := LessRetainedWater(total, split, w);
    forall j | 0 <= j < |total|
      ensures Add(retentate, permeate)[j] == expected[j]
    {
    }
  }

  /** Mass fraction of chemical `w` in the molar flows `mol`, with `mw`
      the molecular weights. */
  function MoistureContent(mw: seq<real>, mol: seq<real>, w: nat): real
    requires |mw| == |mol| && w < |mol| && Sum(Mul(mw, mol)) != 0.0
  {
    mol[w] * mw[w] / Sum(Mul(mw, mol))
  }

  /** As written, the water flow is computed from the retentate's whole
      mass flow, its water included, and then replaces that water. A
      retentate of 10 kg of solids and 10 kg of water brought to a
      moisture content of 0.5 ends up at 2/3. */
  lemma MoistureMissedWhenWet()
    ensures
      var mw := [WaterMW, 1.0];
      var mol := [10.0 / WaterMW, 10.0];
      var adjusted := mol[0 := WaterFlow(Sum(Mul(mw, mol)), 0.5)];
      && Sum(Mul(mw, mol)) == 20.0
      && Sum(Mul(mw, adjusted)) == 30.0
      && MoistureContent(mw, adjusted, 0) == 2.0 / 3.0
  {
    var mw := [WaterMW, 1.0];
    var mol := [10.0 / WaterMW, 10.0];
    assert Mul(mw, mol) == [10.0, 10.0];
    SumPair(10.0, 10.0);
    var water := WaterFlow(20.0, 0.5);
    assert water * WaterMW == 20.0;
    var adjusted := mol[0 := water];
    assert Mul(mw, adjusted) == [20.0, 10.0];
    SumPair(20.0, 10.0);
  }

  lemma SumPair(a: real, b: real)
    ensures Sum([a, b]) == a + b
  {
    assert [a, b][..1] == [a];
    assert [a][..0] == [];
    assert SumPrefix([a]) == a;
    assert SumPrefix([a, b]) == SumPrefix([a]) + b;
  }

  /** Mass flow of everything but chemical `w`. */
  function DryMass(mw: seq<real>, mol: seq<real>, w: nat): real
    requires |mw| == |mol| && w < |mol|
  {
    Sum(Mul(mw, mol)) - mw[w] * mol[w]
  }

  /** The moisture adjustment as intended: the retentate's water is set
      from its dry mass, and the permeate gives up only the water the
      retentate gains. Returns the new (retentate, permeate) flows. */
  function IntendedMoistureAdjust(retentate: seq<real>, permeate: seq<real>, mw: seq<real>, w: nat, mc: real)
    : (r: (seq<real>, seq<real>))
    requires |retentate| == |mw| && |permeate| == |mw| && w < |mw| && mc != 1.0
    ensures |r.0| == |mw| && |r.1| == |mw|
    ensures forall j :: 0 <= j < |mw| && j != w ==> r.0[j] == retentate[j] && r.1[j] == permeate[j]
  {
    var water := WaterFlow(DryMass(mw, retentate, w), mc);
    (retentate[w := water], permeate[w := permeate[w] - (water - retentate[w])])
  }

  /** Whatever water the retentate already holds, the intended adjustment
      reaches the requested moisture content. */
  lemma IntendedMoistureReached(retentate: seq<real>, permeate: seq<real>, mw: seq<real>, w: nat, mc: real)
    requires |retentate| == |mw| && |permeate| == |mw| && w < |mw| && mc != 1.0
    requires mw[w] == WaterMW && DryMass(mw, retentate, w) != 0.0
    ensures Sum(Mul(mw, IntendedMoistureAdjust(retentate, permeate, mw, w, mc).0)) != 0.0
    ensures MoistureContent(mw, IntendedMoistureAdjust(retentate, permeate, mw, w, mc).0, w) == mc
  {
    var dry := DryMass(mw, retentate, w);
    var water := WaterFlow(dry, mc);
    var wet := retentate[w := water];
    assert wet == IntendedMoistureAdjust(retentate, permeate, mw, w, mc).0;
    assert Mul(mw, wet) == Mul(mw, retentate)[w := mw[w] * water] by {
      forall j | 0 <= j < |mw|
        ensures Mul(mw, wet)[j] == Mul(mw, retentate)[w := mw[w] * water][j]
      {
      }
    }
    SumUpdate(Mul(mw, retentate), w, mw[w] * water);
    assert Sum(Mul(mw, wet)) == dry + water * WaterMW;
    MoistureContentReached(dry, mc);
  }

  /** The intended adjustment only moves water from the permeate to the
      retentate: the two together hold what they held before. */
  lemma IntendedMoistureConserves(retentate: seq<real>, permeate: seq<real>, mw: seq<real>, w: nat, mc: real)
    requires |retentate| == |mw| && |permeate| == |mw| && w < |mw| && mc != 1.0
    ensures
      var r := IntendedMoistureAdjust(retentate, permeate, mw, w, mc);
      Add(r.0, r.1) == Add(retentate, permeate)
  {
    var r := IntendedMoistureAdjust(retentate, permeate, mw, w, mc);
    forall j | 0 <= j < |mw|
      ensures Add(r.0, r.1)[j] == Add(retentate, permeate)[j]
    {
    }
  }

  // ---------------------------------------------------------------------
  // Partitioning by given partition coefficients
  // ---------------------------------------------------------------------

  /** The flows as fractions of their total. */
  function Normalized(mol: seq<real>): (z: seq<real>)
    requires Sum(mol) != 0.0
    ensures |z| == |mol|
    ensures forall i :: 0 <= i < |mol| ==> z[i] * Sum(mol) == mol[i]
  {
    seq(|mol|, i requires 0 <= i < |mol| => mol[i] / Sum(mol))
  }

  /** The denominator `phi * K + (1 - phi)` of every chemical is nonzero. */
  predicate Admissible(K: seq<real>, phi: real)
  {
    forall i :: 0 <= i < |K| ==> phi * K[i] + (1.0 - phi) != 0.0
  }

  /** `x * (1 - phi) * F_mol` with `x = z / (phi * K + (1 - phi))`: the
      bottom-phase flows of the chemicals in equilibrium. Each is the
      fraction `(1 - phi) / (phi * K + (1 - phi))` of the chemical's
      flow. */
  function BottomFlows(mol: seq<real>, K: seq<real>, phi: real): (b: seq<real>)
    requires |K| == |mol| && Sum(mol) != 0.0 && Admissible(K, phi)
    ensures |b| == |mol|
    ensures forall i :: 0 <= i < |mol| ==> b[i] * (phi * K[i] + (1.0 - phi)) == mol[i] * (1.0 - phi)
  {
    seq(|mol|, i requires 0 <= i < |mol| => BottomFlow(Normalized(mol)[i], K[i], phi, Sum(mol)))
  }

  /** One chemical's bottom-phase flow, from its fraction `z` of the total
      `F`. */
  function BottomFlow(z: real, k: real, phi: real, F: real): (b: real)
    requires phi * k + (1.0 - phi) != 0.0
    ensures b * (phi * k + (1.0 - phi)) == z * F * (1.0 - phi)
  {
    var d := phi * k + (1.0 - phi);
    DivMulCancel(z, d);
    z / d * (1.0 - phi) * F
  }

  /** The Rachford-Rice equation `sum(z * (K - 1) / (phi * K + (1 - phi))) == 0`,
      whose root is the phase fraction. */
  predicate SolvesRachfordRice(z: seq<real>, K: seq<real>, phi: real)
    requires |K| == |z| && Admissible(K, phi)
  {
    Sum(RachfordRiceTerms(z, K, phi)) == 0.0
  }

  function RachfordRiceTerms(z: seq<real>, K: seq<real>, phi: real): (t: seq<real>)
    requires |K| == |z| && Admissible(K, phi)
    ensures |t| == |z|
    ensures forall i :: 0 <= i < |z| ==> t[i] * (phi * K[i] + (1.0 - phi)) == z[i] * (K[i] - 1.0)
  {
    seq(|z|, i requires 0 <= i < |z| => RachfordRiceTerm(z[i], K[i], phi))
  }

  function RachfordRiceTerm(z: real, k: real, phi: real): (t: real)
    requires phi * k + (1.0 - phi) != 0.0
    ensures t * (phi * k + (1.0 - phi)) == z * (k - 1.0)
  {
    DivMulCancel(z * (k - 1.0), phi * k + (1.0 - phi));
    z * (k - 1.0) / (phi * k + (1.0 - phi))
  }

  /** At a root of the Rachford-Rice equation, the bottom phase carries the
      fraction `1 - phi` of the equilibrium chemicals' flow and the top
      phase the fraction `phi`. */
  lemma PartitionTotals(mol: seq<real>, K: seq<real>, phi: real)
    requires |K| == |mol| && Sum(mol) != 0.0 && Admissible(K, phi)
    requires SolvesRachfordRice(Normalized(mol), K, phi)
    ensures Sum(BottomFlows(mol, K, phi)) == (1.0 - phi) * Sum(mol)
    ensures Sum(Sub(mol, BottomFlows(mol, K, phi))) == phi * Sum(mol)
  {
    var b := BottomFlows(mol, K, phi);
    var t := RachfordRiceTerms(Normalized(mol), K, phi);
    var c := phi * Sum(mol);
    var shifted := Sub(mol, Scale(t, c));
    BottomAsShift(mol, K, phi);
    SumScale(t, c);
    ZeroProduct(c, Sum(t), Sum(Scale(t, c)));
    SumSub(mol, Scale(t, c));
    assert Sum(shifted) == Sum(mol);
    SumScale(shifted, 1.0 - phi);
    SumSub(mol, b);
  }

  lemma ZeroProduct(x: real, y: real, p: real)
    requires y == 0.0 && p == x * y
    ensures p == 0.0
  {
  }

  /** The bottom flows are `(1 - phi)` times the flows less the scaled
      Rachford-Rice terms. */
  lemma BottomAsShift(mol: seq<real>, K: seq<real>, phi: real)
    requires |K| == |mol| && Sum(mol) != 0.0 && Admissible(K, phi)
    ensures BottomFlows(mol, K, phi)
         == Scale(Sub(mol, Scale(RachfordRiceTerms(Normalized(mol), K, phi), phi * Sum(mol))), 1.0 - phi)
  {
    var b := BottomFlows(mol, K, phi);
    var s := Scale(Sub(mol, Scale(RachfordRiceTerms(Normalized(mol), K, phi), phi * Sum(mol))), 1.0 - phi);
    forall i | 0 <= i < |mol|
      ensures b[i] == s[i]
    {
      BottomAsShiftAt(mol, K, phi, i);
    }
    assert |b| == |s|;
  }

  lemma BottomAsShiftAt(mol: seq<real>, K: seq<real>, phi: real, i: nat)
    requires |K| == |mol| && Sum(mol) != 0.0 && Admissible(K, phi) && i < |mol|
    ensures BottomFlows(mol, K, phi)[i]
         == Scale(Sub(mol, Scale(RachfordRiceTerms(Normalized(mol), K, phi), phi * Sum(mol))), 1.0 - phi)[i]
  {
    var b := BottomFlows(mol, K, phi);
    var z := Normalized(mol);
    var t := RachfordRiceTerms(z, K, phi);
    var F := Sum(mol);
    var mi, zi, ki, bi, ti := mol[i], z[i], K[i], b[i], t[i];
    assert phi * ki + (1.0 - phi) != 0.0;
    assert bi * (phi * ki + (1.0 - phi)) == mi * (1.0 - phi);
    assert ti * (phi * ki + (1.0 - phi)) == zi * (ki - 1.0);
    assert zi * F == mi;
    BottomAsShiftOf(mi, zi, F, ki, phi, bi, ti);
  }

  lemma BottomAsShiftOf(m: real, z: real, F: real, k: real, phi: real, b: real, t: real)
    requires F != 0.0 && z * F == m && phi * k + (1.0 - phi) != 0.0
    requires b * (phi * k + (1.0 - phi)) == m * (1.0 - phi)
    requires t * (phi * k + (1.0 - phi)) == z * (k - 1.0)
    ensures b == (m - t * (phi * F)) * (1.0 - phi)
  {
    var d := phi * k + (1.0 - phi);
    var s := m - t * (phi * F);
    assert s * d == m * d - (t * d) * (phi * F);
    assert s * d == m by {
      assert (t * d) * (phi * F) == (z * F) * phi * (k - 1.0);
      assert m * d - m * phi * (k - 1.0) == m;
    }
    assert (s * (1.0 - phi)) * d == m * (1.0 - phi);
    CancelFactor(b, s * (1.0 - phi), d);
  }

  /** `partition_coefficients`: the ratio of the top's to the bottom's
      normalized flows. */
  function PartitionCoefficients(top: seq<real>, bottom: seq<real>): (K: seq<real>)
    requires |top| == |bottom| && Sum(top) != 0.0 && Sum(bottom) != 0.0 && NonZero(bottom)
    ensures |K| == |top|
    ensures forall i :: 0 <= i < |top| ==> K[i] * (bottom[i] / Sum(bottom)) == top[i] / Sum(top)
  {
    var zt := Normalized(top);
    var zb := Normalized(bottom);
    assert forall i :: 0 <= i < |top| ==> zb[i] * Sum(bottom) == bottom[i];
    var K := seq(|top|, i requires 0 <= i < |top| => zt[i] / zb[i]);
    forall i | 0 <= i < |top|
      ensures K[i] * (bottom[i] / Sum(bottom)) == top[i] / Sum(top)
    {
      DivMulCancel(zt[i], zb[i]);
    }
    K
  }

  /** Partitioning at a root of the Rachford-Rice equation and then
      measuring the partition coefficients of the two phases gives back
      the coefficients used. */
  lemma PartitionRecoversCoefficients(mol: seq<real>, K: seq<real>, phi: real)
    requires |K| == |mol| && Sum(mol) != 0.0 && Admissible(K, phi) && NonZero(mol)
    requires SolvesRachfordRice(Normalized(mol), K, phi)
    requires phi != 0.0 && phi != 1.0
    ensures NonZero(BottomFlows(mol, K, phi))
    ensures Sum(BottomFlows(mol, K, phi)) != 0.0 && Sum(Sub(mol, BottomFlows(mol, K, phi))) != 0.0
    ensures PartitionCoefficients(Sub(mol, BottomFlows(mol, K, phi)), BottomFlows(mol, K, phi)) == K
  {
    var b := BottomFlows(mol, K, phi);
    var F := Sum(mol);
    PartitionTotals(mol, K, phi);
    ProductNonZero(1.0 - phi, F);
    ProductNonZero(phi, F);
    forall i | 0 <= i < |mol|
      ensures b[i] != 0.0
    {
      BottomNonZeroAt(mol, K, phi, i);
    }
    assert NonZero(b);
    CoefficientsFromBalances(mol, K, phi, b);
  }

  /** Any bottom flows `b` that meet each chemical's balance and the two
      phase totals give back the coefficients `K`. */
  lemma CoefficientsFromBalances(mol: seq<real>, K: seq<real>, phi: real, b: seq<real>)
    requires |K| == |mol| && |b| == |mol| && Sum(mol) != 0.0 && NonZero(mol) && NonZero(b)
    requires phi != 0.0 && phi != 1.0 && Admissible(K, phi)
    requires forall i :: 0 <= i < |mol| ==> b[i] * (phi * K[i] + (1.0 - phi)) == mol[i] * (1.0 - phi)
    requires Sum(b) == (1.0 - phi) * Sum(mol) && Sum(Sub(mol, b)) == phi * Sum(mol)
    ensures Sum(b) != 0.0 && Sum(Sub(mol, b)) != 0.0
    ensures PartitionCoefficients(Sub(mol, b), b) == K
  {
    var F := Sum(mol);
    ProductNonZero(1.0 - phi, F);
    ProductNonZero(phi, F);
    assert Sum(b) != 0.0;
    assert Sum(Sub(mol, b)) != 0.0;
    var Kp := PartitionCoefficients(Sub(mol, b), b);
    forall i | 0 <= i < |mol|
      ensures Kp[i] == K[i]
    {
      CoefficientAt(mol, K, phi, b, i);
    }
    assert Kp == K;
  }

  lemma BottomNonZeroAt(mol: seq<real>, K: seq<real>, phi: real, i: nat)
    requires |K| == |mol| && Sum(mol) != 0.0 && Admissible(K, phi) && NonZero(mol)
    requires phi != 1.0 && i < |mol|
    ensures BottomFlows(mol, K, phi)[i] != 0.0
  {
    var mi, ki, bi := mol[i], K[i], BottomFlows(mol, K, phi)[i];
    assert bi * (phi * ki + (1.0 - phi)) == mi * (1.0 - phi);
    ProductNonZero(mi, 1.0 - phi);
    FactorNonZero(bi, phi * ki + (1.0 - phi), mi * (1.0 - phi));
  }

  /** The measured coefficient of chemical `i`, for any bottom flows `b`
      that satisfy the per-chemical and total balances of a partition. */
  lemma CoefficientAt(mol: seq<real>, K: seq<real>, phi: real, b: seq<real>, i: nat)
    requires |K| == |mol| && |b| == |mol| && Sum(mol) != 0.0 && NonZero(mol) && NonZero(b)
    requires phi != 0.0 && phi != 1.0 && i < |mol|
    requires phi * K[i] + (1.0 - phi) != 0.0
    requires b[i] * (phi * K[i] + (1.0 - phi)) == mol[i] * (1.0 - phi)
    requires Sum(b) == (1.0 - phi) * Sum(mol) && Sum(Sub(mol, b)) == phi * Sum(mol)
    requires Sum(b) != 0.0 && Sum(Sub(mol, b)) != 0.0
    ensures PartitionCoefficients(Sub(mol, b), b)[i] == K[i]
  {
    var t := Sub(mol, b);
    CoefficientFact(t, b, i);
    var q, mi, ki, bi, ti := PartitionCoefficients(t, b)[i], mol[i], K[i], b[i], t[i];
    MeasuredCoefficient(mi, ki, phi, Sum(mol), bi, ti, q, Sum(b), Sum(t));
  }

  lemma CoefficientFact(top: seq<real>, bottom: seq<real>, i: nat)
    requires |top| == |bottom| && Sum(top) != 0.0 && Sum(bottom) != 0.0 && NonZero(bottom) && i < |top|
    ensures PartitionCoefficients(top, bottom)[i] * (bottom[i] / Sum(bottom)) == top[i] / Sum(top)
  {
  }

  lemma BottomFlowAt(mol: seq<real>, K: seq<real>, phi: real, i: nat)
    requires |K| == |mol| && Sum(mol) != 0.0 && Admissible(K, phi) && i < |mol|
    requires NonZero(mol)
    ensures mol[i] != 0.0 && phi * K[i] + (1.0 - phi) != 0.0
    ensures BottomFlows(mol, K, phi)[i] * (phi * K[i] + (1.0 - phi)) == mol[i] * (1.0 - phi)
    ensures Sub(mol, BottomFlows(mol, K, phi))[i] == mol[i] - BottomFlows(mol, K, phi)[i]
  {
  }

  lemma MeasuredCoefficient(m: real, k: real, phi: real, F: real, b: real, t: real, q: real, Sb: real, St: real)
    requires F != 0.0 && m != 0.0 && phi != 0.0 && phi != 1.0
    requires phi * k + (1.0 - phi) != 0.0
    requires b * (phi * k + (1.0 - phi)) == m * (1.0 - phi) && t == m - b
    requires Sb == (1.0 - phi) * F && St == phi * F && Sb != 0.0 && St != 0.0
    requires q * (b / Sb) == t / St
    ensures q == k
  {
    Substitute(q, b, t, Sb, St, (1.0 - phi) * F, phi * F);
    RatioRecovers(m, k, phi, F, b, t, q);
  }

  lemma Substitute(q: real, b: real, t: real, Sb: real, St: real, Sb': real, St': real)
    requires Sb != 0.0 && St != 0.0 && Sb == Sb' && St == St' && q * (b / Sb) == t / St
    ensures q * (b / Sb') == t / St'
  {
  }

  lemma ProductNonZero(x: real, y: real)
    requires x != 0.0 && y != 0.0
    ensures x * y != 0.0
  {
  }

  lemma FactorNonZero(x: real, y: real, p: real)
    requires x * y == p && p != 0.0
    ensures x != 0.0
  {
  }

  lemma DivIs(x: real, y: real, z: real)
    requires y != 0.0 && x == z * y
    ensures x / y == z
  {
  }

  /** One chemical's measured coefficient: with `b` its bottom flow, `t`
      its top flow and `q` the ratio of its fractions in the two phases,
      `q` is the coefficient `k` the partition used. */
  lemma RatioRecovers(m: real, k: real, phi: real, F: real, b: real, t: real, q: real)
    requires F != 0.0 && m != 0.0 && phi != 0.0 && phi != 1.0
    requires phi * k + (1.0 - phi) != 0.0
    requires b * (phi * k + (1.0 - phi)) == m * (1.0 - phi) && t == m - b
    requires q * (b / ((1.0 - phi) * F)) == t / (phi * F)
    ensures q == k
  {
    var d := phi * k + (1.0 - phi);
    ProductNonZero(d, F);
    var u := m / (d * F);
    DivMulCancel(m, d * F);
    FactorNonZero(u, d * F, m);
    BottomFromShare(m, b, d, F, phi, u);
    TopFromShare(m, b, t, d, F, phi, k, u);
    ProductNonZero(1.0 - phi, F);
    ProductNonZero(phi, F);
    DivIs(b, (1.0 - phi) * F, u);
    DivIs(t, phi * F, k * u);
    CancelFactor(q, k, u);
  }

  lemma BottomFromShare(m: real, b: real, d: real, F: real, phi: real, u: real)
    requires d != 0.0 && b * d == m * (1.0 - phi) && u * (d * F) == m
    ensures b == u * ((1.0 - phi) * F)
  {
    assert (u * ((1.0 - phi) * F)) * d == (u * (d * F)) * (1.0 - phi);
    CancelFactor(b, u * ((1.0 - phi) * F), d);
  }

  lemma TopFromShare(m: real, b: real, t: real, d: real, F: real, phi: real, k: real, u: real)
    requires d == phi * k + (1.0 - phi) && d != 0.0
    requires b * d == m * (1.0 - phi) && t == m - b && u * (d * F) == m
    ensures t == (k * u) * (phi * F)
  {
    assert t * d == m * d - b * d;
    assert t * d == m * phi * k;
    assert ((k * u) * (phi * F)) * d == (u * (d * F)) * phi * k;
    CancelFactor(t, (k * u) * (phi * F), d);
  }

  /** `partition`: the phase fraction is solved from the normalized flows
      of the equilibrium chemicals `IDs` (the solver is a parameter);
      `bottom` is emptied and given the bottom-phase flows at `IDs`, and
      `top` receives the feed less the bottom, so every chemical outside
      `IDs` goes to the top. Returns the phase fraction. */
  method Partition(feed: Stream, top: Stream, bottom: Stream, IDs: seq<nat>, K: seq<real>, guess: Option<real>,
                   phaseFraction: (seq<real>, seq<real>, Option<real>) -> real)
    returns (phi: real)
    requires feed.Valid() && top.Valid() && bottom.Valid()
    requires top.chemicals.Size() == feed.chemicals.Size() && bottom.chemicals.Size() == feed.chemicals.Size()
    requires InRange(IDs, feed.chemicals.Size()) && |K| == |IDs|
    requires Sum(Gather(feed.Mol(), IDs)) != 0.0
    requires Admissible(K, phaseFraction(Normalized(Gather(feed.Mol(), IDs)), K, guess))
    modifies top.imol.data, bottom.imol.data
    ensures phi == phaseFraction(Normalized(Gather(old(feed.Mol()), IDs)), K, guess)
    ensures
      var B := Assign(Zeros(feed.chemicals.Size()), IDs, BottomFlows(Gather(old(feed.Mol()), IDs), K, phi));
      var F := if feed.imol.data == bottom.imol.data then B else old(feed.Mol());
      && top.Mol() == Sub(F, B)
      && (bottom.imol.data != top.imol.data ==> bottom.Mol() == B)
    ensures feed.imol.data != bottom.imol.data && bottom.imol.data != top.imol.data ==>
      Add(top.Mol(), bottom.Mol()) == old(feed.Mol())
    ensures feed.imol.data != bottom.imol.data ==>
      forall j :: 0 <= j < feed.chemicals.Size() && j !in IDs ==> top.Mol()[j] == old(feed.Mol())[j]
  {
    var feedMol := feed.imol.data;
    var mol := Gather(feed.Mol(), IDs);
    var z := Normalized(mol);
    phi := phaseFraction(z, K, guess);
    var values := BottomFlows(mol, K, phi);
    bottom.Empty();
    bottom.imol.SetItems(IDs, values);
    ghost var B := bottom.Mol();
    top.SetMol(Sub(feedMol[..], bottom.Mol()));
    forall j | 0 <= j < feed.chemicals.Size() && j !in IDs
      ensures B[j] == 0.0
    {
      AssignOutside(Zeros(feed.chemicals.Size()), IDs, values, j);
    }
  }

  // ---------------------------------------------------------------------
  // Liquid-liquid equilibrium: phase placement and efficiency blend
  // ---------------------------------------------------------------------

  /** The molar flows of the two liquid phases `'l'` and `'L'` found by the
      equilibrium, with the densities of the two phases. */
  datatype LiquidPhases = LiquidPhases(l: seq<real>, L: seq<real>, rho_l: real, rho_L: real)

  /** No top chemical was named: none was given, or the empty string. */
  predicate NoTopChemical(topChemical: Option<string>)
  {
    topChemical.None? || topChemical.value == ""
  }

  /** The `'L'` phase goes on top when no chemical is named and it is the
      lighter one. */
  predicate TopIsHeavyLiquid(eq: LiquidPhases, topChemical: Option<string>)
  {
    NoTopChemical(topChemical) && eq.rho_L < eq.rho_l
  }

  /** The phase flows as placed: (top, bottom). */
  function Placed(eq: LiquidPhases, topChemical: Option<string>): (r: (seq<real>, seq<real>))
    ensures TopIsHeavyLiquid(eq, topChemical) ==> r == (eq.L, eq.l)
    ensures !TopIsHeavyLiquid(eq, topChemical) ==> r == (eq.l, eq.L)
  {
    if TopIsHeavyLiquid(eq, topChemical) then (eq.L, eq.l) else (eq.l, eq.L)
  }

  /** `efficiency` of the phase flows `x` plus half of the remaining
      `1 - efficiency` of the feed. */
  function Blend(x: seq<real>, efficiency: real, feed: seq<real>): (r: seq<real>)
    requires |x| == |feed|
    ensures |r| == |x|
    ensures forall i :: 0 <= i < |x| ==> r[i] == x[i] * efficiency + (1.0 - efficiency) / 2.0 * feed[i]
  {
    Add(Scale(x, efficiency), Scale(feed, (1.0 - efficiency) / 2.0))
  }

  /** The outlets' flows: the placed phases, blended with the feed when the
      efficiency is below one. */
  function LleOutlets(eq: LiquidPhases, topChemical: Option<string>, efficiency: real, feed: seq<real>)
    : (r: (seq<real>, seq<real>))
    requires |eq.l| == |feed| && |eq.L| == |feed|
    ensures efficiency >= 1.0 ==> r == Placed(eq, topChemical)
    ensures efficiency < 1.0 ==>
      r == (Blend(Placed(eq, topChemical).0, efficiency, feed), Blend(Placed(eq, topChemical).1, efficiency, feed))
  {
    var (top, bottom) := Placed(eq, topChemical);
    if efficiency < 1.0 then (Blend(top, efficiency, feed), Blend(bottom, efficiency, feed)) else (top, bottom)
  }

  /** If the equilibrium phases add up to the feed, so do the outlets,
      whatever the efficiency: the unequilibrated part is shared equally. */
  lemma LleConserves(eq: LiquidPhases, topChemical: Option<string>, efficiency: real, feed: seq<real>)
    requires |eq.l| == |feed| && |eq.L| == |feed| && Add(eq.l, eq.L) == feed
    ensures Add(LleOutlets(eq, topChemical, efficiency, feed).0, LleOutlets(eq, topChemical, efficiency, feed).1) == feed
  {
    var (top, bottom) := Placed(eq, topChemical);
    assert Add(top, bottom) == feed by {
      forall i | 0 <= i < |feed| ensures Add(top, bottom)[i] == feed[i] { }
    }
    if efficiency < 1.0 {
      BlendConserves(top, bottom, efficiency, feed);
    }
  }

  /** Blending two flows that add up to the feed keeps their sum. */
  lemma BlendConserves(x: seq<real>, y: seq<real>, efficiency: real, feed: seq<real>)
    requires |x| == |feed| && |y| == |feed| && Add(x, y) == feed
    ensures Add(Blend(x, efficiency, feed), Blend(y, efficiency, feed)) == feed
  {
    var s := Add(Blend(x, efficiency, feed), Blend(y, efficiency, feed));
    forall i | 0 <= i < |feed|
      ensures s[i] == feed[i]
    {
      var xi, yi, fi := x[i], y[i], feed[i];
      assert xi + yi == fi;
      BlendShares(xi, yi, efficiency, fi);
    }
  }

  lemma BlendShares(x: real, y: real, e: real, f: real)
    requires x + y == f
    ensures (x * e + (1.0 - e) / 2.0 * f) + (y * e + (1.0 - e) / 2.0 * f) == f
  {
    assert x * e + y * e == f * e;
  }

  /** With no chemical named, the top outlet receives the less dense of
      the two equilibrium phases. */
  lemma LighterPhaseOnTop(eq: LiquidPhases, topChemical: Option<string>)
    requires NoTopChemical(topChemical)
    ensures Placed(eq, topChemical).0 == (if eq.rho_L < eq.rho_l then eq.L else eq.l)
    ensures Placed(eq, topChemical).0 == eq.L ==> eq.rho_L < eq.rho_l || eq.L == eq.l
    ensures Placed(eq, topChemical).0 == eq.l && eq.L != eq.l ==> eq.rho_l <= eq.rho_L
  {
  }

  /** `lle`: the feed's flows are brought to liquid-liquid equilibrium at
      the feed's T and P (the equilibrium is a parameter); the phases are
      placed in `top` and `bottom`, both outlets take the feed's T and P,
      and below unit efficiency each outlet keeps `efficiency` of its phase
      plus half of the rest of the feed. */
  method Lle(feed: Stream, top: Stream, bottom: Stream, topChemical: Option<string>, efficiency: real,
             equilibrium: (seq<real>, real, real, Option<string>) -> LiquidPhases)
    requires feed.Valid() && top.Valid() && bottom.Valid()
    requires top.chemicals.Size() == feed.chemicals.Size() && bottom.chemicals.Size() == feed.chemicals.Size()
    requires |equilibrium(feed.Mol(), feed.T(), feed.P(), topChemical).l| == feed.chemicals.Size()
    requires |equilibrium(feed.Mol(), feed.T(), feed.P(), topChemical).L| == feed.chemicals.Size()
    modifies top.imol.data, top.TP, bottom.imol.data, bottom.TP
    ensures
      var eq := equilibrium(old(feed.Mol()), old(feed.T()), old(feed.P()), topChemical);
      var out := LleOutlets(eq, topChemical, efficiency, old(feed.Mol()));
      feed.imol.data != top.imol.data && feed.imol.data != bottom.imol.data && top.imol.data != bottom.imol.data ==>
        top.Mol() == out.0 && bottom.Mol() == out.1 && feed.Mol() == old(feed.Mol())
    ensures top.T() == old(feed.T()) && bottom.T() == old(feed.T())
    ensures top.P() == old(feed.P()) && bottom.P() == old(feed.P())
  {
    var eq := equilibrium(feed.Mol(), feed.T(), feed.P(), topChemical);
    var placed := Placed(eq, topChemical);
    top.SetMol(placed.0);
    bottom.SetMol(placed.1);
    var T := feed.T();
    top.SetT(T);
    bottom.SetT(T);
    var P := feed.P();
    top.SetP(P);
    bottom.SetP(P);
    if efficiency < 1.0 {
      ghost var placedTop, placedBottom := top.Mol(), bottom.Mol();
      ScaleFlows(top, efficiency);
      ScaleFlows(bottom, efficiency);
      var mixing := Scale(feed.Mol(), (1.0 - efficiency) / 2.0);
      AddFlows(top, mixing);
      AddFlows(bottom, mixing);
      if feed.imol.data != top.imol.data && feed.imol.data != bottom.imol.data && top.imol.data != bottom.imol.data {
        assert top.Mol() == Blend(placedTop, efficiency, old(feed.Mol()));
        assert bottom.Mol() == Blend(placedBottom, efficiency, old(feed.Mol()));
      }
    }
  }

  /** Multiplies the stream's flows by `c` in place. */
  method ScaleFlows(s: Stream, c: real)
    modifies s.imol.data
    ensures s.Mol() == Scale(old(s.Mol()), c)
  {
    ghost var before := s.Mol();
    var mol := s.imol.data;
    forall i | 0 <= i < mol.Length {
      mol[i] := mol[i] * c;
    }
    assert forall i :: 0 <= i < |before| ==> s.Mol()[i] == Scale(before, c)[i];
  }

  /** Adds `d` to the stream's flows in place. */
  method AddFlows(s: Stream, d: seq<real>)
    requires |d| == s.imol.data.Length
    modifies s.imol.data
    ensures s.Mol() == Add(old(s.Mol()), d)
  {
    ghost var before := s.Mol();
    var mol := s.imol.data;
    forall i | 0 <= i < mol.Length {
      mol[i] := mol[i] + d[i];
    }
    assert forall i :: 0 <= i < |before| ==> s.Mol()[i] == Add(before, d)[i];
  }
}
