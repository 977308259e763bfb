# thermosteam streams and separations, modelled in Dafny

This project models two parts of thermosteam, a Python library for
chemical process streams:

- **The `Stream` state-sharing engine** (`thermosteam/stream.py`). A stream
  is made of separately aliasable facet objects:
  - a thermal condition holding `T` and `P`;
  - a molar indexer, which holds a molar-flow array, a phase box with the
    phase tag, and a cache of derived views.

  `link`, `unlink`, `copy` and `copy_like` rebind or duplicate these
  objects. In Dafny each facet is a `class` (`ThermalCondition`, `PhaseBox`,
  `DataCache`, `MolarIndexer`, `Stream`) and the flow array is an
  `array<real>`. Which objects are shared, which are fresh and which stay
  unchanged is stated with `fresh`, `old` and `modifies`.

  Flow views in other units go through the class-level unit cache
  (`Units.IndexCache`). That cache maps a unit string to a basis (molar,
  mass or volumetric) and a conversion factor, and entries are never
  removed. The module also covers:
  - the net-flow setters;
  - compositions;
  - the intensive properties, which return zero for a stream with no flow;
  - `split_to`, `empty` and `mix_from`;
  - the equilibrium-chemical composition;
  - the one-way cast to a multi-phase stream.

- **The mass balances of separation steps** (`thermosteam/separations.py`):
  - `split` and `mix_and_split`;
  - the moisture adjustment;
  - the `partition` step after an equilibrium;
  - the efficiency blend of `lle`;
  - the variable-inlet rescaling of `material_balance`;
  - the multi-stage liquid-liquid extraction cascade (`StageLLE`,
    `MultiStageLLE`): stage wiring, the extract and raffinate update, and
    the single-chemical linear system.

Flows are `real`. Thermodynamic correlations, equilibrium solvers and
linear solvers are function-valued parameters. Their results are opaque
inputs, and the model proves what the source does with them.

Modules:
- `Wrappers`: `Option`, `Result`, `Outcome`.
- `Exceptions`: the Python exception kinds the source raises.
- `Vectors`: componentwise arithmetic on `seq<real>`.
- `Thermo`: the chemical set, phases and mixture correlations.
- `Units`: unit resolution and its cache.
- `Streams`: the stream classes and the pure flow and composition functions.
- `Separations`
- `MaterialBalance`
- `MultiStage`

## Model

| member | source | states |
|---|---|---|
| Units.Classify | thermosteam/stream.py:76-89 | Only a molar, mass or volumetric flow dimensionality resolves, to the basis of that dimensionality and the registry's factor for it. Any other dimensionality is `DimensionError`. |
| Units.ClassifiedFactorNonZero | thermosteam/stream.py:76-89 | Every factor the resolver hands out can be divided by. |
| Units.IndexCache.Resolve | thermosteam/stream.py:70-89 | A hit returns the cached entry and changes nothing. A miss returns the fresh classification and stores it only on success. A failure adds no entry, no entry is ever removed or changed, and a consistent cache stays consistent. |
| Thermo.Chemicals.WaterIndex | thermosteam/separations.py:115-116 | Water's CAS key is found exactly when some chemical has it, and the position returned holds it. |
| Streams.AllIndices | thermosteam/stream.py:124-130 | The default chemical subset `...` addresses every chemical once, in order. |
| Streams.ReadFlow | thermosteam/stream.py:124-126 | Entry `k` of a view is the molar flow of `IDs[k]`, times the view's weight, times the unit factor. |
| Streams.ReadAfterWrite | thermosteam/stream.py:124-130 | `set_flow` then `get_flow` with the same units and distinct `IDs` returns the data written, and entries outside `IDs` are untouched. |
| Streams.WriteAfterRead | thermosteam/stream.py:124-130 | Writing back the flows just read, in the same units, leaves the molar flows as they were. |
| Streams.Stream.GetFlow | thermosteam/stream.py:124-126 | Returns `DimensionError` for a unit that does not resolve, else the view of the current flows. The unit cache only grows. |
| Streams.Stream.SetFlow | thermosteam/stream.py:128-130 | Returns `DimensionError` for a unit that does not resolve, with no flow changed. Otherwise the flows become those whose view in these units is the data given, and the data reads back unchanged. |
| Streams.Stream.WithUnits | thermosteam/stream.py:41-51 | A stream built with `units` reads its flows back, in those units, as given (the corrected constructor). An unresolvable unit is `DimensionError`. |
| Streams.InitialMol | thermosteam/stream.py:47-49 | The intended stored flows: read back in the construction units, they equal the flows given. |
| Streams.InitialMolAsWrittenReadBack | thermosteam/stream.py:47-49 | As written, flows given in units read back multiplied by the square of the factor. |
| Streams.InitialMolAsWrittenCounterexample | thermosteam/stream.py:47-49 | As written, 1 kg/s of water given in kg/s reads back as 1/12960000 kg/s. |
| Streams.GetProperty | thermosteam/stream.py:132-140 | Fails with `ValueError` for a name outside the units registry, checked first, and with `DimensionError` when the unit registry cannot convert the canonical units to the requested ones; it fails in no other case. Otherwise the current value times the conversion factor. |
| Streams.SetPropertyValue | thermosteam/stream.py:142-149 | The same two failures as `get_property`, in the same order, and no other. Otherwise the value in canonical units, which times the conversion factor gives back the value passed. |
| Streams.PropertyRoundTrip | thermosteam/stream.py:132-149 | Setting and getting a named property in the same units fail together. When the set succeeds, reading back in those units gives the value set. |
| Streams.Stream.constructor | thermosteam/stream.py:41-51 | A new stream has fresh facets, the given flows, phase, T, P and price, and an empty cache. |
| Streams.Stream.FromIndexer | thermosteam/stream.py:53-68 | A stream built on an existing indexer shares its array and cache; only the phase is overwritten. |
| Streams.Stream.SetT | thermosteam/stream.py:170-172 | Sets `T` in the shared thermal condition; `P` is unchanged. |
| Streams.Stream.SetP | thermosteam/stream.py:177-179 | Sets `P` in the shared thermal condition; `T` is unchanged. |
| Streams.Stream.SetPhase | thermosteam/stream.py:184-186 | Sets the tag in the shared phase box. |
| Streams.Stream.SetMol | thermosteam/stream.py:191-195 | Copies the values into the existing array; the array keeps its identity. |
| Streams.Stream.SetFMol | thermosteam/stream.py:231-236 | Every flow is multiplied by `value / F_mol`, and the new total is `value`. |
| Streams.Stream.SetFMass | thermosteam/stream.py:237-242 | Every molar flow is multiplied by `value / F_mass`, and the new mass total is `value`. |
| Streams.RescaleToTotal | thermosteam/stream.py:231-236 | Rescaling to a total gives that total, keeps the composition when the total is nonzero, and is the identity when the total is unchanged. |
| Streams.RescaleToMassTotal | thermosteam/stream.py:237-242 | Rescaling molar flows by `value / F_mass` gives mass total `value`. |
| Streams.Fractions | thermosteam/stream.py:277-286 | Fractions sum to 1 and are the flows scaled by the inverse total when the total is nonzero; otherwise they are the (zero-total) flows themselves. |
| Streams.FractionsRecover | thermosteam/stream.py:277-281 | Each fraction times the total is the flow it came from. |
| Streams.Stream.ZMol | thermosteam/stream.py:277-281 | With nonzero `F_mol` the mole fractions sum to 1, and each times `F_mol` is that chemical's flow. Otherwise they are the flows. |
| Streams.Stream.ZMass | thermosteam/stream.py:282-286 | With nonzero `F_mass` the mass fractions sum to 1, and each times `F_mass` is that chemical's mass flow. Otherwise they are the mass flows. |
| Streams.Stream.MW | thermosteam/stream.py:293-295 | The average molecular weight times `F_mol` is `F_mass`. |
| Streams.Intensive | thermosteam/stream.py:296-325 | Zero when the total flow is zero; otherwise the correlation at the mole fractions. |
| Streams.Stream.V | thermosteam/stream.py:296-300 | Zero with no flow, without calling the mixture; otherwise the mixture's molar volume at the phase, composition, T and P. |
| Streams.Stream.Kappa | thermosteam/stream.py:301-305 | The same guard, for thermal conductivity. |
| Streams.Stream.Cn | thermosteam/stream.py:306-310 | The same guard, for molar heat capacity. |
| Streams.Stream.Mu | thermosteam/stream.py:311-315 | The same guard, for viscosity. |
| Streams.Stream.Sigma | thermosteam/stream.py:316-320 | The same guard, for surface tension (no phase argument). |
| Streams.Stream.Epsilon | thermosteam/stream.py:321-325 | The same guard, for permittivity (no phase argument). |
| Streams.EquilibriumIndices | thermosteam/stream.py:403-413 | In increasing order: exactly the equilibrium chemicals with nonzero flow. |
| Streams.EquilibriumTotalZero | thermosteam/stream.py:403-413 | For non-negative flows, the present equilibrium chemicals total zero exactly when every equilibrium chemical has zero flow. |
| Streams.EquilibriumComposition | thermosteam/stream.py:403-413 | `AssertionError` exactly when the present equilibrium chemicals total zero. Otherwise their positions (exactly the equilibrium chemicals with nonzero flow) and fractions that sum to 1, each fraction times their total being that chemical's flow. |
| Streams.Stream.ZEquilibriumChemicals | thermosteam/stream.py:403-413 | The stream's answer is the equilibrium composition of its current flows over its chemical set's equilibrium flags. |
| Streams.Stream.Phases | thermosteam/stream.py:456-458 | Succeeds exactly on a cast stream and returns its phases; an uncast stream gives `AttributeError`. |
| Streams.Stream.SetPhases | thermosteam/stream.py:459-463 | Casts the stream to a multi-phase tag; nothing else about its identity or facets changes. |
| Streams.Stream.Empty | thermosteam/stream.py:393-394 | Every entry of the (possibly shared) array becomes zero. |
| Streams.Stream.SplitTo | thermosteam/stream.py:351-354 | `s1` gets `split * mol` (when the outlets' arrays differ), and `s2` gets this stream's flows after that write less `split * mol`. When this stream's array differs from `s1`'s and the outlets' arrays differ, `s1` and `s2` together make `mol`; when this stream is `s1`, `s2` gets zeros. |
| Streams.Stream.MixFrom | thermosteam/stream.py:345-349 | The flows become the sum of the inlets' flows. T comes from the energy balance when no inlet shares this stream's thermal condition. P is unchanged. |
| Streams.TotalMol | thermosteam/stream.py:345-349 | The componentwise sum of the inlets' flows (zeros for no inlet). |
| Streams.Stream.Link | thermosteam/stream.py:356-371 | Exactly the selected facets now reference `other`'s objects, and the others keep their own. The cache becomes `other`'s only when all three facets are selected, and the stream's previous cache object keeps its views for any third stream still sharing it. Otherwise both caches are emptied. `other` is not rebound. |
| Streams.Stream.Unlink | thermosteam/stream.py:373-377 | T, P, flows and phase keep their values in fresh objects. The cache object is kept (still shared if it was) and emptied. |
| Streams.Stream.CopyLike | thermosteam/stream.py:379-381 | `other`'s flows, phase, T and P are written into this stream's existing objects. |
| Streams.Stream.Copy | thermosteam/stream.py:383-390 | A new stream with no ID, no price and fresh objects of equal value. |
| Separations.Split | thermosteam/separations.py:163-203 | With distinct outlet arrays, top gets `split * feed` and bottom the rest, so together they make the feed; this holds also when the feed is the top. Both outlets take the feed's phase, T and P. |
| Separations.MixAndSplit | thermosteam/separations.py:120-161 | With distinct outlet arrays, the outlets add up to the sum of the inlets and top gets the `split` share. The bottom takes the top's phase, T and P. |
| Separations.WaterFlow | thermosteam/separations.py:113-115 | The water flow times its molecular weight is the moisture content `mc / (1 - mc)` times the mass flow. |
| Separations.MoistureContentReached | thermosteam/separations.py:113-115 | For a retentate holding no water, the water written gives it exactly the requested moisture content. |
| Separations.AdjustMoistureContent | thermosteam/separations.py:81-118 | The retentate's water is overwritten with the computed flow, and the permeate's water is lowered by it. `InfeasibleRegion` is raised when the permeate's water goes negative, after the writes. A chemical set without water is `UndefinedChemical`. |
| Separations.MixAndSplitWithMoistureContent | thermosteam/separations.py:36-79 | Mix, split and moisture adjustment in sequence: the outlets make the mixed flows less the water that the split sent to the retentate, plus the errors above. |
| Separations.MoistureSplitBalance | thermosteam/separations.py:36-79 | After the split, overwriting the retentate's water and lowering the permeate's by the same amount leaves the total short by exactly the water the split sent to the retentate. |
| Separations.MoistureMissedWhenWet | thermosteam/separations.py:113-116 | As written, a retentate of 10 kg/hr solids and 10 kg/hr water brought to moisture content 0.5 ends at 2/3: its 20 kg/hr total mass gives 20 kg/hr of water, which replaces the 10 it held. |
| Separations.IntendedMoistureAdjust | thermosteam/separations.py:113-116 | The corrected adjustment: the retentate's water is set from its dry mass, the permeate gives up only what the retentate gains, and every other chemical is untouched. |
| Separations.IntendedMoistureReached | thermosteam/separations.py:113-116 | Whatever water the retentate already holds, the corrected adjustment reaches exactly the requested moisture content (for a nonzero dry mass). |
| Separations.IntendedMoistureConserves | thermosteam/separations.py:113-116 | The corrected adjustment only moves water from the permeate to the retentate: the two together hold what they held before. |
| Separations.PartitionTotals | thermosteam/separations.py:359-368 | At a root of the Rachford-Rice equation, the bottom phase carries `(1 - phi)` of the flow and the top `phi`. |
| Separations.PartitionCoefficients | thermosteam/separations.py:207-235 | Each coefficient is the ratio of the top's mole fraction to the bottom's. |
| Separations.PartitionRecoversCoefficients | thermosteam/separations.py:207-235 | Measuring the coefficients of a partition made at a Rachford-Rice root gives back the `K` it was made with. |
| Separations.Partition | thermosteam/separations.py:305-368 | The bottom is emptied and holds `x * (1 - phi) * F_mol` at `IDs` only; the top is the feed less the bottom. Chemicals outside `IDs` go to the top, top plus bottom is the feed, and the phase fraction is returned. |
| Separations.Blend | thermosteam/separations.py:427-436 | Each outlet keeps `efficiency` of its phase plus half the rest of the feed. |
| Separations.BlendConserves | thermosteam/separations.py:427-436 | Two phases that add up to the feed still add up to it after blending. |
| Separations.LleConserves | thermosteam/separations.py:417-436 | If the equilibrium phases add up to the feed, so do the outlets, at any efficiency. |
| Separations.LighterPhaseOnTop | thermosteam/separations.py:418-426 | With no top chemical named, the top outlet receives the less dense phase. |
| Separations.Lle | thermosteam/separations.py:370-436 | With distinct arrays, the outlets hold the placed (and, below unit efficiency, blended) equilibrium phases and the feed is unchanged. Both outlets take the feed's T and P. |
| MaterialBalance.FlowMatrix | thermosteam/separations.py:560-574 | Row `k` is chemical `IDs[k]`'s flow in each variable inlet. |
| MaterialBalance.FlowBalanceCloses | thermosteam/separations.py:560-578 | `x` solves the flow system exactly when scaling the inlets by `x` makes the chosen chemicals' flows equal the outlets' less the constant inlets'. |
| MaterialBalance.ScaleInlets | thermosteam/separations.py:577-578 | Each variable inlet's flows are scaled by the product of the factors applied to its array; inlets sharing an array are scaled once per inlet. |
| MaterialBalance.FactorOfDistinct | thermosteam/separations.py:577-578 | Without shared arrays, each inlet is scaled by exactly its own factor. |
| MaterialBalance.CompositionTargets | thermosteam/separations.py:580-600 | The outlets' fractions at `IDs`, and `O` as the total constant inflow times the fraction less the constant inflow of that chemical. |
| MaterialBalance.Balance | thermosteam/separations.py:502-616 | Errors in the source's order: no variable inlet `ValueError`; no constant outlet `TypeError` (flow) or `AttributeError` (composition); no constant inlet `TypeError` (composition); a rejected system `LinAlgError`; an unknown balance `ValueError`. On a flow solution each inlet is scaled by its factor and the constant streams are untouched. |
| MaterialBalance.FlowBranchBalances | thermosteam/separations.py:560-578 | After a successful flow balance with distinct inlet arrays, the chosen chemicals' flows balance the outlets. |
| MultiStage.StageLLE.constructor | thermosteam/separations.py:626-637 | A stage owns a fresh empty raffinate (`'l'`) and extract (`'L'`) that share one thermal condition at the given T and P. |
| MultiStage.StageLLE.BalanceRaffinateFlows | thermosteam/separations.py:670-673 | `AttributeError` while the feed or the solvent is unset. Otherwise the raffinate becomes feed plus solvent less extract, so raffinate plus extract equals feed plus solvent. |
| MultiStage.MultiStageLLE.Create | thermosteam/separations.py:694-707 | `N` fresh empty stages at 298.15 K and 101325 Pa, wired so that the feed enters the first stage and the solvent the last. Each stage's feed is the previous stage's raffinate, and its solvent the next stage's extract. With no stage, `IndexError`. |
| MultiStage.MultiStageLLE.Feed | thermosteam/separations.py:716-718 | The cascade's feed. |
| MultiStage.MultiStageLLE.Extract | thermosteam/separations.py:719-721 | The first stage's extract array. |
| MultiStage.MultiStageLLE.Solvent | thermosteam/separations.py:722-724 | The cascade's solvent. |
| MultiStage.MultiStageLLE.Raffinate | thermosteam/separations.py:725-727 | The last stage's raffinate array. |
| MultiStage.MultiStageLLE.UpdateWithoutSideDraws | thermosteam/separations.py:729-734 | A negative flow rate is `RuntimeError` and an unset `index` `AttributeError`, with nothing written. Otherwise each stage's extract at `index` takes its row. Stage after stage, each raffinate becomes the stage's inflows less its extract, and the cascade invariant holds afterwards. |
| MultiStage.CascadeBalance | thermosteam/separations.py:729-734 | Over the first `k` stages balanced in order, the last raffinate plus all extracts equals the feed plus all solvents. |
| MultiStage.CascadeCloses | thermosteam/separations.py:729-734 | Once every stage is balanced, the first stage's extract plus the last raffinate equals the cascade's feed plus solvent. |
| MultiStage.SolventsSum | thermosteam/separations.py:700-707 | The solvents entering the stages are the later stages' extracts plus the cascade's solvent. |
| MultiStage.SystemRhs | thermosteam/separations.py:825-833 | The feed at the first entry, the solvent added at the last, zeros between; one stage gives `feed + solvent`. |
| MultiStage.AssembleSystem | thermosteam/separations.py:791-834 | The loop fills a fresh N-by-N matrix with exactly the tridiagonal system (`SystemEntry`: diagonal `1 + r_i`, super-diagonal `-1`, sub-diagonal `-r_i` with `r = phase_ratio * K`, zero elsewhere) and a fresh right-hand side equal to `SystemRhs`; zero stages is `IndexError`. |
| MultiStage.SystemRowTimes | thermosteam/separations.py:825-833 | Row `i` times the extract flows involves only stage `i` and its neighbours. |
| MultiStage.SystemIffStagesBalance | thermosteam/separations.py:825-834 | The extract flows solve the system exactly when every stage balances its inflows against its outflows. |
| MultiStage.StagesTelescope | thermosteam/separations.py:825-834 | Over the first `k` balanced stages, the raffinate of stage `k - 1` plus the first extract equals the feed plus what enters stage `k - 1` as solvent. |
| MultiStage.SystemSolutionConserves | thermosteam/separations.py:825-834 | A solution of the system conserves the chemical: first extract plus last raffinate equals feed plus solvent. |

## Left out

- I/O and presentation: the pipe operators and sink/source registration (`thermosteam/stream.py:93-119`), and `show`, `_info` and `print` formatting (`thermosteam/stream.py:467-540`). They are text and global registries, not state the core computes with.
- The correlations behind `H`, `S`, `C`, `Hf`, `Hc`, `Hvap`, `F_vol` and the mixture properties are uninterpreted function parameters (`Thermo.Mixture`). The `H` setter's `solve_T` is one such parameter. `mix_from`'s energy balance is stated only through it.
- The `mass` and `vol` setters, `z_vol` and the `F_vol` setter are not modelled separately: they are written through the same weighted views as `set_flow` (`Streams.WriteFlow`).
- Floating point, NaN and infinity are not modelled; flows are `real`. Where the source would divide by zero and carry NaN, the model requires a nonzero divisor instead:
  - Streams.Stream.SetFMol: requires a nonzero `F_mol`; the source divides and produces NaN or infinity.
  - Streams.Stream.SetFMass: requires a nonzero `F_mass`, for the same reason.
  - Streams.Stream.MW: requires a nonzero `F_mol`, for the same reason.
  - Separations.AdjustMoistureContent: requires a moisture content other than 1, for the same reason.
  - Separations.Partition: requires the selected chemicals to have a nonzero total and the phase fraction to keep every denominator nonzero; the source would produce NaN.
- Streams.SetPropertyValue: every conversion factor the unit registry returns is taken to be nonzero (`PropertyUnits.Valid`). The unit registry is not part of this model, and a physical unit conversion factor is never zero.
- Chemical IDs are positions in the chemical set. ID strings, their lookup and the `KeyError` of an unknown ID are not modelled. The water lookup by CAS number is the exception, modelled as `UndefinedChemical`.
- The indexer internals (`material_indexer`, `to_material_indexer`) are not part of this model. The cache of derived views is a set of view tags, of which only the clearing is modelled. The phase cast is a one-way tag; the class reassignment and storage reshaping it does are left out.
- `MultiStream` is not part of this model. Where `lle` takes a `multi_stream`, the model takes the equilibrium's two liquid phases as a function parameter.
- Equilibrium and numerical solvers are parameters whose results are taken as given:
  - `phase_fraction`, the `lle`/`vle` equilibrium calls and `flx.wegstein`;
  - `np.linalg.solve` and `lstsq` (the inexact `lstsq` path of `material_balance` is left out);
  - the float-tolerance convergence loop of the `'composition'` branch, whose right-hand side is modelled by `MaterialBalance.CompositionTargets`.
- `vle`, `vle_partition_coefficients` and `lle_partition_coefficients` (`thermosteam/separations.py:237-303, 438-500`) depend wholly on those solvers.
- `StageLLE.partition`, the stage's `T`/`P` properties, `IDs`, `phi` and `K` (`thermosteam/separations.py:638-685`) wrap the equilibrium call.
- `MultiStageLLE`'s `simulate`, `initialize` and `iter` methods, and `flow_rates_for_multi_stage_extration_without_side_draws` (`thermosteam/separations.py:736-790, 836-`), drive the opaque solvers and the fixed-point iteration.
- MultiStage.AssembleSystem: only the assembly is modelled; the solve at `thermosteam/separations.py:834` is replaced by `MultiStage.SystemIffStagesBalance`, which characterises its solutions.
- `MultiStageLLE`'s `multi_stream`, `carrier_chemical` and `partition_data` attributes, and `__len__`, `__iter__` and `__getitem__`, are plain containers. The model reads `stages` directly.
- MultiStage.MultiStageLLE.UpdateWithoutSideDraws: the extract flows written are modelled by value. The model does not follow a row array aliased with a stream's array.
- Streams.Stream.SplitTo: conservation (`s1 + s2 == mol`) is promised only when this stream's array is not `s1`'s. With this stream as `s1`, the source subtracts from the array it has just overwritten, so `s2` gets zeros and the `(1 - split)` share is lost; the model states that outcome as written.
- The expectation at `tests/test_stream.py:144-149` that setting `F_mol` on an empty stream raises `AttributeError` contradicts `thermosteam/stream.py:234-236`, which simply divides. The model follows the source.

## Findings

| source | as written | input that shows it | evidently intended | confidence | as-written member | corrected member |
|---|---|---|---|---|---|---|
| thermosteam/stream.py:47-49 | The constructor stores flows given in `units` as `flow * factor`, while `set_flow` (lines 128-130) stores `data / factor`. | A water stream built with flow `[1]` in `kg/s` (factor 1/3600 from kg/hr, weight 18.01528) reads back 1/12960000 kg/s instead of 1. | Divide by the factor, as `set_flow` does, so the flows read back in the same units as given. | not executed | Streams.InitialMolAsWrittenCounterexample | Streams.Stream.WithUnits |
| thermosteam/separations.py:113-116 | The water flow is computed from the retentate's whole mass flow, the water it already holds included, and then replaces that water; the permeate gives up the whole new amount. | A retentate of 10 kg/hr solids and 10 kg/hr water at moisture content 0.5 gets 20 kg/hr of water, ending at 2/3 instead of 1/2, and the 10 kg/hr it held drops out of the balance. | Compute the water from the dry mass, so the retentate ends at the requested moisture content, and take from the permeate only the water the retentate gains. | not executed | Separations.MoistureMissedWhenWet | Separations.IntendedMoistureReached |
