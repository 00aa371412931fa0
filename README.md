# Pitot inlet

A Dafny model of SUAVE's `Pitot_Inlet` energy component
(`trunk/SUAVE/Components/Energy/Converters/Pitot_Inlet.py`), with proofs about it.

`compute` works on a batch of operating points. First it puts each point in one of three flow regimes:

- subsonic with no shock;
- subsonic with a normal shock in the inlet;
- supersonic.

Then it fills nine pre-allocated work arrays by regime-masked assignments. From those it derives the engine-face stagnation pressure, Mach number, temperature, enthalpies and velocity. It writes these outputs to the component and writes the captured mass flow rate to the shared flight conditions.

`compute_drag` repeats the regime split, with the throat area as the choke test. It fills the station-1 (inlet entrance) Mach number and pressure by regime. It then evaluates Nikolai's empirical `K_add` correlation with nested `np.polyval` calls, and returns the additive (spillage) drag of every point.

The modules follow the program's structure:

- `GasDynamics` (`gas_dynamics.dfy`): the external isentropic, area-Mach inverse and normal-shock relations, plus `np.sqrt`. They are given as a `Library` value of total functions. The model assumes nothing about them beyond three laws, each stated where it is used: `SqrtLaw` of `np.sqrt`, `TemperatureRatioLaw` of the isentropic relations (0 <= T/Tt <= 1 for gamma > 1) and `ShockLossLaw` of the normal-shock relations (0 <= Pt2/Pt1 <= 1 for M > 1 and gamma > 1).
- `Batch` (`batch.dfy`): numpy's broadcast of a length-1 input. It also holds the masked assignment `a[mask] = v[mask]`, as an in-place loop over an array (`MaskedAssign`) and as its specification function `Select`.
- `Regimes` (`regimes.dfy`): the regime rule and the three masks.
- `FlightConditions` (`flight_conditions.dfy`): `conditions.freestream` and the `conditions` object that the mass flow rate is written to.
- `Polynomial` (`polynomial.dfy`): `np.polyval` as Horner's rule, proved equal to the power sum.
- `InletFlow` (`inlet_flow.dfy`): the engine-face solver of `compute`.
  - Each point's state is described by regime (`EngineFaceAt`).
  - Each masked block's effect on the nine arrays is a function `NoShockColumns` / `ShockColumns`.
  - The class `EngineFaceArrays` holds the nine arrays. Its block methods are proved against those functions.
  - The outputs are `ExitOf`.
- `InletDrag` (`additive_drag.dfy`): the station-1 fill of `compute_drag`, built the same way (`EntranceArrays`), plus `K_add`, `CD_add` and `D_add`.
- `Component` (`pitot_inlet.dfy`): the class `PitotInlet` with its areas, inputs and outputs, and the methods `Compute` and `ComputeDrag`.

## Model

| member | source | states |
|---|---|---|
| `Batch.Broadcast` | trunk/SUAVE/Components/Energy/Converters/Pitot_Inlet.py:132-135 | a length-1 stagnation input becomes n copies of its value; an n-long input is returned unchanged |
| `Batch.MaskedAssign` | trunk/SUAVE/Components/Energy/Converters/Pitot_Inlet.py:151-154 | after `a[mask] = v[mask]` the array is `Select(mask, v, old)`: masked entries take v, the others keep their old value |
| `Batch.SelectChangesOnlyMasked` | trunk/SUAVE/Components/Energy/Converters/Pitot_Inlet.py:151-173 | a masked write changes exactly the entries its mask selects |
| `Batch.SelectCommutes` | trunk/SUAVE/Components/Energy/Converters/Pitot_Inlet.py:151-173 | masked writes through disjoint masks give the same array in either order |
| `Batch.SelectCoveredForgetsInitial` | trunk/SUAVE/Components/Energy/Converters/Pitot_Inlet.py:140-173 | once three covering masks have written, the result is the same from any initial array |
| `Regimes.RegimeMasks` | trunk/SUAVE/Components/Energy/Converters/Pitot_Inlet.py:128-130 | every point is selected by exactly one of `i_sub_shock`, `i_sub_no_shock`, `i_sup`, and each mask holds iff the point's regime is that mask's (the same masks serve `compute_drag`, lines 225-228) |
| `Regimes.ClassifySplit` | trunk/SUAVE/Components/Energy/Converters/Pitot_Inlet.py:226-228 | the regimes are the split on `M <= 1` crossed with the throat test `f > 1`, each as an iff |
| `Polynomial.PowerSumAppend` | trunk/SUAVE/Components/Energy/Converters/Pitot_Inlet.py:259-261 | appending a coefficient multiplies the power sum by x and adds the coefficient |
| `Polynomial.PolyValIsPowerSum` | trunk/SUAVE/Components/Energy/Converters/Pitot_Inlet.py:259-266 | Horner evaluation equals the sum of p[k] x^(n-1-k) for every coefficient list |
| `Polynomial.Quartic` | trunk/SUAVE/Components/Energy/Converters/Pitot_Inlet.py:259-261 | a five-coefficient `polyval` is the quartic a x^4 + b x^3 + c x^2 + d x + e |
| `Polynomial.Quadratic` | trunk/SUAVE/Components/Energy/Converters/Pitot_Inlet.py:264-266 | a three-coefficient `polyval` is a x^2 + b x + c |
| `InletFlow.StagnationQuantitiesPassThrough` | trunk/SUAVE/Components/Energy/Converters/Pitot_Inlet.py:138-139 | every output has one value per point; the output stagnation temperature is the (broadcast) input; the stagnation enthalpy is Cp Tt at every point, in every regime |
| `InletFlow.NoShockPoint` | trunk/SUAVE/Components/Energy/Converters/Pitot_Inlet.py:151-154 | on a no-shock point Pt_out = Pt_in, Mach = get_m(f_M0 A0 / AE, gamma, 1) and T_out = T/Tt(Mach) Tt |
| `InletFlow.ShockedPoint` | trunk/SUAVE/Components/Energy/Converters/Pitot_Inlet.py:158-173 | on a shocked point (either shocked regime) Pt_out = Ptr_c Pt_in with the 90-degree shock ratio, MC is the shock's Mach number, f_ME = f(MC) AC / AE, Mach is get_m(f_ME) and T_out = T/Tt(Mach) Tt |
| `InletFlow.ExitEnthalpies` | trunk/SUAVE/Components/Energy/Converters/Pitot_Inlet.py:139-177 | at every point ht_out = Cp Tt, h_out = Cp T_out and u_out = sqrt(2 (ht_out - h_out)), with no hypothesis |
| `InletFlow.StaticBelowStagnation` | trunk/SUAVE/Components/Energy/Converters/Pitot_Inlet.py:151-173 | in both regimes 0 <= T_out <= Tt, given 0 <= T/Tt <= 1 of the isentropic relations for gamma > 1, gamma > 1 at the point and Tt >= 0 |
| `InletFlow.EnergyBalance` | trunk/SUAVE/Components/Energy/Converters/Pitot_Inlet.py:176-177 | given the square-root and temperature laws, Tt >= 0, Cp >= 0 and gamma > 1, the velocity is >= 0 with u^2/2 = ht - h, and it is zero iff ht = h |
| `InletFlow.StagnationPressureNeverRises` | trunk/SUAVE/Components/Energy/Converters/Pitot_Inlet.py:151-168 | under the shock loss law (0 <= Pt2/Pt1 <= 1 for a supersonic shock), with non-negative inputs and gamma > 1, no no-shock or supersonic point leaves with more stagnation pressure than it entered with; subsonic-with-shock points are not bounded |
| `InletFlow.FreestreamSpeedSquared` | trunk/SUAVE/Components/Energy/Converters/Pitot_Inlet.py:120-121 | v^2 = gamma R T M0^2 for the freestream speed, with v >= 0 when M0 >= 0 |
| `InletFlow.NoShockColumnsAt` | trunk/SUAVE/Components/Energy/Converters/Pitot_Inlet.py:151-154 | the no-shock block writes exactly the points of its mask, each with its no-shock state, and leaves the others as they were |
| `InletFlow.ShockColumnsAt` | trunk/SUAVE/Components/Energy/Converters/Pitot_Inlet.py:158-164 | a shocked block writes exactly the points of its mask, all nine quantities, and leaves the others as they were |
| `InletFlow.AllBlocksComputeEngineFace` | trunk/SUAVE/Components/Energy/Converters/Pitot_Inlet.py:140-173 | starting from `np.ones_like`, the three blocks leave every point in the engine-face state of its regime |
| `InletFlow.NoShockShockCommute` | trunk/SUAVE/Components/Energy/Converters/Pitot_Inlet.py:151-164 | the no-shock block and a shocked block on disjoint masks commute |
| `InletFlow.ShockShockCommute` | trunk/SUAVE/Components/Energy/Converters/Pitot_Inlet.py:158-173 | the two shocked blocks on disjoint masks commute |
| `InletFlow.AllBlocksAnyOrder` | trunk/SUAVE/Components/Energy/Converters/Pitot_Inlet.py:150-173 | the three regime blocks give the same nine arrays in all six orders, from any initial arrays |
| `InletFlow.AllBlocksOverwritePlaceholders` | trunk/SUAVE/Components/Energy/Converters/Pitot_Inlet.py:140-173 | after the three blocks, Pt_out, f_ME, Mach and T_out do not depend on the initial contents: no placeholder survives |
| `InletFlow.EngineFaceArrays.constructor` | trunk/SUAVE/Components/Energy/Converters/Pitot_Inlet.py:140-148 | nine fresh, distinct arrays of ones of the batch length |
| `InletFlow.EngineFaceArrays.NoShockBlock` | trunk/SUAVE/Components/Energy/Converters/Pitot_Inlet.py:151-154 | the arrays become `NoShockColumns` of their old contents; MC, Pr_c, Tr_c, Ptr_c and f_MC are not modified |
| `InletFlow.EngineFaceArrays.ShockBlock` | trunk/SUAVE/Components/Energy/Converters/Pitot_Inlet.py:158-164 | the arrays become `ShockColumns` of their old contents (the block of lines 167-173 is the same statements) |
| `InletFlow.FillEngineFace` | trunk/SUAVE/Components/Energy/Converters/Pitot_Inlet.py:137-173 | allocating and running the three blocks yields exactly the engine-face state of every point |
| `InletDrag.EntranceByRegime` | trunk/SUAVE/Components/Energy/Converters/Pitot_Inlet.py:241-251 | no shock: Pr_1 stays 1, f_M1 = f_Minf A_inf / A1, M1 = get_m(f_M1) and P1 = P/Pt(M1) Pt_inf; shocked: f_M1 stays 1, M1 and Pr_1 are the shock's, P1 = Pr_1 P_inf |
| `InletDrag.NoShockEntranceColumnsAt` | trunk/SUAVE/Components/Energy/Converters/Pitot_Inlet.py:241-243 | the no-shock station-1 block writes exactly its mask's points |
| `InletDrag.ShockEntranceColumnsAt` | trunk/SUAVE/Components/Energy/Converters/Pitot_Inlet.py:246-251 | a shocked station-1 block writes exactly its mask's points |
| `InletDrag.EntranceBlocksComputeEntrance` | trunk/SUAVE/Components/Energy/Converters/Pitot_Inlet.py:235-251 | from ones, the three station-1 blocks leave every point in its station-1 state |
| `InletDrag.EntranceArrays.constructor` | trunk/SUAVE/Components/Energy/Converters/Pitot_Inlet.py:235-238 | four fresh, distinct arrays of ones |
| `InletDrag.EntranceArrays.NoShockBlock` | trunk/SUAVE/Components/Energy/Converters/Pitot_Inlet.py:241-243 | the arrays become `NoShockEntranceColumns` of their old contents; Pr_1 is not modified |
| `InletDrag.EntranceArrays.ShockBlock` | trunk/SUAVE/Components/Energy/Converters/Pitot_Inlet.py:246-247 | the arrays become `ShockEntranceColumns` of their old contents; f_M1 is not modified (lines 250-251 are the same statements) |
| `InletDrag.FillEntrance` | trunk/SUAVE/Components/Energy/Converters/Pitot_Inlet.py:234-251 | allocating and running the three station-1 blocks yields exactly the station-1 state of every point |
| `InletDrag.KAddCorrelation` | trunk/SUAVE/Components/Energy/Converters/Pitot_Inlet.py:254-266 | K_add = c1 r^2 + c2 r + c3 with r = A_inf / AC, each c_k the quartic in M_inf with the literal coefficients |
| `InletDrag.DragOfExpanded` | trunk/SUAVE/Components/Energy/Converters/Pitot_Inlet.py:268-269 | D_add = CD_add q_inf AC K_add equals K_add (A1 (P1 (1 + gamma M1^2) - P_inf) - 2 q_inf A_inf): q_inf and AC cancel |
| `InletDrag.AdditiveDragExpanded` | trunk/SUAVE/Components/Energy/Converters/Pitot_Inlet.py:241-269 | the same closed form for every point of a batch, with P1 and M1 its station-1 values |
| `Component.PitotInlet.constructor` | trunk/SUAVE/Components/Energy/Converters/Pitot_Inlet.py:52-62 | zero areas, `[0.0]` stagnation inputs, outputs with `[0.0]` stagnation temperature, pressure and enthalpy |
| `Component.PitotInlet.Compute` | trunk/SUAVE/Components/Energy/Converters/Pitot_Inlet.py:103-187 | succeeds iff both stagnation inputs have length 1 or N; then the mass flow rate is rho A0 v and the outputs are `ExitOf` of the broadcast inputs; otherwise nothing is written |
| `Component.PitotInlet.ComputeDrag` | trunk/SUAVE/Components/Energy/Converters/Pitot_Inlet.py:198-271 | a result exists iff both stagnation inputs have length N, and it is `AdditiveDrag` of the component's areas and inputs |

## Left out

- The internals of `Isentropic.isentropic_relations`, `Isentropic.get_m` and `Oblique_Shock.oblique_shock_relations`.
  - They are not part of this model, and the library functions are parameters.
  - The oblique-shock call with a 0 wedge and a 90-degree shock angle is the library's `normalShock`. The angle argument `90*np.pi/180` is not modelled.
- `np.sqrt`.
  - It is a parameter too.
  - The only law used of it (`SqrtLaw`: non-negative root, exact square, root of 0 is 0) is a precondition of `InletFlow.EnergyBalance` and `InletFlow.FreestreamSpeedSquared`. Nothing else depends on it.
  - The only law used of the isentropic relations (`TemperatureRatioLaw`: 0 <= T/Tt <= 1 whenever gamma > 1) is a precondition of `InletFlow.StaticBelowStagnation` and `InletFlow.EnergyBalance`. Both also require gamma > 1 at the point.
  - The only law used of the normal-shock relations (`ShockLossLaw`: 0 <= Pt2/Pt1 <= 1 whenever M > 1 and gamma > 1) is a precondition of `InletFlow.StagnationPressureNeverRises`.
- Floating point.
  - Everything is exact `real` arithmetic. Rounding, `inf` and `nan` are not modelled.
  - `np.atleast_2d` (line 107) and numpy's 2-D shapes are modelled as 1-D sequences of one value per point.
- Division by zero. numpy would produce `inf`/`nan` here. The model instead requires:
  - positive capture, throat and entrance areas (`Compute`, `ComputeDrag`);
  - a non-zero freestream pressure and dynamic pressure at every point (`InletDrag.DragDefined`, a precondition of `ComputeDrag` when the inputs have length N).

  The defaults of 0.0 for the areas therefore cannot be passed to the two methods.
- `q_inf = 1/2 * rho_inf * v_inf**2` (line 212).
  - It is modelled with `1/2` as 0.5, Python 3's true division.
  - Under Python 2 integer division, with no `from __future__ import division` in the file, `1/2` is 0, and line 268 would divide by zero.
- Component.PitotInlet.Compute: the mass flow of lines 120-122 is computed before the broadcast at lines 132-135.
  - The model computes it from the broadcast temperature.
  - numpy broadcasting of a length-1 `Tt_in` gives the same values pointwise.
- InletFlow.StagnationPressureNeverRises: claims no bound on subsonic-with-shock points.
  - There the source applies the normal-shock relation at the freestream Mach number M0 <= 1 (lines 127 and 158-159), where the jump relations give Pt2/Pt1 >= 1.
  - So Pt_out = Pt2/Pt1 * Pt_in (`InletFlow.ShockedPoint`) may exceed Pt_in on those points.
- Component.PitotInlet.Compute: `ok == false` stands for the error numpy raises.
  - A `Tt_in` whose length is neither 1 nor N raises a `ValueError` at line 120; a `Pt_in` of such a length raises an `IndexError` at line 151.
  - The kind of error is not modelled, and nothing is written in that case.
- Component.PitotInlet.ComputeDrag: the source applies no broadcast.
  - Its work arrays follow the length of `Tt_inf`, and `Pt_inf` is boolean-indexed with the regime masks.
  - So any stagnation input whose length is not N raises an error in numpy. The model returns `None` for it; the kind of error is not modelled.
  - The same holds for `Compute` with a freestream whose per-point quantities disagree in length: the model requires a well-formed freestream.
- The other attributes of `compute`'s outputs (Mach number, static temperature, static enthalpy, velocity) do not exist before the first call. The constructor models them as empty sequences.
- Python's `Data` containers and the `Energy_Component` base class are not part of this model. Neither are `trunk/SUAVE/Analyses/Aerodynamics/AVL.py`, `trunk/SUAVE/Analyses/Missions/Segments/Segment.py` and `trunk/SUAVE/Analyses/Aerodynamics/Results.py`, which hold only wiring and default values.
- Aliasing between the caller's arrays and the component's outputs is not modelled. Outputs are sequence values: `Tt_out = Tt_in` shares the array in Python, and the model copies it.
