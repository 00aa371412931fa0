/**
 The gas-dynamics relations the Pitot inlet relies on (SUAVE's
 `Gas_Dynamics.Isentropic` and `Gas_Dynamics.Oblique_Shock` modules, and
 `np.sqrt`). Their internals are not part of this model: the solver receives
 them as a `Library` value of total functions, so every property proved about
 the inlet holds for whatever relations the library supplies, and the laws
 assumed of them (`SqrtLaw`, `TemperatureRatioLaw`, `ShockLossLaw`) are
 stated where they are used.
 */
module GasDynamics {

  /** The four isentropic ratios at a Mach number: T/Tt, P/Pt, rho/rho_t and the
      mass-flow (area-Mach) function A/A*. */
  datatype IsentropicRatios = IsentropicRatios(
    temperatureRatio: real,
    pressureRatio: real,
    densityRatio: real,
    areaRatio: real)

  /** The jump across a shock: downstream Mach, P2/P1, T2/T1 and Pt2/Pt1. */
  datatype ShockRatios = ShockRatios(
    mach: real,
    pressureRatio: real,
    temperatureRatio: real,
    stagnationPressureRatio: real)

  /** The external relations, each as a total function of its arguments.
      - isentropic(M, gamma): `Isentropic.isentropic_relations`;
      - getM(f, gamma, branch): `Isentropic.get_m`, the inverse of the area-Mach
        function on the given branch (1 is the subsonic branch);
      - normalShock(M, gamma): `Oblique_Shock.oblique_shock_relations` with a
        wedge angle of 0 and a shock angle of 90 degrees;
      - sqrt: `np.sqrt`. */
  datatype Library = Library(
    isentropic: (real, real) -> IsentropicRatios,
    getM: (real, real, int) -> real,
    normalShock: (real, real) -> ShockRatios,
    sqrt: real -> real)

  /** What the model assumes of `np.sqrt`: on non-negative arguments it returns
      the non-negative square root, and the root of 0 is 0. The second clause
      follows from the first; it is stated on its own because Z3 does not derive
      `s == 0` from `s * s == 0`. */
  ghost predicate SqrtLaw(sqrt: real -> real)
  {
    && (forall x: real :: 0.0 <= x ==> 0.0 <= sqrt(x) && sqrt(x) * sqrt(x) == x)
    && sqrt(0.0) == 0.0
  }

  /** A temperature law of the isentropic relations: for a ratio of specific
      heats above 1 the static temperature never exceeds the stagnation
      temperature, 0 <= T/Tt <= 1, at every Mach number. */
  ghost predicate TemperatureRatioLaw(isentropic: (real, real) -> IsentropicRatios)
  {
    forall mach: real, gamma: real :: gamma > 1.0 ==>
      0.0 <= isentropic(mach, gamma).temperatureRatio <= 1.0
  }

  /** A loss law of the normal-shock relations: a shock in a supersonic stream
      (M > 1, gamma > 1) never raises the stagnation pressure, 0 <= Pt2/Pt1 <= 1.
      Nothing is assumed for M <= 1, where the jump relations give Pt2/Pt1 >= 1. */
  ghost predicate ShockLossLaw(normalShock: (real, real) -> ShockRatios)
  {
    forall mach: real, gamma: real :: mach > 1.0 && gamma > 1.0 ==>
      0.0 <= normalShock(mach, gamma).stagnationPressureRatio <= 1.0
  }
}
