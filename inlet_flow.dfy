/**
 The inlet flow solver of `Pitot_Inlet.compute`: for each operating point,
 the engine-face state that its flow regime dictates, and the masked fills
 that compute those states for a whole batch at once.
 */
module InletFlow {
  import opened GasDynamics
  import opened Batch
  import opened Regimes
  import opened FlightConditions

  /** Per point, what the solver's work arrays hold once all three regime
      blocks have run: Pt_out, f_ME, Mach, T_out, and the shock quantities
      MC, Pr_c, Tr_c, Ptr_c and f_MC (these keep their initial 1.0 where there
      is no shock). */
  datatype Station = Station(
    stagnationPressure: real,
    massFlowFunction: real,
    mach: real,
    staticTemperature: real,
    shockMach: real,
    shockPressureRatio: real,
    shockTemperatureRatio: real,
    shockStagnationPressureRatio: real,
    shockMassFlowFunction: real)

  /** The isentropic mass-flow function at the freestream station, f_M0. */
  function FreestreamFunction(lib: Library, fs: Freestream, i: nat): real
    requires fs.WellFormed() && i < fs.Size()
  {
    lib.isentropic(fs.mach[i], fs.gamma[i]).areaRatio
  }

  /** The isentropic mass-flow function the captured streamtube would need at
      an internal station of the given area (f_ME_isentropic, f_MC_isentropic). */
  function StationFunction(lib: Library, fs: Freestream, i: nat, area: real): real
    requires fs.WellFormed() && i < fs.Size() && area > 0.0
  {
    (FreestreamFunction(lib, fs, i) * fs.streamtubeArea[i]) / area
  }

  /** The station function of every point at one area: at the throat
      (f_MC_isentropic, f_MT_isentropic, the input of the regime masks), at the
      engine face (f_ME_isentropic) or at the inlet entrance (station 1). */
  function StationFunctions(lib: Library, fs: Freestream, area: real): (r: seq<real>)
    requires fs.WellFormed() && area > 0.0
    ensures |r| == fs.Size()
  {
    seq(fs.Size(), i requires 0 <= i < fs.Size() => StationFunction(lib, fs, i, area))
  }

  /** The regime of point i, judged at the throat. */
  function RegimeAt(lib: Library, fs: Freestream, i: nat, throat: real): Regime
    requires fs.WellFormed() && i < fs.Size() && throat > 0.0
  {
    Classify(fs.mach[i], StationFunction(lib, fs, i, throat))
  }

  /** The state of point i once the no-shock block has written it over s: the
      stagnation pressure is kept, the engine-face function is the isentropic one
      and the Mach number comes from it on the subsonic branch. The shock
      quantities of s are not touched. */
  function NoShockState(lib: Library, fs: Freestream, i: nat, tt: real, pt: real, capture: real, s: Station): Station
    requires fs.WellFormed() && i < fs.Size() && capture > 0.0
  {
    var gamma := fs.gamma[i];
    var fME := StationFunction(lib, fs, i, capture);
    var mach := lib.getM(fME, gamma, 1);
    s.(stagnationPressure := pt, massFlowFunction := fME, mach := mach,
       staticTemperature := lib.isentropic(mach, gamma).temperatureRatio * tt)
  }

  /** The state of point i once a shocked block has written it: a normal shock at
      the freestream Mach number scales the stagnation pressure and sets, through
      the throat, the engine-face function. All nine quantities are written. */
  function ShockState(lib: Library, fs: Freestream, i: nat, tt: real, pt: real, capture: real, throat: real): Station
    requires fs.WellFormed() && i < fs.Size() && capture > 0.0 && throat > 0.0
  {
    var gamma := fs.gamma[i];
    var shock := lib.normalShock(fs.mach[i], gamma);
    var fMC := lib.isentropic(shock.mach, gamma).areaRatio;
    var fME := Scaled(fMC, throat, capture);
    var mach := lib.getM(fME, gamma, 1);
    Station(shock.stagnationPressureRatio * pt, fME, mach, lib.isentropic(mach, gamma).temperatureRatio * tt,
            shock.mach, shock.pressureRatio, shock.temperatureRatio, shock.stagnationPressureRatio, fMC)
  }

  /** A point no block has written yet: every work array starts as ones. */
  const Placeholder := Station(1.0, 1.0, 1.0, 1.0, 1.0, 1.0, 1.0, 1.0, 1.0)

  /** The engine-face state of point i, given its stagnation temperature tt and
      pressure pt: the no-shock state over the placeholders, or the shocked state
      (subsonic-with-shock and supersonic points alike). */
  function EngineFaceAt(lib: Library, fs: Freestream, i: nat, tt: real, pt: real, capture: real, throat: real): Station
    requires fs.WellFormed() && i < fs.Size() && capture > 0.0 && throat > 0.0
  {
    if RegimeAt(lib, fs, i, throat) == SubsonicNoShock then NoShockState(lib, fs, i, tt, pt, capture, Placeholder)
    else ShockState(lib, fs, i, tt, pt, capture, throat)
  }

  /** The engine-face states of a whole batch. */
  function EngineFace(lib: Library, fs: Freestream, tts: seq<real>, pts: seq<real>, capture: real, throat: real): (r: seq<Station>)
    requires fs.WellFormed() && |tts| == |pts| == fs.Size() && capture > 0.0 && throat > 0.0
    ensures |r| == fs.Size()
  {
    seq(fs.Size(), i requires 0 <= i < fs.Size() => EngineFaceAt(lib, fs, i, tts[i], pts[i], capture, throat))
  }

  /** The packed outputs of `compute`, one value per operating point each. */
  datatype Exit = Exit(
    stagnationTemperature: seq<real>,
    stagnationPressure: seq<real>,
    stagnationEnthalpy: seq<real>,
    machNumber: seq<real>,
    staticTemperature: seq<real>,
    staticEnthalpy: seq<real>,
    velocity: seq<real>)

  /** The outputs from given engine-face states: stagnation temperature passed
      through, enthalpies Cp*T, and the velocity from the enthalpy drop. */
  function ExitFrom(lib: Library, fs: Freestream, tts: seq<real>, st: seq<Station>): (e: Exit)
    requires fs.WellFormed() && |tts| == |st| == fs.Size()
  {
    var n := fs.Size();
    var ht := seq(n, i requires 0 <= i < n => fs.cp[i] * tts[i]);
    var h := seq(n, i requires 0 <= i < n => fs.cp[i] * st[i].staticTemperature);
    Exit(
      tts,
      seq(n, i requires 0 <= i < n => st[i].stagnationPressure),
      ht,
      seq(n, i requires 0 <= i < n => st[i].mach),
      seq(n, i requires 0 <= i < n => st[i].staticTemperature),
      h,
      seq(n, i requires 0 <= i < n => lib.sqrt(2.0 * (ht[i] - h[i]))))
  }

  /** The outputs of `compute` for broadcast stagnation inputs tts and pts. */
  function ExitOf(lib: Library, fs: Freestream, tts: seq<real>, pts: seq<real>, capture: real, throat: real): (e: Exit)
    requires fs.WellFormed() && |tts| == |pts| == fs.Size() && capture > 0.0 && throat > 0.0
  {
    ExitFrom(lib, fs, tts, EngineFace(lib, fs, tts, pts, capture, throat))
  }

  /** Every output has one value per operating point; the stagnation temperature
      is the input's and the stagnation enthalpy is Cp * Tt at every point, in
      every regime. */
  lemma StagnationQuantitiesPassThrough(lib: Library, fs: Freestream, tts: seq<real>, pts: seq<real>, capture: real, throat: real)
    requires fs.WellFormed() && |tts| == |pts| == fs.Size() && capture > 0.0 && throat > 0.0
    ensures var e := ExitOf(lib, fs, tts, pts, capture, throat);
      && |e.stagnationPressure| == |e.stagnationEnthalpy| == |e.machNumber| == fs.Size()
      && |e.staticTemperature| == |e.staticEnthalpy| == |e.velocity| == fs.Size()
      && e.stagnationTemperature == tts
      && forall i :: 0 <= i < fs.Size() ==> e.stagnationEnthalpy[i] == fs.cp[i] * tts[i]
  {
  }

  /** On a point without a shock, the stagnation pressure is the input's and the
      Mach number is the subsonic solution for the isentropic engine-face
      function f_M0 * A0 / AE. */
  lemma NoShockPoint(lib: Library, fs: Freestream, tts: seq<real>, pts: seq<real>, capture: real, throat: real, i: nat)
    requires fs.WellFormed() && |tts| == |pts| == fs.Size() && capture > 0.0 && throat > 0.0 && i < fs.Size()
    requires RegimeAt(lib, fs, i, throat) == SubsonicNoShock
    ensures var e := ExitOf(lib, fs, tts, pts, capture, throat);
      && e.stagnationPressure[i] == pts[i]
      && e.machNumber[i] == lib.getM(FreestreamFunction(lib, fs, i) * fs.streamtubeArea[i] / capture, fs.gamma[i], 1)
      && e.staticTemperature[i] == lib.isentropic(e.machNumber[i], fs.gamma[i]).temperatureRatio * tts[i]
  {
    assert StationFunction(lib, fs, i, capture) == FreestreamFunction(lib, fs, i) * fs.streamtubeArea[i] / capture;
    assert EngineFace(lib, fs, tts, pts, capture, throat)[i].mach
        == lib.getM(StationFunction(lib, fs, i, capture), fs.gamma[i], 1);
  }

  /** On a shocked point (subsonic with a shock, or supersonic), the stagnation
      pressure is the input's times the normal-shock stagnation-pressure ratio,
      and the engine-face function is the throat's, f(MC) * AC / AE, with MC the
      Mach number behind the shock. */
  lemma ShockedPoint(lib: Library, fs: Freestream, tts: seq<real>, pts: seq<real>, capture: real, throat: real, i: nat)
    requires fs.WellFormed() && |tts| == |pts| == fs.Size() && capture > 0.0 && throat > 0.0 && i < fs.Size()
    requires RegimeAt(lib, fs, i, throat) != SubsonicNoShock
    ensures var shock := lib.normalShock(fs.mach[i], fs.gamma[i]);
      var st := EngineFace(lib, fs, tts, pts, capture, throat)[i];
      && ExitOf(lib, fs, tts, pts, capture, throat).stagnationPressure[i] == shock.stagnationPressureRatio * pts[i]
      && st.shockMach == shock.mach && st.shockStagnationPressureRatio == shock.stagnationPressureRatio
      && st.massFlowFunction == lib.isentropic(shock.mach, fs.gamma[i]).areaRatio * throat / capture
      && ExitOf(lib, fs, tts, pts, capture, throat).machNumber[i] == lib.getM(st.massFlowFunction, fs.gamma[i], 1)
      && ExitOf(lib, fs, tts, pts, capture, throat).staticTemperature[i]
         == lib.isentropic(ExitOf(lib, fs, tts, pts, capture, throat).machNumber[i], fs.gamma[i]).temperatureRatio * tts[i]
  {
  }

  /** The exit enthalpies and speed at every point: h = Cp * T and
      u = sqrt(2 (ht - h)). */
  lemma ExitEnthalpies(lib: Library, fs: Freestream, tts: seq<real>, pts: seq<real>, capture: real, throat: real, i: nat)
    requires fs.WellFormed() && |tts| == |pts| == fs.Size() && capture > 0.0 && throat > 0.0 && i < fs.Size()
    ensures var e := ExitOf(lib, fs, tts, pts, capture, throat);
      && e.stagnationEnthalpy[i] == fs.cp[i] * e.stagnationTemperature[i]
      && e.staticEnthalpy[i] == fs.cp[i] * e.staticTemperature[i]
      && e.velocity[i] == lib.sqrt(2.0 * (e.stagnationEnthalpy[i] - e.staticEnthalpy[i]))
  {
  }

  /** In both regimes the exit static temperature is T/Tt at the exit Mach
      number times the stagnation temperature, so under the temperature law of
      the isentropic relations it lies between 0 and Tt (for Tt >= 0 and
      gamma > 1). */
  lemma StaticBelowStagnation(lib: Library, fs: Freestream, tts: seq<real>, pts: seq<real>, capture: real, throat: real, i: nat)
    requires TemperatureRatioLaw(lib.isentropic)
    requires fs.WellFormed() && |tts| == |pts| == fs.Size() && capture > 0.0 && throat > 0.0 && i < fs.Size()
    requires tts[i] >= 0.0 && fs.gamma[i] > 1.0
    ensures var e := ExitOf(lib, fs, tts, pts, capture, throat);
      0.0 <= e.staticTemperature[i] <= tts[i]
  {
    var e := ExitOf(lib, fs, tts, pts, capture, throat);
    if RegimeAt(lib, fs, i, throat) == SubsonicNoShock {
      NoShockPoint(lib, fs, tts, pts, capture, throat, i);
    } else {
      ShockedPoint(lib, fs, tts, pts, capture, throat, i);
    }
    var r := lib.isentropic(e.machNumber[i], fs.gamma[i]).temperatureRatio;
    assert e.staticTemperature[i] == r * tts[i];
    assert 0.0 <= r <= 1.0;
    NonNegativeProduct(r, tts[i]);
    NonNegativeProduct(1.0 - r, tts[i]);
  }

  /** The energy balance at every point: under the square-root law and the
      temperature law, with Tt >= 0, Cp >= 0 and gamma > 1, the exit speed is
      non-negative with u^2 / 2 = ht - h; it is zero exactly when there is no
      enthalpy drop. */
  lemma EnergyBalance(lib: Library, fs: Freestream, tts: seq<real>, pts: seq<real>, capture: real, throat: real, i: nat)
    requires SqrtLaw(lib.sqrt) && TemperatureRatioLaw(lib.isentropic)
    requires fs.WellFormed() && |tts| == |pts| == fs.Size() && capture > 0.0 && throat > 0.0 && i < fs.Size()
    requires tts[i] >= 0.0 && fs.cp[i] >= 0.0 && fs.gamma[i] > 1.0
    ensures var e := ExitOf(lib, fs, tts, pts, capture, throat);
      && e.velocity[i] >= 0.0
      && e.velocity[i] * e.velocity[i] / 2.0 == e.stagnationEnthalpy[i] - e.staticEnthalpy[i]
      && (e.velocity[i] == 0.0 <==> e.stagnationEnthalpy[i] == e.staticEnthalpy[i])
  {
    var e := ExitOf(lib, fs, tts, pts, capture, throat);
    ExitEnthalpies(lib, fs, tts, pts, capture, throat, i);
    StaticBelowStagnation(lib, fs, tts, pts, capture, throat, i);
    var drop := e.stagnationEnthalpy[i] - e.staticEnthalpy[i];
    assert drop == fs.cp[i] * (tts[i] - e.staticTemperature[i]);
    assert drop >= 0.0 by { NonNegativeProduct(fs.cp[i], tts[i] - e.staticTemperature[i]); }
    assert e.velocity[i] == lib.sqrt(2.0 * drop);
  }

  /** A product of non-negative reals is non-negative. */
  lemma NonNegativeProduct(x: real, y: real)
    requires x >= 0.0 && y >= 0.0
    ensures x * y >= 0.0
  {
  }

  /** Where the shock loss law holds (a shock in a supersonic stream does not
      raise the stagnation pressure), no no-shock or supersonic point leaves the
      inlet with more stagnation pressure than it entered with (for non-negative
      inputs and gamma > 1). Subsonic-with-shock points are excluded: there the
      normal-shock relation is applied at M0 <= 1, and `ShockedPoint` gives their
      Pt_out = Pt2/Pt1 * Pt_in with whatever ratio the library returns. */
  lemma StagnationPressureNeverRises(lib: Library, fs: Freestream, tts: seq<real>, pts: seq<real>, capture: real, throat: real)
    requires ShockLossLaw(lib.normalShock)
    requires fs.WellFormed() && |tts| == |pts| == fs.Size() && capture > 0.0 && throat > 0.0
    requires forall i :: 0 <= i < fs.Size() ==> pts[i] >= 0.0 && fs.gamma[i] > 1.0
    ensures var e := ExitOf(lib, fs, tts, pts, capture, throat);
      forall i :: 0 <= i < fs.Size() && RegimeAt(lib, fs, i, throat) != SubsonicShock ==>
        e.stagnationPressure[i] <= pts[i]
  {
    var e := ExitOf(lib, fs, tts, pts, capture, throat);
    forall i | 0 <= i < fs.Size() && RegimeAt(lib, fs, i, throat) != SubsonicShock
      ensures e.stagnationPressure[i] <= pts[i]
    {
      var r := lib.normalShock(fs.mach[i], fs.gamma[i]).stagnationPressureRatio;
      if RegimeAt(lib, fs, i, throat) == Supersonic {
        assert fs.mach[i] > 1.0;
        assert 0.0 <= r <= 1.0;
        assert e.stagnationPressure[i] == r * pts[i];
        NonNegativeProduct(1.0 - r, pts[i]);
      }
    }
  }

  /** The freestream speed of point i, sqrt(gamma R T) M0, with T the static
      temperature the isentropic relations give from tt. */
  function FreestreamSpeed(lib: Library, fs: Freestream, i: nat, tt: real): real
    requires fs.WellFormed() && i < fs.Size()
  {
    var t := lib.isentropic(fs.mach[i], fs.gamma[i]).temperatureRatio * tt;
    lib.sqrt(fs.gamma[i] * fs.gasConstant[i] * t) * fs.mach[i]
  }

  /** The mass flow rate captured from the freestream, density * A0 * v. */
  function MassFlowRate(lib: Library, fs: Freestream, tts: seq<real>): (r: seq<real>)
    requires fs.WellFormed() && |tts| == fs.Size()
    ensures |r| == fs.Size()
  {
    seq(fs.Size(), i requires 0 <= i < fs.Size() => fs.density[i] * fs.streamtubeArea[i] * FreestreamSpeed(lib, fs, i, tts[i]))
  }

  /** Where gamma R T is non-negative, the freestream speed squared is
      gamma R T M0^2, and it has the sign of M0. */
  lemma FreestreamSpeedSquared(lib: Library, fs: Freestream, i: nat, tt: real)
    requires SqrtLaw(lib.sqrt)
    requires fs.WellFormed() && i < fs.Size()
    requires fs.gamma[i] * fs.gasConstant[i] * (lib.isentropic(fs.mach[i], fs.gamma[i]).temperatureRatio * tt) >= 0.0
    ensures var t := lib.isentropic(fs.mach[i], fs.gamma[i]).temperatureRatio * tt;
      var v := FreestreamSpeed(lib, fs, i, tt);
      && v * v == fs.gamma[i] * fs.gasConstant[i] * t * fs.mach[i] * fs.mach[i]
      && (fs.mach[i] >= 0.0 ==> v >= 0.0)
  {
    var t := lib.isentropic(fs.mach[i], fs.gamma[i]).temperatureRatio * tt;
    var a := fs.gamma[i] * fs.gasConstant[i] * t;
    var s := lib.sqrt(a);
    assert s >= 0.0 && s * s == a;
    assert (s * fs.mach[i]) * (s * fs.mach[i]) == (s * s) * (fs.mach[i] * fs.mach[i]);
    if fs.mach[i] >= 0.0 {
      NonNegativeProduct(s, fs.mach[i]);
    }
  }

  /** The subsonic-branch Mach number of every point from a mass-flow function. */
  function SubsonicMach(lib: Library, gamma: seq<real>, f: seq<real>): (r: seq<real>)
    requires |gamma| == |f|
    ensures |r| == |f|
  {
    seq(|f|, i requires 0 <= i < |f| => lib.getM(f[i], gamma[i], 1))
  }

  /** x[i] * y[i] at every point. */
  function Products(x: seq<real>, y: seq<real>): (r: seq<real>)
    requires |x| == |y|
    ensures |r| == |x|
  {
    seq(|x|, i requires 0 <= i < |x| => x[i] * y[i])
  }

  /** f * num / den: a mass-flow function carried from one area to another. */
  function Scaled(f: real, num: real, den: real): real
    requires den > 0.0
  {
    f * num / den
  }

  /** f[i] * num / den at every point. */
  function Rescaled(f: seq<real>, num: real, den: real): (r: seq<real>)
    requires den > 0.0
    ensures |r| == |f|
  {
    seq(|f|, i requires 0 <= i < |f| => Scaled(f[i], num, den))
  }

  /** The isentropic mass-flow function of every point at its given Mach number. */
  function AreaFunctions(lib: Library, gamma: seq<real>, mach: seq<real>): (r: seq<real>)
    requires |gamma| == |mach|
    ensures |r| == |mach|
  {
    seq(|mach|, i requires 0 <= i < |mach| => lib.isentropic(mach[i], gamma[i]).areaRatio)
  }

  /** The static temperature of every point from its Mach number and stagnation temperature. */
  function StaticTemperature(lib: Library, gamma: seq<real>, mach: seq<real>, tts: seq<real>): (r: seq<real>)
    requires |gamma| == |mach| == |tts|
    ensures |r| == |mach|
  {
    seq(|mach|, i requires 0 <= i < |mach| => lib.isentropic(mach[i], gamma[i]).temperatureRatio * tts[i])
  }

  /** The normal shock at the freestream Mach number of every point. */
  function Shocks(lib: Library, fs: Freestream): (r: seq<ShockRatios>)
    requires fs.WellFormed()
    ensures |r| == fs.Size()
  {
    seq(fs.Size(), i requires 0 <= i < fs.Size() => lib.normalShock(fs.mach[i], fs.gamma[i]))
  }

  /** The downstream Mach number of each shock. */
  function ShockMachs(sh: seq<ShockRatios>): (r: seq<real>)
    ensures |r| == |sh|
  {
    seq(|sh|, i requires 0 <= i < |sh| => sh[i].mach)
  }

  /** The static-pressure ratio of each shock. */
  function ShockPressureRatios(sh: seq<ShockRatios>): (r: seq<real>)
    ensures |r| == |sh|
  {
    seq(|sh|, i requires 0 <= i < |sh| => sh[i].pressureRatio)
  }

  /** The static-temperature ratio of each shock. */
  function ShockTemperatureRatios(sh: seq<ShockRatios>): (r: seq<real>)
    ensures |r| == |sh|
  {
    seq(|sh|, i requires 0 <= i < |sh| => sh[i].temperatureRatio)
  }

  /** The stagnation-pressure ratio of each shock. */
  function ShockStagnationPressureRatios(sh: seq<ShockRatios>): (r: seq<real>)
    ensures |r| == |sh|
  {
    seq(|sh|, i requires 0 <= i < |sh| => sh[i].stagnationPressureRatio)
  }

  /** The contents of the nine work arrays Pt_out, f_ME, Mach, T_out, MC, Pr_c,
      Tr_c, Ptr_c and f_MC. */
  datatype Columns = Columns(
    pt: seq<real>, fME: seq<real>, mach: seq<real>, t: seq<real>,
    mc: seq<real>, prC: seq<real>, trC: seq<real>, ptrC: seq<real>, fMC: seq<real>)
  {
    predicate HasSize(n: nat)
    {
      |pt| == |fME| == |mach| == |t| == |mc| == |prC| == |trC| == |ptrC| == |fMC| == n
    }

    /** The state of point i across the nine arrays. */
    function At(i: nat): Station
      requires HasSize(|pt|) && i < |pt|
    {
      Station(pt[i], fME[i], mach[i], t[i], mc[i], prC[i], trC[i], ptrC[i], fMC[i])
    }
  }

  /** n copies of 1.0, the contents of `np.ones_like`. */
  function Ones(n: nat): (r: seq<real>)
    ensures |r| == n && forall i :: 0 <= i < n ==> r[i] == 1.0
  {
    seq(n, i => 1.0)
  }

  /** The nine work arrays as `np.ones_like` leaves them. */
  function Initial(n: nat): (c: Columns)
    ensures c.HasSize(n)
  {
    Columns(Ones(n), Ones(n), Ones(n), Ones(n), Ones(n), Ones(n), Ones(n), Ones(n), Ones(n))
  }

  /** What the no-shock block does to the arrays: on the points of m, Pt_out gets
      Pt_in, f_ME the isentropic engine-face function, then Mach and T_out follow. */
  function NoShockColumns(lib: Library, fs: Freestream, tts: seq<real>, pts: seq<real>, capture: real,
                          m: seq<bool>, c: Columns): (d: Columns)
    requires fs.WellFormed() && |tts| == |pts| == |m| == fs.Size() && capture > 0.0 && c.HasSize(fs.Size())
    ensures d.HasSize(fs.Size())
  {
    var fME := Select(m, StationFunctions(lib, fs, capture), c.fME);
    var mach := Select(m, SubsonicMach(lib, fs.gamma, fME), c.mach);
    c.(pt := Select(m, pts, c.pt), fME := fME, mach := mach, t := Select(m, StaticTemperature(lib, fs.gamma, mach, tts), c.t))
  }

  /** What a shocked block does to the arrays: on the points of m, the normal-shock
      ratios, then Pt_out = Ptr_c * Pt_in, f_MC from MC, f_ME = f_MC * AC / AE,
      Mach and T_out. */
  function ShockColumns(lib: Library, fs: Freestream, tts: seq<real>, pts: seq<real>, capture: real, throat: real,
                        m: seq<bool>, c: Columns): (d: Columns)
    requires fs.WellFormed() && |tts| == |pts| == |m| == fs.Size() && capture > 0.0 && throat > 0.0
    requires c.HasSize(fs.Size())
    ensures d.HasSize(fs.Size())
  {
    var sh := Shocks(lib, fs);
    var mc := Select(m, ShockMachs(sh), c.mc);
    var ptrC := Select(m, ShockStagnationPressureRatios(sh), c.ptrC);
    var fMC := Select(m, AreaFunctions(lib, fs.gamma, mc), c.fMC);
    var fME := Select(m, Rescaled(fMC, throat, capture), c.fME);
    var mach := Select(m, SubsonicMach(lib, fs.gamma, fME), c.mach);
    Columns(
      Select(m, Products(ptrC, pts), c.pt), fME, mach, Select(m, StaticTemperature(lib, fs.gamma, mach, tts), c.t),
      mc, Select(m, ShockPressureRatios(sh), c.prC), Select(m, ShockTemperatureRatios(sh), c.trC), ptrC, fMC)
  }

  /** The three blocks in the source's order, from the given initial arrays. */
  function AllBlocks(lib: Library, fs: Freestream, tts: seq<real>, pts: seq<real>, capture: real, throat: real,
                     c: Columns): (d: Columns)
    requires fs.WellFormed() && |tts| == |pts| == fs.Size() && capture > 0.0 && throat > 0.0
    requires c.HasSize(fs.Size())
    ensures d.HasSize(fs.Size())
  {
    var masks := RegimeMasks(fs.mach, StationFunctions(lib, fs, throat));
    var c1 := NoShockColumns(lib, fs, tts, pts, capture, masks.subNoShock, c);
    var c2 := ShockColumns(lib, fs, tts, pts, capture, throat, masks.subShock, c1);
    ShockColumns(lib, fs, tts, pts, capture, throat, masks.sup, c2)
  }

  /** Two column sets that agree at every point are equal. */
  lemma ColumnsExtensional(c: Columns, d: Columns, n: nat)
    requires c.HasSize(n) && d.HasSize(n)
    requires forall i :: 0 <= i < n ==> c.At(i) == d.At(i)
    ensures c == d
  {
    forall i | 0 <= i < n
      ensures c.pt[i] == d.pt[i] && c.fME[i] == d.fME[i] && c.mach[i] == d.mach[i] && c.t[i] == d.t[i]
      ensures c.mc[i] == d.mc[i] && c.prC[i] == d.prC[i] && c.trC[i] == d.trC[i]
      ensures c.ptrC[i] == d.ptrC[i] && c.fMC[i] == d.fMC[i]
    {
      assert c.At(i) == d.At(i);
    }
  }

  /** The no-shock block writes exactly the points of its mask, each with its
      no-shock state, and leaves every other point as it was. */
  lemma NoShockColumnsAt(lib: Library, fs: Freestream, tts: seq<real>, pts: seq<real>, capture: real,
                         m: seq<bool>, c: Columns)
    requires fs.WellFormed() && |tts| == |pts| == |m| == fs.Size() && capture > 0.0 && c.HasSize(fs.Size())
    ensures forall i :: 0 <= i < fs.Size() ==>
      NoShockColumns(lib, fs, tts, pts, capture, m, c).At(i)
        == if m[i] then NoShockState(lib, fs, i, tts[i], pts[i], capture, c.At(i)) else c.At(i)
  {
    var d := NoShockColumns(lib, fs, tts, pts, capture, m, c);
    forall i | 0 <= i < fs.Size()
      ensures d.At(i) == if m[i] then NoShockState(lib, fs, i, tts[i], pts[i], capture, c.At(i)) else c.At(i)
    {
      assert StationFunctions(lib, fs, capture)[i] == StationFunction(lib, fs, i, capture);
    }
  }

  /** A shocked block writes exactly the points of its mask, each with its
      shocked state, and leaves every other point as it was. */
  lemma ShockColumnsAt(lib: Library, fs: Freestream, tts: seq<real>, pts: seq<real>, capture: real, throat: real,
                       m: seq<bool>, c: Columns)
    requires fs.WellFormed() && |tts| == |pts| == |m| == fs.Size() && capture > 0.0 && throat > 0.0
    requires c.HasSize(fs.Size())
    ensures forall i :: 0 <= i < fs.Size() ==>
      ShockColumns(lib, fs, tts, pts, capture, throat, m, c).At(i)
        == if m[i] then ShockState(lib, fs, i, tts[i], pts[i], capture, throat) else c.At(i)
  {
    var d := ShockColumns(lib, fs, tts, pts, capture, throat, m, c);
    var sh := Shocks(lib, fs);
    forall i | 0 <= i < fs.Size()
      ensures d.At(i) == if m[i] then ShockState(lib, fs, i, tts[i], pts[i], capture, throat) else c.At(i)
    {
      if m[i] {
        assert sh[i] == lib.normalShock(fs.mach[i], fs.gamma[i]);
        assert d.mc[i] == sh[i].mach && d.ptrC[i] == sh[i].stagnationPressureRatio;
        assert d.fMC[i] == lib.isentropic(sh[i].mach, fs.gamma[i]).areaRatio;
        assert d.fME[i] == Scaled(d.fMC[i], throat, capture);
        assert d.mach[i] == lib.getM(d.fME[i], fs.gamma[i], 1);
        assert d.pt[i] == sh[i].stagnationPressureRatio * pts[i];
        assert d.t[i] == lib.isentropic(d.mach[i], fs.gamma[i]).temperatureRatio * tts[i];
        assert d.prC[i] == sh[i].pressureRatio && d.trC[i] == sh[i].temperatureRatio;
      } else {
        assert d.pt[i] == c.pt[i] && d.fME[i] == c.fME[i] && d.mach[i] == c.mach[i] && d.t[i] == c.t[i];
        assert d.mc[i] == c.mc[i] && d.prC[i] == c.prC[i] && d.trC[i] == c.trC[i];
        assert d.ptrC[i] == c.ptrC[i] && d.fMC[i] == c.fMC[i];
      }
    }
  }

  /** After the three blocks, every point holds the engine-face state of its
      regime; the initial ones survive only in MC, Pr_c, Tr_c, Ptr_c and f_MC
      of no-shock points, where EngineFaceAt keeps them too. */
  lemma {:induction false} AllBlocksComputeEngineFace(lib: Library, fs: Freestream, tts: seq<real>, pts: seq<real>, capture: real, throat: real)
    requires fs.WellFormed() && |tts| == |pts| == fs.Size() && capture > 0.0 && throat > 0.0
    ensures forall i :: 0 <= i < fs.Size() ==>
      AllBlocks(lib, fs, tts, pts, capture, throat, Initial(fs.Size())).At(i) == EngineFaceAt(lib, fs, i, tts[i], pts[i], capture, throat)
  {
    var n := fs.Size();
    var masks := RegimeMasks(fs.mach, StationFunctions(lib, fs, throat));
    var c0 := Initial(n);
    var c1 := NoShockColumns(lib, fs, tts, pts, capture, masks.subNoShock, c0);
    var c2 := ShockColumns(lib, fs, tts, pts, capture, throat, masks.subShock, c1);
    NoShockColumnsAt(lib, fs, tts, pts, capture, masks.subNoShock, c0);
    ShockColumnsAt(lib, fs, tts, pts, capture, throat, masks.subShock, c1);
    ShockColumnsAt(lib, fs, tts, pts, capture, throat, masks.sup, c2);
    forall i | 0 <= i < n
      ensures AllBlocks(lib, fs, tts, pts, capture, throat, c0).At(i) == EngineFaceAt(lib, fs, i, tts[i], pts[i], capture, throat)
    {
      assert StationFunctions(lib, fs, throat)[i] == StationFunction(lib, fs, i, throat);
      assert c0.At(i) == Placeholder;
    }
  }

  /** The no-shock block and a shocked block on disjoint masks can run in either
      order. */
  lemma {:induction false} NoShockShockCommute(lib: Library, fs: Freestream, tts: seq<real>, pts: seq<real>, capture: real, throat: real,
                                               m1: seq<bool>, m2: seq<bool>, c: Columns)
    requires fs.WellFormed() && |tts| == |pts| == |m1| == |m2| == fs.Size() && capture > 0.0 && throat > 0.0
    requires c.HasSize(fs.Size()) && Disjoint(m1, m2)
    ensures ShockColumns(lib, fs, tts, pts, capture, throat, m2, NoShockColumns(lib, fs, tts, pts, capture, m1, c))
         == NoShockColumns(lib, fs, tts, pts, capture, m1, ShockColumns(lib, fs, tts, pts, capture, throat, m2, c))
  {
    var a1 := NoShockColumns(lib, fs, tts, pts, capture, m1, c);
    var b1 := ShockColumns(lib, fs, tts, pts, capture, throat, m2, c);
    var a := ShockColumns(lib, fs, tts, pts, capture, throat, m2, a1);
    var b := NoShockColumns(lib, fs, tts, pts, capture, m1, b1);
    NoShockColumnsAt(lib, fs, tts, pts, capture, m1, c);
    ShockColumnsAt(lib, fs, tts, pts, capture, throat, m2, c);
    ShockColumnsAt(lib, fs, tts, pts, capture, throat, m2, a1);
    NoShockColumnsAt(lib, fs, tts, pts, capture, m1, b1);
    forall i | 0 <= i < fs.Size() ensures a.At(i) == b.At(i) {
      assert !(m1[i] && m2[i]);
    }
    ColumnsExtensional(a, b, fs.Size());
  }

  /** Two shocked blocks on disjoint masks can run in either order. */
  lemma {:induction false} ShockShockCommute(lib: Library, fs: Freestream, tts: seq<real>, pts: seq<real>, capture: real, throat: real,
                                             m1: seq<bool>, m2: seq<bool>, c: Columns)
    requires fs.WellFormed() && |tts| == |pts| == |m1| == |m2| == fs.Size() && capture > 0.0 && throat > 0.0
    requires c.HasSize(fs.Size()) && Disjoint(m1, m2)
    ensures ShockColumns(lib, fs, tts, pts, capture, throat, m2, ShockColumns(lib, fs, tts, pts, capture, throat, m1, c))
         == ShockColumns(lib, fs, tts, pts, capture, throat, m1, ShockColumns(lib, fs, tts, pts, capture, throat, m2, c))
  {
    var a1 := ShockColumns(lib, fs, tts, pts, capture, throat, m1, c);
    var b1 := ShockColumns(lib, fs, tts, pts, capture, throat, m2, c);
    var a := ShockColumns(lib, fs, tts, pts, capture, throat, m2, a1);
    var b := ShockColumns(lib, fs, tts, pts, capture, throat, m1, b1);
    ShockColumnsAt(lib, fs, tts, pts, capture, throat, m1, c);
    ShockColumnsAt(lib, fs, tts, pts, capture, throat, m2, c);
    ShockColumnsAt(lib, fs, tts, pts, capture, throat, m2, a1);
    ShockColumnsAt(lib, fs, tts, pts, capture, throat, m1, b1);
    forall i | 0 <= i < fs.Size() ensures a.At(i) == b.At(i) {
      assert !(m1[i] && m2[i]);
    }
    ColumnsExtensional(a, b, fs.Size());
  }

  /** The regime masks are pairwise disjoint, so the three blocks of `compute`
      give the same arrays in every order. */
  lemma {:induction false} AllBlocksAnyOrder(lib: Library, fs: Freestream, tts: seq<real>, pts: seq<real>, capture: real, throat: real,
                                             c: Columns)
    requires fs.WellFormed() && |tts| == |pts| == fs.Size() && capture > 0.0 && throat > 0.0
    requires c.HasSize(fs.Size())
    ensures var m := RegimeMasks(fs.mach, StationFunctions(lib, fs, throat));
      && AllBlocks(lib, fs, tts, pts, capture, throat, c)
         == ShockColumns(lib, fs, tts, pts, capture, throat, m.subShock,
              ShockColumns(lib, fs, tts, pts, capture, throat, m.sup, NoShockColumns(lib, fs, tts, pts, capture, m.subNoShock, c)))
      && AllBlocks(lib, fs, tts, pts, capture, throat, c)
         == NoShockColumns(lib, fs, tts, pts, capture, m.subNoShock,
              ShockColumns(lib, fs, tts, pts, capture, throat, m.sup, ShockColumns(lib, fs, tts, pts, capture, throat, m.subShock, c)))
      && AllBlocks(lib, fs, tts, pts, capture, throat, c)
         == ShockColumns(lib, fs, tts, pts, capture, throat, m.sup,
              NoShockColumns(lib, fs, tts, pts, capture, m.subNoShock, ShockColumns(lib, fs, tts, pts, capture, throat, m.subShock, c)))
      && AllBlocks(lib, fs, tts, pts, capture, throat, c)
         == ShockColumns(lib, fs, tts, pts, capture, throat, m.subShock,
              NoShockColumns(lib, fs, tts, pts, capture, m.subNoShock, ShockColumns(lib, fs, tts, pts, capture, throat, m.sup, c)))
      && AllBlocks(lib, fs, tts, pts, capture, throat, c)
         == NoShockColumns(lib, fs, tts, pts, capture, m.subNoShock,
              ShockColumns(lib, fs, tts, pts, capture, throat, m.subShock, ShockColumns(lib, fs, tts, pts, capture, throat, m.sup, c)))
  {
    var m := RegimeMasks(fs.mach, StationFunctions(lib, fs, throat));
    assert Disjoint(m.subNoShock, m.subShock) && Disjoint(m.subNoShock, m.sup) && Disjoint(m.subShock, m.sup) by {
      forall i | 0 <= i < fs.Size() ensures !(m.subNoShock[i] && m.subShock[i]) && !(m.subNoShock[i] && m.sup[i]) && !(m.subShock[i] && m.sup[i]) {
        assert ExactlyOne(m.subShock[i], m.subNoShock[i], m.sup[i]);
      }
    }
    var c1 := NoShockColumns(lib, fs, tts, pts, capture, m.subNoShock, c);
    // No-shock, sub-shock, supersonic  ==  no-shock, supersonic, sub-shock.
    ShockShockCommute(lib, fs, tts, pts, capture, throat, m.subShock, m.sup, c1);
    // No-shock, sub-shock, ...  ==  sub-shock, no-shock, ...
    NoShockShockCommute(lib, fs, tts, pts, capture, throat, m.subNoShock, m.subShock, c);
    var s1 := ShockColumns(lib, fs, tts, pts, capture, throat, m.subShock, c);
    NoShockShockCommute(lib, fs, tts, pts, capture, throat, m.subNoShock, m.sup, s1);
    // Supersonic first: move it past the no-shock block, or past the sub-shock block.
    NoShockShockCommute(lib, fs, tts, pts, capture, throat, m.subNoShock, m.sup, c);
    ShockShockCommute(lib, fs, tts, pts, capture, throat, m.subShock, m.sup, c);
  }

  /** No placeholder survives in Pt_out, f_ME, Mach or T_out: once the three
      blocks have run, those arrays are the same whatever they started as. */
  lemma {:induction false} AllBlocksOverwritePlaceholders(lib: Library, fs: Freestream, tts: seq<real>, pts: seq<real>, capture: real, throat: real,
                                                          c: Columns, c': Columns)
    requires fs.WellFormed() && |tts| == |pts| == fs.Size() && capture > 0.0 && throat > 0.0
    requires c.HasSize(fs.Size()) && c'.HasSize(fs.Size())
    ensures var d, d' := AllBlocks(lib, fs, tts, pts, capture, throat, c), AllBlocks(lib, fs, tts, pts, capture, throat, c');
      d.pt == d'.pt && d.fME == d'.fME && d.mach == d'.mach && d.t == d'.t
  {
    var m := RegimeMasks(fs.mach, StationFunctions(lib, fs, throat));
    var d, d' := AllBlocks(lib, fs, tts, pts, capture, throat, c), AllBlocks(lib, fs, tts, pts, capture, throat, c');
    NoShockColumnsAt(lib, fs, tts, pts, capture, m.subNoShock, c);
    NoShockColumnsAt(lib, fs, tts, pts, capture, m.subNoShock, c');
    var c1 := NoShockColumns(lib, fs, tts, pts, capture, m.subNoShock, c);
    var c1' := NoShockColumns(lib, fs, tts, pts, capture, m.subNoShock, c');
    ShockColumnsAt(lib, fs, tts, pts, capture, throat, m.subShock, c1);
    ShockColumnsAt(lib, fs, tts, pts, capture, throat, m.subShock, c1');
    var c2 := ShockColumns(lib, fs, tts, pts, capture, throat, m.subShock, c1);
    var c2' := ShockColumns(lib, fs, tts, pts, capture, throat, m.subShock, c1');
    ShockColumnsAt(lib, fs, tts, pts, capture, throat, m.sup, c2);
    ShockColumnsAt(lib, fs, tts, pts, capture, throat, m.sup, c2');
    forall i | 0 <= i < fs.Size()
      ensures d.pt[i] == d'.pt[i] && d.fME[i] == d'.fME[i] && d.mach[i] == d'.mach[i] && d.t[i] == d'.t[i]
    {
      assert ExactlyOne(m.subShock[i], m.subNoShock[i], m.sup[i]);
      assert d.At(i).stagnationPressure == d.pt[i] && d'.At(i).stagnationPressure == d'.pt[i];
    }
  }

  /** A new array of n ones, `np.ones_like`. */
  method OnesArray(n: nat) returns (a: array<real>)
    ensures fresh(a) && a[..] == Ones(n)
  {
    a := new real[n](_ => 1.0);
  }

  /** The nine work arrays of `compute`. They are distinct arrays of one length. */
  class EngineFaceArrays {
    const n: nat
    const ptOut: array<real>
    const fME: array<real>
    const mach: array<real>
    const tOut: array<real>
    const mc: array<real>
    const prC: array<real>
    const trC: array<real>
    const ptrC: array<real>
    const fMC: array<real>

    ghost predicate Valid()
      reads this
    {
      && ptOut.Length == fME.Length == mach.Length == tOut.Length == n
      && mc.Length == prC.Length == trC.Length == ptrC.Length == fMC.Length == n
      && ptOut != fME && ptOut != mach && ptOut != tOut && fME != mach && fME != tOut && mach != tOut
      && mc != prC && mc != trC && mc != ptrC && prC != trC && prC != ptrC && trC != ptrC
      && ptOut != fMC && fME != fMC && mach != fMC && tOut != fMC
      && {ptOut, fME, mach, tOut, fMC} !! {mc, prC, trC, ptrC}
    }

    ghost function Contents(): (c: Columns)
      reads this, ptOut, fME, mach, tOut, mc, prC, trC, ptrC, fMC
      requires Valid()
      ensures c.HasSize(n)
    {
      Columns(ptOut[..], fME[..], mach[..], tOut[..], mc[..], prC[..], trC[..], ptrC[..], fMC[..])
    }

    /** `np.ones_like(M0)`, nine times. */
    constructor (n: nat)
      ensures this.n == n && Valid() && Contents() == Initial(n)
      ensures fresh(ptOut) && fresh(fME) && fresh(mach) && fresh(tOut) && fresh(fMC)
      ensures fresh(mc) && fresh(prC) && fresh(trC) && fresh(ptrC)
    {
      this.n := n;
      var ptOut' := OnesArray(n);
      var fME' := OnesArray(n);
      var mach' := OnesArray(n);
      var tOut' := OnesArray(n);
      var mc' := OnesArray(n);
      var prC' := OnesArray(n);
      var trC' := OnesArray(n);
      var ptrC' := OnesArray(n);
      var fMC' := OnesArray(n);
      ptOut, fME, mach, tOut, mc := ptOut', fME', mach', tOut', mc';
      prC, trC, ptrC, fMC := prC', trC', ptrC', fMC';
    }

    /** Lines of the subsonic no-shock block, on the points of m. */
    method NoShockBlock(lib: Library, fs: Freestream, tts: seq<real>, pts: seq<real>, capture: real, m: seq<bool>)
      requires Valid() && fs.WellFormed() && fs.Size() == n && |tts| == |pts| == |m| == n && capture > 0.0
      modifies ptOut, fME, mach, tOut
      ensures Contents() == NoShockColumns(lib, fs, tts, pts, capture, m, old(Contents()))
    {
      MaskedAssign(ptOut, m, pts);
      MaskedAssign(fME, m, StationFunctions(lib, fs, capture));
      MaskedAssign(mach, m, SubsonicMach(lib, fs.gamma, fME[..]));
      MaskedAssign(tOut, m, StaticTemperature(lib, fs.gamma, mach[..], tts));
    }

    /** Lines of a shocked block, on the points of m. */
    method ShockBlock(lib: Library, fs: Freestream, tts: seq<real>, pts: seq<real>, capture: real, throat: real, m: seq<bool>)
      requires Valid() && fs.WellFormed() && fs.Size() == n && |tts| == |pts| == |m| == n && capture > 0.0 && throat > 0.0
      modifies ptOut, fME, mach, tOut, mc, prC, trC, ptrC, fMC
      ensures Contents() == ShockColumns(lib, fs, tts, pts, capture, throat, m, old(Contents()))
    {
      var shock := Shocks(lib, fs);
      MaskedAssign(mc, m, ShockMachs(shock));
      MaskedAssign(prC, m, ShockPressureRatios(shock));
      MaskedAssign(trC, m, ShockTemperatureRatios(shock));
      MaskedAssign(ptrC, m, ShockStagnationPressureRatios(shock));
      MaskedAssign(ptOut, m, Products(ptrC[..], pts));
      MaskedAssign(fMC, m, AreaFunctions(lib, fs.gamma, mc[..]));
      MaskedAssign(fME, m, Rescaled(fMC[..], throat, capture));
      MaskedAssign(mach, m, SubsonicMach(lib, fs.gamma, fME[..]));
      MaskedAssign(tOut, m, StaticTemperature(lib, fs.gamma, mach[..], tts));
    }
  }

  /** `compute`'s work arrays, allocated as ones and filled by the three
      regime-masked blocks (the two shocked blocks run the same statements);
      the result is what the arrays hold at the end. */
  method FillEngineFace(lib: Library, fs: Freestream, tts: seq<real>, pts: seq<real>, capture: real, throat: real)
    returns (st: seq<Station>)
    requires fs.WellFormed() && |tts| == |pts| == fs.Size() && capture > 0.0 && throat > 0.0
    ensures st == EngineFace(lib, fs, tts, pts, capture, throat)
  {
    var n := fs.Size();
    var masks := RegimeMasks(fs.mach, StationFunctions(lib, fs, throat));
    var w := new EngineFaceArrays(n);
    w.NoShockBlock(lib, fs, tts, pts, capture, masks.subNoShock);
    w.ShockBlock(lib, fs, tts, pts, capture, throat, masks.subShock);
    w.ShockBlock(lib, fs, tts, pts, capture, throat, masks.sup);
    AllBlocksComputeEngineFace(lib, fs, tts, pts, capture, throat);

    var c := Columns(w.ptOut[..], w.fME[..], w.mach[..], w.tOut[..], w.mc[..], w.prC[..], w.trC[..], w.ptrC[..], w.fMC[..]);
    assert c == AllBlocks(lib, fs, tts, pts, capture, throat, Initial(n));
    st := seq(n, i requires 0 <= i < n => c.At(i));
  }
}
