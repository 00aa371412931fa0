/**
 The additive (spillage) drag of `Pitot_Inlet.compute_drag`, after Nikolai's
 method: the inlet-entrance (station 1) state of each operating point by
 regime, the empirical correction factor K_add, and the drag coefficient and
 force built from them.
 */
module InletDrag {
  import opened GasDynamics
  import opened Batch
  import opened Regimes
  import opened FlightConditions
  import opened Polynomial
  import opened InletFlow

  /** Per point, what the four station-1 work arrays f_M1, Pr_1, P1 and M1 hold
      once the regime blocks have run. */
  datatype EntranceState = EntranceState(
    massFlowFunction: real,
    pressureRatio: real,
    pressure: real,
    mach: real)

  /** The station-1 state of point i once the no-shock block has written it over
      s: the isentropic mass-flow function at the entrance area, the subsonic
      Mach number it gives, and the static pressure from the stagnation pressure
      pt. Pr_1 is not touched. */
  function NoShockEntrance(lib: Library, fs: Freestream, i: nat, pt: real, entrance: real, s: EntranceState): EntranceState
    requires fs.WellFormed() && i < fs.Size() && entrance > 0.0
  {
    var fM1 := StationFunction(lib, fs, i, entrance);
    var m1 := lib.getM(fM1, fs.gamma[i], 1);
    s.(massFlowFunction := fM1, mach := m1, pressure := lib.isentropic(m1, fs.gamma[i]).pressureRatio * pt)
  }

  /** The station-1 state of point i once a shocked block has written it over s:
      the Mach number and static-pressure ratio behind a normal shock at the
      freestream Mach number, and the pressure that ratio gives from P_inf.
      f_M1 is not touched. */
  function ShockEntrance(lib: Library, fs: Freestream, i: nat, s: EntranceState): EntranceState
    requires fs.WellFormed() && i < fs.Size()
  {
    var shock := lib.normalShock(fs.mach[i], fs.gamma[i]);
    s.(mach := shock.mach, pressureRatio := shock.pressureRatio, pressure := shock.pressureRatio * fs.pressure[i])
  }

  /** A point no block has written yet: the four arrays start as ones. */
  const EntrancePlaceholder := EntranceState(1.0, 1.0, 1.0, 1.0)

  /** The station-1 state of point i, with the regime judged at the throat. */
  function EntranceAt(lib: Library, fs: Freestream, i: nat, pt: real, entrance: real, throat: real): EntranceState
    requires fs.WellFormed() && i < fs.Size() && entrance > 0.0 && throat > 0.0
  {
    if RegimeAt(lib, fs, i, throat) == SubsonicNoShock then NoShockEntrance(lib, fs, i, pt, entrance, EntrancePlaceholder)
    else ShockEntrance(lib, fs, i, EntrancePlaceholder)
  }

  /** The station-1 states of a whole batch. */
  function Entrance(lib: Library, fs: Freestream, pts: seq<real>, entrance: real, throat: real): (r: seq<EntranceState>)
    requires fs.WellFormed() && |pts| == fs.Size() && entrance > 0.0 && throat > 0.0
    ensures |r| == fs.Size()
  {
    seq(fs.Size(), i requires 0 <= i < fs.Size() => EntranceAt(lib, fs, i, pts[i], entrance, throat))
  }

  /** Without a shock, Pr_1 keeps its initial 1 and P1 is the isentropic static
      pressure at M1; with one, f_M1 keeps its initial 1, M1 and Pr_1 are the
      normal-shock values and P1 = Pr_1 * P_inf. */
  lemma EntranceByRegime(lib: Library, fs: Freestream, i: nat, pt: real, entrance: real, throat: real)
    requires fs.WellFormed() && i < fs.Size() && entrance > 0.0 && throat > 0.0
    ensures var e := EntranceAt(lib, fs, i, pt, entrance, throat);
      var shock := lib.normalShock(fs.mach[i], fs.gamma[i]);
      if RegimeAt(lib, fs, i, throat) == SubsonicNoShock then
        && e.pressureRatio == 1.0
        && e.massFlowFunction == FreestreamFunction(lib, fs, i) * fs.streamtubeArea[i] / entrance
        && e.mach == lib.getM(e.massFlowFunction, fs.gamma[i], 1)
        && e.pressure == lib.isentropic(e.mach, fs.gamma[i]).pressureRatio * pt
      else
        && e.massFlowFunction == 1.0
        && e.mach == shock.mach && e.pressureRatio == shock.pressureRatio
        && e.pressure == e.pressureRatio * fs.pressure[i]
  {
    assert StationFunction(lib, fs, i, entrance) == FreestreamFunction(lib, fs, i) * fs.streamtubeArea[i] / entrance;
  }

  /** The contents of the four work arrays f_M1, Pr_1, P1 and M1. */
  datatype EntranceColumns = EntranceColumns(fM1: seq<real>, pr1: seq<real>, p1: seq<real>, m1: seq<real>)
  {
    predicate HasSize(n: nat)
    {
      |fM1| == |pr1| == |p1| == |m1| == n
    }

    /** The state of point i across the four arrays. */
    function At(i: nat): EntranceState
      requires HasSize(|fM1|) && i < |fM1|
    {
      EntranceState(fM1[i], pr1[i], p1[i], m1[i])
    }
  }

  /** The four arrays as `np.ones_like` leaves them. */
  function EntranceInitial(n: nat): (c: EntranceColumns)
    ensures c.HasSize(n)
  {
    EntranceColumns(Ones(n), Ones(n), Ones(n), Ones(n))
  }

  /** The isentropic static pressure of every point from its Mach number and
      stagnation pressure. */
  function StaticPressures(lib: Library, gamma: seq<real>, mach: seq<real>, pts: seq<real>): (r: seq<real>)
    requires |gamma| == |mach| == |pts|
    ensures |r| == |mach|
  {
    seq(|mach|, i requires 0 <= i < |mach| => lib.isentropic(mach[i], gamma[i]).pressureRatio * pts[i])
  }

  /** What the no-shock block does to the arrays: f_M1, then M1, then P1 on the
      points of m. */
  function NoShockEntranceColumns(lib: Library, fs: Freestream, pts: seq<real>, entrance: real,
                                  m: seq<bool>, c: EntranceColumns): (d: EntranceColumns)
    requires fs.WellFormed() && |pts| == |m| == fs.Size() && entrance > 0.0 && c.HasSize(fs.Size())
    ensures d.HasSize(fs.Size())
  {
    var fM1 := Select(m, StationFunctions(lib, fs, entrance), c.fM1);
    var m1 := Select(m, SubsonicMach(lib, fs.gamma, fM1), c.m1);
    c.(fM1 := fM1, m1 := m1, p1 := Select(m, StaticPressures(lib, fs.gamma, m1, pts), c.p1))
  }

  /** What a shocked block does to the arrays: M1 and Pr_1 from the normal
      shock, then P1 = Pr_1 * P_inf, on the points of m. */
  function ShockEntranceColumns(lib: Library, fs: Freestream, m: seq<bool>, c: EntranceColumns): (d: EntranceColumns)
    requires fs.WellFormed() && |m| == fs.Size() && c.HasSize(fs.Size())
    ensures d.HasSize(fs.Size())
  {
    var sh := Shocks(lib, fs);
    var pr1 := Select(m, ShockPressureRatios(sh), c.pr1);
    c.(m1 := Select(m, ShockMachs(sh), c.m1), pr1 := pr1, p1 := Select(m, Products(pr1, fs.pressure), c.p1))
  }

  /** The three blocks of `compute_drag` in the source's order. */
  function EntranceBlocks(lib: Library, fs: Freestream, pts: seq<real>, entrance: real, throat: real,
                          c: EntranceColumns): (d: EntranceColumns)
    requires fs.WellFormed() && |pts| == fs.Size() && entrance > 0.0 && throat > 0.0 && c.HasSize(fs.Size())
    ensures d.HasSize(fs.Size())
  {
    var masks := RegimeMasks(fs.mach, StationFunctions(lib, fs, throat));
    var c1 := NoShockEntranceColumns(lib, fs, pts, entrance, masks.subNoShock, c);
    var c2 := ShockEntranceColumns(lib, fs, masks.subShock, c1);
    ShockEntranceColumns(lib, fs, masks.sup, c2)
  }

  /** The no-shock block writes exactly the points of its mask. */
  lemma NoShockEntranceColumnsAt(lib: Library, fs: Freestream, pts: seq<real>, entrance: real,
                                 m: seq<bool>, c: EntranceColumns)
    requires fs.WellFormed() && |pts| == |m| == fs.Size() && entrance > 0.0 && c.HasSize(fs.Size())
    ensures forall i :: 0 <= i < fs.Size() ==>
      NoShockEntranceColumns(lib, fs, pts, entrance, m, c).At(i)
        == if m[i] then NoShockEntrance(lib, fs, i, pts[i], entrance, c.At(i)) else c.At(i)
  {
    var d := NoShockEntranceColumns(lib, fs, pts, entrance, m, c);
    forall i | 0 <= i < fs.Size()
      ensures d.At(i) == if m[i] then NoShockEntrance(lib, fs, i, pts[i], entrance, c.At(i)) else c.At(i)
    {
      assert StationFunctions(lib, fs, entrance)[i] == StationFunction(lib, fs, i, entrance);
    }
  }

  /** A shocked block writes exactly the points of its mask. */
  lemma ShockEntranceColumnsAt(lib: Library, fs: Freestream, m: seq<bool>, c: EntranceColumns)
    requires fs.WellFormed() && |m| == fs.Size() && c.HasSize(fs.Size())
    ensures forall i :: 0 <= i < fs.Size() ==>
      ShockEntranceColumns(lib, fs, m, c).At(i) == if m[i] then ShockEntrance(lib, fs, i, c.At(i)) else c.At(i)
  {
  }

  /** From ones, the three blocks leave every point in its station-1 state. */
  lemma {:induction false} EntranceBlocksComputeEntrance(lib: Library, fs: Freestream, pts: seq<real>, entrance: real, throat: real)
    requires fs.WellFormed() && |pts| == fs.Size() && entrance > 0.0 && throat > 0.0
    ensures forall i :: 0 <= i < fs.Size() ==>
      EntranceBlocks(lib, fs, pts, entrance, throat, EntranceInitial(fs.Size())).At(i)
        == EntranceAt(lib, fs, i, pts[i], entrance, throat)
  {
    var n := fs.Size();
    var masks := RegimeMasks(fs.mach, StationFunctions(lib, fs, throat));
    var c0 := EntranceInitial(n);
    var c1 := NoShockEntranceColumns(lib, fs, pts, entrance, masks.subNoShock, c0);
    var c2 := ShockEntranceColumns(lib, fs, masks.subShock, c1);
    NoShockEntranceColumnsAt(lib, fs, pts, entrance, masks.subNoShock, c0);
    ShockEntranceColumnsAt(lib, fs, masks.subShock, c1);
    ShockEntranceColumnsAt(lib, fs, masks.sup, c2);
    forall i | 0 <= i < n
      ensures EntranceBlocks(lib, fs, pts, entrance, throat, c0).At(i) == EntranceAt(lib, fs, i, pts[i], entrance, throat)
    {
      assert StationFunctions(lib, fs, throat)[i] == StationFunction(lib, fs, i, throat);
      assert c0.At(i) == EntrancePlaceholder;
    }
  }

  /** The four work arrays of `compute_drag`, distinct and of one length. */
  class EntranceArrays {
    const n: nat
    const fM1: array<real>
    const pr1: array<real>
    const p1: array<real>
    const m1: array<real>

    ghost predicate Valid()
      reads this
    {
      && fM1.Length == pr1.Length == p1.Length == m1.Length == n
      && fM1 != pr1 && fM1 != p1 && fM1 != m1 && pr1 != p1 && pr1 != m1 && p1 != m1
    }

    ghost function Contents(): (c: EntranceColumns)
      reads this, fM1, pr1, p1, m1
      requires Valid()
      ensures c.HasSize(n)
    {
      EntranceColumns(fM1[..], pr1[..], p1[..], m1[..])
    }

    /** `np.ones_like(Tt_inf)`, four times. */
    constructor (n: nat)
      ensures this.n == n && Valid() && Contents() == EntranceInitial(n)
      ensures fresh(fM1) && fresh(pr1) && fresh(p1) && fresh(m1)
    {
      this.n := n;
      var fM1' := OnesArray(n);
      var pr1' := OnesArray(n);
      var p1' := OnesArray(n);
      var m1' := OnesArray(n);
      fM1, pr1, p1, m1 := fM1', pr1', p1', m1';
    }

    /** The subsonic no-shock block, on the points of m. */
    method NoShockBlock(lib: Library, fs: Freestream, pts: seq<real>, entrance: real, m: seq<bool>)
      requires Valid() && fs.WellFormed() && fs.Size() == n && |pts| == |m| == n && entrance > 0.0
      modifies fM1, p1, m1
      ensures Contents() == NoShockEntranceColumns(lib, fs, pts, entrance, m, old(Contents()))
    {
      MaskedAssign(fM1, m, StationFunctions(lib, fs, entrance));
      MaskedAssign(m1, m, SubsonicMach(lib, fs.gamma, fM1[..]));
      MaskedAssign(p1, m, StaticPressures(lib, fs.gamma, m1[..], pts));
    }

    /** A shocked block, on the points of m. */
    method ShockBlock(lib: Library, fs: Freestream, m: seq<bool>)
      requires Valid() && fs.WellFormed() && fs.Size() == n && |m| == n
      modifies pr1, p1, m1
      ensures Contents() == ShockEntranceColumns(lib, fs, m, old(Contents()))
    {
      var shock := Shocks(lib, fs);
      MaskedAssign(m1, m, ShockMachs(shock));
      MaskedAssign(pr1, m, ShockPressureRatios(shock));
      MaskedAssign(p1, m, Products(pr1[..], fs.pressure));
    }
  }

  /** `compute_drag`'s station-1 arrays, allocated as ones and filled by the three
      regime-masked blocks (the two shocked blocks run the same statements). */
  method FillEntrance(lib: Library, fs: Freestream, pts: seq<real>, entrance: real, throat: real)
    returns (en: seq<EntranceState>)
    requires fs.WellFormed() && |pts| == fs.Size() && entrance > 0.0 && throat > 0.0
    ensures en == Entrance(lib, fs, pts, entrance, throat)
  {
    var n := fs.Size();
    var masks := RegimeMasks(fs.mach, StationFunctions(lib, fs, throat));
    var w := new EntranceArrays(n);
    w.NoShockBlock(lib, fs, pts, entrance, masks.subNoShock);
    w.ShockBlock(lib, fs, masks.subShock);
    w.ShockBlock(lib, fs, masks.sup);
    EntranceBlocksComputeEntrance(lib, fs, pts, entrance, throat);

    var c := EntranceColumns(w.fM1[..], w.pr1[..], w.p1[..], w.m1[..]);
    assert c == EntranceBlocks(lib, fs, pts, entrance, throat, EntranceInitial(n));
    en := seq(n, i requires 0 <= i < n => c.At(i));
  }

  // The K_add correlation.

  /** Coefficients of c1, c2 and c3 as quartics in the freestream Mach number,
      highest power first. */
  const C1: seq<real> := [-18.89169518, 71.11608826, -98.78321794, 59.30401343, -12.54234863]
  const C2: seq<real> := [3.2614414, -15.37113363, 27.9247673, -20.70274059, 4.25466643]
  const C3: seq<real> := [4.83460478, -16.62737509, 20.6998037, -11.04366207, 2.73090033]

  /** K_add at freestream Mach number mach and area ratio r = A_inf / AC: the
      quadratic in r whose coefficients are the three Mach-number quartics. */
  function KAdd(mach: real, r: real): real
  {
    PolyVal([PolyVal(C1, mach), PolyVal(C2, mach), PolyVal(C3, mach)], r)
  }

  /** K_add in closed form: c1 r^2 + c2 r + c3, with each c_k the quartic in M
      with the literal coefficients above. */
  lemma KAddCorrelation(mach: real, r: real)
    ensures var c1 := -18.89169518 * Pow(mach, 4) + 71.11608826 * Pow(mach, 3) - 98.78321794 * Pow(mach, 2)
                      + 59.30401343 * mach - 12.54234863;
            var c2 := 3.2614414 * Pow(mach, 4) - 15.37113363 * Pow(mach, 3) + 27.9247673 * Pow(mach, 2)
                      - 20.70274059 * mach + 4.25466643;
            var c3 := 4.83460478 * Pow(mach, 4) - 16.62737509 * Pow(mach, 3) + 20.6998037 * Pow(mach, 2)
                      - 11.04366207 * mach + 2.73090033;
      KAdd(mach, r) == c1 * r * r + c2 * r + c3
  {
    var p4, p3, p2 := Pow(mach, 4), Pow(mach, 3), Pow(mach, 2);
    Quartic(-18.89169518, 71.11608826, -98.78321794, 59.30401343, -12.54234863, mach);
    Quartic(3.2614414, -15.37113363, 27.9247673, -20.70274059, 4.25466643, mach);
    Quartic(4.83460478, -16.62737509, 20.6998037, -11.04366207, 2.73090033, mach);
    var c1, c2, c3 := PolyVal(C1, mach), PolyVal(C2, mach), PolyVal(C3, mach);
    assert c1 == -18.89169518 * p4 + 71.11608826 * p3 - 98.78321794 * p2 + 59.30401343 * mach - 12.54234863;
    assert c2 == 3.2614414 * p4 - 15.37113363 * p3 + 27.9247673 * p2 - 20.70274059 * mach + 4.25466643;
    assert c3 == 4.83460478 * p4 - 16.62737509 * p3 + 20.6998037 * p2 - 11.04366207 * mach + 2.73090033;
    Quadratic(c1, c2, c3, r);
  }

  // The drag.

  /** The freestream dynamic pressure q_inf = rho v^2 / 2. */
  function DynamicPressure(lib: Library, fs: Freestream, i: nat, tt: real): real
    requires fs.WellFormed() && i < fs.Size()
  {
    var v := FreestreamSpeed(lib, fs, i, tt);
    0.5 * fs.density[i] * (v * v)
  }

  /** The additive-drag coefficient from the freestream pressure and dynamic
      pressure, the entrance and capture areas, the station-1 pressure and Mach
      number, and the captured streamtube area. */
  function DragCoefficient(pInf: real, q: real, a1: real, ac: real, p1: real, gamma: real, m1: real, aInf: real): real
    requires pInf != 0.0 && q != 0.0 && ac > 0.0
  {
    (pInf / q) * (a1 / ac) * ((p1 / pInf) * (1.0 + gamma * (m1 * m1)) - 1.0) - 2.0 * (aInf / ac)
  }

  /** The divisions of `compute_drag` are defined at every point: the freestream
      pressure and dynamic pressure are non-zero. */
  predicate DragDefined(lib: Library, fs: Freestream, tts: seq<real>)
    requires fs.WellFormed() && |tts| == fs.Size()
  {
    forall i :: 0 <= i < fs.Size() ==> fs.pressure[i] != 0.0 && DynamicPressure(lib, fs, i, tts[i]) != 0.0
  }

  /** The additive drag D_add = CD_add * q_inf * AC * K_add of point i, given its
      station-1 state e. */
  function DragOf(lib: Library, fs: Freestream, i: nat, tt: real, capture: real, entrance: real, e: EntranceState): real
    requires fs.WellFormed() && i < fs.Size() && capture > 0.0
    requires fs.pressure[i] != 0.0 && DynamicPressure(lib, fs, i, tt) != 0.0
  {
    var q := DynamicPressure(lib, fs, i, tt);
    var cd := DragCoefficient(fs.pressure[i], q, entrance, capture, e.pressure, fs.gamma[i], e.mach, fs.streamtubeArea[i]);
    cd * q * capture * KAdd(fs.mach[i], fs.streamtubeArea[i] / capture)
  }

  /** The additive drag of a whole batch, given the station-1 states. */
  function DragFromEntrance(lib: Library, fs: Freestream, tts: seq<real>, capture: real, entrance: real,
                            en: seq<EntranceState>): (r: seq<real>)
    requires fs.WellFormed() && |tts| == |en| == fs.Size() && capture > 0.0
    requires DragDefined(lib, fs, tts)
    ensures |r| == fs.Size()
  {
    seq(fs.Size(), i requires 0 <= i < fs.Size() => DragOf(lib, fs, i, tts[i], capture, entrance, en[i]))
  }

  /** The additive drag of a whole batch. */
  function AdditiveDrag(lib: Library, fs: Freestream, tts: seq<real>, pts: seq<real>, capture: real, throat: real, entrance: real): (r: seq<real>)
    requires fs.WellFormed() && |tts| == |pts| == fs.Size() && capture > 0.0 && throat > 0.0 && entrance > 0.0
    requires DragDefined(lib, fs, tts)
    ensures |r| == fs.Size()
  {
    DragFromEntrance(lib, fs, tts, capture, entrance, Entrance(lib, fs, pts, entrance, throat))
  }

  /** The drag force without its divisions: the pressure excess over the
      entrance, A1 (P1 (1 + gamma M1^2) - P_inf), less twice the captured
      momentum term q_inf A_inf, scaled by K_add. The dynamic pressure cancels
      from the first term. */
  lemma DragOfExpanded(lib: Library, fs: Freestream, i: nat, tt: real, capture: real, entrance: real, e: EntranceState)
    requires fs.WellFormed() && i < fs.Size() && capture > 0.0
    requires fs.pressure[i] != 0.0 && DynamicPressure(lib, fs, i, tt) != 0.0
    ensures DragOf(lib, fs, i, tt, capture, entrance, e)
         == KAdd(fs.mach[i], fs.streamtubeArea[i] / capture)
            * (entrance * (e.pressure * (1.0 + fs.gamma[i] * (e.mach * e.mach)) - fs.pressure[i])
               - 2.0 * DynamicPressure(lib, fs, i, tt) * fs.streamtubeArea[i])
  {
    DragTerms(fs.pressure[i], DynamicPressure(lib, fs, i, tt), entrance, capture, e.pressure,
              1.0 + fs.gamma[i] * (e.mach * e.mach), fs.streamtubeArea[i], KAdd(fs.mach[i], fs.streamtubeArea[i] / capture));
  }

  /** The additive drag of point i of a batch: K_add (A1 (P1 (1 + gamma M1^2)
      - P_inf) - 2 q_inf A_inf), with P1 and M1 its station-1 values. */
  lemma AdditiveDragExpanded(lib: Library, fs: Freestream, tts: seq<real>, pts: seq<real>, capture: real, throat: real, entrance: real,
                             i: nat)
    requires fs.WellFormed() && |tts| == |pts| == fs.Size() && capture > 0.0 && throat > 0.0 && entrance > 0.0
    requires DragDefined(lib, fs, tts) && i < fs.Size()
    ensures var e := EntranceAt(lib, fs, i, pts[i], entrance, throat);
      AdditiveDrag(lib, fs, tts, pts, capture, throat, entrance)[i]
        == KAdd(fs.mach[i], fs.streamtubeArea[i] / capture)
           * (entrance * (e.pressure * (1.0 + fs.gamma[i] * (e.mach * e.mach)) - fs.pressure[i])
              - 2.0 * DynamicPressure(lib, fs, i, tts[i]) * fs.streamtubeArea[i])
  {
    var e := EntranceAt(lib, fs, i, pts[i], entrance, throat);
    assert Entrance(lib, fs, pts, entrance, throat)[i] == e;
    assert AdditiveDrag(lib, fs, tts, pts, capture, throat, entrance)[i] == DragOf(lib, fs, i, tts[i], capture, entrance, e);
    DragOfExpanded(lib, fs, i, tts[i], capture, entrance, e);
  }

  /** The divisions by q, P_inf and AC cancel. */
  lemma DragTerms(p: real, q: real, a1: real, ac: real, p1: real, b: real, aInf: real, k: real)
    requires p != 0.0 && q != 0.0 && ac != 0.0
    ensures ((p / q) * (a1 / ac) * ((p1 / p) * b - 1.0) - 2.0 * (aInf / ac)) * q * ac * k
         == k * (a1 * (p1 * b - p) - 2.0 * q * aInf)
  {
    var x := (p1 / p) * b - 1.0;
    assert p * x == p1 * b - p by {
      assert p * (p1 / p) == p1;
    }
    assert ((p / q) * (a1 / ac) * x) * q * ac == p * a1 * x by {
      assert (p / q) * q == p;
      assert (a1 / ac) * ac == a1;
    }
    assert (2.0 * (aInf / ac)) * q * ac == 2.0 * q * aInf by {
      assert (aInf / ac) * ac == aInf;
    }
  }
}
