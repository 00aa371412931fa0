/**
 The three flow regimes of the Pitot inlet and the boolean masks that select
 them across a batch of operating points. A point is supersonic when its
 freestream Mach number exceeds 1; a subsonic point has a shock in the inlet
 when the isentropic mass-flow function it would need at the throat exceeds 1.
 */
module Regimes {

  datatype Regime = SubsonicNoShock | SubsonicShock | Supersonic

  /** The regime of one operating point, from its freestream Mach number and the
      isentropic mass-flow function it would have at the throat. */
  function Classify(mach: real, throatFunction: real): Regime
  {
    if mach > 1.0 then Supersonic
    else if throatFunction > 1.0 then SubsonicShock
    else SubsonicNoShock
  }

  /** Exactly one of three booleans holds. */
  predicate ExactlyOne(a: bool, b: bool, c: bool)
  {
    (a && !b && !c) || (!a && b && !c) || (!a && !b && c)
  }

  /** The masks `i_sub_shock`, `i_sub_no_shock` and `i_sup`. */
  datatype Masks = Masks(subShock: seq<bool>, subNoShock: seq<bool>, sup: seq<bool>)

  /** The three masks, each computed on its own as the source does. Every point
      is selected by exactly one of them, and the mask that selects it is the
      one of its regime. */
  function RegimeMasks(mach: seq<real>, throatFunction: seq<real>): (m: Masks)
    requires |mach| == |throatFunction|
    ensures |m.subShock| == |m.subNoShock| == |m.sup| == |mach|
    ensures forall i :: 0 <= i < |mach| ==> ExactlyOne(m.subShock[i], m.subNoShock[i], m.sup[i])
    ensures forall i :: 0 <= i < |mach| ==>
              && (m.subNoShock[i] <==> Classify(mach[i], throatFunction[i]) == SubsonicNoShock)
              && (m.subShock[i] <==> Classify(mach[i], throatFunction[i]) == SubsonicShock)
              && (m.sup[i] <==> Classify(mach[i], throatFunction[i]) == Supersonic)
  {
    var n := |mach|;
    Masks(
      seq(n, i requires 0 <= i < n => mach[i] <= 1.0 && throatFunction[i] > 1.0),
      seq(n, i requires 0 <= i < n => mach[i] <= 1.0 && throatFunction[i] <= 1.0),
      seq(n, i requires 0 <= i < n => mach[i] > 1.0))
  }

  /** The regime split is the Mach split crossed with the throat-choke test.
      A stand-alone statement of what `Classify` means; the fill proofs do not
      use it. */
  lemma ClassifySplit(mach: real, throatFunction: real)
    ensures Classify(mach, throatFunction) == Supersonic <==> mach > 1.0
    ensures Classify(mach, throatFunction) == SubsonicShock <==> mach <= 1.0 && throatFunction > 1.0
    ensures Classify(mach, throatFunction) == SubsonicNoShock <==> mach <= 1.0 && throatFunction <= 1.0
  {
  }
}
