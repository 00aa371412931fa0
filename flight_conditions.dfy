/**
 The caller-owned flight conditions the inlet reads: SUAVE's
 `conditions.freestream` record, one value per operating point for each
 quantity, and the `conditions` object the inlet writes its mass flow rate to.
 */
module FlightConditions {

  /** `conditions.freestream`: isentropic expansion factor, specific heat at
      constant pressure, static pressure, density, gas constant, Mach number and
      the area of the initial (captured) streamtube, each per operating point. */
  datatype Freestream = Freestream(
    gamma: seq<real>,
    cp: seq<real>,
    pressure: seq<real>,
    density: seq<real>,
    gasConstant: seq<real>,
    mach: seq<real>,
    streamtubeArea: seq<real>)
  {
    /** The number of operating points. */
    function Size(): nat
    {
      |mach|
    }

    /** Every per-point quantity has one value per operating point. */
    predicate WellFormed()
    {
      && |gamma| == |mach|
      && |cp| == |mach|
      && |pressure| == |mach|
      && |density| == |mach|
      && |gasConstant| == |mach|
      && |streamtubeArea| == |mach|
    }
  }

  /** The shared conditions object: read-only freestream data and the mass flow
      rate the inlet writes back. */
  class Conditions {
    var freestream: Freestream
    var massFlowRate: seq<real>

    constructor (freestream: Freestream)
      ensures this.freestream == freestream && massFlowRate == []
    {
      this.freestream := freestream;
      massFlowRate := [];
    }
  }
}
