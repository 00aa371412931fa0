/**
 SUAVE's `Pitot_Inlet` energy component: its areas, its stagnation inputs and
 outputs, and the two operations on it. `Compute` runs the inlet flow solver
 over a batch of operating points and writes the component's outputs and the
 captured mass flow rate; `ComputeDrag` returns the additive drag of each point.
 */
module Component {
  import opened GasDynamics
  import opened Batch
  import opened FlightConditions
  import opened InletFlow
  import opened InletDrag

  datatype Option<T> = None | Some(value: T)

  class PitotInlet {
    /** The engine-face (capture) area AE. */
    var capture: real
    /** The throat area AC, the narrowest section of the inlet. */
    var throat: real
    /** The inlet-entrance area A1. */
    var inletEntrance: real
    /** `inputs.stagnation_temperature` and `inputs.stagnation_pressure`. */
    var stagnationTemperature: seq<real>
    var stagnationPressure: seq<real>
    /** `outputs`. */
    var outputs: Exit

    /** The defaults: zero areas, single zero stagnation inputs, and outputs
        holding a single zero stagnation temperature, pressure and enthalpy. */
    constructor ()
      ensures capture == 0.0 && throat == 0.0 && inletEntrance == 0.0
      ensures stagnationTemperature == [0.0] && stagnationPressure == [0.0]
      ensures outputs == Exit([0.0], [0.0], [0.0], [], [], [], [])
    {
      capture, throat, inletEntrance := 0.0, 0.0, 0.0;
      stagnationTemperature, stagnationPressure := [0.0], [0.0];
      outputs := Exit([0.0], [0.0], [0.0], [], [], [], []);
    }

    /** `compute`. The stagnation inputs must have one value or one per point;
        a single value is broadcast to the batch. The mass flow rate is the
        freestream's through the captured streamtube, and the outputs are those
        of the engine-face states the three regime blocks produce. When an input
        has any other length nothing is written. */
    method Compute(lib: Library, conditions: Conditions) returns (ok: bool)
      requires conditions.freestream.WellFormed() && capture > 0.0 && throat > 0.0
      modifies this`outputs, conditions`massFlowRate
      ensures var n := conditions.freestream.Size();
        ok <==> Broadcastable(stagnationTemperature, n) && Broadcastable(stagnationPressure, n)
      ensures ok ==>
        var fs, n := conditions.freestream, conditions.freestream.Size();
        var tts, pts := Broadcast(stagnationTemperature, n), Broadcast(stagnationPressure, n);
        && conditions.massFlowRate == MassFlowRate(lib, fs, tts)
        && outputs == ExitOf(lib, fs, tts, pts, capture, throat)
      ensures !ok ==> outputs == old(outputs) && conditions.massFlowRate == old(conditions.massFlowRate)
    {
      var fs := conditions.freestream;
      var n := fs.Size();
      if !(Broadcastable(stagnationTemperature, n) && Broadcastable(stagnationPressure, n)) {
        return false;
      }
      var tts := Broadcast(stagnationTemperature, n);
      var pts := Broadcast(stagnationPressure, n);
      var massFlow := MassFlowRate(lib, fs, tts);
      var st := FillEngineFace(lib, fs, tts, pts, capture, throat);
      outputs := ExitFrom(lib, fs, tts, st);
      conditions.massFlowRate := massFlow;
      ok := true;
    }

    /** `compute_drag`. The station-1 arrays take the length of the stagnation
        temperature input, so both stagnation inputs must have one value per
        point; otherwise there is no result. Nothing is written. */
    method ComputeDrag(lib: Library, conditions: Conditions) returns (dAdd: Option<seq<real>>)
      requires conditions.freestream.WellFormed() && capture > 0.0 && throat > 0.0 && inletEntrance > 0.0
      requires |stagnationTemperature| == conditions.freestream.Size() ==>
        DragDefined(lib, conditions.freestream, stagnationTemperature)
      ensures var n := conditions.freestream.Size();
        dAdd.Some? <==> |stagnationTemperature| == n && |stagnationPressure| == n
      ensures dAdd.Some? ==>
        dAdd.value == AdditiveDrag(lib, conditions.freestream, stagnationTemperature, stagnationPressure,
                                   capture, throat, inletEntrance)
    {
      var fs := conditions.freestream;
      var n := fs.Size();
      var tts, pts := stagnationTemperature, stagnationPressure;
      if |tts| != n || |pts| != n {
        return None;
      }
      var en := FillEntrance(lib, fs, pts, inletEntrance, throat);
      dAdd := Some(DragFromEntrance(lib, fs, tts, capture, inletEntrance, en));
    }
  }
}
