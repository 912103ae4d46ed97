/**
 * One recomputation of the trainer: the paths are computed first and then fed,
 * unchanged, to the spectrogram computation with the same time step.
 */
module Trainer {
  import opened Numerics
  import opened Simulation
  import SimulationProperties

  /**
   * The three sequences the trainer displays. Index k of each refers to the same
   * instant k * timeStep, and with both platforms stopped the spectrogram is flat
   * at the emitted frequency.
   */
  method Simulate(m: MathLib, params: ShipParams, duration: real, timeStep: real)
    returns (sensorPath: seq<Point>, sourcePath: seq<Point>, spectrogram: seq<FrequencySample>)
    requires Terminates(duration, timeStep)
    ensures |sensorPath| == |sourcePath| == |spectrogram| == SampleCount(duration, timeStep)
    ensures forall k :: 0 <= k < |spectrogram| ==>
      spectrogram[k].time == k as real * timeStep &&
      spectrogram[k].frequency == ReceivedFrequency(m, params, SensorPosition(m, params, k as real * timeStep),
                                                    SourcePosition(m, params, k as real * timeStep))
    ensures params.sensorSpeed == 0.0 && params.sourceSpeed == 0.0 ==>
      forall k :: 0 <= k < |spectrogram| ==>
        sensorPath[k] == Point(0.0, 0.0) &&
        sourcePath[k] == InitialSourcePosition(m, params) &&
        spectrogram[k].frequency == Finite(params.sourceFrequency)
  {
    sensorPath, sourcePath := CalculateShipPaths(m, params, duration, timeStep);
    spectrogram := CalculateSpectrogramData(m, params, sensorPath, sourcePath, timeStep);

    if params.sensorSpeed == 0.0 && params.sourceSpeed == 0.0 {
      forall k | 0 <= k < |spectrogram|
        ensures sensorPath[k] == Point(0.0, 0.0)
        ensures sourcePath[k] == InitialSourcePosition(m, params)
        ensures spectrogram[k].frequency == Finite(params.sourceFrequency)
      {
        SimulationProperties.StationaryPlatformsStayPut(m, params, k as real * timeStep);
        SimulationProperties.StationaryPlatformsHearSourceFrequency(m, params, sensorPath[k], sourcePath[k]);
      }
    }
  }
}
