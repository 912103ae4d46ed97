# Spectrogram trainer: motion-and-Doppler engine

A Dafny model of the simulation engine behind the spectrogram trainer
(`spectrogram-trainer/src/utils/simulation.ts`). Two maritime platforms move at
constant velocity: a sensor that starts at the origin and a source that starts
`sourceInitialRange` kilometres away on compass bearing `sourceInitialBearing`.
`calculateShipPaths` samples both positions at `t = 0, timeStep, …` while
`t <= duration`; `calculateSpectrogramData` walks the two paths index by index
and reports, for each sample, the frequency the sensor hears from the source's
tone: `f · (c + vr) / (c + vs)` with `c = 1500` m/s, where `vr` and `vs` are the
sensor's and the source's speeds towards each other along the line of sight, and
the emitted frequency itself when the two positions coincide.

Modules:

- `Numerics` (numerics.dfy): the `Math` functions the engine calls
  (`Math.PI`, `Math.cos`, `Math.sin`, `Math.sqrt`) as a parameter `MathLib`,
  the few facts about them that properties need (`SqrtSound`, `TrigSound`), and
  JavaScript division, whose result is not finite when the divisor is zero.
- `Simulation` (simulation.ts itself): the `ShipParams`, `Point` and
  spectrogram-entry records, `toRadians`, `bearingToCartesian`, the shared
  velocity helper, the per-time position functions, the per-sample received
  frequency, and the two engine operations as methods with loops, proved against
  those functions.
- `SimulationProperties`: what the outputs mean (sample counts, compass
  convention, constant speed and range, the coincidence fallback, no shift for
  stopped platforms, the direction of the shift).
- `Trainer`: one recomputation as the trainer component wires it (paths first,
  then the spectrogram from them).

The arithmetic is over exact reals. The received frequency follows the code at
simulation.ts line 86, which divides by `c + vs` with `vs` positive when the
source closes (line 82). The comment at line 84 writes `c - v_s` instead. As
written, a source closing on a stopped sensor LOWERS the reported frequency and
a receding one RAISES it (`ClosingSourceLowersFrequency`,
`RecedingSourceRaisesFrequency`), the reverse of the physical Doppler effect.
A source receding at exactly the speed of sound makes the divisor zero
(`SourceRecedingAtSoundSpeedIsNotFinite`). The speed sliders in the trainer stop
at 30 m/s, so that case is unreachable from the user interface.

The design documentation for the engine asks for invalid-argument errors on
mismatched path lengths, negative time steps, non-positive frequencies and
non-positive time steps. The code validates none of these, and the model follows
the code: see "Left out" for how each case is represented.

## Model

| member | source | states |
|---|---|---|
| Numerics.Divide | spectrogram-trainer/src/utils/simulation.ts:86 | JavaScript `/` yields a finite number exactly when the divisor is non-zero, and that number times the divisor gives back the dividend |
| Simulation.SampleCountIsLoopBound | spectrogram-trainer/src/utils/simulation.ts:117 | with a positive step, sample k is taken exactly when its time k·timeStep is at most the duration, so floor(duration/timeStep)+1 is the loop's sample count |
| Simulation.CalculateShipPaths | spectrogram-trainer/src/utils/simulation.ts:94-130 | both paths have the same length, floor(duration/timeStep)+1 for a non-negative duration and 0 for a negative one; sample k is each platform's position at time k·timeStep; the sensor starts at the origin and the source at its initial range and bearing; requires a positive step unless the duration is negative (otherwise the loop never ends) |
| Simulation.CalculateSpectrogramData | spectrogram-trainer/src/utils/simulation.ts:43-92 | one entry per sensor-path index; entry i has time i·timeStep and the received frequency for sensorPath[i] and sourcePath[i]; requires the source path to be at least as long, since it is read at every index |
| SimulationProperties.ShortRunHasOneSample | spectrogram-trainer/src/utils/simulation.ts:117 | a step longer than a non-negative duration gives exactly one sample, at t = 0 |
| SimulationProperties.SampleCountGrowsWithDuration | spectrogram-trainer/src/utils/simulation.ts:117 | a longer duration never gives fewer samples |
| SimulationProperties.CompassConvention | spectrogram-trainer/src/utils/simulation.ts:17-24 | North maps to the angle π/2 and East to 0, and a clockwise compass turn of d degrees is a counter-clockwise turn of -d in radians |
| SimulationProperties.VelocityHasSpeed | spectrogram-trainer/src/utils/simulation.ts:51-57 | a platform's velocity vector has magnitude equal to its speed on every course |
| SimulationProperties.InitialSourceAtRange | spectrogram-trainer/src/utils/simulation.ts:108-110 | the source starts at a distance of sourceInitialRange·1000 metres from the sensor |
| SimulationProperties.DueEastStart | spectrogram-trainer/src/utils/simulation.ts:108-110 | a source on bearing 090 starts on the +X axis at (range·1000, 0) |
| SimulationProperties.ConstantVelocity | spectrogram-trainer/src/utils/simulation.ts:117-127 | between any two times each platform's displacement is its velocity times the elapsed time |
| SimulationProperties.StationaryPlatformsStayPut | spectrogram-trainer/src/utils/simulation.ts:103-126 | with both speeds zero the sensor stays at the origin and the source at its initial position |
| SimulationProperties.CoincidentExactlyWhenSamePosition | spectrogram-trainer/src/utils/simulation.ts:63-72 | the zero-distance fallback is taken if and only if the two positions are equal |
| SimulationProperties.CoincidentPositionsHearSourceFrequency | spectrogram-trainer/src/utils/simulation.ts:63-72 | at coincident positions the received frequency is exactly the emitted frequency, with no division |
| SimulationProperties.StationaryPlatformsHearSourceFrequency | spectrogram-trainer/src/utils/simulation.ts:51-86 | with both speeds zero the received frequency equals the emitted one at every pair of positions |
| SimulationProperties.ClosingSourceLowersFrequency | spectrogram-trainer/src/utils/simulation.ts:78-86 | stopped sensor, source closing at vs > 0: the engine reports f·c/(c+vs), strictly below f |
| SimulationProperties.RecedingSourceRaisesFrequency | spectrogram-trainer/src/utils/simulation.ts:78-86 | stopped sensor, source opening the range slower than sound: the engine reports a finite frequency strictly above f |
| SimulationProperties.SourceRecedingAtSoundSpeedIsNotFinite | spectrogram-trainer/src/utils/simulation.ts:82-86 | a source receding at exactly c along the line of sight makes the divisor zero and the result non-finite |
| SimulationProperties.ClosingSensorRaisesFrequency | spectrogram-trainer/src/utils/simulation.ts:78-86 | stopped source, sensor closing at vr > 0: the engine reports f·(c+vr)/c, strictly above f |
| Trainer.Simulate | spectrogram-trainer/src/components/SpectrogramTrainer.tsx:35-41 | the three displayed sequences have the same length and index k of each is the instant k·timeStep; with both platforms stopped the paths are constant and the spectrogram is flat at the emitted frequency |

## Left out

- Floating point: all arithmetic is over exact reals. Rounding, and the drift of `t += timeStep` that can change the number of samples, are not modelled.
- `Math.cos`, `Math.sin`, `Math.sqrt` and `Math.PI` are a parameter. Properties assume only `SqrtSound` (zero at zero, positive on positive arguments) and `TrigSound` (cos 0 = 1, sin 0 = 0, cos² + sin² = 1). Numeric results such as "about 250 Hz" are not derived.
- NaN, Infinity and -Infinity are one value, `NonFinite`. Inputs that are themselves NaN or infinite are not modelled.
- Simulation.CalculateShipPaths: a non-positive step with a non-negative duration makes the source loop forever. The model excludes these inputs by precondition rather than signalling an error, because the code signals none.
- Simulation.CalculateSpectrogramData: a source path shorter than the sensor path makes the code throw a TypeError on the missing point. The model excludes it by precondition.
- No argument validation (negative time step, non-positive frequency, mismatched lengths) exists in the code, so none is modelled. A negative time step simply gives negative sample times.
- React components (controls, compass knob, plots), the debounce hook and the chart arrow plugin are presentation code and are not part of this model. `src/hooks/useDebounce` is not part of this model.
