/**
 * The motion-and-Doppler engine of the spectrogram trainer: two constant-velocity
 * platforms, a sensor that starts at the origin and a source that starts at a
 * given range and bearing, sampled every `timeStep` seconds; and, per sample, the
 * frequency the sensor hears from the source's tone.
 *
 * All arithmetic is over exact reals; `Math` is the parameter `m`.
 */
module Simulation {
  import opened Numerics

  /** Propagation speed of sound in sea water, in m/s. */
  const SPEED_OF_SOUND_IN_WATER: real := 1500.0

  /** Speeds in m/s, courses and bearings in compass degrees, range in km, frequency in Hz. */
  datatype ShipParams = ShipParams(
    sensorSpeed: real,
    sensorCourse: real,
    sourceSpeed: real,
    sourceCourse: real,
    sourceInitialRange: real,
    sourceInitialBearing: real,
    sourceFrequency: real)

  /** A position in metres; the sensor is at the origin at time 0. */
  datatype Point = Point(x: real, y: real)

  /** One entry of the spectrogram: a time in seconds and the received frequency in Hz. */
  datatype FrequencySample = FrequencySample(time: real, frequency: Number)

  function ToRadians(m: MathLib, degrees: real): real
  {
    degrees * (m.pi / 180.0)
  }

  /** Compass bearing (clockwise from North) to mathematical angle (counter-clockwise from +X). */
  function BearingToCartesian(m: MathLib, bearing: real): real
  {
    ToRadians(m, 90.0 - bearing)
  }

  /** The constant velocity of a platform moving at `speed` on compass `course`. */
  function Velocity(m: MathLib, speed: real, course: real): Point
  {
    var angle := BearingToCartesian(m, course);
    Point(speed * m.cos(angle), speed * m.sin(angle))
  }

  /** Where the source is at time 0: `sourceInitialRange` kilometres along `sourceInitialBearing`. */
  function InitialSourcePosition(m: MathLib, params: ShipParams): Point
  {
    var angle := BearingToCartesian(m, params.sourceInitialBearing);
    Point(params.sourceInitialRange * 1000.0 * m.cos(angle),
          params.sourceInitialRange * 1000.0 * m.sin(angle))
  }

  /** The sensor's position at time `t`. */
  function SensorPosition(m: MathLib, params: ShipParams, t: real): Point
  {
    var v := Velocity(m, params.sensorSpeed, params.sensorCourse);
    Point(v.x * t, v.y * t)
  }

  /** The source's position at time `t`. */
  function SourcePosition(m: MathLib, params: ShipParams, t: real): Point
  {
    var start := InitialSourcePosition(m, params);
    var v := Velocity(m, params.sourceSpeed, params.sourceCourse);
    Point(start.x + v.x * t, start.y + v.y * t)
  }

  /**
   * The sampling loop `t = 0, timeStep, ...` while `t <= duration` ends exactly
   * when the step is positive or no sample is taken at all.
   */
  predicate Terminates(duration: real, timeStep: real)
  {
    0.0 < timeStep || duration < 0.0
  }

  /** How many samples the loop takes: none for a negative duration, else floor(duration/timeStep) + 1. */
  function SampleCount(duration: real, timeStep: real): nat
    requires Terminates(duration, timeStep)
  {
    if duration < 0.0 then 0
    else
      var q := duration / timeStep;
      assert 0.0 <= q;
      q.Floor + 1
  }

  /** With a positive step, sample k is taken exactly when its time k * timeStep is within the duration. */
  lemma SampleCountIsLoopBound(duration: real, timeStep: real, k: nat)
    requires 0.0 < timeStep
    ensures k < SampleCount(duration, timeStep) <==> k as real * timeStep <= duration
  {
    if 0.0 <= duration {
      var q := duration / timeStep;
      assert q * timeStep == duration;
      ScaleByPositive(k as real, q, timeStep);
    }
  }

  lemma ScaleByPositive(a: real, b: real, s: real)
    requires 0.0 < s
    ensures a <= b <==> a * s <= b * s
  {
  }

  /**
   * The geometry of one sample: either the two platforms coincide, or the
   * speeds of sensor and source along the line of sight, each positive when
   * that platform moves towards the other.
   */
  datatype Geometry = Coincident | Separated(receiverClosing: real, sourceClosing: real)

  function SquaredDistance(p: Point, q: Point): real
  {
    var dx := q.x - p.x;
    var dy := q.y - p.y;
    dx * dx + dy * dy
  }

  /** Euclidean distance between two positions, through `Math.sqrt`. */
  function Distance(m: MathLib, p: Point, q: Point): real
  {
    m.sqrt(SquaredDistance(p, q))
  }

  /** Component of `v` along `u`. */
  function Dot(v: Point, u: Point): real
  {
    v.x * u.x + v.y * u.y
  }

  function SampleGeometry(m: MathLib, params: ShipParams, receiver: Point, source: Point): Geometry
  {
    var dx := source.x - receiver.x;
    var dy := source.y - receiver.y;
    var distance := Distance(m, receiver, source);
    if distance == 0.0 then Coincident
    else
      var ux := dx / distance;
      var uy := dy / distance;
      var sensorVelocity := Velocity(m, params.sensorSpeed, params.sensorCourse);
      var sourceVelocity := Velocity(m, params.sourceSpeed, params.sourceCourse);
      Separated(Dot(sensorVelocity, Point(ux, uy)), -Dot(sourceVelocity, Point(ux, uy)))
  }

  /** The engine's Doppler formula, f * (c + vr) / (c + vs). */
  function DopplerShift(frequency: real, receiverClosing: real, sourceClosing: real): Number
  {
    var c := SPEED_OF_SOUND_IN_WATER;
    Divide(frequency * (c + receiverClosing), c + sourceClosing)
  }

  /** The frequency the sensor hears when it is at `receiver` and the source at `source`. */
  function ReceivedFrequency(m: MathLib, params: ShipParams, receiver: Point, source: Point): Number
  {
    match SampleGeometry(m, params, receiver, source)
    case Coincident => Finite(params.sourceFrequency)
    case Separated(vr, vs) => DopplerShift(params.sourceFrequency, vr, vs)
  }

  /**
   * The received frequency at every sample of the sensor's path, paired with
   * the sample's time; the source path is read at the same indices.
   */
  method CalculateSpectrogramData(m: MathLib, params: ShipParams, sensorPath: seq<Point>,
                                  sourcePath: seq<Point>, timeStep: real)
    returns (points: seq<FrequencySample>)
    requires |sensorPath| <= |sourcePath|
    ensures |points| == |sensorPath|
    ensures forall i :: 0 <= i < |points| ==> points[i].time == i as real * timeStep
    ensures forall i :: 0 <= i < |points| ==>
      points[i].frequency == ReceivedFrequency(m, params, sensorPath[i], sourcePath[i])
  {
    points := [];

    var sensorVelocity := Velocity(m, params.sensorSpeed, params.sensorCourse);
    var sourceVelocity := Velocity(m, params.sourceSpeed, params.sourceCourse);

    for i := 0 to |sensorPath|
      invariant |points| == i
      invariant forall j :: 0 <= j < i ==>
        points[j] == FrequencySample(j as real * timeStep, ReceivedFrequency(m, params, sensorPath[j], sourcePath[j]))
    {
      var receiver := sensorPath[i];
      var source := sourcePath[i];

      var dx := source.x - receiver.x;
      var dy := source.y - receiver.y;
      var distance := Distance(m, receiver, source);

      if distance == 0.0 {
        points := points + [FrequencySample(i as real * timeStep, Finite(params.sourceFrequency))];
        continue;
      }

      var ux := dx / distance;
      var uy := dy / distance;
      var receiverClosing := Dot(sensorVelocity, Point(ux, uy));
      var sourceClosing := -Dot(sourceVelocity, Point(ux, uy));

      var receivedFrequency := DopplerShift(params.sourceFrequency, receiverClosing, sourceClosing);
      points := points + [FrequencySample(i as real * timeStep, receivedFrequency)];
    }
  }

  /**
   * Both platforms' positions at t = 0, timeStep, 2 * timeStep, ... while t <= duration.
   */
  method CalculateShipPaths(m: MathLib, params: ShipParams, duration: real, timeStep: real)
    returns (sensorPath: seq<Point>, sourcePath: seq<Point>)
    requires Terminates(duration, timeStep)
    ensures |sensorPath| == |sourcePath| == SampleCount(duration, timeStep)
    ensures duration < 0.0 ==> sensorPath == [] && sourcePath == []
    ensures 0.0 <= duration ==> sensorPath != []
    ensures sensorPath != [] ==>
      sensorPath[0] == Point(0.0, 0.0) && sourcePath[0] == InitialSourcePosition(m, params)
    ensures forall k :: 0 <= k < |sensorPath| ==>
      sensorPath[k] == SensorPosition(m, params, k as real * timeStep)
    ensures forall k :: 0 <= k < |sourcePath| ==>
      sourcePath[k] == SourcePosition(m, params, k as real * timeStep)
  {
    sensorPath, sourcePath := [], [];

    var sensorVelocity := Velocity(m, params.sensorSpeed, params.sensorCourse);
    var sourceInitial := InitialSourcePosition(m, params);
    var sourceVelocity := Velocity(m, params.sourceSpeed, params.sourceCourse);

    ghost var n := SampleCount(duration, timeStep);
    ghost var k: nat := 0;
    var t := 0.0;
    while t <= duration
      invariant t == k as real * timeStep
      invariant 0.0 < timeStep || k == 0
      invariant k <= n
      invariant |sensorPath| == |sourcePath| == k
      invariant forall j :: 0 <= j < k ==> sensorPath[j] == SensorPosition(m, params, j as real * timeStep)
      invariant forall j :: 0 <= j < k ==> sourcePath[j] == SourcePosition(m, params, j as real * timeStep)
      decreases n - k
    {
      SampleCountIsLoopBound(duration, timeStep, k);

      sensorPath := sensorPath + [Point(sensorVelocity.x * t, sensorVelocity.y * t)];
      sourcePath := sourcePath + [Point(sourceInitial.x + sourceVelocity.x * t,
                                        sourceInitial.y + sourceVelocity.y * t)];

      t := t + timeStep;
      k := k + 1;
    }
    if 0.0 < timeStep {
      SampleCountIsLoopBound(duration, timeStep, k);
    }
  }
}
