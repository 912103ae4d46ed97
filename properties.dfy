/**
 * What the engine's outputs mean: sampling, kinematics of the two platforms,
 * and how the received frequency depends on the geometry of a sample.
 */
module SimulationProperties {
  import opened Numerics
  import opened Simulation

  // ---------------------------------------------------------------------------
  // Sampling

  /** A step longer than the whole run still takes the sample at t = 0, and only that one. */
  lemma ShortRunHasOneSample(duration: real, timeStep: real)
    requires 0.0 <= duration < timeStep
    ensures SampleCount(duration, timeStep) == 1
  {
  }

  /** Stretching the run never loses samples. */
  lemma SampleCountGrowsWithDuration(d1: real, d2: real, timeStep: real)
    requires 0.0 < timeStep && d1 <= d2
    ensures SampleCount(d1, timeStep) <= SampleCount(d2, timeStep)
  {
    var n1 := SampleCount(d1, timeStep);
    if 0 < n1 {
      SampleCountIsLoopBound(d1, timeStep, n1 - 1);
      SampleCountIsLoopBound(d2, timeStep, n1 - 1);
    }
  }

  // ---------------------------------------------------------------------------
  // Angles and kinematics

  /**
   * North is the +Y axis and East the +X axis, and turning clockwise on the
   * compass by d degrees turns counter-clockwise in the plane by -d.
   */
  lemma CompassConvention(m: MathLib, bearing: real, turn: real)
    ensures BearingToCartesian(m, 0.0) == m.pi / 2.0
    ensures BearingToCartesian(m, 90.0) == 0.0
    ensures BearingToCartesian(m, bearing + turn) == BearingToCartesian(m, bearing) - ToRadians(m, turn)
  {
  }

  /** A platform's velocity has magnitude equal to its speed, whatever its course. */
  lemma VelocityHasSpeed(m: MathLib, speed: real, course: real)
    requires TrigSound(m)
    ensures var v := Velocity(m, speed, course); v.x * v.x + v.y * v.y == speed * speed
  {
  }

  /** The source starts `sourceInitialRange` kilometres from the sensor, i.e. that many thousand metres. */
  lemma InitialSourceAtRange(m: MathLib, params: ShipParams)
    requires TrigSound(m)
    ensures var p := InitialSourcePosition(m, params);
      p.x * p.x + p.y * p.y == (params.sourceInitialRange * 1000.0) * (params.sourceInitialRange * 1000.0)
  {
  }

  /** A source on bearing 090 starts due East of the sensor, on the +X axis. */
  lemma DueEastStart(m: MathLib, params: ShipParams)
    requires TrigSound(m)
    requires params.sourceInitialBearing == 90.0
    ensures InitialSourcePosition(m, params) == Point(params.sourceInitialRange * 1000.0, 0.0)
  {
  }

  /** Both platforms move in straight lines: displacement is velocity times elapsed time. */
  lemma ConstantVelocity(m: MathLib, params: ShipParams, t1: real, t2: real)
    ensures var v, p, q := Velocity(m, params.sensorSpeed, params.sensorCourse),
                           SensorPosition(m, params, t1), SensorPosition(m, params, t2);
      q.x - p.x == v.x * (t2 - t1) && q.y - p.y == v.y * (t2 - t1)
    ensures var v, p, q := Velocity(m, params.sourceSpeed, params.sourceCourse),
                           SourcePosition(m, params, t1), SourcePosition(m, params, t2);
      q.x - p.x == v.x * (t2 - t1) && q.y - p.y == v.y * (t2 - t1)
  {
  }

  /** Platforms with zero speed stay where they started. */
  lemma StationaryPlatformsStayPut(m: MathLib, params: ShipParams, t: real)
    requires params.sensorSpeed == 0.0 && params.sourceSpeed == 0.0
    ensures SensorPosition(m, params, t) == Point(0.0, 0.0)
    ensures SourcePosition(m, params, t) == InitialSourcePosition(m, params)
  {
  }

  // ---------------------------------------------------------------------------
  // Received frequency

  /** The fallback branch is taken exactly when the two platforms are at the same position. */
  lemma CoincidentExactlyWhenSamePosition(m: MathLib, params: ShipParams, receiver: Point, source: Point)
    requires SqrtSound(m)
    ensures SampleGeometry(m, params, receiver, source) == Coincident <==> receiver == source
  {
    if receiver != source {
      SquaredDistancePositive(receiver, source);
    }
  }

  lemma SquaredDistancePositive(p: Point, q: Point)
    requires p != q
    ensures 0.0 < SquaredDistance(p, q)
  {
    var dx, dy := q.x - p.x, q.y - p.y;
    calc {
      SquaredDistance(p, q);
    ==
      dx * dx + dy * dy;
    >  { SumOfSquaresPositive(dx, dy); }
      0.0;
    }
  }

  lemma SumOfSquaresPositive(dx: real, dy: real)
    requires dx != 0.0 || dy != 0.0
    ensures 0.0 < dx * dx + dy * dy
  {
    if dx != 0.0 {
      assert 0.0 < dx * dx;
      assert 0.0 <= dy * dy;
    } else {
      assert 0.0 < dy * dy;
    }
  }

  /** At coincident positions the sensor hears exactly the emitted frequency. */
  lemma CoincidentPositionsHearSourceFrequency(m: MathLib, params: ShipParams, position: Point)
    requires SqrtSound(m)
    ensures ReceivedFrequency(m, params, position, position) == Finite(params.sourceFrequency)
  {
  }

  /** When neither platform moves there is no Doppler shift, wherever they are. */
  lemma StationaryPlatformsHearSourceFrequency(m: MathLib, params: ShipParams, receiver: Point, source: Point)
    requires params.sensorSpeed == 0.0 && params.sourceSpeed == 0.0
    ensures ReceivedFrequency(m, params, receiver, source) == Finite(params.sourceFrequency)
  {
  }

  /**
   * A stationary sensor and a source closing on it: the engine divides by c + vs,
   * so the tone it reports is f * c / (c + vs), strictly BELOW the emitted frequency.
   */
  lemma ClosingSourceLowersFrequency(m: MathLib, params: ShipParams, receiver: Point, source: Point)
    requires params.sensorSpeed == 0.0 && 0.0 < params.sourceFrequency
    requires SampleGeometry(m, params, receiver, source).Separated?
    requires 0.0 < SampleGeometry(m, params, receiver, source).sourceClosing
    ensures var f, c, vs := params.sourceFrequency, SPEED_OF_SOUND_IN_WATER,
                            SampleGeometry(m, params, receiver, source).sourceClosing;
      ReceivedFrequency(m, params, receiver, source) == Finite(f * c / (c + vs)) &&
      f * c / (c + vs) < f
  {
  }

  /**
   * A stationary sensor and a source opening the range slower than sound:
   * the engine reports a frequency strictly ABOVE the emitted one.
   */
  lemma RecedingSourceRaisesFrequency(m: MathLib, params: ShipParams, receiver: Point, source: Point)
    requires params.sensorSpeed == 0.0 && 0.0 < params.sourceFrequency
    requires SampleGeometry(m, params, receiver, source).Separated?
    requires -SPEED_OF_SOUND_IN_WATER < SampleGeometry(m, params, receiver, source).sourceClosing < 0.0
    ensures var r := ReceivedFrequency(m, params, receiver, source);
      r.Finite? && params.sourceFrequency < r.value
  {
    var f, c := params.sourceFrequency, SPEED_OF_SOUND_IN_WATER;
    var vs := SampleGeometry(m, params, receiver, source).sourceClosing;
    assert SampleGeometry(m, params, receiver, source).receiverClosing == 0.0;
    assert f * (c + vs) < f * c;
    QuotientAbove(f * c, c + vs, f);
  }

  /** A source opening the range at exactly the speed of sound makes the engine divide by zero. */
  lemma SourceRecedingAtSoundSpeedIsNotFinite(m: MathLib, params: ShipParams, receiver: Point, source: Point)
    requires SampleGeometry(m, params, receiver, source).Separated?
    requires SampleGeometry(m, params, receiver, source).sourceClosing == -SPEED_OF_SOUND_IN_WATER
    ensures ReceivedFrequency(m, params, receiver, source) == NonFinite
  {
  }

  /** A sensor closing on a stationary source hears f * (c + vr) / c, strictly above the emitted frequency. */
  lemma ClosingSensorRaisesFrequency(m: MathLib, params: ShipParams, receiver: Point, source: Point)
    requires params.sourceSpeed == 0.0 && 0.0 < params.sourceFrequency
    requires SampleGeometry(m, params, receiver, source).Separated?
    requires 0.0 < SampleGeometry(m, params, receiver, source).receiverClosing
    ensures var f, c, vr := params.sourceFrequency, SPEED_OF_SOUND_IN_WATER,
                            SampleGeometry(m, params, receiver, source).receiverClosing;
      ReceivedFrequency(m, params, receiver, source) == Finite(f * (c + vr) / c) &&
      f < f * (c + vr) / c
  {
  }

  lemma QuotientAbove(n: real, d: real, bound: real)
    requires 0.0 < d && bound * d < n
    ensures bound < n / d
  {
  }
}
