/**
 * The ambient visualizer screen's orientation and amplitude state: the
 * choice of rotation sensor and of the gyroscope+accelerometer fallback,
 * the first-write-wins baseline, the complementary filter of the fallback,
 * and the running-peak normalisation of each audio chunk. Each sensor or
 * audio callback is one atomic step; what it hands to the view's `update`
 * is returned as a `Push`.
 */
module AmbientActivity {
  import opened Wrappers
  import KotlinMath

  /** Which sensors the device offers (`getDefaultSensor` returning non-null). */
  datatype Device = Device(rotationVector: bool, gameRotationVector: bool, geomagneticRotationVector: bool,
                           accelerometer: bool, gyroscope: bool)

  datatype RotationKind = RotationVector | GameRotationVector | GeomagneticRotationVector

  datatype FusionMode = Absolute | InertialFallback | Unavailable

  /** The status line the screen shows; number formatting is not modelled. */
  datatype StatusLine =
    | Ready
    | UsingSensor(sensor: string)
    | NoRotationSensor
    | WaitingForSensors
    | Readout(sensor: string, amp: real, yaw: real, pitch: real, roll: real)

  /** One call of the view's `update(amplitude, yaw, pitch, roll)`. */
  datatype Push = Push(amp: real, yaw: real, pitch: real, roll: real)

  const InitialPeak: real := 400.0
  const GravityAlpha: real := 0.9
  const FusionAlpha: real := 0.98
  const NanosPerSecond: real := 1000000000.0

  function SensorLabel(k: RotationKind): string {
    match k
    case RotationVector => "ROT"
    case GameRotationVector => "GAME_ROT"
    case GeomagneticRotationVector => "GEO_ROT"
  }

  /**
   * `chooseRotationSensor`: the rotation vector if present, else the game
   * rotation vector, else the geomagnetic one, else none with an empty label.
   */
  function ChooseRotationSensor(d: Device): (r: (Option<RotationKind>, string))
    ensures d.rotationVector ==> r.0 == Some(RotationVector)
    ensures !d.rotationVector && d.gameRotationVector ==> r.0 == Some(GameRotationVector)
    ensures !d.rotationVector && !d.gameRotationVector && d.geomagneticRotationVector ==>
      r.0 == Some(GeomagneticRotationVector)
    ensures r.0.None? <==> !d.rotationVector && !d.gameRotationVector && !d.geomagneticRotationVector
    ensures r.1 == if r.0.Some? then SensorLabel(r.0.value) else ""
  {
    if d.rotationVector then (Some(RotationVector), "ROT")
    else if d.gameRotationVector then (Some(GameRotationVector), "GAME_ROT")
    else if d.geomagneticRotationVector then (Some(GeomagneticRotationVector), "GEO_ROT")
    else (None, "")
  }

  /** `useFusionFallback`. */
  function UseFusionFallback(d: Device): (r: bool)
    ensures r <==> !d.rotationVector && !d.gameRotationVector && !d.geomagneticRotationVector
                   && d.accelerometer && d.gyroscope
  {
    ChooseRotationSensor(d).0.None? && d.accelerometer && d.gyroscope
  }

  function ModeOf(d: Device): FusionMode {
    if ChooseRotationSensor(d).0.Some? then Absolute
    else if UseFusionFallback(d) then InertialFallback
    else Unavailable
  }

  /**
   * The mode is decided by the sensors alone: any rotation sensor gives the
   * absolute path; otherwise the fallback needs both inertial sensors.
   */
  lemma ModeSelection(d: Device)
    ensures ModeOf(d) == Absolute <==> d.rotationVector || d.gameRotationVector || d.geomagneticRotationVector
    ensures ModeOf(d) == InertialFallback <==> UseFusionFallback(d)
    ensures UseFusionFallback(d) <==>
      !d.rotationVector && !d.gameRotationVector && !d.geomagneticRotationVector && d.accelerometer && d.gyroscope
    ensures ModeOf(d) == Unavailable <==>
      !d.rotationVector && !d.gameRotationVector && !d.geomagneticRotationVector && !(d.accelerometer && d.gyroscope)
  {
  }

  /** The exponential envelope of the audio level: instant rise, slow decay. */
  function PeakStep(peak: real, rms: real): (r: real)
    requires peak >= 0.0 && rms >= 0.0
    ensures r >= rms && r >= 0.0
    ensures rms >= peak ==> r == rms
    ensures rms < peak ==> r < peak
    ensures rms == 0.0 ==> r == 0.99 * peak
  {
    var decayed := peak * 0.99 + rms * 0.01;
    if rms > decayed then rms else decayed
  }

  /** The level handed to the view: the RMS over the envelope, clamped into [0,1]. */
  function Normalized(rms: real, peak: real): (r: real)
    requires peak >= 0.0 && rms >= 0.0
    ensures 0.0 <= r <= 1.0
    ensures rms == 0.0 ==> r == 0.0
    ensures rms > 0.0 ==> r > 0.0
  {
    KotlinMath.Clamp(rms / (peak * 0.6 + 1.0), 0.0, 1.0)
  }

  function Pow(x: real, n: nat): real {
    if n == 0 then 1.0 else x * Pow(x, n - 1)
  }

  function SilentChunks(peak: real, n: nat): (r: real)
    requires peak >= 0.0
    ensures r >= 0.0
  {
    if n == 0 then peak else PeakStep(SilentChunks(peak, n - 1), 0.0)
  }

  /** After a loud chunk the envelope decays geometrically through silence, by 1% a chunk. */
  lemma {:induction false} SilenceDecaysGeometrically(peak: real, n: nat)
    requires peak >= 0.0
    ensures SilentChunks(peak, n) == Pow(0.99, n) * peak
  {
    if n > 0 {
      SilenceDecaysGeometrically(peak, n - 1);
    }
  }

  /** The sum of squares of the samples. */
  function SumOfSquares(samples: seq<int>): (r: int)
    ensures r >= 0
  {
    if samples == [] then 0 else SumOfSquares(samples[..|samples| - 1]) + samples[|samples| - 1] * samples[|samples| - 1]
  }

  /** A chunk of silence has energy zero, and only such a chunk does. */
  lemma {:induction false} SumOfSquaresZero(samples: seq<int>)
    ensures SumOfSquares(samples) == 0 <==> forall k :: 0 <= k < |samples| ==> samples[k] == 0
  {
    if samples != [] {
      var prefix := samples[..|samples| - 1];
      SumOfSquaresZero(prefix);
      var last := samples[|samples| - 1];
      assert last * last >= 0;
      if last != 0 {
        assert last * last > 0;
      }
      assert forall k :: 0 <= k < |prefix| ==> prefix[k] == samples[k];
    }
  }

  /** The loop `for (i in 0 until read) sum += v * v` over the first `read` samples. */
  method SumSquares(buf: seq<int>, read: int) returns (sum: int)
    requires 0 < read <= |buf|
    ensures sum == SumOfSquares(buf[..read])
  {
    sum := 0;
    var i := 0;
    while i < read
      invariant 0 <= i <= read
      invariant sum == SumOfSquares(buf[..i])
    {
      assert buf[..i + 1][..i] == buf[..i];
      sum := sum + buf[i] * buf[i];
      i := i + 1;
    }
  }

  /** The fallback's gyro integration of yaw: the first event only records its timestamp. */
  datatype GyroYaw = GyroYaw(yaw: real, lastTimestampNs: int)

  /** The angle a constant `rate` (rad/s) sweeps between two timestamps in nanoseconds. */
  function Swept(rate: real, fromNs: int, toNs: int): real {
    rate * ((toNs - fromNs) as real / NanosPerSecond)
  }

  /** Sweeping over two consecutive intervals is sweeping over their union. */
  lemma SweptAdds(rate: real, t0: int, t1: int, t2: int)
    ensures Swept(rate, t0, t1) + Swept(rate, t1, t2) == Swept(rate, t0, t2)
  {
    assert (t1 - t0) as real / NanosPerSecond + (t2 - t1) as real / NanosPerSecond
        == (t2 - t0) as real / NanosPerSecond;
  }

  /**
   * One gyro event's integration of an angle at `rate` since the previous
   * event at `lastNs`; a clock still at 0 (no previous event) leaves the
   * angle as it is.
   */
  function Integrated(angle: real, rate: real, lastNs: int, nowNs: int): (r: real)
    ensures lastNs == 0 ==> r == angle
    ensures lastNs != 0 && lastNs <= nowNs && rate >= 0.0 ==> r >= angle
    ensures lastNs != 0 && lastNs <= nowNs && rate <= 0.0 ==> r <= angle
  {
    if lastNs != 0 then angle + Swept(rate, lastNs, nowNs) else angle
  }

  function GyroYawStep(g: GyroYaw, rateZ: real, timestampNs: int): (r: GyroYaw)
    ensures r.lastTimestampNs == timestampNs
    ensures g.lastTimestampNs == 0 ==> r.yaw == g.yaw
  {
    GyroYaw(Integrated(g.yaw, rateZ, g.lastTimestampNs, timestampNs), timestampNs)
  }

  function GyroYawAll(g: GyroYaw, rateZ: real, timestamps: seq<int>): (r: GyroYaw)
    ensures timestamps != [] ==> r.lastTimestampNs == timestamps[|timestamps| - 1]
    ensures timestamps == [] ==> r == g
    decreases |timestamps|
  {
    if timestamps == [] then g
    else GyroYawStep(GyroYawAll(g, rateZ, timestamps[..|timestamps| - 1]), rateZ, timestamps[|timestamps| - 1])
  }

  /**
   * Fallback yaw is pure integration: at a constant rate, once a first
   * event has set the clock, yaw grows by rate times the elapsed time
   * between the first and last timestamps, however the events are spaced.
   */
  lemma {:induction false} ConstantRateIntegration(g: GyroYaw, rateZ: real, timestamps: seq<int>)
    requires g.lastTimestampNs != 0
    requires forall k :: 0 <= k < |timestamps| ==> timestamps[k] != 0
    ensures var r := GyroYawAll(g, rateZ, timestamps);
      r.yaw == g.yaw + Swept(rateZ, g.lastTimestampNs, r.lastTimestampNs)
    decreases |timestamps|
  {
    if timestamps == [] {
      assert Swept(rateZ, g.lastTimestampNs, g.lastTimestampNs) == 0.0;
    } else {
      var prefix := timestamps[..|timestamps| - 1];
      assert forall k :: 0 <= k < |prefix| ==> prefix[k] == timestamps[k];
      ConstantRateIntegration(g, rateZ, prefix);
      var b := GyroYawAll(g, rateZ, prefix);
      var t := timestamps[|timestamps| - 1];
      assert b.lastTimestampNs != 0;
      SweptAdds(rateZ, g.lastTimestampNs, b.lastTimestampNs, t);
    }
  }

  /** A convex blend `alpha * a + (1 - alpha) * b`; it stays between its two inputs. */
  function Blend(alpha: real, a: real, b: real): (r: real)
    requires 0.0 <= alpha <= 1.0
    ensures (a <= b ==> a <= r <= b) && (b <= a ==> b <= r <= a)
  {
    var r := alpha * a + (1.0 - alpha) * b;
    assert r - a == (1.0 - alpha) * (b - a);
    assert r - b == alpha * (a - b);
    ScaledWithin(1.0 - alpha, b - a);
    ScaledWithin(alpha, a - b);
    r
  }

  lemma ScaledWithin(k: real, d: real)
    requires 0.0 <= k <= 1.0
    ensures d >= 0.0 ==> 0.0 <= k * d <= d
    ensures d <= 0.0 ==> d <= k * d <= 0.0
  {
  }

  class AmbientVisualizerActivity {
    const device: Device
    var rotationSensor: Option<RotationKind>
    var sensorLabel: string
    var useFusionFallback: bool
    var status: StatusLine
    var baseYaw: Option<real>
    var basePitch: Option<real>
    var baseRoll: Option<real>
    var currentYaw: Option<real>
    var currentPitch: Option<real>
    var currentRoll: Option<real>
    var latestAmp: real
    var runningPeak: real
    const gravity: array<real>
    var hasGravity: bool
    var yawFromFusion: real
    var pitchFromFusion: real
    var rollFromFusion: real
    var lastGyroTimestampNs: int

    /**
     * The baseline is all set or all unset, and so is the current
     * orientation; a current orientation implies a baseline. The envelope is
     * never negative and the published level is in [0,1].
     */
    ghost predicate Valid()
      reads this
    {
      gravity.Length == 3
      && (baseYaw.Some? == basePitch.Some? == baseRoll.Some?)
      && (currentYaw.Some? == currentPitch.Some? == currentRoll.Some?)
      && (currentYaw.Some? ==> baseYaw.Some?)
      && runningPeak >= 0.0 && 0.0 <= latestAmp <= 1.0
    }

    /** `onCreate` up to `startSensors`: the fields' initial values and the ready status. */
    constructor (d: Device)
      ensures Valid() && fresh(gravity) && device == d
      ensures rotationSensor == ChooseRotationSensor(d).0 && sensorLabel == ChooseRotationSensor(d).1
      ensures useFusionFallback == UseFusionFallback(d) && status == Ready
      ensures baseYaw == None && currentYaw == None && !hasGravity && lastGyroTimestampNs == 0
      ensures runningPeak == InitialPeak && latestAmp == 0.0
      ensures yawFromFusion == 0.0 && pitchFromFusion == 0.0 && rollFromFusion == 0.0
      ensures gravity[..] == [0.0, 0.0, 0.0]
    {
      device := d;
      var choice := ChooseRotationSensor(d);
      rotationSensor, sensorLabel := choice.0, choice.1;
      useFusionFallback := UseFusionFallback(d);
      status := Ready;
      baseYaw, basePitch, baseRoll := None, None, None;
      currentYaw, currentPitch, currentRoll := None, None, None;
      latestAmp, runningPeak := 0.0, InitialPeak;
      gravity := new real[3](_ => 0.0);
      hasGravity := false;
      yawFromFusion, pitchFromFusion, rollFromFusion := 0.0, 0.0, 0.0;
      lastGyroTimestampNs := 0;
    }

    /**
     * `startSensors`: re-chooses the rotation sensor and the mode and sets
     * the status; the fallback relabels the sensor "GYRO+ACC". The baseline
     * and the fusion state are kept as they are.
     */
    method StartSensors()
      requires Valid()
      modifies this`rotationSensor, this`sensorLabel, this`useFusionFallback, this`status
      ensures Valid()
      ensures rotationSensor == ChooseRotationSensor(device).0
      ensures useFusionFallback == UseFusionFallback(device)
      ensures ModeOf(device) == Absolute ==>
        sensorLabel == ChooseRotationSensor(device).1 && status == UsingSensor(sensorLabel)
      ensures ModeOf(device) == InertialFallback ==> sensorLabel == "GYRO+ACC" && status == UsingSensor("GYRO+ACC")
      ensures ModeOf(device) == Unavailable ==> sensorLabel == "" && status == NoRotationSensor
      ensures baseYaw == old(baseYaw) && basePitch == old(basePitch) && baseRoll == old(baseRoll)
      ensures currentYaw == old(currentYaw) && currentPitch == old(currentPitch) && currentRoll == old(currentRoll)
      ensures runningPeak == old(runningPeak) && latestAmp == old(latestAmp)
      ensures yawFromFusion == old(yawFromFusion) && lastGyroTimestampNs == old(lastGyroTimestampNs)
      ensures pitchFromFusion == old(pitchFromFusion) && rollFromFusion == old(rollFromFusion)
      ensures hasGravity == old(hasGravity) && gravity[..] == old(gravity[..])
    {
      var choice := ChooseRotationSensor(device);
      rotationSensor, sensorLabel := choice.0, choice.1;
      useFusionFallback := UseFusionFallback(device);
      if rotationSensor.Some? {
        status := UsingSensor(sensorLabel);
      } else if useFusionFallback {
        sensorLabel := "GYRO+ACC";
        status := UsingSensor(sensorLabel);
      } else {
        status := NoRotationSensor;
      }
    }

    /**
     * `pushState`: with a full current orientation, publishes it relative to
     * the baseline (capturing the baseline first if unset); otherwise
     * publishes zero angles and "waiting for sensors".
     */
    method PushState() returns (p: Push)
      requires Valid()
      modifies this`baseYaw, this`basePitch, this`baseRoll, this`status
      ensures Valid()
      ensures old(baseYaw).Some? ==> baseYaw == old(baseYaw) && basePitch == old(basePitch) && baseRoll == old(baseRoll)
      ensures currentYaw.None? ==> p == Push(latestAmp, 0.0, 0.0, 0.0) && status == WaitingForSensors
      ensures currentYaw.None? ==> baseYaw == old(baseYaw)
      ensures currentYaw.Some? ==>
        p == Push(latestAmp, currentYaw.value - baseYaw.value, currentPitch.value - basePitch.value,
                  currentRoll.value - baseRoll.value)
        && status == Readout(sensorLabel, p.amp, p.yaw, p.pitch, p.roll)
    {
      if currentYaw.Some? && currentPitch.Some? && currentRoll.Some? {
        var yaw, pitch, roll := currentYaw.value, currentPitch.value, currentRoll.value;
        var y0, p0, r0 := baseYaw.GetOr(yaw), basePitch.GetOr(pitch), baseRoll.GetOr(roll);
        baseYaw, basePitch, baseRoll := Some(y0), Some(p0), Some(r0);
        p := Push(latestAmp, yaw - y0, pitch - p0, roll - r0);
        status := Readout(sensorLabel, p.amp, p.yaw, p.pitch, p.roll);
      } else {
        p := Push(latestAmp, 0.0, 0.0, 0.0);
        status := WaitingForSensors;
      }
    }

    /**
     * A rotation-vector event, after the platform's matrix conversion, axis
     * remap and Euler extraction gave `orientation`: pitch is negated, the
     * baseline is captured if unset, and the result is published.
     */
    method OnRotationSample(orientation: (real, real, real)) returns (p: Push)
      requires Valid()
      modifies this`baseYaw, this`basePitch, this`baseRoll, this`status,
               this`currentYaw, this`currentPitch, this`currentRoll
      ensures Valid()
      ensures currentYaw == Some(orientation.0) && currentPitch == Some(-orientation.1)
      ensures currentRoll == Some(orientation.2)
      ensures old(baseYaw).Some? ==> baseYaw == old(baseYaw) && basePitch == old(basePitch) && baseRoll == old(baseRoll)
      ensures old(baseYaw).None? ==> p == Push(latestAmp, 0.0, 0.0, 0.0)
      ensures p == Push(latestAmp, orientation.0 - baseYaw.value, -orientation.1 - basePitch.value,
                        orientation.2 - baseRoll.value)
    {
      var yaw, pitch, roll := orientation.0, -orientation.1, orientation.2;
      if baseYaw.None? {
        baseYaw, basePitch, baseRoll := Some(yaw), Some(pitch), Some(roll);
      }
      currentYaw, currentPitch, currentRoll := Some(yaw), Some(pitch), Some(roll);
      p := PushState();
    }

    /**
     * The state after one run of the complementary filter, starting from the
     * fused pitch and roll `pitch0` and `roll0`: pitch and roll are blended
     * 0.98/0.02 with the accelerometer tilt of the current gravity estimate,
     * the current orientation is the fused one, and `p` publishes it
     * relative to the baseline.
     */
    ghost predicate FilterRan(pitch0: real, roll0: real, tilt: (real, real, real) -> (real, real), p: Option<Push>)
      reads this, gravity
      requires gravity.Length == 3
    {
      var t := tilt(gravity[0], gravity[1], gravity[2]);
      && pitchFromFusion == Blend(FusionAlpha, pitch0, t.0)
      && rollFromFusion == Blend(FusionAlpha, roll0, t.1)
      && currentYaw == Some(yawFromFusion) && currentPitch == Some(pitchFromFusion)
      && currentRoll == Some(rollFromFusion)
      && baseYaw.Some? && basePitch.Some? && baseRoll.Some?
      && p == Some(Push(latestAmp, yawFromFusion - baseYaw.value, pitchFromFusion - basePitch.value,
                        rollFromFusion - baseRoll.value))
    }

    /**
     * `fuseAndPush`: nothing before the first accelerometer sample; then the
     * complementary filter blends the gyro-integrated pitch and roll with the
     * accelerometer tilt (`tilt` stands for the two `atan2` expressions on
     * the gravity estimate), captures the baseline if unset and publishes.
     * Yaw stays pure gyro integration.
     */
    method FuseAndPush(tilt: (real, real, real) -> (real, real)) returns (p: Option<Push>)
      requires Valid()
      modifies this`pitchFromFusion, this`rollFromFusion, this`baseYaw, this`basePitch, this`baseRoll,
               this`currentYaw, this`currentPitch, this`currentRoll, this`status
      ensures Valid()
      ensures !old(hasGravity) ==> p == None && unchanged(this)
      ensures old(hasGravity) ==> FilterRan(old(pitchFromFusion), old(rollFromFusion), tilt, p)
      ensures old(hasGravity) && old(baseYaw).None? ==> p == Some(Push(latestAmp, 0.0, 0.0, 0.0))
      ensures old(baseYaw).Some? ==> baseYaw == old(baseYaw) && basePitch == old(basePitch) && baseRoll == old(baseRoll)
    {
      if !hasGravity {
        return None;
      }
      var t := tilt(gravity[0], gravity[1], gravity[2]);
      pitchFromFusion := Blend(FusionAlpha, pitchFromFusion, t.0);
      rollFromFusion := Blend(FusionAlpha, rollFromFusion, t.1);
      if baseYaw.None? {
        baseYaw, basePitch, baseRoll := Some(yawFromFusion), Some(pitchFromFusion), Some(rollFromFusion);
      }
      currentYaw, currentPitch, currentRoll := Some(yawFromFusion), Some(pitchFromFusion), Some(rollFromFusion);
      var pushed := PushState();
      p := Some(pushed);
    }

    /**
     * An accelerometer event: ignored outside the fallback; otherwise the
     * gravity estimate is low-pass filtered in place, marked present, and
     * the filter runs.
     */
    method OnAccelerometer(values: seq<real>, tilt: (real, real, real) -> (real, real)) returns (p: Option<Push>)
      requires Valid() && |values| >= 3
      modifies gravity, this`hasGravity, this`pitchFromFusion, this`rollFromFusion, this`baseYaw, this`basePitch, this`baseRoll,
               this`currentYaw, this`currentPitch, this`currentRoll, this`status
      ensures Valid()
      ensures !useFusionFallback ==> p == None && unchanged(this) && unchanged(gravity)
      ensures old(useFusionFallback) ==>
        gravity[..] == [Blend(GravityAlpha, old(gravity[0]), values[0]),
                        Blend(GravityAlpha, old(gravity[1]), values[1]),
                        Blend(GravityAlpha, old(gravity[2]), values[2])]
        && hasGravity
        && FilterRan(old(pitchFromFusion), old(rollFromFusion), tilt, p)
      ensures old(baseYaw).Some? ==> baseYaw == old(baseYaw) && basePitch == old(basePitch) && baseRoll == old(baseRoll)
    {
      if !useFusionFallback {
        return None;
      }
      gravity[0] := Blend(GravityAlpha, gravity[0], values[0]);
      gravity[1] := Blend(GravityAlpha, gravity[1], values[1]);
      gravity[2] := Blend(GravityAlpha, gravity[2], values[2]);
      hasGravity := true;
      p := FuseAndPush(tilt);
    }

    /**
     * A gyroscope event: ignored outside the fallback; otherwise the first
     * event only records its timestamp, later ones integrate the rates over
     * the interval (z drives yaw, x pitch, y roll), and the filter runs.
     */
    method OnGyroscope(values: seq<real>, timestampNs: int, tilt: (real, real, real) -> (real, real))
      returns (p: Option<Push>)
      requires Valid() && |values| >= 3
      modifies this`yawFromFusion, this`lastGyroTimestampNs, this`pitchFromFusion, this`rollFromFusion, this`baseYaw, this`basePitch, this`baseRoll,
               this`currentYaw, this`currentPitch, this`currentRoll, this`status
      ensures Valid()
      ensures !useFusionFallback ==> p == None && unchanged(this)
      ensures old(useFusionFallback) ==>
        GyroYaw(yawFromFusion, lastGyroTimestampNs)
          == GyroYawStep(GyroYaw(old(yawFromFusion), old(lastGyroTimestampNs)), values[2], timestampNs)
      ensures old(useFusionFallback) ==>
        var pitch := Integrated(old(pitchFromFusion), values[0], old(lastGyroTimestampNs), timestampNs);
        var roll := Integrated(old(rollFromFusion), values[1], old(lastGyroTimestampNs), timestampNs);
        && (hasGravity ==> FilterRan(pitch, roll, tilt, p))
        && (!hasGravity ==> pitchFromFusion == pitch && rollFromFusion == roll && p == None)
      ensures old(baseYaw).Some? ==> baseYaw == old(baseYaw) && basePitch == old(basePitch) && baseRoll == old(baseRoll)
    {
      if !useFusionFallback {
        return None;
      }
      if lastGyroTimestampNs != 0 {
        var dt := (timestampNs - lastGyroTimestampNs) as real / NanosPerSecond;
        yawFromFusion := yawFromFusion + values[2] * dt;
        assert yawFromFusion == old(yawFromFusion) + Swept(values[2], old(lastGyroTimestampNs), timestampNs);
        pitchFromFusion := pitchFromFusion + values[0] * dt;
        rollFromFusion := rollFromFusion + values[1] * dt;
        assert pitchFromFusion == old(pitchFromFusion) + Swept(values[0], old(lastGyroTimestampNs), timestampNs);
        assert rollFromFusion == old(rollFromFusion) + Swept(values[1], old(lastGyroTimestampNs), timestampNs);
      }
      lastGyroTimestampNs := timestampNs;
      p := FuseAndPush(tilt);
    }

    /**
     * One pass of the audio loop with `read` samples in `buf`: a read of no
     * samples changes nothing; otherwise the RMS (`sqrt` is the platform's
     * square root) updates the envelope and the published level, and the
     * state is pushed.
     */
    method OnAudioChunk(buf: seq<int>, read: int, sqrt: real -> real) returns (p: Option<Push>)
      requires Valid() && read <= |buf|
      requires forall x :: x >= 0.0 ==> sqrt(x) >= 0.0
      modifies this`runningPeak, this`latestAmp, this`baseYaw, this`basePitch, this`baseRoll, this`status
      ensures Valid()
      ensures read <= 0 ==> p == None && unchanged(this)
      ensures read > 0 ==>
        var rms := sqrt(SumOfSquares(buf[..read]) as real / read as real);
        && runningPeak == PeakStep(old(runningPeak), rms)
        && latestAmp == Normalized(rms, runningPeak)
        && p.Some? && p.value.amp == latestAmp
      ensures read > 0 && currentYaw.None? ==>
        p == Some(Push(latestAmp, 0.0, 0.0, 0.0)) && status == WaitingForSensors && baseYaw == old(baseYaw)
      ensures read > 0 && currentYaw.Some? ==>
        p == Some(Push(latestAmp, currentYaw.value - baseYaw.value, currentPitch.value - basePitch.value,
                       currentRoll.value - baseRoll.value))
        && status == Readout(sensorLabel, latestAmp, p.value.yaw, p.value.pitch, p.value.roll)
      ensures old(baseYaw).Some? ==> baseYaw == old(baseYaw) && basePitch == old(basePitch) && baseRoll == old(baseRoll)
    {
      if read <= 0 {
        return None;
      }
      var sum := SumSquares(buf, read);
      var rms := sqrt(sum as real / read as real);
      runningPeak := PeakStep(runningPeak, rms);
      latestAmp := Normalized(rms, runningPeak);
      var pushed := PushState();
      p := Some(pushed);
    }
  }
}
