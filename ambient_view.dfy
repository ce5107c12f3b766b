/**
 * The non-drawing state of the ambient visualizer view: per-axis angle
 * unwrapping on every published sample, and on every redraw a
 * rate-limited easing of the camera bias, a camera centre clamped into a
 * world five times the screen, the amplitude clamp and ripple gate, and
 * a particle ensemble created once.
 */
module AmbientView {
  import opened Wrappers
  import KotlinMath

  /** `Math.PI`, the double nearest to pi, written out in decimal. */
  const Pi: real := 3.141592653589793
  const TwoPi: real := 2.0 * Pi

  /** The world is this many screens wide and high. */
  const WorldScale: real := 5.0
  /** The camera moves a quarter of the world per radian of displayed angle. */
  const PanPerRadian: real := 0.25
  /** The bias follows the target at 5 degrees per second at most. */
  const BiasDegreesPerSecond: real := 5.0
  const NanosPerSecond: real := 1000000000.0
  const ParticleCount: nat := 32
  const RippleThreshold: real := 0.05

  /**
   * The wrap of one raw-angle difference: one turn is taken off a step
   * above pi, then one turn is added to a step below -pi.
   */
  function WrapStep(delta: real): (r: real)
    ensures -3.0 * Pi < delta < 3.0 * Pi ==> -Pi <= r <= Pi
    ensures r == delta || r == delta - TwoPi || r == delta + TwoPi
    ensures -Pi <= delta <= Pi ==> r == delta
  {
    var once := if delta > Pi then delta - TwoPi else delta;
    if once < -Pi then once + TwoPi else once
  }

  /**
   * A step of exactly -pi is kept as it is, so an unwrapped step can reach
   * -pi as well as pi: the range is the closed interval [-pi, pi].
   */
  lemma WrapStepKeepsBothEnds()
    ensures WrapStep(-Pi) == -Pi && WrapStep(Pi) == Pi
  {
  }

  /** The unwrapping state of one axis: the last raw angle and the accumulated angle. */
  datatype Axis = Axis(lastRaw: Option<real>, accum: real)

  /** One raw sample: the first is only recorded; later ones add their wrapped step. */
  function Unwrap(a: Axis, raw: real): (r: Axis)
    ensures r.lastRaw == Some(raw)
    ensures a.lastRaw.None? ==> r.accum == a.accum
    ensures a.lastRaw.Some? && -Pi <= a.lastRaw.value <= Pi && -Pi <= raw <= Pi ==>
      -Pi <= r.accum - a.accum <= Pi
  {
    match a.lastRaw
    case None => Axis(Some(raw), a.accum)
    case Some(prev) => Axis(Some(raw), a.accum + WrapStep(raw - prev))
  }

  function UnwrapAll(a: Axis, raws: seq<real>): Axis
    decreases |raws|
  {
    if raws == [] then a else Unwrap(UnwrapAll(a, raws[..|raws| - 1]), raws[|raws| - 1])
  }

  /** `k` whole turns, in radians. */
  function Turns(k: int): real {
    k as real * TwoPi
  }

  /**
   * Unwrapping loses no turn and invents none: after any series of raw
   * angles the accumulator has moved by the raw change since the first
   * recorded sample plus a whole number of turns.
   */
  lemma {:induction false} UnwrapAllTracksRaw(a: Axis, raws: seq<real>)
    requires a.lastRaw.Some?
    ensures var r := UnwrapAll(a, raws);
      r.lastRaw.Some? &&
      exists turns: int :: r.accum - a.accum == r.lastRaw.value - a.lastRaw.value + Turns(turns)
    decreases |raws|
  {
    var r := UnwrapAll(a, raws);
    if raws == [] {
      assert r.accum - a.accum == r.lastRaw.value - a.lastRaw.value + Turns(0);
    } else {
      var prefix := raws[..|raws| - 1];
      var raw := raws[|raws| - 1];
      UnwrapAllTracksRaw(a, prefix);
      var b := UnwrapAll(a, prefix);
      var turns: int :| b.accum - a.accum == b.lastRaw.value - a.lastRaw.value + Turns(turns);
      var step := WrapStep(raw - b.lastRaw.value);
      assert r.accum == b.accum + step;
      if step == raw - b.lastRaw.value {
        assert r.accum - a.accum == raw - a.lastRaw.value + Turns(turns);
      } else if step == raw - b.lastRaw.value - TwoPi {
        assert r.accum - a.accum == raw - a.lastRaw.value + Turns(turns - 1);
      } else {
        assert r.accum - a.accum == raw - a.lastRaw.value + Turns(turns + 1);
      }
    }
  }

  /** Seconds since the previous frame; 0 on the first frame. */
  function FrameDt(lastFrameTime: int, nowNs: int): (dt: real)
    ensures lastFrameTime == 0 ==> dt == 0.0
    ensures lastFrameTime <= nowNs ==> dt >= 0.0
  {
    if lastFrameTime == 0 then 0.0 else (nowNs - lastFrameTime) as real / NanosPerSecond
  }

  /** The bias budget of a frame: 5 degrees per second of frame time, in radians. */
  function MaxDelta(dt: real): (m: real)
    ensures dt >= 0.0 ==> m >= 0.0
    ensures dt == 0.0 ==> m == 0.0
  {
    BiasDegreesPerSecond * Pi / 180.0 * dt
  }

  function Abs(x: real): real {
    if x < 0.0 then -x else x
  }

  /**
   * `ease`: moves `current` toward `target` by at most `maxDelta`, never past
   * it, and onto it when it is within reach.
   */
  function Ease(current: real, target: real, maxDelta: real): (r: real)
    requires maxDelta >= 0.0
    ensures Abs(r - current) <= maxDelta
    ensures current <= target ==> current <= r <= target
    ensures target <= current ==> target <= r <= current
    ensures Abs(target - current) <= maxDelta ==> r == target
    ensures Abs(target - current) > maxDelta ==> Abs(target - r) == Abs(target - current) - maxDelta
  {
    current + KotlinMath.Clamp(target - current, -maxDelta, maxDelta)
  }

  /** Several frames of easing toward a possibly moving target: pairs of (budget, target). */
  function EaseFrames(bias: real, frames: seq<(real, real)>): real
    requires forall k :: 0 <= k < |frames| ==> frames[k].0 >= 0.0
    decreases |frames|
  {
    if frames == [] then bias
    else Ease(EaseFrames(bias, frames[..|frames| - 1]), frames[|frames| - 1].1, frames[|frames| - 1].0)
  }

  function TotalBudget(frames: seq<(real, real)>): real
    decreases |frames|
  {
    if frames == [] then 0.0 else TotalBudget(frames[..|frames| - 1]) + frames[|frames| - 1].0
  }

  /**
   * Over any run of frames the bias drifts by no more than the sum of the
   * frames' budgets, i.e. 5 degrees per second of elapsed time, whatever
   * the targets do.
   */
  lemma {:induction false} EaseFramesRateLimited(bias: real, frames: seq<(real, real)>)
    requires forall k :: 0 <= k < |frames| ==> frames[k].0 >= 0.0
    ensures Abs(EaseFrames(bias, frames) - bias) <= TotalBudget(frames)
    decreases |frames|
  {
    if frames != [] {
      var prefix := frames[..|frames| - 1];
      assert forall k :: 0 <= k < |prefix| ==> prefix[k] == frames[k];
      EaseFramesRateLimited(bias, prefix);
    }
  }

  /** The camera centre: world centre panned by the displayed angles, clamped into the world. */
  function CameraCenter(screenW: real, screenH: real, displayYaw: real, displayPitch: real): (c: (real, real))
    requires screenW >= 0.0 && screenH >= 0.0
    ensures screenW / 2.0 <= c.0 <= WorldScale * screenW - screenW / 2.0
    ensures screenH / 2.0 <= c.1 <= WorldScale * screenH - screenH / 2.0
    ensures displayYaw == 0.0 && displayPitch == 0.0 ==>
      c == (WorldScale * screenW / 2.0, WorldScale * screenH / 2.0)
  {
    var worldW, worldH := screenW * WorldScale, screenH * WorldScale;
    var camXRaw := worldW / 2.0 + displayYaw * worldW * PanPerRadian;
    var camYRaw := worldH / 2.0 - displayPitch * worldH * PanPerRadian;
    (KotlinMath.Clamp(camXRaw, screenW / 2.0, worldW - screenW / 2.0),
     KotlinMath.Clamp(camYRaw, screenH / 2.0, worldH - screenH / 2.0))
  }

  /** `worldToScreen`: world coordinates relative to the camera, with the camera at the screen centre. */
  function WorldToScreen(wx: real, wy: real, cam: (real, real), screenW: real, screenH: real): (real, real) {
    (wx - cam.0 + screenW / 2.0, wy - cam.1 + screenH / 2.0)
  }

  /**
   * The viewport never leaves the world: the screen's corners show world
   * points inside [0, worldW] x [0, worldH].
   */
  lemma ViewportInsideWorld(screenW: real, screenH: real, displayYaw: real, displayPitch: real)
    requires screenW >= 0.0 && screenH >= 0.0
    ensures var cam := CameraCenter(screenW, screenH, displayYaw, displayPitch);
      var topLeft := (cam.0 - screenW / 2.0, cam.1 - screenH / 2.0);
      var bottomRight := (cam.0 + screenW / 2.0, cam.1 + screenH / 2.0);
      WorldToScreen(topLeft.0, topLeft.1, cam, screenW, screenH) == (0.0, 0.0)
      && WorldToScreen(bottomRight.0, bottomRight.1, cam, screenW, screenH) == (screenW, screenH)
      && 0.0 <= topLeft.0 && bottomRight.0 <= WorldScale * screenW
      && 0.0 <= topLeft.1 && bottomRight.1 <= WorldScale * screenH
  {
  }

  /** The amplitude used for drawing. */
  function DrawAmplitude(amplitude: real): (a: real)
    ensures 0.0 <= a <= 1.0
  {
    KotlinMath.Clamp(amplitude, 0.0, 1.0)
  }

  /** Whether the ripple ring is drawn this frame. */
  function RippleVisible(amplitude: real): bool {
    DrawAmplitude(amplitude) > RippleThreshold
  }

  /** The clamp does not move the ripple gate: the ripple shows exactly when the raw amplitude exceeds 0.05. */
  lemma RippleVisibleIff(amplitude: real)
    ensures RippleVisible(amplitude) <==> amplitude > RippleThreshold
  {
  }

  /** One particle: an angular offset, a radius factor and whether it is drawn hollow. */
  datatype Particle = Particle(angleOffset: real, radiusFactor: real, hollow: bool)

  /** The three random draws behind one particle. */
  datatype ParticleDraw = ParticleDraw(angle: real, jitter: real, hollow: bool)

  /** `nextDouble(0, 2pi)` and `nextDouble(-0.1, 0.1)` return values in these half-open ranges. */
  ghost predicate DrawInRange(d: ParticleDraw) {
    0.0 <= d.angle < TwoPi && -0.1 <= d.jitter < 0.1
  }

  function MakeParticle(d: ParticleDraw): (p: Particle)
    ensures DrawInRange(d) ==> 0.0 <= p.angleOffset < TwoPi && 0.8 <= p.radiusFactor < 1.0
  {
    Particle(d.angle, 0.9 + d.jitter, d.hollow)
  }

  /** What a frame computes before drawing. */
  datatype FrameState = FrameState(amp: real, camera: (real, real), ripple: bool, particles: nat)

  class AmbientVisualizerView {
    var amplitude: real
    var yaw: real
    var pitch: real
    var roll: real
    var status: string
    var lastFrameTime: int
    var lastYawRaw: Option<real>
    var yawAccum: real
    var biasYaw: real
    var lastPitchRaw: Option<real>
    var pitchAccum: real
    var biasPitch: real
    var particles: seq<Particle>
    var showStatus: bool

    /** Once created, the ensemble has exactly `ParticleCount` particles. */
    ghost predicate Valid()
      reads this
    {
      particles == [] || |particles| == ParticleCount
    }

    constructor ()
      ensures Valid()
      ensures amplitude == 0.0 && yaw == 0.0 && pitch == 0.0 && roll == 0.0 && status == ""
      ensures lastFrameTime == 0 && lastYawRaw == None && lastPitchRaw == None
      ensures yawAccum == 0.0 && pitchAccum == 0.0 && biasYaw == 0.0 && biasPitch == 0.0
      ensures particles == [] && showStatus
    {
      amplitude, yaw, pitch, roll, status := 0.0, 0.0, 0.0, 0.0, "";
      lastFrameTime := 0;
      lastYawRaw, yawAccum, biasYaw := None, 0.0, 0.0;
      lastPitchRaw, pitchAccum, biasPitch := None, 0.0, 0.0;
      particles := [];
      showStatus := true;
    }

    /**
     * `update`: unwraps yaw and pitch, then publishes the accumulated angles
     * and the roll and amplitude as given.
     */
    method Update(amp: real, newYaw: real, newPitch: real, newRoll: real)
      modifies this
      ensures Axis(lastYawRaw, yawAccum) == Unwrap(Axis(old(lastYawRaw), old(yawAccum)), newYaw)
      ensures Axis(lastPitchRaw, pitchAccum) == Unwrap(Axis(old(lastPitchRaw), old(pitchAccum)), newPitch)
      ensures yaw == yawAccum && pitch == pitchAccum && roll == newRoll && amplitude == amp
      ensures biasYaw == old(biasYaw) && biasPitch == old(biasPitch) && lastFrameTime == old(lastFrameTime)
      ensures particles == old(particles) && showStatus == old(showStatus) && status == old(status)
    {
      amplitude := amp;
      if lastYawRaw.None? {
        lastYawRaw := Some(newYaw);
      } else {
        var delta := newYaw - lastYawRaw.value;
        if delta > Pi { delta := delta - TwoPi; }
        if delta < -Pi { delta := delta + TwoPi; }
        yawAccum := yawAccum + delta;
        lastYawRaw := Some(newYaw);
      }
      if lastPitchRaw.None? {
        lastPitchRaw := Some(newPitch);
      } else {
        var delta := newPitch - lastPitchRaw.value;
        if delta > Pi { delta := delta - TwoPi; }
        if delta < -Pi { delta := delta + TwoPi; }
        pitchAccum := pitchAccum + delta;
        lastPitchRaw := Some(newPitch);
      }
      yaw := yawAccum;
      pitch := pitchAccum;
      roll := newRoll;
    }

    method SetStatusText(text: string)
      modifies this`status
      ensures status == text && showStatus == old(showStatus)
    {
      status := text;
    }

    /** `toggleStatus`: flips whether the status line is shown; two taps restore it. */
    method ToggleStatus()
      modifies this`showStatus
      ensures showStatus == !old(showStatus) && status == old(status)
    {
      showStatus := !showStatus;
    }

    /** `repeat(32) { particles += ... }`, run only while the ensemble is empty. */
    method EnsureParticles(draw: nat -> ParticleDraw)
      requires Valid()
      modifies this`particles
      ensures Valid() && |particles| == ParticleCount
      ensures old(particles) != [] ==> particles == old(particles)
      ensures old(particles) == [] ==> forall i :: 0 <= i < ParticleCount ==> particles[i] == MakeParticle(draw(i))
    {
      if particles == [] {
        var i := 0;
        while i < ParticleCount
          invariant 0 <= i <= ParticleCount && |particles| == i
          invariant forall j :: 0 <= j < i ==> particles[j] == MakeParticle(draw(j))
        {
          particles := particles + [MakeParticle(draw(i))];
          i := i + 1;
        }
      }
    }

    /**
     * The non-drawing part of `onDraw` at time `nowNs` on a screen of
     * `screenW` x `screenH`: eases both biases by the frame's budget, places
     * the camera, gates the ripple, creates the particles on the first
     * frame, and records the frame time. The clock is monotonic.
     */
    method Frame(nowNs: int, screenW: real, screenH: real, draw: nat -> ParticleDraw) returns (f: FrameState)
      requires Valid()
      requires screenW >= 0.0 && screenH >= 0.0
      requires lastFrameTime <= nowNs
      modifies this`biasYaw, this`biasPitch, this`particles, this`lastFrameTime
      ensures Valid() && |particles| == ParticleCount && f.particles == ParticleCount
      ensures old(particles) != [] ==> particles == old(particles)
      ensures var m := MaxDelta(FrameDt(old(lastFrameTime), nowNs));
        biasYaw == Ease(old(biasYaw), yaw, m) && biasPitch == Ease(old(biasPitch), pitch, m)
      ensures old(lastFrameTime) == 0 ==> biasYaw == old(biasYaw) && biasPitch == old(biasPitch)
      ensures f.camera == CameraCenter(screenW, screenH, yaw - biasYaw, pitch - biasPitch)
      ensures f.amp == DrawAmplitude(amplitude) && f.ripple == (amplitude > RippleThreshold)
      ensures lastFrameTime == nowNs
      ensures yaw == old(yaw) && pitch == old(pitch) && amplitude == old(amplitude)
      ensures lastYawRaw == old(lastYawRaw) && yawAccum == old(yawAccum)
      ensures lastPitchRaw == old(lastPitchRaw) && pitchAccum == old(pitchAccum)
      ensures roll == old(roll) && status == old(status) && showStatus == old(showStatus)
    {
      var amp := DrawAmplitude(amplitude);
      var dt := FrameDt(lastFrameTime, nowNs);
      var maxDelta := MaxDelta(dt);
      biasYaw := Ease(biasYaw, yaw, maxDelta);
      biasPitch := Ease(biasPitch, pitch, maxDelta);
      var camera := CameraCenter(screenW, screenH, yaw - biasYaw, pitch - biasPitch);
      RippleVisibleIff(amplitude);
      var ripple := amp > RippleThreshold;
      EnsureParticles(draw);
      lastFrameTime := nowNs;
      f := FrameState(amp, camera, ripple, |particles|);
    }
  }
}
