/**
  RotateHapticTemporal: the same phase machine as RotateHapticCombined, with
  a selectable velocity source and projection axis and without the yaw term.
  Smoothing uses the raw Time.deltaTime, and in Idle the amplitudes are
  smoothed a second time towards zero while (0, 0) is sent.
*/
module TemporalHaptics {
  import opened Unity
  import opened Wrappers
  import opened Haptics
  import opened MotionPhase

  datatype VelocitySource = Auto | Rigidbody | TransformDelta

  datatype ProjectAxis = ForwardZ | RightX | Custom

  datatype Config = Config(
    strongAmp: real, weakAmp: real, baseFreq: real, globalGain: real,
    minAmpWhileActive: real, smooth: real,
    speedThresholdUp: real, speedThresholdDown: real, brakeAccelThreshold: real,
    startPulse: real -> real, brakePulse: real -> real, movingAmpCurve: real -> real,
    pulseDuration: real,
    handSpeedDeadzone: real, bothHandsBoost: real, bothHandsSimilarity: real,
    velocitySource: VelocitySource, projectAxis: ProjectAxis)

  /** The [Range] attributes ([0, 1], and [0, 0.3] for minAmpWhileActive) and
      positive divisors. */
  predicate ValidConfig(c: Config) {
    && InUnit(c.strongAmp) && InUnit(c.weakAmp) && InUnit(c.baseFreq) && InUnit(c.bothHandsSimilarity)
    && 0.0 <= c.minAmpWhileActive <= 0.3
    && c.speedThresholdUp > 0.0 && c.pulseDuration > 0.0
  }

  /** The default inspector values, with the curves supplied by the scene. */
  function Defaults(startPulse: real -> real, brakePulse: real -> real, movingAmpCurve: real -> real): (c: Config)
    ensures ValidConfig(c)
    ensures c.velocitySource == Auto && c.projectAxis == ForwardZ
    ensures c.speedThresholdDown < c.speedThresholdUp && c.weakAmp < c.strongAmp
  {
    Config(0.9, 0.35, 0.35, 1.4, 0.10, 12.0, 0.10, 0.06, 0.35, startPulse, brakePulse, movingAmpCurve,
           0.18, 0.02, 1.25, 0.55, Auto, ForwardZ)
  }

  function PhaseThresholds(c: Config): Thresholds {
    Thresholds(c.speedThresholdUp, c.speedThresholdDown, c.brakeAccelThreshold, c.pulseDuration)
  }

  /** The attached rigidbody: its velocity and isKinematic. */
  datatype Body = Body(velocity: Vec3, isKinematic: bool)

  /** What one Update reads: Time.deltaTime, the rigidbody (None when there is
      none), the reference transform's position, forward and right axes and
      `rotation * customAxis`, and the controllers' local velocities. */
  datatype Frame = Frame(deltaTime: real, body: Option<Body>, position: Vec3, forward: Vec3, right: Vec3,
                         customAxisWorld: Vec3, leftVelocity: Vec3, rightVelocity: Vec3)

  /** `_phase`, `_phaseT`, `_prevPos`, `_prevVel`, `_ampL`, `_ampR`. */
  datatype State = State(phase: PhaseState, prevPos: Vec3, prevVel: Vec3, ampL: real, ampR: real)

  predicate Invariant(s: State) {
    InUnit(s.ampL) && InUnit(s.ampR) && s.phase.t >= 0.0
  }

  /** Forced Rigidbody mode, or Auto with a non-kinematic rigidbody present. */
  predicate UsesRigidbody(c: Config, body: Option<Body>) {
    || c.velocitySource == Rigidbody
    || (c.velocitySource == Auto && body.Some? && !body.value.isKinematic)
  }

  /** Step 1: the world velocity. None stands for the NullReferenceException
      that forced Rigidbody mode raises when no rigidbody is attached. A
      rigidbody velocity of squared length below 1e-6 is replaced by the
      position difference over dt. */
  function WorldVelocity(c: Config, s: State, f: Frame, dt: real): (v: Option<Vec3>)
    requires dt > 0.0
    ensures v.None? <==> c.velocitySource == Rigidbody && f.body.None?
    ensures v.Some? && UsesRigidbody(c, f.body) && SqrMagnitude(f.body.value.velocity) >= 1e-6 ==>
      v.value == f.body.value.velocity
    ensures v.Some? && (!UsesRigidbody(c, f.body) || SqrMagnitude(f.body.value.velocity) < 1e-6) ==>
      Scale(v.value, dt) == Sub(f.position, s.prevPos)
  {
    var delta := Scale(Sub(f.position, s.prevPos), 1.0 / dt);
    assert (1.0 / dt) * dt == 1.0;
    if UsesRigidbody(c, f.body) then
      if f.body.None? then None
      else if SqrMagnitude(f.body.value.velocity) < 1e-6 then Some(delta)
      else Some(f.body.value.velocity)
    else Some(delta)
  }

  /** The axis the chosen ProjectAxis names, before normalisation. */
  function AxisChoice(c: Config, f: Frame): Vec3 {
    match c.projectAxis
    case ForwardZ => f.forward
    case RightX => f.right
    case Custom => f.customAxisWorld
  }

  /** Step 1: the projection axis; the custom axis is normalised, and then
      whichever axis was chosen is normalised once more. */
  function ProjectionAxis(c: Config, f: Frame, mag: Vec3 -> real): Vec3 {
    var a := AxisChoice(c, f);
    Normalize(if c.projectAxis == Custom then Normalize(a, mag) else a, mag)
  }

  /** The projection axis has length one, or is zero when the chosen axis is
      (almost) zero; normalising the custom axis twice is normalising it once. */
  lemma ProjectionAxisUnitOrZero(c: Config, f: Frame, mag: Vec3 -> real)
    requires IsMagnitudeOf(mag(AxisChoice(c, f)), AxisChoice(c, f))
    requires var n := Normalize(AxisChoice(c, f), mag); IsMagnitudeOf(mag(n), n)
    ensures ProjectionAxis(c, f, mag) == Normalize(AxisChoice(c, f), mag)
    ensures var a := ProjectionAxis(c, f, mag); a == Zero || SqrMagnitude(a) == 1.0
    ensures ProjectionAxis(c, f, mag) == Zero <==> mag(AxisChoice(c, f)) <= NormalizeEpsilon
  {
    var a := AxisChoice(c, f);
    if c.projectAxis == Custom {
      NormalizeIdempotent(a, mag);
      assert ProjectionAxis(c, f, mag) == Normalize(Normalize(a, mag), mag);
    } else {
      assert ProjectionAxis(c, f, mag) == Normalize(a, mag);
    }
    NormalizeIsUnitOrZero(a, mag);
  }

  /** The frame's guarded dt, velocity, speed and acceleration along the axis. */
  datatype Motion = Motion(dt: real, vel: Vec3, vZ: real, aZ: real)

  function Sense(c: Config, s: State, f: Frame, mag: Vec3 -> real): (m: Option<Motion>)
    ensures m.None? <==> c.velocitySource == Rigidbody && f.body.None?
    ensures m.Some? ==> m.value.dt == GuardedDt(f.deltaTime)
    ensures m.Some? ==> Some(m.value.vel) == WorldVelocity(c, s, f, m.value.dt)
    ensures m.Some? ==> m.value.vZ == Dot(m.value.vel, ProjectionAxis(c, f, mag))
    ensures m.Some? ==> m.value.aZ * m.value.dt == m.value.vZ - Dot(s.prevVel, ProjectionAxis(c, f, mag))
  {
    var dt := GuardedDt(f.deltaTime);
    match WorldVelocity(c, s, f, dt)
    case None => None
    case Some(vel) =>
      var axis := ProjectionAxis(c, f, mag);
      var vZ := Dot(vel, axis);
      var vZPrev := Dot(s.prevVel, axis);
      Some(Motion(dt, vel, vZ, (vZ - vZPrev) / dt))
  }

  /** Step 3: the base amplitude. */
  function BaseAmplitude(c: Config, p: PhaseState, speedAbs: real): (b: real)
    requires ValidConfig(c)
    ensures InUnit(b)
    ensures p.phase == Idle ==> b == 0.0
    ensures p.phase != Idle ==> b >= c.minAmpWhileActive
  {
    var curve :=
      match p.phase
      case Start => c.startPulse(Clamp01(p.t / c.pulseDuration))
      case Brake => c.brakePulse(Clamp01(p.t / c.pulseDuration))
      case Moving => c.movingAmpCurve(Clamp01(speedAbs / (c.speedThresholdUp * 2.0)))
      case Idle => 0.0;
    var gained := Gain(curve, c.globalGain);
    if p.phase != Idle then Max(gained, c.minAmpWhileActive) else gained
  }

  /** Steps 4 and 5: smooth towards the targets at `rate` (smooth times the
      raw deltaTime); in Idle smooth once more towards zero and send (0, 0),
      otherwise send the smoothed amplitudes. Only the amplitudes change. */
  function Output(s: State, targets: (real, real), freq: real, rate: real): (r: (State, seq<Vibration>))
    ensures r.0.phase == s.phase && r.0.prevPos == s.prevPos && r.0.prevVel == s.prevVel
    ensures |r.1| == 2 && r.1[0].hand == Left && r.1[1].hand == Right
    ensures s.phase.phase == Idle ==> r.1 == Silence
    ensures s.phase.phase != Idle ==>
      && r.1 == Both(freq, r.0.ampL, freq, r.0.ampR)
      && Between(r.0.ampL, s.ampL, targets.0) && Between(r.0.ampR, s.ampR, targets.1)
    // A frame with deltaTime 0 (a paused game) leaves the amplitudes where they were ...
    ensures rate <= 0.0 ==> r.0.ampL == s.ampL && r.0.ampR == s.ampR
    // ... and a full smoothing step silences Idle at once.
    ensures s.phase.phase == Idle && rate >= 1.0 ==> r.0.ampL == 0.0 && r.0.ampR == 0.0
    ensures Invariant(s) && InUnit(targets.0) && InUnit(targets.1) && InUnit(freq) ==>
      Invariant(r.0) && AllInUnit(r.1)
  {
    var ampL := Lerp(s.ampL, targets.0, rate);
    var ampR := Lerp(s.ampR, targets.1, rate);
    if s.phase.phase == Idle then
      var l := Lerp(ampL, 0.0, rate);
      var r := Lerp(ampR, 0.0, rate);
      assert InUnit(s.ampL) && InUnit(targets.0) ==> InUnit(ampL);
      assert InUnit(s.ampR) && InUnit(targets.1) ==> InUnit(ampR);
      (s.(ampL := l, ampR := r), Silence)
    else
      (s.(ampL := ampL, ampR := ampR), Both(freq, ampL, freq, ampR))
  }

  /** One Update. None is the frame that throws (forced Rigidbody mode with no
      rigidbody): it changes nothing and sends nothing. */
  function Step(c: Config, s: State, f: Frame, mag: Vec3 -> real): (r: Option<(State, seq<Vibration>)>)
    requires ValidConfig(c) && HandsMeasured(f.leftVelocity, f.rightVelocity, mag)
    ensures r.None? <==> c.velocitySource == Rigidbody && f.body.None?
    ensures r.Some? ==> var m := Sense(c, s, f, mag).value;
      && r.value.0.phase == PhaseStep(s.phase, Abs(m.vZ), m.aZ, m.dt, PhaseThresholds(c))
      && r.value.0.prevPos == f.position && r.value.0.prevVel == m.vel
    ensures r.Some? && Invariant(s) ==> Invariant(r.value.0) && AllInUnit(r.value.1)
    // Idle sends (0, 0); every other phase sends the smoothed amplitudes.
    ensures r.Some? && r.value.0.phase.phase == Idle ==> r.value.1 == Silence
    ensures r.Some? && r.value.0.phase.phase != Idle ==>
      r.value.1 == Both(PhaseFrequency(c.baseFreq, r.value.0.phase.phase), r.value.0.ampL,
                        PhaseFrequency(c.baseFreq, r.value.0.phase.phase), r.value.0.ampR)
  {
    match Sense(c, s, f, mag)
    case None => None
    case Some(m) => Some(Respond(c, Sampled(c, s, f, m), f, mag, Abs(m.vZ), c.smooth * f.deltaTime))
  }

  /** Steps 1 and 2: the new phase and the sampled position and velocity;
      the amplitudes are not touched yet. */
  function Sampled(c: Config, s: State, f: Frame, m: Motion): (r: State)
    ensures r.phase == PhaseStep(s.phase, Abs(m.vZ), m.aZ, m.dt, PhaseThresholds(c))
    ensures r.prevPos == f.position && r.prevVel == m.vel && r.ampL == s.ampL && r.ampR == s.ampR
  {
    State(PhaseStep(s.phase, Abs(m.vZ), m.aZ, m.dt, PhaseThresholds(c)), f.position, m.vel, s.ampL, s.ampR)
  }

  /** Steps 3 to 5 of an Update that has sensed its motion and advanced the
      phase: the base amplitude, the shares and the smoothed output. */
  function Respond(c: Config, s: State, f: Frame, mag: Vec3 -> real, speedAbs: real, rate: real): (r: (State, seq<Vibration>))
    requires ValidConfig(c) && HandsMeasured(f.leftVelocity, f.rightVelocity, mag)
    ensures r.0.phase == s.phase && r.0.prevPos == s.prevPos && r.0.prevVel == s.prevVel
    ensures Invariant(s) ==> Invariant(r.0) && AllInUnit(r.1)
    ensures s.phase.phase == Idle ==> r.1 == Silence
    ensures s.phase.phase != Idle ==>
      r.1 == Both(PhaseFrequency(c.baseFreq, s.phase.phase), r.0.ampL, PhaseFrequency(c.baseFreq, s.phase.phase), r.0.ampR)
  {
    Output(s, Targets(c, s.phase, f, mag, speedAbs), PhaseFrequency(c.baseFreq, s.phase.phase), rate)
  }

  /** Steps 3 and 4: the base amplitude of the phase, split into the strong
      and weak shares by hand dominance. */
  function Targets(c: Config, p: PhaseState, f: Frame, mag: Vec3 -> real, speedAbs: real): (t: (real, real))
    requires ValidConfig(c) && HandsMeasured(f.leftVelocity, f.rightVelocity, mag)
    ensures InUnit(t.0) && InUnit(t.1)
    ensures p.phase == Idle ==> t == (0.0, 0.0)
  {
    var h := HandSpeeds(f.leftVelocity, f.rightVelocity, mag, c.handSpeedDeadzone);
    ShareTargets(c.strongAmp, c.weakAmp, c.bothHandsBoost, c.bothHandsSimilarity,
                 BaseAmplitude(c, p, speedAbs), h.0, h.1)
  }

  class RotateHapticTemporal {
    const config: Config
    var phase: Phase
    var phaseT: real
    var prevPos: Vec3
    var prevVel: Vec3
    var ampL: real
    var ampR: real

    ghost function Snapshot(): State
      reads this
    {
      State(PhaseState(phase, phaseT), prevPos, prevVel, ampL, ampR)
    }

    ghost predicate Valid()
      reads this
    {
      ValidConfig(config) && Invariant(Snapshot())
    }

    /** Start(): the previous position is seeded from the reference frame. */
    constructor (config: Config, framePosition: Vec3)
      requires ValidConfig(config)
      ensures Valid() && this.config == config
      ensures Snapshot() == State(PhaseState(Idle, 0.0), framePosition, Zero, 0.0, 0.0)
    {
      this.config := config;
      phase := Idle;
      phaseT := 0.0;
      prevPos := framePosition;
      prevVel := Zero;
      ampL := 0.0;
      ampR := 0.0;
    }

    /** One Update; `completed` is false for the frame that throws. */
    method Update(f: Frame, mag: Vec3 -> real) returns (out: seq<Vibration>, completed: bool)
      requires Valid() && HandsMeasured(f.leftVelocity, f.rightVelocity, mag)
      modifies this
      ensures Valid()
      ensures var sensed := Sense(config, old(Snapshot()), f, mag);
        && completed == sensed.Some?
        && (completed ==> (Snapshot(), out) == Respond(config, Sampled(config, old(Snapshot()), f, sensed.value), f, mag,
                                                       Abs(sensed.value.vZ), config.smooth * f.deltaTime))
        && (!completed ==> Snapshot() == old(Snapshot()) && out == [])
    {
      ghost var s0 := Snapshot();
      var sensed := SenseMotion(f, mag);
      if sensed.None? {
        return [], false;
      }
      var m := sensed.value;
      AdvancePhase(Abs(m.vZ), m.aZ, m.dt);
      ghost var sampled := Snapshot();
      assert sampled == Sampled(config, s0, f, m);
      out := RespondAndSend(f, mag, Abs(m.vZ), config.smooth * f.deltaTime);
      completed := true;
    }

    /** Step 1 of Update: the world velocity, the projection axis, vZ and aZ,
        and the new `_prevPos` and `_prevVel`; None for the frame that throws. */
    method SenseMotion(f: Frame, mag: Vec3 -> real) returns (m: Option<Motion>)
      modifies this`prevPos, this`prevVel
      ensures m == Sense(config, old(Snapshot()), f, mag)
      ensures m.Some? ==> prevPos == f.position && prevVel == m.value.vel
      ensures m.None? ==> prevPos == old(prevPos) && prevVel == old(prevVel)
    {
      ghost var s0 := Snapshot();
      var dt := GuardedDt(f.deltaTime);
      var delta := Scale(Sub(f.position, prevPos), 1.0 / dt);
      var useRb := config.velocitySource == Rigidbody
        || (config.velocitySource == Auto && f.body.Some? && !f.body.value.isKinematic);
      var worldVel: Vec3;
      if useRb {
        if f.body.None? {
          // _rb.velocity on a missing rigidbody
          return None;
        }
        worldVel := f.body.value.velocity;
        if SqrMagnitude(worldVel) < 1e-6 {
          worldVel := delta;
        }
      } else {
        worldVel := delta;
      }

      var axisW := AxisChoice(config, f);
      if config.projectAxis == Custom {
        axisW := Normalize(axisW, mag);
      }
      axisW := Normalize(axisW, mag);

      var vZPrev := Dot(prevVel, axisW);
      var vZ := Dot(worldVel, axisW);
      var aZ := (vZ - vZPrev) / dt;
      prevPos := f.position;
      prevVel := worldVel;
      m := Some(Motion(dt, worldVel, vZ, aZ));
      assert m == Sense(config, s0, f, mag);
    }

    /** Steps 3 to 5 of Update, once the phase has been advanced. */
    method RespondAndSend(f: Frame, mag: Vec3 -> real, speedAbs: real, rate: real) returns (out: seq<Vibration>)
      requires ValidConfig(config) && HandsMeasured(f.leftVelocity, f.rightVelocity, mag)
      modifies this`ampL, this`ampR
      ensures (Snapshot(), out) == Respond(config, old(Snapshot()), f, mag, speedAbs, rate)
    {
      var targets := Targets(config, PhaseState(phase, phaseT), f, mag, speedAbs);
      var freq := PhaseFrequency(config.baseFreq, phase);
      ghost var s0 := Snapshot();
      assert Respond(config, s0, f, mag, speedAbs, rate) == Output(s0, targets, freq, rate);
      out := SmoothAndSend(targets, freq, rate);
    }

    /** Step 2 of Update: the phase switch. */
    method AdvancePhase(speedAbs: real, aZ: real, dt: real)
      modifies this`phase, this`phaseT
      ensures PhaseState(phase, phaseT) == PhaseStep(old(PhaseState(phase, phaseT)), speedAbs, aZ, dt, PhaseThresholds(config))
    {
      match phase {
        case Idle =>
          if speedAbs >= config.speedThresholdUp {
            phase, phaseT := Start, 0.0;
          }
        case Start =>
          phaseT := phaseT + dt;
          if aZ <= -config.brakeAccelThreshold {
            phase, phaseT := Brake, 0.0;
          } else if phaseT >= config.pulseDuration {
            phase, phaseT := Moving, 0.0;
          }
        case Moving =>
          if aZ <= -config.brakeAccelThreshold {
            phase, phaseT := Brake, 0.0;
          } else if speedAbs <= config.speedThresholdDown {
            phase, phaseT := Idle, 0.0;
          }
        case Brake =>
          phaseT := phaseT + dt;
          if phaseT >= config.pulseDuration {
            phase := if speedAbs <= config.speedThresholdDown then Idle else Moving;
            phaseT := 0.0;
          }
      }
    }

    /** Steps 4 and 5 of Update: smoothing and output. */
    method SmoothAndSend(targets: (real, real), freq: real, rate: real) returns (out: seq<Vibration>)
      modifies this`ampL, this`ampR
      ensures (Snapshot(), out) == Output(old(Snapshot()), targets, freq, rate)
    {
      ghost var r := Output(Snapshot(), targets, freq, rate);
      var smoothL, smoothR := Lerp(ampL, targets.0, rate), Lerp(ampR, targets.1, rate);
      if phase == Idle {
        ampL, ampR := Lerp(smoothL, 0.0, rate), Lerp(smoothR, 0.0, rate);
        out := Silence;
      } else {
        ampL, ampR := smoothL, smoothR;
        out := Both(freq, ampL, freq, ampR);
      }
      assert ampL == r.0.ampL && ampR == r.0.ampR && out == r.1;
    }

    /** StopAll (also run by OnDisable): (0, 0) to both controllers; unlike
        RotateHapticCombined.StopHaptics the amplitudes are kept. */
    method StopAll() returns (out: seq<Vibration>)
      ensures out == Silence
    {
      out := Silence;
    }
  }
}
