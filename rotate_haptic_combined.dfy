/**
  RotateHapticCombined: the cart's forward motion drives the Idle / Start /
  Moving / Brake machine, the phase picks a base amplitude from its curve, an
  in-place yaw adds a floor, the global gain and the active minimum are
  applied, and the faster hand receives the strong share. Both controllers'
  amplitudes are smoothed towards their targets every frame.
*/
module CombinedHaptics {
  import opened Unity
  import opened Wrappers
  import opened Haptics
  import opened MotionPhase

  /** The inspector settings; the three AnimationCurves are evaluated through
      the functions `startPulse`, `brakePulse` and `movingAmpCurve`. */
  datatype Config = Config(
    strongAmp: real, weakAmp: real, baseFreq: real, globalGain: real,
    minAmpWhileActive: real, smooth: real,
    speedThresholdUp: real, speedThresholdDown: real, brakeAccelThreshold: real,
    startPulse: real -> real, brakePulse: real -> real, movingAmpCurve: real -> real,
    pulseDuration: real,
    handSpeedDeadzone: real, bothHandsBoost: real, bothHandsSimilarity: real,
    yawThresholdDeg: real, yawGain: real)

  /** The settings the script requires: the [Range(0, 1)] fields stay in
      [0, 1], and the two divisors are positive. */
  predicate ValidConfig(c: Config) {
    && InUnit(c.strongAmp) && InUnit(c.weakAmp) && InUnit(c.baseFreq) && InUnit(c.bothHandsSimilarity)
    && c.speedThresholdUp > 0.0 && c.pulseDuration > 0.0
  }

  /** The default inspector values, with the curves supplied by the scene. */
  function Defaults(startPulse: real -> real, brakePulse: real -> real, movingAmpCurve: real -> real): (c: Config)
    ensures ValidConfig(c)
    ensures c.speedThresholdDown < c.speedThresholdUp && c.weakAmp < c.strongAmp
    ensures InUnit(c.minAmpWhileActive) && c.bothHandsBoost >= 1.0 && c.globalGain >= 0.0
  {
    Config(0.9, 0.35, 0.35, 1.4, 0.1, 12.0, 0.10, 0.06, 0.35, startPulse, brakePulse, movingAmpCurve,
           0.18, 0.02, 1.25, 0.55, 0.2, 0.02)
  }

  function PhaseThresholds(c: Config): Thresholds {
    Thresholds(c.speedThresholdUp, c.speedThresholdDown, c.brakeAccelThreshold, c.pulseDuration)
  }

  /** `_phase`, `_phaseT`, `_prevPos`, `_prevVel`, `_prevYaw`, `_ampL`, `_ampR`. */
  datatype State = State(phase: PhaseState, prevPos: Vec3, prevVel: Vec3, prevYaw: real, ampL: real, ampR: real)

  /** What every frame keeps: amplitudes in [0, 1] and a non-negative pulse timer. */
  predicate Invariant(s: State) {
    InUnit(s.ampL) && InUnit(s.ampR) && s.phase.t >= 0.0
  }

  /** The frame's guarded dt, velocity, forward speed and acceleration, and |yaw change|. */
  datatype Motion = Motion(dt: real, vel: Vec3, vZ: real, aZ: real, yawAbs: real)

  /** Step 1 and 2 of Update: the velocity comes from a non-kinematic
      rigidbody, or else from the position difference over dt; the yaw change
      is folded by hand. */
  function Sense(s: State, f: Frame): (m: Motion)
    ensures m.dt >= 1e-4 && (f.deltaTime >= 1e-4 ==> m.dt == f.deltaTime)
    ensures f.bodyVelocity.Some? ==> m.vel == f.bodyVelocity.value
    ensures f.bodyVelocity.None? ==> Scale(m.vel, m.dt) == Sub(f.position, s.prevPos)
    ensures m.vZ == Dot(m.vel, f.forward)
    ensures m.aZ * m.dt == m.vZ - Dot(s.prevVel, f.forward)
    ensures m.yawAbs >= 0.0
    ensures 0.0 <= s.prevYaw < 360.0 && 0.0 <= f.yaw < 360.0 ==> m.yawAbs <= 180.0
  {
    var dt := GuardedDt(f.deltaTime);
    var vel := if f.bodyVelocity.Some? then f.bodyVelocity.value else Scale(Sub(f.position, s.prevPos), 1.0 / dt);
    var vZPrev := Dot(s.prevVel, f.forward);
    var vZ := Dot(vel, f.forward);
    assert (1.0 / dt) * dt == 1.0;
    Motion(dt, vel, vZ, (vZ - vZPrev) / dt, Abs(YawDelta(s.prevYaw, f.yaw)))
  }

  /** Step 4: the curve value of the phase just entered or continued. */
  function PhaseAmplitude(c: Config, p: PhaseState, speedAbs: real): real
    requires ValidConfig(c)
  {
    match p.phase
    case Start => c.startPulse(Clamp01(p.t / c.pulseDuration))
    case Brake => c.brakePulse(Clamp01(p.t / c.pulseDuration))
    case Moving => c.movingAmpCurve(Clamp01(speedAbs / (c.speedThresholdUp * 2.0)))
    case Idle => 0.0
  }

  /** Steps 4 to 6: the base amplitude of the frame. */
  function BaseAmplitude(c: Config, p: PhaseState, speedAbs: real, yawAbs: real): (b: real)
    requires ValidConfig(c)
    ensures b >= 0.0
    ensures InUnit(b) || b == c.minAmpWhileActive
    // Any active phase vibrates at least at minAmpWhileActive.
    ensures p.phase != Idle ==> b >= c.minAmpWhileActive
    // At rest and without yaw the base amplitude is zero ...
    ensures p.phase == Idle && yawAbs <= c.yawThresholdDeg ==> b == 0.0
    // ... while an in-place rotation alone is felt.
    ensures p.phase == Idle && yawAbs > c.yawThresholdDeg ==> b == Gain(Clamp01(yawAbs * c.yawGain), c.globalGain)
    ensures yawAbs > c.yawThresholdDeg && c.globalGain >= 0.0 ==> b >= Gain(Clamp01(yawAbs * c.yawGain), c.globalGain)
  {
    var curve := PhaseAmplitude(c, p, speedAbs);
    var yawFactor := Clamp01(yawAbs * c.yawGain);
    var withYaw := if yawAbs > c.yawThresholdDeg then Max(curve, yawFactor) else curve;
    GainMonotone(withYaw, yawFactor, c.globalGain);
    var gained := Gain(withYaw, c.globalGain);
    if p.phase != Idle && gained < c.minAmpWhileActive then c.minAmpWhileActive else gained
  }

  /** Steps 7 and 8 with this script's settings. */
  function Targets(c: Config, baseAmp: real, h: (real, real)): (real, real)
    requires ValidConfig(c) && h.0 >= 0.0 && h.1 >= 0.0
  {
    ShareTargets(c.strongAmp, c.weakAmp, c.bothHandsBoost, c.bothHandsSimilarity, baseAmp, h.0, h.1)
  }

  /** Step 9 stays quiet at rest with no yaw. */
  predicate Quiet(c: Config, phase: Phase, yawAbs: real) {
    phase == Idle && yawAbs <= c.yawThresholdDeg
  }

  /** The Lerp parameter of step 9: smooth * deltaTime. */
  function Rate(c: Config, dt: real): real {
    c.smooth * dt
  }

  /** Step 9: at rest and without yaw both amplitudes decay towards zero and
      (0, 0) is sent; otherwise they move towards their targets and are sent
      at the phase's frequency. Only the amplitudes change. */
  function Smooth(c: Config, s: State, yawAbs: real, targets: (real, real), freq: real, dt: real)
    : (r: (State, seq<Vibration>))
    ensures r.0.phase == s.phase && r.0.prevPos == s.prevPos && r.0.prevVel == s.prevVel && r.0.prevYaw == s.prevYaw
    ensures |r.1| == 2 && r.1[0].hand == Left && r.1[1].hand == Right
    ensures Quiet(c, s.phase.phase, yawAbs) ==>
      r.1 == Silence && Between(r.0.ampL, 0.0, s.ampL) && Between(r.0.ampR, 0.0, s.ampR)
    ensures !Quiet(c, s.phase.phase, yawAbs) ==>
      && r.1 == Both(freq, r.0.ampL, freq, r.0.ampR)
      && Between(r.0.ampL, s.ampL, targets.0) && Between(r.0.ampR, s.ampR, targets.1)
    ensures Invariant(s) && InUnit(targets.0) && InUnit(targets.1) && InUnit(freq) ==> Invariant(r.0) && AllInUnit(r.1)
  {
    var rate := Rate(c, dt);
    if Quiet(c, s.phase.phase, yawAbs) then
      (s.(ampL := Lerp(s.ampL, 0.0, rate), ampR := Lerp(s.ampR, 0.0, rate)), Silence)
    else
      var ampL := Lerp(s.ampL, targets.0, rate);
      var ampR := Lerp(s.ampR, targets.1, rate);
      (s.(ampL := ampL, ampR := ampR), Both(freq, ampL, freq, ampR))
  }

  /** One Update: new state and the vibration commands sent. */
  function Step(c: Config, s: State, f: Frame, mag: Vec3 -> real): (r: (State, seq<Vibration>))
    requires ValidConfig(c) && HandsMeasured(f.leftVelocity, f.rightVelocity, mag)
    // The frame's motion feeds the phase machine, and the previous-sample
    // fields take this frame's position, velocity and yaw.
    ensures var m := Sense(s, f);
      && r.0.phase == PhaseStep(s.phase, Abs(m.vZ), m.aZ, m.dt, PhaseThresholds(c))
      && r.0.prevPos == f.position && r.0.prevVel == m.vel && r.0.prevYaw == f.yaw
    // Amplitudes stay in [0, 1] and only commands in [0, 1] are sent.
    ensures Invariant(s) ==> Invariant(r.0) && AllInUnit(r.1)
    ensures |r.1| == 2 && r.1[0].hand == Left && r.1[1].hand == Right
    // At rest the controllers get (0, 0) while the amplitudes decay towards zero ...
    ensures Quiet(c, r.0.phase.phase, Sense(s, f).yawAbs) ==>
      r.1 == Silence && Between(r.0.ampL, 0.0, s.ampL) && Between(r.0.ampR, 0.0, s.ampR)
    // ... and otherwise both new amplitudes are sent at the phase's frequency,
    // each moved from its old value towards its share of the target.
    ensures var h := HandSpeeds(f.leftVelocity, f.rightVelocity, mag, c.handSpeedDeadzone);
      var t := Targets(c, BaseAmplitude(c, r.0.phase, Abs(Sense(s, f).vZ), Sense(s, f).yawAbs), h);
      var freq := PhaseFrequency(c.baseFreq, r.0.phase.phase);
      !Quiet(c, r.0.phase.phase, Sense(s, f).yawAbs) ==>
        && r.1 == Both(freq, r.0.ampL, freq, r.0.ampR)
        && Between(r.0.ampL, s.ampL, t.0) && Between(r.0.ampR, s.ampR, t.1)
  {
    var m := Sense(s, f);
    var p := PhaseStep(s.phase, Abs(m.vZ), m.aZ, m.dt, PhaseThresholds(c));
    var h := HandSpeeds(f.leftVelocity, f.rightVelocity, mag, c.handSpeedDeadzone);
    var t := Targets(c, BaseAmplitude(c, p, Abs(m.vZ), m.yawAbs), h);
    Smooth(c, State(p, f.position, m.vel, f.yaw, s.ampL, s.ampR), m.yawAbs, t, PhaseFrequency(c.baseFreq, p.phase), m.dt)
  }

  /** StopHaptics (also run by OnDisable): both amplitudes drop to zero and
      (0, 0) is sent to both controllers; nothing else changes. */
  function Stop(s: State): (r: (State, seq<Vibration>))
    ensures r.1 == Silence
    ensures r.0.ampL == 0.0 && r.0.ampR == 0.0
    ensures r.0.phase == s.phase && r.0.prevPos == s.prevPos && r.0.prevVel == s.prevVel && r.0.prevYaw == s.prevYaw
    ensures Invariant(s) ==> Invariant(r.0)
  {
    (s.(ampL := 0.0, ampR := 0.0), Silence)
  }

  /** Stopping twice is stopping once. */
  lemma StopIdempotent(s: State)
    ensures Stop(Stop(s).0) == Stop(s)
  {
  }

  class RotateHapticCombined {
    const config: Config
    var phase: Phase
    var phaseT: real
    var prevPos: Vec3
    var prevVel: Vec3
    var prevYaw: real
    var ampL: real
    var ampR: real

    ghost function Snapshot(): State
      reads this
    {
      State(PhaseState(phase, phaseT), prevPos, prevVel, prevYaw, ampL, ampR)
    }

    ghost predicate Valid()
      reads this
    {
      ValidConfig(config) && Invariant(Snapshot())
    }

    /** Start(): the previous position and yaw are seeded from the frame. */
    constructor (config: Config, framePosition: Vec3, frameYaw: real)
      requires ValidConfig(config)
      ensures Valid() && this.config == config
      ensures Snapshot() == State(PhaseState(Idle, 0.0), framePosition, Zero, frameYaw, 0.0, 0.0)
    {
      this.config := config;
      phase := Idle;
      phaseT := 0.0;
      prevPos := framePosition;
      prevVel := Zero;
      prevYaw := frameYaw;
      ampL := 0.0;
      ampR := 0.0;
    }

    method Update(f: Frame, mag: Vec3 -> real) returns (out: seq<Vibration>)
      requires Valid() && HandsMeasured(f.leftVelocity, f.rightVelocity, mag)
      modifies this
      ensures Valid()
      ensures (Snapshot(), out) == Step(config, old(Snapshot()), f, mag)
    {
      ghost var s0 := Snapshot();
      var dt := GuardedDt(f.deltaTime);
      var vel := if f.bodyVelocity.Some? then f.bodyVelocity.value else Scale(Sub(f.position, prevPos), 1.0 / dt);
      var vZPrev := Dot(prevVel, f.forward);
      var vZ := Dot(vel, f.forward);
      var aZ := (vZ - vZPrev) / dt;
      var speedAbs := Abs(vZ);
      prevPos := f.position;
      prevVel := vel;
      var yawAbs := Abs(YawDelta(prevYaw, f.yaw));
      prevYaw := f.yaw;

      ghost var m := Sense(s0, f);
      assert Motion(dt, vel, vZ, aZ, yawAbs) == m;
      AdvancePhase(speedAbs, aZ, dt);

      var baseAmp := BaseAmplitude(config, PhaseState(phase, phaseT), speedAbs, yawAbs);
      var freq := PhaseFrequency(config.baseFreq, phase);
      var speeds := HandSpeeds(f.leftVelocity, f.rightVelocity, mag, config.handSpeedDeadzone);
      var targets := Targets(config, baseAmp, speeds);

      out := SmoothAndSend(yawAbs, targets, freq, dt);
    }

    /** Step 3 of Update: the phase switch. */
    method AdvancePhase(speedAbs: real, aZ: real, dt: real)
      modifies this`phase, this`phaseT
      ensures PhaseState(phase, phaseT) == PhaseStep(old(PhaseState(phase, phaseT)), speedAbs, aZ, dt, PhaseThresholds(config))
    {
      match phase {
        case Idle =>
          if speedAbs >= config.speedThresholdUp {
            phase, phaseT := Start, 0.0;
          }
        case Start =>
          phaseT := phaseT + dt;
          if aZ <= -config.brakeAccelThreshold {
            phase, phaseT := Brake, 0.0;
          } else if phaseT >= config.pulseDuration {
            phase, phaseT := Moving, 0.0;
          }
        case Moving =>
          if aZ <= -config.brakeAccelThreshold {
            phase, phaseT := Brake, 0.0;
          } else if speedAbs <= config.speedThresholdDown {
            phase, phaseT := Idle, 0.0;
          }
        case Brake =>
          phaseT := phaseT + dt;
          if phaseT >= config.pulseDuration {
            phase := if speedAbs <= config.speedThresholdDown then Idle else Moving;
            phaseT := 0.0;
          }
      }
    }

    /** Step 9 of Update: smoothing and output. */
    method SmoothAndSend(yawAbs: real, targets: (real, real), freq: real, dt: real) returns (out: seq<Vibration>)
      modifies this`ampL, this`ampR
      ensures (Snapshot(), out) == Smooth(config, old(Snapshot()), yawAbs, targets, freq, dt)
    {
      ghost var r := Smooth(config, Snapshot(), yawAbs, targets, freq, dt);
      var rate := Rate(config, dt);
      if Quiet(config, phase, yawAbs) {
        ampL, ampR := Lerp(ampL, 0.0, rate), Lerp(ampR, 0.0, rate);
        out := Silence;
      } else {
        ampL, ampR := Lerp(ampL, targets.0, rate), Lerp(ampR, targets.1, rate);
        out := Both(freq, ampL, freq, ampR);
      }
      assert ampL == r.0.ampL && ampR == r.0.ampR && out == r.1;
    }

    method StopHaptics() returns (out: seq<Vibration>)
      requires Valid()
      modifies this
      ensures Valid()
      ensures (Snapshot(), out) == Stop(old(Snapshot()))
    {
      ampL, ampR := 0.0, 0.0;
      out := Silence;
    }
  }
}
