/**
  RotateHapticCombinedV2: the combined cart haptics with an in-place yaw that
  can start and sustain motion, a separate start curve for rotation-led
  starts, a brake frequency raised by 0.15 without a clamp, hand speeds
  measured in full 3-D, and strong and weak targets that are not clamped
  after the two-hand boost. The amplitudes are sent every frame, also while
  they decay at rest.
*/
module CombinedHapticsV2 {
  import opened Unity
  import opened Haptics
  import opened MotionPhase

  /** The inspector settings; the four AnimationCurves are evaluated through
      `startPulse`, `yawStartPulse`, `brakePulse` and `movingAmpCurve`. */
  datatype Config = Config(
    strongAmp: real, weakAmp: real, baseFreq: real, globalGain: real,
    minAmpWhileActive: real, smooth: real,
    speedThresholdUp: real, speedThresholdDown: real, brakeAccelThreshold: real,
    startPulse: real -> real, yawStartPulse: real -> real, brakePulse: real -> real,
    movingAmpCurve: real -> real, pulseDuration: real,
    handSpeedDeadzone: real, bothHandsBoost: real, bothHandsSimilarity: real,
    yawThresholdDeg: real, yawGain: real)

  /** The [Range(0, 1)] fields stay in [0, 1] and the two divisors are positive. */
  predicate ValidConfig(c: Config) {
    && InUnit(c.strongAmp) && InUnit(c.weakAmp) && InUnit(c.baseFreq) && InUnit(c.bothHandsSimilarity)
    && c.speedThresholdUp > 0.0 && c.pulseDuration > 0.0
  }

  /** The active floor and the two-hand boost are not negative (true of the
      defaults, not enforced by the script). */
  predicate NonNegativeTuning(c: Config) {
    c.minAmpWhileActive >= 0.0 && c.bothHandsBoost >= 0.0
  }

  function Defaults(startPulse: real -> real, yawStartPulse: real -> real, brakePulse: real -> real,
                    movingAmpCurve: real -> real): (c: Config)
    ensures ValidConfig(c) && NonNegativeTuning(c)
    ensures c.speedThresholdDown < c.speedThresholdUp && c.weakAmp < c.strongAmp
    ensures c.bothHandsBoost > 1.0 && c.globalGain >= 0.0
  {
    Config(0.9, 0.35, 0.35, 1.4, 0.1, 12.0, 0.10, 0.06, 0.35,
           startPulse, yawStartPulse, brakePulse, movingAmpCurve, 0.18,
           0.02, 1.25, 0.55, 0.2, 0.02)
  }

  function PhaseThresholds(c: Config): Thresholds {
    Thresholds(c.speedThresholdUp, c.speedThresholdDown, c.brakeAccelThreshold, c.pulseDuration)
  }

  /** `_phase`, `_phaseT`, `_prevPos`, `_prevVel`, `_prevYaw`, `_ampL`, `_ampR`. */
  datatype State = State(phase: PhaseState, prevPos: Vec3, prevVel: Vec3, prevYaw: real, ampL: real, ampR: real)

  /** The largest amplitude the unclamped targets can reach: the active
      floor (when above 1) times the two-hand boost (when above 1). */
  function Ceiling(c: Config): (m: real)
    ensures m >= 1.0
  {
    ProductBound(1.0, Max(1.0, c.minAmpWhileActive), 1.0, Max(1.0, c.bothHandsBoost));
    Max(1.0, c.minAmpWhileActive) * Max(1.0, c.bothHandsBoost)
  }

  /** What every frame keeps: amplitudes in [0, Ceiling] and a non-negative timer. */
  predicate Invariant(c: Config, s: State) {
    0.0 <= s.ampL <= Ceiling(c) && 0.0 <= s.ampR <= Ceiling(c) && s.phase.t >= 0.0
  }

  /** The frame's guarded dt, velocity, forward speed and acceleration, and |yaw change|. */
  datatype Motion = Motion(dt: real, vel: Vec3, vZ: real, aZ: real, yawAbs: real)

  /** Step 1 of Update: rigidbody velocity or position difference over dt,
      its forward component and change, and Mathf.DeltaAngle of the yaw. */
  function Sense(s: State, f: Frame): (m: Motion)
    ensures m.dt >= 1e-4 && (f.deltaTime >= 1e-4 ==> m.dt == f.deltaTime)
    ensures f.bodyVelocity.Some? ==> m.vel == f.bodyVelocity.value
    // DeltaAngle needs no range on the two yaws.
    ensures 0.0 <= m.yawAbs <= 180.0
  {
    var dt := GuardedDt(f.deltaTime);
    var vel := if f.bodyVelocity.Some? then f.bodyVelocity.value else Scale(Sub(f.position, s.prevPos), 1.0 / dt);
    var vZ := Dot(vel, f.forward);
    Motion(dt, vel, vZ, (vZ - Dot(s.prevVel, f.forward)) / dt, Abs(DeltaAngle(s.prevYaw, f.yaw)))
  }

  /** Without a rigidbody the velocity is the displacement over dt; the
      forward speed is the velocity along the axis and the acceleration its
      change over dt. */
  lemma SenseMeasures(s: State, f: Frame)
    ensures f.bodyVelocity.None? ==> Scale(Sense(s, f).vel, Sense(s, f).dt) == Sub(f.position, s.prevPos)
    ensures Sense(s, f).vZ == Dot(Sense(s, f).vel, f.forward)
    ensures Sense(s, f).aZ * Sense(s, f).dt == Sense(s, f).vZ - Dot(s.prevVel, f.forward)
  {
    var dt := GuardedDt(f.deltaTime);
    assert (1.0 / dt) * dt == 1.0;
  }

  /** The position of the timer within the pulse, in [0, 1]. */
  function PulsePosition(c: Config, p: PhaseState): real
    requires ValidConfig(c)
  {
    Clamp01(p.t / c.pulseDuration)
  }

  /** The curve value of CalculateBaseAmplitude before the gain. */
  function PhaseCurve(c: Config, p: PhaseState, speedAbs: real, yawAbs: real): real
    requires ValidConfig(c)
  {
    match p.phase
    case Start =>
      if yawAbs > speedAbs * 10.0 then c.yawStartPulse(PulsePosition(c, p)) else c.startPulse(PulsePosition(c, p))
    case Brake => c.brakePulse(PulsePosition(c, p))
    case Moving =>
      var cruise := c.movingAmpCurve(Clamp01(speedAbs / (c.speedThresholdUp * 2.0)));
      if yawAbs > c.yawThresholdDeg then Max(cruise, yawAbs * c.yawGain) else cruise
    case Idle => 0.0
  }

  /** CalculateBaseAmplitude, evaluated on the phase UpdatePhase has just set. */
  function BaseAmplitude(c: Config, p: PhaseState, speedAbs: real, yawAbs: real): (b: real)
    requires ValidConfig(c)
    ensures InUnit(b)
    ensures p.phase == Idle ==> b == 0.0
  {
    Gain(PhaseCurve(c, p, speedAbs, yawAbs), c.globalGain)
  }

  /** Which curve sets the base amplitude in each phase. */
  lemma BaseAmplitudeCurves(c: Config, p: PhaseState, speedAbs: real, yawAbs: real, b: real)
    requires ValidConfig(c) && b == BaseAmplitude(c, p, speedAbs, yawAbs)
    // A start led by rotation uses the yaw start curve, any other start the forward one.
    ensures p.phase == Start && yawAbs > speedAbs * 10.0 ==> b == Gain(c.yawStartPulse(PulsePosition(c, p)), c.globalGain)
    ensures p.phase == Start && yawAbs <= speedAbs * 10.0 ==> b == Gain(c.startPulse(PulsePosition(c, p)), c.globalGain)
    ensures p.phase == Brake ==> b == Gain(c.brakePulse(PulsePosition(c, p)), c.globalGain)
    // While moving, the rotation sets a floor of yawAbs * yawGain above its threshold.
    ensures p.phase == Moving && c.globalGain >= 0.0 ==>
      b >= Gain(c.movingAmpCurve(Clamp01(speedAbs / (c.speedThresholdUp * 2.0))), c.globalGain)
    ensures p.phase == Moving && yawAbs > c.yawThresholdDeg && c.globalGain >= 0.0 ==>
      b >= Gain(yawAbs * c.yawGain, c.globalGain)
    ensures p.phase == Moving && yawAbs <= c.yawThresholdDeg ==>
      b == Gain(c.movingAmpCurve(Clamp01(speedAbs / (c.speedThresholdUp * 2.0))), c.globalGain)
  {
    if p.phase == Moving {
      var curve := PhaseCurve(c, p, speedAbs, yawAbs);
      GainMonotone(curve, c.movingAmpCurve(Clamp01(speedAbs / (c.speedThresholdUp * 2.0))), c.globalGain);
      GainMonotone(curve, yawAbs * c.yawGain, c.globalGain);
    }
  }

  /** The rotation reaches the base amplitude only through the Moving floor
      and the choice of start curve: outside those, two frames that differ
      only in their yaw get the same base amplitude. */
  lemma YawFloorOnlyInMoving(c: Config, p: PhaseState, speedAbs: real, yaw1: real, yaw2: real)
    requires ValidConfig(c)
    requires p.phase == Idle || p.phase == Brake
      || (p.phase == Start && (yaw1 > speedAbs * 10.0 <==> yaw2 > speedAbs * 10.0))
      || (p.phase == Moving && yaw1 <= c.yawThresholdDeg && yaw2 <= c.yawThresholdDeg)
    ensures BaseAmplitude(c, p, speedAbs, yaw1) == BaseAmplitude(c, p, speedAbs, yaw2)
  {
  }

  /** The frequency choice of Update: baseFreq + 0.15 exactly in Brake, with no clamp. */
  function Frequency(baseFreq: real, phase: Phase): (f: real)
    ensures f == baseFreq + 0.15 <==> phase == Brake
    ensures phase != Brake ==> f == baseFreq
    ensures phase == Brake && baseFreq > 0.85 ==> f > 1.0
  {
    if phase == Brake then baseFreq + 0.15 else baseFreq
  }

  /** `mag` gives the Euclidean length of both controllers' full 3-D velocities. */
  predicate HandsMeasured3D(lv: Vec3, rv: Vec3, mag: Vec3 -> real) {
    IsMagnitudeOf(mag(lv), lv) && IsMagnitudeOf(mag(rv), rv)
  }

  /** The two hands' 3-D speeds (the vertical component counts), each zero inside the deadzone. */
  function HandSpeeds3D(lv: Vec3, rv: Vec3, mag: Vec3 -> real, deadzone: real): (h: (real, real))
    requires HandsMeasured3D(lv, rv, mag)
    ensures h.0 >= 0.0 && h.1 >= 0.0
    ensures (h.0 == 0.0 || h.0 >= deadzone) && (h.1 == 0.0 || h.1 >= deadzone)
  {
    (Deadzoned(mag(lv), deadzone), Deadzoned(mag(rv), deadzone))
  }

  /** A counted hand speed is the length of the full 3-D velocity, vertical
      component included, and a hand at rest counts as still. */
  lemma HandSpeeds3DMeasure(lv: Vec3, rv: Vec3, mag: Vec3 -> real, deadzone: real)
    requires HandsMeasured3D(lv, rv, mag)
    ensures var h := HandSpeeds3D(lv, rv, mag, deadzone);
      (h.0 == 0.0 || h.0 * h.0 == SqrMagnitude(lv)) && (h.1 == 0.0 || h.1 * h.1 == SqrMagnitude(rv))
    ensures deadzone > 0.0 && lv == Zero ==> HandSpeeds3D(lv, rv, mag, deadzone).0 == 0.0
    ensures deadzone > 0.0 && rv == Zero ==> HandSpeeds3D(lv, rv, mag, deadzone).1 == 0.0
  {
  }

  /** The active floor of DistributeHaptics: any phase but Idle vibrates at
      least at minAmpWhileActive. */
  function Floored(c: Config, phase: Phase, baseAmp: real): (b: real)
    ensures phase == Idle ==> b == baseAmp
    ensures phase != Idle ==> b == Max(baseAmp, c.minAmpWhileActive)
    ensures InUnit(baseAmp) && c.minAmpWhileActive >= 0.0 ==> 0.0 <= b <= Max(1.0, c.minAmpWhileActive)
  {
    if phase != Idle && baseAmp < c.minAmpWhileActive then c.minAmpWhileActive else baseAmp
  }

  /** The two-hand boost with this script's settings. */
  function Boost(c: Config, amp: real, lS: real, rS: real): (b: real)
    requires lS >= 0.0 && rS >= 0.0
    ensures !BothHandsActive(lS, rS, c.bothHandsSimilarity) ==> b == amp
    ensures BothHandsActive(lS, rS, c.bothHandsSimilarity) ==> b == amp * c.bothHandsBoost
  {
    Boosted(amp, c.bothHandsBoost, c.bothHandsSimilarity, lS, rS)
  }

  /** A non-negative boost keeps the amplitude in [0, amp * max(1, boost)]. */
  lemma BoostBound(c: Config, amp: real, lS: real, rS: real)
    requires lS >= 0.0 && rS >= 0.0 && c.bothHandsBoost >= 0.0 && amp >= 0.0
    ensures 0.0 <= Boost(c, amp, lS, rS) <= amp * Max(1.0, c.bothHandsBoost)
  {
    var cap := Max(1.0, c.bothHandsBoost);
    if BothHandsActive(lS, rS, c.bothHandsSimilarity) {
      NonNegativeProduct(amp, c.bothHandsBoost);
      ScaleMonotone(cap, c.bothHandsBoost, amp);
      assert amp * cap == cap * amp && amp * c.bothHandsBoost == c.bothHandsBoost * amp;
      assert Boost(c, amp, lS, rS) == amp * c.bothHandsBoost;
    } else {
      ScaleMonotone(cap, 1.0, amp);
      assert amp * cap == cap * amp;
      assert Boost(c, amp, lS, rS) == amp;
    }
  }

  /** The strong and weak targets: shares of the boosted amplitude `b` with
      no clamp, the strong one on the faster hand and on the left for a tie. */
  function Shares(c: Config, b: real, lS: real, rS: real): (t: (real, real))
    ensures lS >= rS ==> t.0 == c.strongAmp * b && t.1 == c.weakAmp * b
    ensures rS > lS ==> t.0 == c.weakAmp * b && t.1 == c.strongAmp * b
  {
    DominantSplit(lS, rS, c.strongAmp * b, c.weakAmp * b)
  }

  /** Without a clamp the targets are still bounded by the boosted amplitude ... */
  lemma SharesBounded(c: Config, b: real, cap: real, lS: real, rS: real)
    requires ValidConfig(c) && 0.0 <= b <= cap
    ensures 0.0 <= Shares(c, b, lS, rS).0 <= cap && 0.0 <= Shares(c, b, lS, rS).1 <= cap
  {
    ProductBound(c.strongAmp, 1.0, b, cap);
    ProductBound(c.weakAmp, 1.0, b, cap);
  }

  /** ... and the faster hand never gets less than the other one. */
  lemma SharesFavourFaster(c: Config, b: real, lS: real, rS: real)
    requires 0.0 <= c.weakAmp <= c.strongAmp && b >= 0.0
    ensures var t := Shares(c, b, lS, rS); (lS >= rS ==> t.0 >= t.1) && (rS > lS ==> t.1 >= t.0)
  {
    ScaleMonotone(c.strongAmp, c.weakAmp, b);
  }

  /** The active floor times the boost stays under the ceiling. */
  lemma UnderCeiling(c: Config, amp: real)
    requires NonNegativeTuning(c) && 0.0 <= amp <= Max(1.0, c.minAmpWhileActive)
    ensures amp * Max(1.0, c.bothHandsBoost) <= Ceiling(c)
  {
    ScaleMonotone(Max(1.0, c.minAmpWhileActive), amp, Max(1.0, c.bothHandsBoost));
  }

  /** The two target amplitudes of a frame: the floored base amplitude, boosted and shared. */
  function Targets(c: Config, phase: Phase, baseAmp: real, h: (real, real)): (real, real)
    requires h.0 >= 0.0 && h.1 >= 0.0
  {
    Shares(c, Boost(c, Floored(c, phase, baseAmp), h.0, h.1), h.0, h.1)
  }

  /** With a base amplitude in [0, 1] the targets stay in [0, Ceiling]. */
  lemma TargetsWithinCeiling(c: Config, phase: Phase, baseAmp: real, h: (real, real))
    requires ValidConfig(c) && NonNegativeTuning(c) && InUnit(baseAmp) && h.0 >= 0.0 && h.1 >= 0.0
    ensures var t := Targets(c, phase, baseAmp, h); 0.0 <= t.0 <= Ceiling(c) && 0.0 <= t.1 <= Ceiling(c)
  {
    var floored := Floored(c, phase, baseAmp);
    BoostBound(c, floored, h.0, h.1);
    UnderCeiling(c, floored);
    SharesBounded(c, Boost(c, floored, h.0, h.1), Ceiling(c), h.0, h.1);
  }

  /** The Lerp parameter of DistributeHaptics: smooth * dt. */
  function Rate(c: Config, dt: real): real {
    c.smooth * dt
  }

  /** At rest and without yaw the amplitudes decay towards zero. */
  predicate Quiet(c: Config, phase: Phase, yawAbs: real) {
    phase == Idle && yawAbs <= c.yawThresholdDeg
  }

  /** DistributeHaptics after the targets: the amplitudes move by `rate`
      (smooth * dt) towards zero when quiet and towards the targets otherwise. */
  function Distribute(c: Config, s: State, targets: (real, real), yawAbs: real, rate: real): (r: State)
    ensures r.phase == s.phase && r.prevPos == s.prevPos && r.prevVel == s.prevVel && r.prevYaw == s.prevYaw
  {
    if Quiet(c, s.phase.phase, yawAbs) then s.(ampL := Lerp(s.ampL, 0.0, rate), ampR := Lerp(s.ampR, 0.0, rate))
    else s.(ampL := Lerp(s.ampL, targets.0, rate), ampR := Lerp(s.ampR, targets.1, rate))
  }

  /** Each amplitude moves from its old value towards zero when quiet and
      towards its target otherwise, so targets in [0, Ceiling] keep the invariant. */
  lemma DistributeMoves(c: Config, s: State, targets: (real, real), yawAbs: real, rate: real)
    ensures Quiet(c, s.phase.phase, yawAbs) ==>
      Between(Distribute(c, s, targets, yawAbs, rate).ampL, 0.0, s.ampL)
      && Between(Distribute(c, s, targets, yawAbs, rate).ampR, 0.0, s.ampR)
    ensures !Quiet(c, s.phase.phase, yawAbs) ==>
      Between(Distribute(c, s, targets, yawAbs, rate).ampL, s.ampL, targets.0)
      && Between(Distribute(c, s, targets, yawAbs, rate).ampR, s.ampR, targets.1)
    ensures Invariant(c, s) && 0.0 <= targets.0 <= Ceiling(c) && 0.0 <= targets.1 <= Ceiling(c) ==>
      Invariant(c, Distribute(c, s, targets, yawAbs, rate))
  {
  }

  /** The two commands of the end of DistributeHaptics: both amplitudes, on
      both controllers at the same frequency, raised by 0.15 exactly in Brake.
      They are sent every frame, also when quiet. */
  function Output(c: Config, s: State): (out: seq<Vibration>)
    ensures |out| == 2 && out[0] == Vibration(out[0].freq, s.ampL, Left) && out[1] == Vibration(out[0].freq, s.ampR, Right)
    ensures out[0].freq == c.baseFreq + 0.15 <==> s.phase.phase == Brake
    ensures s.phase.phase != Brake ==> out[0].freq == c.baseFreq
  {
    var freq := Frequency(c.baseFreq, s.phase.phase);
    Both(freq, s.ampL, freq, s.ampR)
  }

  /** UpdatePhase on the sensed motion, with the previous-sample fields taking this frame's values. */
  function Sampled(c: Config, s: State, f: Frame, m: Motion): (r: State)
    ensures r.phase == PhaseStepV2(s.phase, Abs(m.vZ), m.aZ, m.yawAbs, c.yawThresholdDeg, m.dt, PhaseThresholds(c))
    ensures r.prevPos == f.position && r.prevVel == m.vel && r.prevYaw == f.yaw
    ensures r.ampL == s.ampL && r.ampR == s.ampR
  {
    State(PhaseStepV2(s.phase, Abs(m.vZ), m.aZ, m.yawAbs, c.yawThresholdDeg, m.dt, PhaseThresholds(c)),
          f.position, m.vel, f.yaw, s.ampL, s.ampR)
  }

  /** One Update: the sensed motion drives UpdatePhase, then
      CalculateBaseAmplitude and DistributeHaptics run on the new phase; the
      frame's commands are `Output` of the new state. */
  function Step(c: Config, s: State, f: Frame, mag: Vec3 -> real): (r: State)
    requires ValidConfig(c) && HandsMeasured3D(f.leftVelocity, f.rightVelocity, mag)
    ensures r.phase == PhaseStepV2(s.phase, Abs(Sense(s, f).vZ), Sense(s, f).aZ, Sense(s, f).yawAbs,
                                   c.yawThresholdDeg, Sense(s, f).dt, PhaseThresholds(c))
    ensures r.prevPos == f.position && r.prevVel == Sense(s, f).vel && r.prevYaw == f.yaw
    // With a non-negative floor and boost the amplitudes stay in [0, Ceiling] ...
    ensures NonNegativeTuning(c) && Invariant(c, s) ==> Invariant(c, r)
    // ... at rest they decay towards zero, and otherwise they move towards the targets.
    ensures Quiet(c, r.phase.phase, Sense(s, f).yawAbs) ==> Between(r.ampL, 0.0, s.ampL) && Between(r.ampR, 0.0, s.ampR)
    ensures var h := HandSpeeds3D(f.leftVelocity, f.rightVelocity, mag, c.handSpeedDeadzone);
      var t := Targets(c, r.phase.phase, BaseAmplitude(c, r.phase, Abs(Sense(s, f).vZ), Sense(s, f).yawAbs), h);
      !Quiet(c, r.phase.phase, Sense(s, f).yawAbs) ==> Between(r.ampL, s.ampL, t.0) && Between(r.ampR, s.ampR, t.1)
  {
    var m := Sense(s, f);
    var s1 := Sampled(c, s, f, m);
    var h := HandSpeeds3D(f.leftVelocity, f.rightVelocity, mag, c.handSpeedDeadzone);
    var t := Targets(c, s1.phase.phase, BaseAmplitude(c, s1.phase, Abs(m.vZ), m.yawAbs), h);
    DistributeMoves(c, s1, t, m.yawAbs, Rate(c, m.dt));
    if NonNegativeTuning(c) then
      TargetsWithinCeiling(c, s1.phase.phase, BaseAmplitude(c, s1.phase, Abs(m.vZ), m.yawAbs), h);
      Distribute(c, s1, t, m.yawAbs, Rate(c, m.dt))
    else
      Distribute(c, s1, t, m.yawAbs, Rate(c, m.dt))
  }

  /** With the default settings a frame can command more than full strength:
      a cruise at full base amplitude with both hands moving alike gives the
      dominant hand 0.9 * 1.25. */
  lemma TargetsExceedOne(startPulse: real -> real, yawStartPulse: real -> real, brakePulse: real -> real,
                         movingAmpCurve: real -> real)
    ensures var c := Defaults(startPulse, yawStartPulse, brakePulse, movingAmpCurve);
      var r := Distribute(c, State(PhaseState(Moving, 0.0), Zero, Zero, 0.0, 0.0, 0.0),
                          Targets(c, Moving, 1.0, (1.0, 1.0)), 0.0, 1.0);
      Output(c, r)[0].amp == 1.125 && Output(c, r)[0].amp > 1.0
  {
    var c := Defaults(startPulse, yawStartPulse, brakePulse, movingAmpCurve);
    assert BothHandsActive(1.0, 1.0, c.bothHandsSimilarity);
    assert Boosted(1.0, c.bothHandsBoost, c.bothHandsSimilarity, 1.0, 1.0) == 1.25;
  }

  /** StopHaptics (also run by OnDisable). */
  function Stop(s: State): (r: (State, seq<Vibration>))
    ensures r.1 == Silence
    ensures r.0.ampL == 0.0 && r.0.ampR == 0.0
    ensures r.0.phase == s.phase && r.0.prevPos == s.prevPos && r.0.prevVel == s.prevVel && r.0.prevYaw == s.prevYaw
  {
    (s.(ampL := 0.0, ampR := 0.0), Silence)
  }

  /** A stop keeps the invariant, and stopping twice is stopping once. */
  lemma StopKeepsInvariant(c: Config, s: State)
    ensures Invariant(c, s) ==> Invariant(c, Stop(s).0)
    ensures Stop(Stop(s).0) == Stop(s)
  {
  }

  class RotateHapticCombinedV2 {
    const config: Config
    var phase: Phase
    var phaseT: real
    var prevPos: Vec3
    var prevVel: Vec3
    var prevYaw: real
    var ampL: real
    var ampR: real

    ghost function Snapshot(): State
      reads this
    {
      State(PhaseState(phase, phaseT), prevPos, prevVel, prevYaw, ampL, ampR)
    }

    ghost predicate Valid()
      reads this
    {
      ValidConfig(config) && (NonNegativeTuning(config) ==> Invariant(config, Snapshot()))
    }

    /** Start(): the previous position and yaw are seeded from the frame. */
    constructor (config: Config, framePosition: Vec3, frameYaw: real)
      requires ValidConfig(config)
      ensures Valid() && this.config == config
      ensures Snapshot() == State(PhaseState(Idle, 0.0), framePosition, Zero, frameYaw, 0.0, 0.0)
    {
      this.config := config;
      phase, phaseT := Idle, 0.0;
      prevPos, prevVel, prevYaw := framePosition, Zero, frameYaw;
      ampL, ampR := 0.0, 0.0;
    }

    /** Update performs the frame `Step` describes and sends `Output` of the new state. */
    method Update(f: Frame, mag: Vec3 -> real) returns (out: seq<Vibration>)
      requires Valid() && HandsMeasured3D(f.leftVelocity, f.rightVelocity, mag)
      modifies this
      ensures Valid()
      ensures Snapshot() == Step(config, old(Snapshot()), f, mag)
      ensures out == Output(config, Snapshot())
    {
      ghost var s0 := Snapshot();
      var m := SenseMotion(f);
      UpdatePhase(Abs(m.vZ), m.aZ, m.yawAbs, m.dt);
      assert Snapshot() == Sampled(config, s0, f, m);
      var baseAmp := BaseAmplitude(config, PhaseState(phase, phaseT), Abs(m.vZ), m.yawAbs);
      var freq := Frequency(config.baseFreq, phase);
      var h := HandSpeeds3D(f.leftVelocity, f.rightVelocity, mag, config.handSpeedDeadzone);
      var targets := Targets(config, phase, baseAmp, h);
      out := DistributeHaptics(targets, freq, m.yawAbs, Rate(config, m.dt));
      assert Snapshot() == Step(config, s0, f, mag);
    }

    /** The sensing at the top of Update, which also stores this frame's
        position, velocity and yaw for the next one. */
    method SenseMotion(f: Frame) returns (m: Motion)
      modifies this`prevPos, this`prevVel, this`prevYaw
      ensures m == Sense(old(Snapshot()), f)
      ensures prevPos == f.position && prevVel == m.vel && prevYaw == f.yaw
    {
      ghost var s0 := Snapshot();
      var dt := GuardedDt(f.deltaTime);
      var vel := if f.bodyVelocity.Some? then f.bodyVelocity.value else Scale(Sub(f.position, prevPos), 1.0 / dt);
      var vZPrev := Dot(prevVel, f.forward);
      var vZ := Dot(vel, f.forward);
      var aZ := (vZ - vZPrev) / dt;
      var yawAbs := Abs(DeltaAngle(prevYaw, f.yaw));
      prevPos, prevVel, prevYaw := f.position, vel, f.yaw;
      m := Motion(dt, vel, vZ, aZ, yawAbs);
      assert m == Sense(s0, f);
    }

    method UpdatePhase(speedAbs: real, aZ: real, yawAbs: real, dt: real)
      modifies this`phase, this`phaseT
      ensures PhaseState(phase, phaseT) ==
        PhaseStepV2(old(PhaseState(phase, phaseT)), speedAbs, aZ, yawAbs, config.yawThresholdDeg, dt, PhaseThresholds(config))
    {
      match phase {
        case Idle =>
          if speedAbs >= config.speedThresholdUp || yawAbs >= config.yawThresholdDeg * 3.0 {
            phase, phaseT := Start, 0.0;
          }
        case Start =>
          phaseT := phaseT + dt;
          if aZ <= -config.brakeAccelThreshold {
            phase, phaseT := Brake, 0.0;
          } else if phaseT >= config.pulseDuration {
            phase, phaseT := Moving, 0.0;
          }
        case Moving =>
          if aZ <= -config.brakeAccelThreshold {
            phase, phaseT := Brake, 0.0;
          } else if speedAbs <= config.speedThresholdDown && yawAbs <= config.yawThresholdDeg {
            phase, phaseT := Idle, 0.0;
          }
        case Brake =>
          phaseT := phaseT + dt;
          if phaseT >= config.pulseDuration {
            phase := if speedAbs <= config.speedThresholdDown then Idle else Moving;
            phaseT := 0.0;
          }
      }
    }

    /** The end of DistributeHaptics: both amplitudes move towards their
        goals at `rate` (smooth * dt) and are sent at `freq`. */
    method DistributeHaptics(targets: (real, real), freq: real, yawAbs: real, rate: real) returns (out: seq<Vibration>)
      modifies this`ampL, this`ampR
      ensures Snapshot() == Distribute(config, old(Snapshot()), targets, yawAbs, rate)
      ensures out == Both(freq, ampL, freq, ampR)
    {
      if phase == Idle && yawAbs <= config.yawThresholdDeg {
        ampL, ampR := Lerp(ampL, 0.0, rate), Lerp(ampR, 0.0, rate);
      } else {
        ampL, ampR := Lerp(ampL, targets.0, rate), Lerp(ampR, targets.1, rate);
      }
      out := Both(freq, ampL, freq, ampR);
    }

    method StopHaptics() returns (out: seq<Vibration>)
      requires Valid()
      modifies this
      ensures Valid()
      ensures Snapshot() == Stop(old(Snapshot())).0 && out == Stop(old(Snapshot())).1
    {
      ampL, ampR := 0.0, 0.0;
      out := Silence;
    }
  }
}
