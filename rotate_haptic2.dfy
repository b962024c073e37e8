/**
  RotateHaptic2: the cart's signed yaw rate, in degrees per second, scales a
  strong and a weak amplitude; forward acceleration adds an inertia effort
  to both and raises both frequencies; two hands moving alike boost both
  targets; the faster hand (the left one on a tie) gets the strong amplitude
  and the strong frequency. A `vibrating` latch keeps the decay going after
  the rotation stops, until the left amplitude drops below 0.01.
*/
module RotationHaptics2 {
  import opened Unity
  import opened Haptics

  datatype Config = Config(
    strongHaptic: real, weakHaptic: real, strongFrequency: real, weakFrequency: real,
    globalGain: real, minAmpWhileActive: real,
    rotationThreshold: real, speedDeadzone: real, rotationToMaxSpeed: real,
    bothHandsBoost: real, bothHandsSimilarity: real,
    isHeavy: bool, heavyMultiplier: real,
    inertiaGain: real, inertiaDeadzone: real, inertiaFreqBoost: real,
    smooth: real)

  /** The [Range] fields stay in their ranges and the rate divisor is positive. */
  predicate ValidConfig(c: Config) {
    && InUnit(c.strongHaptic) && InUnit(c.weakHaptic)
    && InUnit(c.strongFrequency) && InUnit(c.weakFrequency)
    && 0.0 <= c.minAmpWhileActive <= 0.3 && InUnit(c.bothHandsSimilarity)
    && c.rotationToMaxSpeed > 0.0
  }

  function Defaults(): (c: Config)
    ensures ValidConfig(c) && !c.isHeavy
    ensures c.weakHaptic < c.strongHaptic && c.weakFrequency < c.strongFrequency
    ensures c.bothHandsBoost >= 1.0 && c.inertiaGain >= 0.0 && c.inertiaFreqBoost >= 0.0
  {
    Config(0.8, 0.2, 0.9, 0.25, 1.3, 0.12, 0.05, 0.03, 45.0, 1.25, 0.55, false, 1.6, 0.4, 0.15, 0.15, 12.0)
  }

  /** `previousYRotation`, `vibrating`, `_prevCartVel`, `_ampL`, `_ampR`. */
  datatype State = State(prevYaw: real, vibrating: bool, prevCartVel: Vec3, ampL: real, ampR: real)

  predicate Invariant(s: State) {
    InUnit(s.ampL) && InUnit(s.ampR)
  }

  /** The guarded dt, Mathf.DeltaAngle of the yaw and its rate, the cart
      velocity and its forward acceleration. */
  datatype Motion = Motion(dt: real, delta: real, angularSpeed: real, cartVel: Vec3, accelZ: real)

  /** Steps 1 and 3 of Update; a missing rigidbody counts as a cart at rest.
      `InverseTransformDirection(v)` dotted with Vector3.forward is the
      component of `v` along the frame's forward axis. */
  function Sense(s: State, f: Frame): (m: Motion)
    ensures m.dt >= 1e-4 && (f.deltaTime >= 1e-4 ==> m.dt == f.deltaTime)
    ensures -180.0 < m.delta <= 180.0
    ensures f.bodyVelocity.Some? ==> m.cartVel == f.bodyVelocity.value
    ensures f.bodyVelocity.None? ==> m.cartVel == Zero
  {
    var dt := GuardedDt(f.deltaTime);
    var delta := DeltaAngle(s.prevYaw, f.yaw);
    var cartVel := if f.bodyVelocity.Some? then f.bodyVelocity.value else Zero;
    Motion(dt, delta, delta / dt, cartVel, (Dot(cartVel, f.forward) - Dot(s.prevCartVel, f.forward)) / dt)
  }

  /** The rate and the acceleration are the changes over the guarded dt. */
  lemma SenseMeasures(s: State, f: Frame)
    ensures var m := Sense(s, f);
      && m.angularSpeed * m.dt == m.delta
      && m.accelZ * m.dt == Dot(m.cartVel, f.forward) - Dot(s.prevCartVel, f.forward)
  {
  }

  /** Step 4's condition: a turn past the threshold, or a positive rate above 2 degrees per second. */
  predicate Active(c: Config, m: Motion) {
    Abs(m.delta) > c.rotationThreshold || m.angularSpeed > 2.0
  }

  /** The rate test is one-sided: a turn to the right (positive delta) faster
      than 2 degrees per second is active however small, a turn to the left
      only past the threshold. */
  lemma ActiveIff(c: Config, s: State, f: Frame)
    ensures var m := Sense(s, f);
      Active(c, m) <==> Abs(m.delta) > c.rotationThreshold || m.delta > 2.0 * m.dt
    ensures var m := Sense(s, f);
      m.delta <= 0.0 ==> (Active(c, m) <==> -m.delta > c.rotationThreshold)
  {
    var m := Sense(s, f);
    SenseMeasures(s, f);
    var x := m.angularSpeed - 2.0;
    assert x * m.dt == m.delta - 2.0 * m.dt;
    SignOfProduct(x, m.dt);
    assert m.angularSpeed > 2.0 <==> m.delta > 2.0 * m.dt;
  }

  /** `Mathf.Clamp01(angularSpeed / rotationToMaxSpeed)`: a turn to the left scales by zero. */
  function RotScale(c: Config, angularSpeed: real): (r: real)
    requires ValidConfig(c)
    ensures InUnit(r)
    ensures angularSpeed <= 0.0 ==> r == 0.0
    ensures angularSpeed >= c.rotationToMaxSpeed ==> r == 1.0
  {
    var q := angularSpeed / c.rotationToMaxSpeed;
    assert q * c.rotationToMaxSpeed == angularSpeed;
    SignOfProduct(q, c.rotationToMaxSpeed);
    if angularSpeed >= c.rotationToMaxSpeed then
      QuotientAtLeast(angularSpeed, c.rotationToMaxSpeed, 1.0);
      Clamp01(q)
    else Clamp01(q)
  }

  /** `isHeavy ? heavyMultiplier : 1f`. */
  function Weight(c: Config): real {
    if c.isHeavy then c.heavyMultiplier else 1.0
  }

  function BaseStrong(c: Config): real {
    c.strongHaptic * Weight(c) * c.globalGain
  }

  function BaseWeak(c: Config): real {
    c.weakHaptic * Weight(c) * c.globalGain
  }

  /** The inertia effort: the part of |accelZ| above the deadzone, times the gain. */
  function InertiaEffort(c: Config, accelZ: real): (e: real)
    ensures c.inertiaGain >= 0.0 ==> e >= 0.0
    ensures Abs(accelZ) <= c.inertiaDeadzone ==> e == 0.0
  {
    var excess := Max(0.0, Abs(accelZ) - c.inertiaDeadzone);
    if c.inertiaGain >= 0.0 then
      NonNegativeProduct(excess, c.inertiaGain);
      excess * c.inertiaGain
    else excess * c.inertiaGain
  }

  /** The strong and weak targets before the two-hand boost, floored at the
      active minimum and at half of it. */
  function RawTargets(c: Config, rotScale: real, effort: real): (t: (real, real))
    ensures t.0 >= c.minAmpWhileActive && t.1 >= c.minAmpWhileActive * 0.5
    ensures t.0 >= BaseStrong(c) * rotScale + effort && t.1 >= BaseWeak(c) * rotScale + effort * 0.5
  {
    (Max(c.minAmpWhileActive, BaseStrong(c) * rotScale + effort),
     Max(c.minAmpWhileActive * 0.5, BaseWeak(c) * rotScale + effort * 0.5))
  }

  /** The two-hand synergy test of this script: the faster hand moves above
      0.1, which also keeps the ratio's divisor away from zero, and the
      slower one reaches `similarity` times its speed. */
  function Synergy(lS: real, rS: real, similarity: real): (b: bool)
    requires lS >= 0.0 && rS >= 0.0
    ensures b ==> Max(lS, rS) > 0.1
    ensures b && similarity > 0.0 ==> lS > 0.0 && rS > 0.0
    ensures lS == rS && lS > 0.1 && similarity <= 1.0 ==> b
  {
    var maxS := Max(lS, rS);
    var minS := Min(lS, rS);
    if maxS > 0.1 then
      assert minS == 0.0 ==> minS / maxS == 0.0;
      assert minS == maxS ==> minS / maxS == 1.0;
      minS / maxS >= similarity
    else false
  }

  /** The two-hand boost, which multiplies both targets when the hands move alike. */
  function Boost(c: Config, raw: (real, real), h: (real, real)): (t: (real, real))
    requires h.0 >= 0.0 && h.1 >= 0.0
    ensures Max(h.0, h.1) <= 0.1 ==> t == raw
    ensures Synergy(h.0, h.1, c.bothHandsSimilarity) ==> t == (raw.0 * c.bothHandsBoost, raw.1 * c.bothHandsBoost)
    // A boost of at least one never lowers a non-negative target.
    ensures c.bothHandsBoost >= 1.0 && raw.0 >= 0.0 && raw.1 >= 0.0 ==> t.0 >= raw.0 && t.1 >= raw.1
  {
    if Synergy(h.0, h.1, c.bothHandsSimilarity) then
      if c.bothHandsBoost >= 1.0 && raw.0 >= 0.0 && raw.1 >= 0.0 then
        ScaleMonotone(c.bothHandsBoost, 1.0, raw.0);
        ScaleMonotone(c.bothHandsBoost, 1.0, raw.1);
        (raw.0 * c.bothHandsBoost, raw.1 * c.bothHandsBoost)
      else (raw.0 * c.bothHandsBoost, raw.1 * c.bothHandsBoost)
    else raw
  }

  /** Steps 4a to 4c: the strong and weak targets of the frame. */
  function Targets(c: Config, m: Motion, h: (real, real)): (real, real)
    requires ValidConfig(c) && h.0 >= 0.0 && h.1 >= 0.0
  {
    Boost(c, RawTargets(c, RotScale(c, m.angularSpeed), InertiaEffort(c, m.accelZ)), h)
  }

  /** Before and after a boost of at least one, the strong target is at least
      the active minimum and the weak one at least half of it. */
  lemma TargetsFloors(c: Config, m: Motion, h: (real, real))
    requires ValidConfig(c) && h.0 >= 0.0 && h.1 >= 0.0
    ensures var raw := RawTargets(c, RotScale(c, m.angularSpeed), InertiaEffort(c, m.accelZ));
      raw.0 >= c.minAmpWhileActive && raw.1 >= c.minAmpWhileActive * 0.5
    ensures c.bothHandsBoost >= 1.0 ==>
      Targets(c, m, h).0 >= c.minAmpWhileActive && Targets(c, m, h).1 >= c.minAmpWhileActive * 0.5
  {
  }

  /** Step 5: the clamped strong share to the faster hand, the left on a tie. */
  function Amplitudes(t: (real, real), h: (real, real)): (a: (real, real))
    ensures InUnit(a.0) && InUnit(a.1)
    ensures h.0 >= h.1 ==> a == (Clamp01(t.0), Clamp01(t.1))
    ensures h.1 > h.0 ==> a == (Clamp01(t.1), Clamp01(t.0))
  {
    DominantSplit(h.0, h.1, Clamp01(t.0), Clamp01(t.1))
  }

  /** `Mathf.Abs(accelZ) * inertiaFreqBoost`. */
  function FreqLift(c: Config, accelZ: real): (l: real)
    ensures c.inertiaFreqBoost >= 0.0 ==> l >= 0.0
  {
    NonNegativeProduct(Abs(accelZ), Max(0.0, c.inertiaFreqBoost));
    Abs(accelZ) * c.inertiaFreqBoost
  }

  /** The strong and weak frequencies, each raised by the acceleration and
      clamped, the strong one to the faster hand. */
  function Frequencies(c: Config, m: Motion, h: (real, real)): (fr: (real, real))
    requires ValidConfig(c)
    ensures InUnit(fr.0) && InUnit(fr.1)
    ensures var strong := Clamp01(c.strongFrequency + FreqLift(c, m.accelZ));
      var weak := Clamp01(c.weakFrequency + FreqLift(c, m.accelZ));
      && (h.0 >= h.1 ==> fr == (strong, weak))
      && (h.1 > h.0 ==> fr == (weak, strong))
    // Acceleration never lowers a frequency.
    ensures c.inertiaFreqBoost >= 0.0 ==>
      && (h.0 >= h.1 ==> fr.0 >= c.strongFrequency && fr.1 >= c.weakFrequency)
      && (h.1 > h.0 ==> fr.0 >= c.weakFrequency && fr.1 >= c.strongFrequency)
  {
    var lift := FreqLift(c, m.accelZ);
    DominantSplit(h.0, h.1, Clamp01(c.strongFrequency + lift), Clamp01(c.weakFrequency + lift))
  }

  /** The Lerp parameter: smooth * dt. */
  function Rate(c: Config, dt: real): real {
    c.smooth * dt
  }

  /** The active branch: both amplitudes move towards their clamped targets,
      are sent with their frequencies, and the latch is set. */
  function Drive(s: State, a: (real, real), fr: (real, real), rate: real): (r: (State, seq<Vibration>))
    ensures r.0.vibrating && r.1 == Both(fr.0, r.0.ampL, fr.1, r.0.ampR)
    ensures r.0.prevYaw == s.prevYaw && r.0.prevCartVel == s.prevCartVel
    ensures Between(r.0.ampL, s.ampL, a.0) && Between(r.0.ampR, s.ampR, a.1)
  {
    var ampL := Lerp(s.ampL, a.0, rate);
    var ampR := Lerp(s.ampR, a.1, rate);
    (s.(ampL := ampL, ampR := ampR, vibrating := true), Both(fr.0, ampL, fr.1, ampR))
  }

  /** The inactive branch: while the latch is set both amplitudes decay,
      (0, 0) is sent, and the latch clears once the left amplitude is below
      0.01 (the right one is not looked at); with the latch clear nothing
      happens. */
  function Release(s: State, rate: real): (r: (State, seq<Vibration>))
    ensures !s.vibrating ==> r == (s, [])
    ensures s.vibrating ==> r.1 == Silence && (r.0.vibrating <==> r.0.ampL >= 0.01)
    ensures s.vibrating ==> Between(r.0.ampL, 0.0, s.ampL) && Between(r.0.ampR, 0.0, s.ampR)
    ensures r.0.prevYaw == s.prevYaw && r.0.prevCartVel == s.prevCartVel
  {
    if s.vibrating then
      var ampL := Lerp(s.ampL, 0.0, rate);
      var ampR := Lerp(s.ampR, 0.0, rate);
      (s.(ampL := ampL, ampR := ampR, vibrating := !(ampL < 0.01)), Silence)
    else (s, [])
  }

  /** One Update: new state and the commands sent. */
  function Step(c: Config, s: State, f: Frame, mag: Vec3 -> real): (r: (State, seq<Vibration>))
    requires ValidConfig(c) && HandsMeasured(f.leftVelocity, f.rightVelocity, mag)
    // The yaw and the cart velocity are remembered every frame.
    ensures r.0.prevYaw == f.yaw && r.0.prevCartVel == Sense(s, f).cartVel
    // Active: the latch is set and both hands get commands ...
    ensures Active(c, Sense(s, f)) ==>
      var h := HandSpeeds(f.leftVelocity, f.rightVelocity, mag, c.speedDeadzone);
      var fr := Frequencies(c, Sense(s, f), h);
      r.0.vibrating && r.1 == Both(fr.0, r.0.ampL, fr.1, r.0.ampR)
    // ... inactive while vibrating: (0, 0) is sent until the left amplitude is below 0.01 ...
    ensures !Active(c, Sense(s, f)) && s.vibrating ==> r.1 == Silence && (r.0.vibrating <==> r.0.ampL >= 0.01)
    // ... and inactive at rest: nothing is sent and the amplitudes keep their values.
    ensures !Active(c, Sense(s, f)) && !s.vibrating ==>
      r.1 == [] && !r.0.vibrating && r.0.ampL == s.ampL && r.0.ampR == s.ampR
    ensures Invariant(s) ==> Invariant(r.0) && AllInUnit(r.1)
  {
    var m := Sense(s, f);
    var s1 := s.(prevYaw := f.yaw, prevCartVel := m.cartVel);
    if Active(c, m) then
      var h := HandSpeeds(f.leftVelocity, f.rightVelocity, mag, c.speedDeadzone);
      Drive(s1, Amplitudes(Targets(c, m, h), h), Frequencies(c, m, h), Rate(c, m.dt))
    else
      Release(s1, Rate(c, m.dt))
  }

  /** While active the amplitudes move towards the clamped shares, the
      strong one on the faster hand; while releasing they decay towards zero. */
  lemma StepSmooths(c: Config, s: State, f: Frame, mag: Vec3 -> real)
    requires ValidConfig(c) && HandsMeasured(f.leftVelocity, f.rightVelocity, mag)
    ensures var m := Sense(s, f);
      var h := HandSpeeds(f.leftVelocity, f.rightVelocity, mag, c.speedDeadzone);
      var t := Targets(c, m, h);
      var r := Step(c, s, f, mag).0;
      && (Active(c, m) && h.0 >= h.1 ==> Between(r.ampL, s.ampL, Clamp01(t.0)) && Between(r.ampR, s.ampR, Clamp01(t.1)))
      && (Active(c, m) && h.1 > h.0 ==> Between(r.ampL, s.ampL, Clamp01(t.1)) && Between(r.ampR, s.ampR, Clamp01(t.0)))
      && (!Active(c, m) && s.vibrating ==> Between(r.ampL, 0.0, s.ampL) && Between(r.ampR, 0.0, s.ampR))
  {
  }

  /** OnDisable stops the left controller only. */
  const DisableCommand: seq<Vibration> := [Vibration(0.0, 0.0, Left)]

  class RotateHaptic2 {
    const config: Config
    var prevYaw: real
    var vibrating: bool
    var prevCartVel: Vec3
    var ampL: real
    var ampR: real

    ghost function Snapshot(): State
      reads this
    {
      State(prevYaw, vibrating, prevCartVel, ampL, ampR)
    }

    ghost predicate Valid()
      reads this
    {
      ValidConfig(config) && Invariant(Snapshot())
    }

    /** Start(): the yaw is read from the frame and the cart is taken as still. */
    constructor (config: Config, frameYaw: real)
      requires ValidConfig(config)
      ensures Valid() && this.config == config
      ensures Snapshot() == State(frameYaw, false, Zero, 0.0, 0.0)
    {
      this.config := config;
      prevYaw := frameYaw;
      vibrating := false;
      prevCartVel := Zero;
      ampL := 0.0;
      ampR := 0.0;
    }

    method Update(f: Frame, mag: Vec3 -> real) returns (out: seq<Vibration>)
      requires Valid() && HandsMeasured(f.leftVelocity, f.rightVelocity, mag)
      modifies this
      ensures Valid()
      ensures (Snapshot(), out) == Step(config, old(Snapshot()), f, mag)
    {
      ghost var s0 := Snapshot();
      var m := SenseMotion(f);
      if Abs(m.delta) > config.rotationThreshold || m.angularSpeed > 2.0 {
        var h := HandSpeeds(f.leftVelocity, f.rightVelocity, mag, config.speedDeadzone);
        var a := Amplitudes(Targets(config, m, h), h);
        var fr := Frequencies(config, m, h);
        out := DriveHaptics(a, fr, Rate(config, m.dt));
      } else {
        out := ReleaseHaptics(Rate(config, m.dt));
      }
      prevYaw := f.yaw;
      assert (Snapshot(), out) == Step(config, s0, f, mag);
    }

    /** Steps 1 and 3: dt, the yaw rate and the forward acceleration; the
        cart velocity is cached for the next frame. */
    method SenseMotion(f: Frame) returns (m: Motion)
      modifies this`prevCartVel
      ensures m == Sense(old(Snapshot()), f)
      ensures prevCartVel == m.cartVel
    {
      ghost var s0 := Snapshot();
      var dt := GuardedDt(f.deltaTime);
      var delta := DeltaAngle(prevYaw, f.yaw);
      var angularSpeed := delta / dt;
      var cartVel := if f.bodyVelocity.Some? then f.bodyVelocity.value else Zero;
      var prevVz := Dot(prevCartVel, f.forward);
      var currVz := Dot(cartVel, f.forward);
      var accelZ := (currVz - prevVz) / dt;
      prevCartVel := cartVel;
      m := Motion(dt, delta, angularSpeed, cartVel, accelZ);
      assert m == Sense(s0, f);
    }

    method DriveHaptics(a: (real, real), fr: (real, real), rate: real) returns (out: seq<Vibration>)
      modifies this`ampL, this`ampR, this`vibrating
      ensures (Snapshot(), out) == Drive(old(Snapshot()), a, fr, rate)
    {
      ampL := Lerp(ampL, a.0, rate);
      ampR := Lerp(ampR, a.1, rate);
      out := Both(fr.0, ampL, fr.1, ampR);
      vibrating := true;
    }

    method ReleaseHaptics(rate: real) returns (out: seq<Vibration>)
      modifies this`ampL, this`ampR, this`vibrating
      ensures (Snapshot(), out) == Release(old(Snapshot()), rate)
    {
      out := [];
      if vibrating {
        ampL := Lerp(ampL, 0.0, rate);
        ampR := Lerp(ampR, 0.0, rate);
        out := Silence;
        if ampL < 0.01 {
          vibrating := false;
        }
      }
    }

    /** OnDisable: only the left controller is told to stop; no field changes. */
    method Disable() returns (out: seq<Vibration>)
      ensures out == DisableCommand && out != Silence
    {
      out := DisableCommand;
    }
  }
}
