/**
  RotateHapticAsymmetric: while the cart is grabbed, the hand whose
  controller moves faster around the cart (strictly; the right hand on a
  tie) is driven with the strong amplitude at the drive frequency, and the
  other one resists with the weak amplitude at the resist frequency, both
  amplitudes smoothed. A turn slower than `minYawSpeed` only lets the
  amplitudes fade; letting go stops and clears them.
*/
module AsymmetricHaptics {
  import opened Unity
  import opened Wrappers
  import opened Haptics

  datatype Config = Config(
    strongAmp: real, weakAmp: real, driveFreq: real, resistFreq: real, minYawSpeed: real, smooth: real)

  /** The four [Range(0, 1)] fields. */
  predicate ValidConfig(c: Config) {
    InUnit(c.strongAmp) && InUnit(c.weakAmp) && InUnit(c.driveFreq) && InUnit(c.resistFreq)
  }

  function Defaults(): (c: Config)
    ensures ValidConfig(c) && c.weakAmp < c.strongAmp && c.resistFreq < c.driveFreq
  {
    Config(0.8, 0.3, 0.75, 0.35, 0.05, 10.0)
  }

  /** `curL` and `curR`. */
  datatype State = State(curL: real, curR: real)

  predicate Invariant(s: State) {
    InUnit(s.curL) && InUnit(s.curR)
  }

  /** What one Update reads: Time.deltaTime, the grabbable's selecting-point
      count (None for a missing grabbable), the cart's position and the
      controllers' positions and velocities. */
  datatype Frame = Frame(
    deltaTime: real, selectingPoints: Option<nat>, center: Vec3,
    leftPosition: Vec3, rightPosition: Vec3, leftVelocity: Vec3, rightVelocity: Vec3)

  predicate Grabbed(f: Frame) {
    f.selectingPoints.Some? && f.selectingPoints.value > 0
  }

  /** The controller's speed around the cart: its velocity along
      `Cross(up, position - center)`. */
  function Tangential(center: Vec3, position: Vec3, velocity: Vec3): real {
    Dot(Cross(Up, Sub(position, center)), velocity)
  }

  /** Moving toward or away from the cart's centre, or straight up or down,
      is no speed around the cart. */
  lemma TangentialIgnoresRadialAndVertical(center: Vec3, position: Vec3, k: real, m: real)
    ensures Tangential(center, position, Add(Scale(Sub(position, center), k), Scale(Up, m))) == 0.0
  {
    var r := Sub(position, center);
    assert Cross(Up, r) == Vec3(r.z, 0.0, -r.x);
    assert r.z * (r.x * k) == r.x * (r.z * k);
  }

  /** The left hand dominates only when it is strictly faster around the cart. */
  function LeftDominant(sL: real, sR: real): (b: bool)
    ensures b <==> Abs(sL) > Abs(sR)
  {
    Abs(sL) > Abs(sR)
  }

  /** SmoothToZero: both amplitudes fade, both sent at the drive frequency. */
  function Fade(c: Config, s: State, dt: real): (r: (State, seq<Vibration>))
    ensures Between(r.0.curL, s.curL, 0.0) && Between(r.0.curR, s.curR, 0.0)
    ensures r.1 == Both(c.driveFreq, r.0.curL, c.driveFreq, r.0.curR)
  {
    var l := Lerp(s.curL, 0.0, c.smooth * dt);
    var r := Lerp(s.curR, 0.0, c.smooth * dt);
    (State(l, r), Both(c.driveFreq, l, c.driveFreq, r))
  }

  /** Both amplitudes one smoothing step toward their targets, each sent at its frequency. */
  function Toward(c: Config, s: State, targetL: real, targetR: real, freqL: real, freqR: real, dt: real): (State, seq<Vibration>) {
    var l := Lerp(s.curL, targetL, c.smooth * dt);
    var r := Lerp(s.curR, targetR, c.smooth * dt);
    (State(l, r), Both(freqL, l, freqR, r))
  }

  /** The driving branch: the dominant hand moves toward the strong amplitude
      at the drive frequency, the other toward the weak one at the resist
      frequency. */
  function Drive(c: Config, s: State, leftDominant: bool, dt: real): (r: (State, seq<Vibration>))
    ensures leftDominant ==> Between(r.0.curL, s.curL, c.strongAmp) && Between(r.0.curR, s.curR, c.weakAmp)
    ensures !leftDominant ==> Between(r.0.curL, s.curL, c.weakAmp) && Between(r.0.curR, s.curR, c.strongAmp)
    ensures leftDominant ==> r.1 == Both(c.driveFreq, r.0.curL, c.resistFreq, r.0.curR)
    ensures !leftDominant ==> r.1 == Both(c.resistFreq, r.0.curL, c.driveFreq, r.0.curR)
  {
    if leftDominant then Toward(c, s, c.strongAmp, c.weakAmp, c.driveFreq, c.resistFreq, dt)
    else Toward(c, s, c.weakAmp, c.strongAmp, c.resistFreq, c.driveFreq, dt)
  }

  /** One Update. */
  function Step(c: Config, s: State, f: Frame): (r: (State, seq<Vibration>))
    // Letting go (or a missing grabbable) clears both amplitudes and stops both controllers.
    ensures !Grabbed(f) ==> r == (State(0.0, 0.0), Silence)
    ensures Grabbed(f) ==>
      var sL := Tangential(f.center, f.leftPosition, f.leftVelocity);
      var sR := Tangential(f.center, f.rightPosition, f.rightVelocity);
      && (Abs(sL) + Abs(sR) < c.minYawSpeed ==> r == Fade(c, s, f.deltaTime))
      && (Abs(sL) + Abs(sR) >= c.minYawSpeed ==> r == Drive(c, s, LeftDominant(sL, sR), f.deltaTime))
  {
    if !Grabbed(f) then (State(0.0, 0.0), Silence)
    else
      var sL := Tangential(f.center, f.leftPosition, f.leftVelocity);
      var sR := Tangential(f.center, f.rightPosition, f.rightVelocity);
      if Abs(sL) + Abs(sR) < c.minYawSpeed then Fade(c, s, f.deltaTime)
      else Drive(c, s, LeftDominant(sL, sR), f.deltaTime)
  }

  /** The amplitudes stay in [0, 1] and every command is in range. */
  lemma StepKeepsInvariant(c: Config, s: State, f: Frame)
    requires ValidConfig(c) && Invariant(s)
    ensures Invariant(Step(c, s, f).0)
    ensures AllInUnit(Step(c, s, f).1)
  {
  }

  /** A slow turn never raises an amplitude. */
  lemma SlowTurnOnlyFades(c: Config, s: State, f: Frame)
    requires Grabbed(f) && Invariant(s)
    requires Abs(Tangential(f.center, f.leftPosition, f.leftVelocity))
           + Abs(Tangential(f.center, f.rightPosition, f.rightVelocity)) < c.minYawSpeed
    ensures Step(c, s, f).0.curL <= s.curL && Step(c, s, f).0.curR <= s.curR
  {
  }

  class RotateHapticAsymmetric {
    const config: Config
    var curL: real
    var curR: real

    ghost function Snapshot(): State
      reads this
    {
      State(curL, curR)
    }

    /** The fields start at zero. */
    constructor (config: Config)
      ensures this.config == config && Snapshot() == State(0.0, 0.0)
    {
      this.config := config;
      curL := 0.0;
      curR := 0.0;
    }

    method Update(f: Frame) returns (out: seq<Vibration>)
      modifies this
      ensures (Snapshot(), out) == Step(config, old(Snapshot()), f)
    {
      if f.selectingPoints.None? || f.selectingPoints.value == 0 {
        out := StopHaptics();
        return;
      }
      var up := Up;
      var sL := Dot(Cross(up, Sub(f.leftPosition, f.center)), f.leftVelocity);
      var sR := Dot(Cross(up, Sub(f.rightPosition, f.center)), f.rightVelocity);
      var absL := Abs(sL);
      var absR := Abs(sR);
      if absL + absR < config.minYawSpeed {
        out := SmoothToZero(f.deltaTime);
        return;
      }
      var leftDominant := absL > absR;
      out := DriveAmplitudes(leftDominant, f.deltaTime);
    }

    /** The driving half of Update, once the dominant hand is known. */
    method DriveAmplitudes(leftDominant: bool, deltaTime: real) returns (out: seq<Vibration>)
      modifies this
      ensures (Snapshot(), out) == Drive(config, old(Snapshot()), leftDominant, deltaTime)
    {
      var targetL := if leftDominant then config.strongAmp else config.weakAmp;
      var targetR := if leftDominant then config.weakAmp else config.strongAmp;
      var freqL := if leftDominant then config.driveFreq else config.resistFreq;
      var freqR := if leftDominant then config.resistFreq else config.driveFreq;
      out := MoveToward(targetL, targetR, freqL, freqR, deltaTime);
    }

    method MoveToward(targetL: real, targetR: real, freqL: real, freqR: real, deltaTime: real) returns (out: seq<Vibration>)
      modifies this
      ensures (Snapshot(), out) == Toward(config, old(Snapshot()), targetL, targetR, freqL, freqR, deltaTime)
    {
      ghost var expected := Toward(config, Snapshot(), targetL, targetR, freqL, freqR, deltaTime);
      curL := Lerp(curL, targetL, config.smooth * deltaTime);
      curR := Lerp(curR, targetR, config.smooth * deltaTime);
      assert Snapshot() == expected.0;
      out := [Vibration(freqL, curL, Left), Vibration(freqR, curR, Right)];
    }

    method SmoothToZero(deltaTime: real) returns (out: seq<Vibration>)
      modifies this
      ensures (Snapshot(), out) == Fade(config, old(Snapshot()), deltaTime)
    {
      ghost var expected := Fade(config, Snapshot(), deltaTime);
      curL := Lerp(curL, 0.0, config.smooth * deltaTime);
      curR := Lerp(curR, 0.0, config.smooth * deltaTime);
      assert Snapshot() == expected.0;
      out := Apply();
    }

    /** Both controllers at the drive frequency with the current amplitudes. */
    method Apply() returns (out: seq<Vibration>)
      ensures out == Both(config.driveFreq, curL, config.driveFreq, curR)
    {
      out := [Vibration(config.driveFreq, curL, Left), Vibration(config.driveFreq, curR, Right)];
    }

    /** StopHaptics, also run by OnDisable. */
    method StopHaptics() returns (out: seq<Vibration>)
      modifies this
      ensures Snapshot() == State(0.0, 0.0) && out == Silence
    {
      curL := 0.0;
      curR := 0.0;
      out := [Vibration(0.0, 0.0, Left), Vibration(0.0, 0.0, Right)];
    }
  }
}
