/**
  CartHapticPhysicsManager: cart-speed haptics while the cart is grabbed.
  The cart's speed (its position change over the frame) sets a smoothed
  intensity through an effort curve; the faster controller (the right one
  on a tie) gets a granular pulse whenever the pulse timer runs out, and the
  other one a continuous resisting buzz. Letting go, or an intensity that
  has faded to 0.01 or less, stops both controllers.
*/
module CartHapticPhysics {
  import opened Unity
  import opened Haptics

  /** The tuning fields; the effort curve is passed beside it as `effort`. */
  datatype Config = Config(
    leadingIntensity: real, anchorIntensity: real,
    granularFrequency: real, movementDeadzone: real, hapticSmoothSpeed: real)

  /** The [Range(0.01, 0.2)] of `granularFrequency`. */
  predicate ValidConfig(c: Config) {
    0.01 <= c.granularFrequency <= 0.2
  }

  function Defaults(): (c: Config)
    ensures ValidConfig(c)
  {
    Config(0.5, 0.2, 0.08, 0.02, 8.0)
  }

  /** `_granularTimer`, `_lastPosition` and `_currentHapticIntensity`. */
  datatype State = State(granularTimer: real, lastPosition: Vec3, intensity: real)

  /** What one Update reads: Time.deltaTime, the count of the grabbable's
      selecting points, the rigidbody's position and the controllers' velocities. */
  datatype Frame = Frame(deltaTime: real, selectingPoints: nat, position: Vec3, leftVelocity: Vec3, rightVelocity: Vec3)

  /** The frame time, with 0.01 standing in for a non-positive one. */
  function HapticDt(deltaTime: real): (dt: real)
    ensures dt > 0.0
    ensures deltaTime > 0.0 ==> dt == deltaTime
    ensures deltaTime <= 0.0 ==> dt == 0.01
  {
    if deltaTime > 0.0 then deltaTime else 0.01
  }

  /** The intensity the cart's speed asks for, before the effort curve: zero
      at the deadzone, full half a unit per second above it. */
  function Target(c: Config, speed: real): (t: real)
    ensures InUnit(t)
    ensures speed <= c.movementDeadzone ==> t == 0.0
    ensures speed >= c.movementDeadzone + 0.5 ==> t == 1.0
  {
    Clamp01((speed - c.movementDeadzone) / 0.5)
  }

  /** The smoothed intensity: below the deadzone it only fades toward zero,
      otherwise it moves toward the target scaled by the effort curve at the
      speed's share of 3 units per second. */
  function NextIntensity(c: Config, effort: real -> real, intensity: real, speed: real, dt: real): (i: real)
    ensures speed < c.movementDeadzone ==> Between(i, intensity, 0.0)
    ensures speed >= c.movementDeadzone ==>
      Between(i, intensity, Target(c, speed) * effort(Clamp01(speed / 3.0)))
  {
    if speed < c.movementDeadzone then Lerp(intensity, 0.0, dt * c.hapticSmoothSpeed)
    else Lerp(intensity, Target(c, speed) * effort(Clamp01(speed / 3.0)), dt * c.hapticSmoothSpeed)
  }

  /** The leading controller: the left one only when it is strictly faster. */
  function Leader(vl: Vec3, vr: Vec3, mag: Vec3 -> real): (h: Hand)
    ensures h == Left <==> mag(vl) > mag(vr)
  {
    if mag(vl) > mag(vr) then Left else Right
  }

  /** The pulse timer: it advances by the raw frame time and, once it reaches
      the granular period, fires and restarts from zero. */
  function Pulse(c: Config, timer: real, deltaTime: real): (p: (real, bool))
    ensures p.1 <==> timer + deltaTime >= c.granularFrequency
    ensures p.0 == if p.1 then 0.0 else timer + deltaTime
  {
    var t := timer + deltaTime;
    if t >= c.granularFrequency then (0.0, true) else (t, false)
  }

  /** ApplyCustomHaptics: the leader's pulse when the timer fires, then the anchor's buzz. */
  function Commands(c: Config, leader: Hand, amp: real, fires: bool): (out: seq<Vibration>)
    ensures |out| == if fires then 2 else 1
    ensures out[|out| - 1] == Vibration(0.1, c.anchorIntensity * amp, Other(leader))
    ensures fires ==> out[0] == Vibration(0.8, c.leadingIntensity * amp, leader)
  {
    if fires then [Vibration(0.8, c.leadingIntensity * amp, leader), Vibration(0.1, c.anchorIntensity * amp, Other(leader))]
    else [Vibration(0.1, c.anchorIntensity * amp, Other(leader))]
  }

  /** HandleAsymmetricHaptics on the state before `_lastPosition` is overwritten. */
  function Handle(c: Config, effort: real -> real, s: State, f: Frame, mag: Vec3 -> real): (r: (State, seq<Vibration>))
  {
    var dt := HapticDt(f.deltaTime);
    var speed := mag(Sub(f.position, s.lastPosition)) / dt;
    var i := NextIntensity(c, effort, s.intensity, speed, dt);
    if i <= 0.01 then (s.(intensity := 0.0), Silence)
    else
      var p := Pulse(c, s.granularTimer, f.deltaTime);
      (State(p.0, s.lastPosition, i), Commands(c, Leader(f.leftVelocity, f.rightVelocity, mag), i, p.1))
  }

  /** One Update. */
  function Step(c: Config, effort: real -> real, s: State, f: Frame, mag: Vec3 -> real): (r: (State, seq<Vibration>))
    ensures r.0.lastPosition == f.position
    // Letting go stops both controllers and clears the intensity.
    ensures f.selectingPoints == 0 ==> r.1 == Silence && r.0 == State(s.granularTimer, f.position, 0.0)
    // The intensity is either cleared or above the stop level, and it is
    // cleared exactly when both controllers are stopped.
    ensures r.0.intensity == 0.0 || r.0.intensity > 0.01
    ensures r.1 == Silence <==> r.0.intensity == 0.0
    // A stop leaves the pulse timer where it was.
    ensures r.1 == Silence ==> r.0.granularTimer == s.granularTimer
    // Otherwise the anchor buzzes every frame and the leader pulses when the timer runs out.
    ensures r.1 != Silence ==>
      var leader := Leader(f.leftVelocity, f.rightVelocity, mag);
      var fires := s.granularTimer + f.deltaTime >= c.granularFrequency;
      && r.1 == Commands(c, leader, r.0.intensity, fires)
      && r.0.granularTimer == (if fires then 0.0 else s.granularTimer + f.deltaTime)
  {
    if f.selectingPoints == 0 then (State(s.granularTimer, f.position, 0.0), Silence)
    else
      var h := Handle(c, effort, s, f, mag);
      assert h.1 != Silence ==> h.1[|h.1| - 1].freq == 0.1;
      (h.0.(lastPosition := f.position), h.1)
  }

  /** Below the deadzone a non-negative intensity only falls. */
  lemma FadesBelowDeadzone(c: Config, effort: real -> real, s: State, f: Frame, mag: Vec3 -> real)
    requires f.selectingPoints > 0 && s.intensity >= 0.0
    requires mag(Sub(f.position, s.lastPosition)) / HapticDt(f.deltaTime) < c.movementDeadzone
    ensures 0.0 <= Step(c, effort, s, f, mag).0.intensity <= s.intensity
  {
  }

  /** With an effort curve into [0, 1] the intensity stays in [0, 1]; with
      intensities in [0, 1] every command does too. */
  lemma StaysInUnit(c: Config, effort: real -> real, s: State, f: Frame, mag: Vec3 -> real)
    requires forall x :: InUnit(x) ==> InUnit(effort(x))
    requires InUnit(s.intensity) && InUnit(c.leadingIntensity) && InUnit(c.anchorIntensity)
    ensures InUnit(Step(c, effort, s, f, mag).0.intensity)
    ensures AllInUnit(Step(c, effort, s, f, mag).1)
  {
    if f.selectingPoints > 0 {
      var dt := HapticDt(f.deltaTime);
      var speed := mag(Sub(f.position, s.lastPosition)) / dt;
      var i := NextIntensity(c, effort, s.intensity, speed, dt);
      NextIntensityInUnit(c, effort, s.intensity, speed, dt);
      if i > 0.01 {
        var p := Pulse(c, s.granularTimer, f.deltaTime);
        CommandsInUnit(c, Leader(f.leftVelocity, f.rightVelocity, mag), i, p.1);
      }
    }
  }

  lemma NextIntensityInUnit(c: Config, effort: real -> real, intensity: real, speed: real, dt: real)
    requires forall x :: InUnit(x) ==> InUnit(effort(x))
    requires InUnit(intensity)
    ensures InUnit(NextIntensity(c, effort, intensity, speed, dt))
  {
    if speed >= c.movementDeadzone {
      var e := effort(Clamp01(speed / 3.0));
      ProductBound(Target(c, speed), 1.0, e, 1.0);
    }
  }

  lemma CommandsInUnit(c: Config, leader: Hand, amp: real, fires: bool)
    requires InUnit(amp) && InUnit(c.leadingIntensity) && InUnit(c.anchorIntensity)
    ensures AllInUnit(Commands(c, leader, amp, fires))
  {
    ProductBound(c.leadingIntensity, 1.0, amp, 1.0);
    ProductBound(c.anchorIntensity, 1.0, amp, 1.0);
  }

  /** The pulse timer stays in [0, granularFrequency) for a non-negative frame time. */
  lemma TimerStaysBelowPeriod(c: Config, effort: real -> real, s: State, f: Frame, mag: Vec3 -> real)
    requires ValidConfig(c) && f.deltaTime >= 0.0
    requires 0.0 <= s.granularTimer < c.granularFrequency
    ensures 0.0 <= Step(c, effort, s, f, mag).0.granularTimer < c.granularFrequency
  {
  }

  class CartHapticPhysicsManager {
    const config: Config
    const effortCurve: real -> real
    var granularTimer: real
    var lastPosition: Vec3
    var currentHapticIntensity: real

    ghost function Snapshot(): State
      reads this
    {
      State(granularTimer, lastPosition, currentHapticIntensity)
    }

    /** The field initialisers and Start(): the position is the rigidbody's. */
    constructor (config: Config, effortCurve: real -> real, position: Vec3)
      ensures this.config == config && this.effortCurve == effortCurve
      ensures Snapshot() == State(0.0, position, 0.0)
    {
      this.config := config;
      this.effortCurve := effortCurve;
      granularTimer := 0.0;
      lastPosition := position;
      currentHapticIntensity := 0.0;
    }

    method Update(f: Frame, mag: Vec3 -> real) returns (out: seq<Vibration>)
      modifies this
      ensures (Snapshot(), out) == Step(config, effortCurve, old(Snapshot()), f, mag)
    {
      var isGrabbing := f.selectingPoints > 0;
      if isGrabbing {
        out := HandleAsymmetricHaptics(f, mag);
      } else {
        out := StopAllHaptics();
      }
      lastPosition := f.position;
    }

    method HandleAsymmetricHaptics(f: Frame, mag: Vec3 -> real) returns (out: seq<Vibration>)
      modifies this`granularTimer, this`currentHapticIntensity
      ensures (Snapshot(), out) == Handle(config, effortCurve, old(Snapshot()), f, mag)
    {
      var dt := if f.deltaTime > 0.0 then f.deltaTime else 0.01;
      var currentSpeed := mag(Sub(f.position, lastPosition)) / dt;
      SmoothIntensity(currentSpeed, dt);
      if currentHapticIntensity <= 0.01 {
        out := StopAllHaptics();
        return;
      }
      var leader := if mag(f.leftVelocity) > mag(f.rightVelocity) then Left else Right;
      var anchor := if leader == Left then Right else Left;
      out := ApplyCustomHaptics(leader, anchor, currentHapticIntensity, f.deltaTime);
    }

    /** Steps 2 and 3: the intensity fades below the deadzone and otherwise
        follows the effort-scaled target. */
    method SmoothIntensity(currentSpeed: real, dt: real)
      modifies this`currentHapticIntensity
      ensures currentHapticIntensity == NextIntensity(config, effortCurve, old(currentHapticIntensity), currentSpeed, dt)
    {
      if currentSpeed < config.movementDeadzone {
        currentHapticIntensity := Lerp(currentHapticIntensity, 0.0, dt * config.hapticSmoothSpeed);
      } else {
        var normalizedSpeed := Clamp01(currentSpeed / 3.0);
        var effortMultiplier := effortCurve(normalizedSpeed);
        var targetIntensity := Clamp01((currentSpeed - config.movementDeadzone) / 0.5);
        currentHapticIntensity := Lerp(currentHapticIntensity, targetIntensity * effortMultiplier, dt * config.hapticSmoothSpeed);
      }
    }

    method ApplyCustomHaptics(leader: Hand, anchor: Hand, finalAmp: real, deltaTime: real) returns (out: seq<Vibration>)
      requires anchor == Other(leader)
      modifies this`granularTimer
      ensures var p := Pulse(config, old(granularTimer), deltaTime);
        granularTimer == p.0 && out == Commands(config, leader, finalAmp, p.1)
    {
      ghost var p := Pulse(config, granularTimer, deltaTime);
      var pulse: seq<Vibration> := [];
      granularTimer := granularTimer + deltaTime;
      if granularTimer >= config.granularFrequency {
        pulse := [Vibration(0.8, config.leadingIntensity * finalAmp, leader)];
        granularTimer := 0.0;
      }
      assert p.1 <==> pulse != [];
      out := pulse + [Vibration(0.1, config.anchorIntensity * finalAmp, anchor)];
      ghost var expected := Commands(config, leader, finalAmp, p.1);
      assert |out| == |expected| && out[|out| - 1] == expected[|out| - 1];
      assert p.1 ==> out[0] == expected[0];
    }

    method StopAllHaptics() returns (out: seq<Vibration>)
      modifies this`currentHapticIntensity
      ensures currentHapticIntensity == 0.0 && out == Silence
    {
      currentHapticIntensity := 0.0;
      out := [Vibration(0.0, 0.0, Left), Vibration(0.0, 0.0, Right)];
    }
  }
}
