/**
  testhaptic: the rotation mapper with per-frame scaling. A yaw change past
  the threshold is scaled against `rotationToMax`; the faster hand (the
  left one on a tie) gets the strong frequency and amplitude, and the weak
  amplitude slides from 60% of the strong one (hands alike) to the weak
  level (one hand only) with the dominance of the faster hand. The first
  still frame after a turn sends (0, 0) once.
*/
module TestHaptics {
  import opened Unity
  import opened Haptics

  datatype Config = Config(
    strongHaptic: real, weakHaptic: real, strongFrequency: real, weakFrequency: real,
    rotationThreshold: real, speedDeadzone: real, isHeavy: bool, heavyMultiplier: real,
    rotationToMax: real)

  /** The four [Range(0, 1)] fields. */
  predicate ValidConfig(c: Config) {
    InUnit(c.strongHaptic) && InUnit(c.weakHaptic) && InUnit(c.strongFrequency) && InUnit(c.weakFrequency)
  }

  function Defaults(): (c: Config)
    ensures ValidConfig(c) && !c.isHeavy
    ensures c.weakHaptic < c.strongHaptic && c.weakFrequency < c.strongFrequency
  {
    Config(0.8, 0.2, 0.9, 0.25, 0.1, 0.03, false, 2.0, 20.0)
  }

  /** `previousYRotation` and `isVibrating`. */
  datatype State = State(prevYaw: real, isVibrating: bool)

  /** Step 3: with the heavy option the levels are multiplied and clamped, otherwise taken as set. */
  function Levels(c: Config): (l: (real, real))
    requires ValidConfig(c)
    ensures InUnit(l.0) && InUnit(l.1)
    ensures !c.isHeavy ==> l == (c.strongHaptic, c.weakHaptic)
  {
    if c.isHeavy then (Clamp01(c.strongHaptic * c.heavyMultiplier), Clamp01(c.weakHaptic * c.heavyMultiplier))
    else (c.strongHaptic, c.weakHaptic)
  }

  /** `Mathf.Max(1e-3f, rotationToMax)`: the divisor of the rotation scale. */
  function ScaleDivisor(c: Config): (d: real)
    ensures d >= 1e-3
  {
    Max(1e-3, c.rotationToMax)
  }

  /** The rotation scale: the turn's size over the divisor, clamped; a turn
      of the divisor's size or more scales by one. */
  function RotScale(c: Config, delta: real): (r: real)
    ensures InUnit(r)
    ensures Abs(delta) >= ScaleDivisor(c) ==> r == 1.0
  {
    var d := ScaleDivisor(c);
    var q := Abs(delta) / d;
    assert q * d == Abs(delta);
    if Abs(delta) >= d then
      QuotientAtLeast(Abs(delta), d, 1.0);
      Clamp01(q)
    else
      QuotientBetween(Abs(delta), d);
      Clamp01(q)
  }

  /** How much one hand dominates: 0 when both move alike, 1 when only one
      moves (at 1e-4 or faster). The sum's guard makes the clamp a no-op. */
  function Dominance(lS: real, rS: real): (d: real)
    requires lS >= 0.0 && rS >= 0.0
    ensures InUnit(d)
    ensures lS == rS ==> d == 0.0
    ensures (lS == 0.0 && rS >= 1e-4) || (rS == 0.0 && lS >= 1e-4) ==> d == 1.0
  {
    var sum := Max(lS + rS, 1e-4);
    var q := Abs(lS - rS) / sum;
    assert q * sum == Abs(lS - rS);
    QuotientBetween(Abs(lS - rS), sum);
    if (lS == 0.0 && rS >= 1e-4) || (rS == 0.0 && lS >= 1e-4) then
      assert sum == Abs(lS - rS) && sum > 0.0;
      assert q * sum == sum;
      assert q == 1.0;
      Clamp01(q)
    else Clamp01(q)
  }

  /** Below the divisor the scale is proportional to the turn, and the
      dominance is the speed difference over the guarded speed sum. */
  lemma ScalesAreRatios(c: Config, delta: real, lS: real, rS: real)
    requires lS >= 0.0 && rS >= 0.0
    ensures Abs(delta) <= ScaleDivisor(c) ==> RotScale(c, delta) * ScaleDivisor(c) == Abs(delta)
    ensures Dominance(lS, rS) * Max(lS + rS, 1e-4) == Abs(lS - rS)
  {
    var d := ScaleDivisor(c);
    assert (Abs(delta) / d) * d == Abs(delta);
    var sum := Max(lS + rS, 1e-4);
    assert (Abs(lS - rS) / sum) * sum == Abs(lS - rS);
    QuotientBetween(Abs(lS - rS), sum);
  }

  /** The strong and weak amplitudes from the levels `l`: the strong level
      times the rotation scale, and the weak one slid by the dominance from
      60% of that to the weak level times the rotation scale. */
  function Scaled(l: (real, real), rotScale: real, dominance: real): (a: (real, real))
    requires InUnit(l.0) && InUnit(l.1) && InUnit(rotScale)
    ensures InUnit(a.0) && InUnit(a.1)
    ensures a.0 == l.0 * rotScale
    ensures Between(a.1, a.0 * 0.6, l.1 * rotScale)
    ensures dominance <= 0.0 ==> a.1 == a.0 * 0.6
    ensures dominance >= 1.0 ==> a.1 == l.1 * rotScale
  {
    ProductBound(l.0, 1.0, rotScale, 1.0);
    ProductBound(l.1, 1.0, rotScale, 1.0);
    var strong := l.0 * rotScale;
    (strong, Lerp(strong * 0.6, l.1 * rotScale, dominance))
  }

  /** Step 4's commands: strong frequency and amplitude to the faster hand, the left on a tie. */
  function Commands(c: Config, delta: real, h: (real, real)): (out: seq<Vibration>)
    requires ValidConfig(c) && h.0 >= 0.0 && h.1 >= 0.0
    ensures AllInUnit(out)
    ensures var a := Scaled(Levels(c), RotScale(c, delta), Dominance(h.0, h.1));
      && (h.0 >= h.1 ==> out == Both(c.strongFrequency, a.0, c.weakFrequency, a.1))
      && (h.1 > h.0 ==> out == Both(c.weakFrequency, a.1, c.strongFrequency, a.0))
  {
    var a := Scaled(Levels(c), RotScale(c, delta), Dominance(h.0, h.1));
    var freq := DominantSplit(h.0, h.1, c.strongFrequency, c.weakFrequency);
    var amp := DominantSplit(h.0, h.1, a.0, a.1);
    Both(freq.0, amp.0, freq.1, amp.1)
  }

  /** One Update from the frame's `eulerAngles.y` and the controllers' velocities. */
  function Step(c: Config, s: State, yaw: real, lv: Vec3, rv: Vec3, mag: Vec3 -> real): (r: (State, seq<Vibration>))
    requires ValidConfig(c) && HandsMeasured(lv, rv, mag)
    ensures r.0.prevYaw == yaw
    ensures r.0.isVibrating <==> Abs(YawDelta(s.prevYaw, yaw)) > c.rotationThreshold
    ensures r.0.isVibrating ==>
      r.1 == Commands(c, YawDelta(s.prevYaw, yaw), HandSpeeds(lv, rv, mag, c.speedDeadzone))
    // The stop goes out only on the frame `isVibrating` falls.
    ensures !r.0.isVibrating ==> (r.1 == Silence <==> s.isVibrating) && (r.1 == [] <==> !s.isVibrating)
    ensures AllInUnit(r.1)
  {
    var delta := YawDelta(s.prevYaw, yaw);
    var h := HandSpeeds(lv, rv, mag, c.speedDeadzone);
    var l := Latch(Abs(delta) > c.rotationThreshold, s.isVibrating, Commands(c, delta, h));
    (State(yaw, l.0), l.1)
  }

  /** With both hands alike the weaker hand still gets 60% of the strong
      amplitude; with one hand only it gets the weak level. */
  lemma DominanceShapesWeakHand(c: Config, delta: real, speed: real)
    requires ValidConfig(c) && speed >= 1e-4
    ensures var rs := RotScale(c, delta);
      && Scaled(Levels(c), rs, Dominance(speed, speed)).1 == Scaled(Levels(c), rs, Dominance(speed, speed)).0 * 0.6
      && Scaled(Levels(c), rs, Dominance(speed, 0.0)).1 == Levels(c).1 * rs
      && Scaled(Levels(c), rs, Dominance(0.0, speed)).1 == Levels(c).1 * rs
  {
    assert Dominance(speed, speed) == 0.0;
    assert Dominance(speed, 0.0) == 1.0;
    assert Dominance(0.0, speed) == 1.0;
  }

  class TestHaptic {
    const config: Config
    var prevYaw: real
    var isVibrating: bool

    ghost function Snapshot(): State
      reads this
    {
      State(prevYaw, isVibrating)
    }

    /** Start(): the yaw is read from the frame. */
    constructor (config: Config, frameYaw: real)
      requires ValidConfig(config)
      ensures this.config == config && Snapshot() == State(frameYaw, false)
    {
      this.config := config;
      prevYaw := frameYaw;
      isVibrating := false;
    }

    method Update(yaw: real, lv: Vec3, rv: Vec3, mag: Vec3 -> real) returns (out: seq<Vibration>)
      requires ValidConfig(config) && HandsMeasured(lv, rv, mag)
      modifies this
      ensures (Snapshot(), out) == Step(config, old(Snapshot()), yaw, lv, rv, mag)
    {
      var delta := yaw - prevYaw;
      if delta > 180.0 { delta := delta - 360.0; }
      if delta < -180.0 { delta := delta + 360.0; }
      var lSpeed := mag(Horizontal(lv));
      var rSpeed := mag(Horizontal(rv));
      if lSpeed < config.speedDeadzone { lSpeed := 0.0; }
      if rSpeed < config.speedDeadzone { rSpeed := 0.0; }
      assert delta == YawDelta(prevYaw, yaw);
      assert (lSpeed, rSpeed) == HandSpeeds(lv, rv, mag, config.speedDeadzone);
      var l := Levels(config);
      out := [];
      if Abs(delta) > config.rotationThreshold {
        var rotScale := RotScale(config, delta);
        var dominance := Dominance(lSpeed, rSpeed);
        var scaled := Scaled(l, rotScale, dominance);
        if lSpeed >= rSpeed {
          out := Both(config.strongFrequency, scaled.0, config.weakFrequency, scaled.1);
        } else {
          out := Both(config.weakFrequency, scaled.1, config.strongFrequency, scaled.0);
        }
        isVibrating := true;
      } else if isVibrating {
        out := Silence;
        isVibrating := false;
      }
      prevYaw := yaw;
    }

    /** OnDisable stops both controllers; no field changes. */
    method Disable() returns (out: seq<Vibration>)
      ensures out == Silence
    {
      out := Silence;
    }
  }
}
