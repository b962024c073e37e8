/**
  RotateHaptic: the first rotation mapper. A yaw change past the threshold
  drives the hand on the side of the turn with the strong (optionally
  weight-boosted) amplitude and frequency and the other hand with the weak
  ones; the first still frame after a turn sends (0, 0) once.
*/
module RotationHaptics {
  import opened Unity
  import opened Haptics

  datatype Config = Config(
    strongHaptic: real, weakHaptic: real, strongFrequency: real, weakFrequency: real,
    rotationThreshold: real, isHeavy: bool, heavyMultiplier: real)

  /** The four [Range(0, 1)] fields. */
  predicate ValidConfig(c: Config) {
    InUnit(c.strongHaptic) && InUnit(c.weakHaptic) && InUnit(c.strongFrequency) && InUnit(c.weakFrequency)
  }

  function Defaults(): (c: Config)
    ensures ValidConfig(c) && !c.isHeavy
    ensures c.weakHaptic < c.strongHaptic && c.weakFrequency < c.strongFrequency
  {
    Config(0.8, 0.2, 0.9, 0.2, 0.1, false, 2.0)
  }

  /** `previousYRotation` and `isVibrating`. */
  datatype State = State(prevYaw: real, isVibrating: bool)

  /** The weight-adjusted strong and weak amplitudes, clamped to [0, 1]. */
  function Levels(c: Config): (l: (real, real))
    requires ValidConfig(c)
    ensures InUnit(l.0) && InUnit(l.1)
    ensures !c.isHeavy ==> l == (c.strongHaptic, c.weakHaptic)
    // A multiplier of at least one never weakens the feedback.
    ensures c.heavyMultiplier >= 1.0 ==> l.0 >= c.strongHaptic && l.1 >= c.weakHaptic
  {
    if c.isHeavy then
      if c.heavyMultiplier >= 1.0 then
        ScaleMonotone(c.heavyMultiplier, 1.0, c.strongHaptic);
        ScaleMonotone(c.heavyMultiplier, 1.0, c.weakHaptic);
        assert c.strongHaptic * c.heavyMultiplier == c.heavyMultiplier * c.strongHaptic;
        assert c.weakHaptic * c.heavyMultiplier == c.heavyMultiplier * c.weakHaptic;
        Clamp01Monotone(c.strongHaptic * c.heavyMultiplier, c.strongHaptic);
        Clamp01Monotone(c.weakHaptic * c.heavyMultiplier, c.weakHaptic);
        (Clamp01(c.strongHaptic * c.heavyMultiplier), Clamp01(c.weakHaptic * c.heavyMultiplier))
      else (Clamp01(c.strongHaptic * c.heavyMultiplier), Clamp01(c.weakHaptic * c.heavyMultiplier))
    else (c.strongHaptic, c.weakHaptic)
  }

  /** A turn to the left (negative delta) drives the left hand strongly, any
      other turn the right hand. */
  function Commands(c: Config, delta: real): (out: seq<Vibration>)
    requires ValidConfig(c)
    ensures AllInUnit(out)
    ensures delta < 0.0 ==> out == Both(c.strongFrequency, Levels(c).0, c.weakFrequency, Levels(c).1)
    ensures delta >= 0.0 ==> out == Both(c.weakFrequency, Levels(c).1, c.strongFrequency, Levels(c).0)
  {
    var l := Levels(c);
    if delta < 0.0 then Both(c.strongFrequency, l.0, c.weakFrequency, l.1)
    else Both(c.weakFrequency, l.1, c.strongFrequency, l.0)
  }

  /** One Update from the frame's `eulerAngles.y`. */
  function Step(c: Config, s: State, yaw: real): (r: (State, seq<Vibration>))
    requires ValidConfig(c)
    // The yaw is remembered every frame.
    ensures r.0.prevYaw == yaw
    // Vibration is commanded exactly when the folded change passes the threshold ...
    ensures r.0.isVibrating <==> Abs(YawDelta(s.prevYaw, yaw)) > c.rotationThreshold
    ensures r.0.isVibrating ==> r.1 == Commands(c, YawDelta(s.prevYaw, yaw))
    // ... and the stop goes out only on the frame that ends a turn.
    ensures !r.0.isVibrating ==> (r.1 == Silence <==> s.isVibrating) && (r.1 == [] <==> !s.isVibrating)
    ensures AllInUnit(r.1)
  {
    var delta := YawDelta(s.prevYaw, yaw);
    var l := Latch(Abs(delta) > c.rotationThreshold, s.isVibrating, Commands(c, delta));
    (State(yaw, l.0), l.1)
  }

  /** Two still frames in a row: the second one sends nothing. */
  lemma StillFramesSendOneStop(c: Config, s: State, y1: real, y2: real)
    requires ValidConfig(c)
    ensures var r1 := Step(c, s, y1);
      !r1.0.isVibrating && !Step(c, r1.0, y2).0.isVibrating ==> Step(c, r1.0, y2).1 == []
  {
  }

  /** The fold of the two readings 359 and 1 is a 2 degree turn to the right,
      so the right hand gets the strong command. */
  lemma TurnAcrossNorth()
    ensures Step(Defaults(), State(359.0, false), 1.0).1 == Both(0.2, 0.2, 0.9, 0.8)
  {
    YawAcrossNorth();
  }

  class RotateHaptic {
    const config: Config
    var prevYaw: real
    var isVibrating: bool

    ghost function Snapshot(): State
      reads this
    {
      State(prevYaw, isVibrating)
    }

    /** Start(): the yaw is read from the frame. */
    constructor (config: Config, frameYaw: real)
      requires ValidConfig(config)
      ensures this.config == config && Snapshot() == State(frameYaw, false)
    {
      this.config := config;
      prevYaw := frameYaw;
      isVibrating := false;
    }

    method Update(yaw: real) returns (out: seq<Vibration>)
      requires ValidConfig(config)
      modifies this
      ensures (Snapshot(), out) == Step(config, old(Snapshot()), yaw)
    {
      var delta := yaw - prevYaw;
      if delta > 180.0 { delta := delta - 360.0; }
      if delta < -180.0 { delta := delta + 360.0; }
      var l := Levels(config);
      out := [];
      if Abs(delta) > config.rotationThreshold {
        if delta < 0.0 {
          out := Both(config.strongFrequency, l.0, config.weakFrequency, l.1);
        } else {
          out := Both(config.weakFrequency, l.1, config.strongFrequency, l.0);
        }
        isVibrating := true;
      } else if isVibrating {
        out := Silence;
        isVibrating := false;
      }
      prevYaw := yaw;
    }

    /** OnDisable stops both controllers; no field changes. */
    method Disable() returns (out: seq<Vibration>)
      ensures out == Silence
    {
      out := Silence;
    }
  }
}
