/**
  The haptic output boundary and the dominance decisions the scripts share.

  Every call `OVRInput.SetControllerVibration(frequency, amplitude, controller)`
  a frame makes is one `Vibration` in the sequence the frame returns, in call
  order; a frame that sends nothing returns [].
*/
module Haptics {
  import opened Unity
  import opened Wrappers

  datatype Hand = Left | Right

  function Other(h: Hand): (o: Hand)
    ensures o != h
  {
    if h == Left then Right else Left
  }

  datatype Vibration = Vibration(freq: real, amp: real, hand: Hand)

  /** The (0, 0) command to both controllers that every stop path sends. */
  const Silence: seq<Vibration> := [Vibration(0.0, 0.0, Left), Vibration(0.0, 0.0, Right)]

  /** Left command first, then right: the order all the scripts use. */
  function Both(freqL: real, ampL: real, freqR: real, ampR: real): (out: seq<Vibration>)
    ensures |out| == 2 && out[0].hand == Left && out[1].hand == Right
  {
    [Vibration(freqL, ampL, Left), Vibration(freqR, ampR, Right)]
  }

  /** Every command in `out` has frequency and amplitude in [0, 1]. */
  predicate AllInUnit(out: seq<Vibration>) {
    forall i :: 0 <= i < |out| ==> InUnit(out[i].freq) && InUnit(out[i].amp)
  }

  /** What one Update of RotateHapticCombined, RotateHapticCombinedV2 or
      RotateHaptic2 reads from the engine: Time.deltaTime; the rigidbody's
      velocity when the script uses one (None otherwise); the reference
      frame's position, forward axis and eulerAngles.y; and the two
      controllers' local velocities. */
  datatype Frame = Frame(deltaTime: real, bodyVelocity: Option<Vec3>, position: Vec3, forward: Vec3,
                         yaw: real, leftVelocity: Vec3, rightVelocity: Vec3)

  /** The stop-once latch of RotateHaptic and testhaptic: an active frame
      sends its commands and sets the latch, the first inactive frame after
      it sends (0, 0) and clears it, and later inactive frames send nothing. */
  function Latch(active: bool, vibrating: bool, commands: seq<Vibration>): (r: (bool, seq<Vibration>))
    ensures r.0 == active
    ensures active ==> r.1 == commands
    ensures !active ==> (r.1 == Silence <==> vibrating) && (r.1 == [] <==> !vibrating)
  {
    if active then (true, commands)
    else if vibrating then (false, Silence)
    else (false, [])
  }

  /** A stop goes out once per stretch of inactive frames: the frame after
      an inactive one sends nothing unless it is active. */
  lemma LatchStopsOnce(a1: bool, a2: bool, vibrating: bool, c1: seq<Vibration>, c2: seq<Vibration>)
    ensures !a1 && !a2 ==> Latch(a2, Latch(a1, vibrating, c1).0, c2).1 == []
    ensures a1 && !a2 ==> Latch(a2, Latch(a1, vibrating, c1).0, c2).1 == Silence
  {
  }

  /** `mag` gives the Euclidean length of both controllers' horizontal velocities. */
  predicate HandsMeasured(lv: Vec3, rv: Vec3, mag: Vec3 -> real) {
    IsMagnitudeOf(mag(Horizontal(lv)), Horizontal(lv)) && IsMagnitudeOf(mag(Horizontal(rv)), Horizontal(rv))
  }

  /** A hand speed at or above the deadzone counts; below it is exactly 0. */
  function Deadzoned(speed: real, deadzone: real): (s: real)
    ensures s == 0.0 || s == speed
    ensures speed < deadzone ==> s == 0.0
    ensures speed >= deadzone ==> s == speed
  {
    if speed < deadzone then 0.0 else speed
  }

  /** Two-hand synergy as RotateHapticCombined, RotateHapticTemporal and
      RotateHapticCombinedV2 test it: the slower hand's speed over the
      faster hand's (plus 1e-5) reaches `similarity`. */
  function BothHandsActive(lS: real, rS: real, similarity: real): (b: bool)
    requires lS >= 0.0 && rS >= 0.0
    ensures !b <== lS == 0.0 && rS == 0.0
    ensures b && similarity > 0.0 ==> lS > 0.0 && rS > 0.0
    ensures lS == rS && lS >= 0.001 && similarity <= 0.99 ==> b
  {
    var maxS := Max(lS, rS);
    var minS := Min(lS, rS);
    SynergyFacts(minS, maxS, similarity);
    maxS > 0.0 && minS / (maxS + 1e-5) >= similarity
  }

  /** The faster hand gets the strong share and the other the weak one;
      a tie goes to the left hand. */
  function DominantSplit(lS: real, rS: real, strong: real, weak: real): (p: (real, real))
    ensures (p.0 == strong && p.1 == weak) || (p.0 == weak && p.1 == strong)
    ensures lS > rS ==> p.0 == strong
    ensures rS > lS ==> p.1 == strong
    ensures lS == rS ==> p.0 == strong
  {
    if lS >= rS then (strong, weak) else (weak, strong)
  }

  /** `Mathf.Clamp01(x * gain)`: a gain applied to an amplitude, clamped to [0, 1]. */
  function Gain(x: real, gain: real): (r: real)
    ensures InUnit(r)
    ensures x <= 0.0 && gain >= 0.0 ==> r == 0.0
  {
    if x <= 0.0 && gain >= 0.0 then NonNegativeProduct(-x, gain); Clamp01(x * gain)
    else Clamp01(x * gain)
  }

  lemma GainMonotone(a: real, b: real, gain: real)
    ensures a >= b && gain >= 0.0 ==> Gain(a, gain) >= Gain(b, gain)
  {
    if a >= b && gain >= 0.0 {
      ScaleMonotone(a, b, gain);
      Clamp01Monotone(a * gain, b * gain);
    }
  }

  /** The two hands' horizontal speeds, each zero inside the deadzone. */
  function HandSpeeds(lv: Vec3, rv: Vec3, mag: Vec3 -> real, deadzone: real): (h: (real, real))
    requires HandsMeasured(lv, rv, mag)
    ensures h.0 >= 0.0 && h.1 >= 0.0
    ensures h.0 == 0.0 || h.0 >= deadzone
    ensures h.1 == 0.0 || h.1 >= deadzone
  {
    (Deadzoned(mag(Horizontal(lv)), deadzone), Deadzoned(mag(Horizontal(rv)), deadzone))
  }

  /** The base amplitude, multiplied by `boost` when both hands work alike. */
  function Boosted(baseAmp: real, boost: real, similarity: real, lS: real, rS: real): (b: real)
    requires lS >= 0.0 && rS >= 0.0
    ensures b == baseAmp || b == baseAmp * boost
    ensures !BothHandsActive(lS, rS, similarity) ==> b == baseAmp
    ensures BothHandsActive(lS, rS, similarity) ==> b == baseAmp * boost
    ensures boost >= 1.0 && baseAmp >= 0.0 ==> b >= baseAmp
  {
    if !BothHandsActive(lS, rS, similarity) then baseAmp
    else if boost >= 1.0 && baseAmp >= 0.0 then
      ScaleMonotone(boost, 1.0, baseAmp);
      baseAmp * boost
    else baseAmp * boost
  }

  /** The clamped strong and weak shares of the (boosted) base amplitude, the
      strong one on the faster hand and on the left hand for a tie. */
  function ShareTargets(strongAmp: real, weakAmp: real, boost: real, similarity: real,
                        baseAmp: real, lS: real, rS: real): (t: (real, real))
    requires 0.0 <= weakAmp && lS >= 0.0 && rS >= 0.0
    ensures InUnit(t.0) && InUnit(t.1)
    // The dominant hand never gets less than the other one.
    ensures weakAmp <= strongAmp ==> (lS >= rS ==> t.0 >= t.1) && (rS > lS ==> t.1 >= t.0)
    // With both hands still there is no boost and the left hand leads.
    ensures lS == 0.0 && rS == 0.0 ==> t == (Clamp01(strongAmp * baseAmp), Clamp01(weakAmp * baseAmp))
  {
    var b := Boosted(baseAmp, boost, similarity, lS, rS);
    var strong := Clamp01(strongAmp * b);
    var weak := Clamp01(weakAmp * b);
    ClampedShareOrder(strongAmp, weakAmp, b);
    var t := DominantSplit(lS, rS, strong, weak);
    if lS == 0.0 && rS == 0.0 then
      assert b == baseAmp && t == (strong, weak);
      assert strong == Clamp01(strongAmp * baseAmp);
      assert weak == Clamp01(weakAmp * baseAmp);
      t
    else t
  }

  /** With strong >= weak >= 0 the clamped strong share is never the smaller one. */
  lemma ClampedShareOrder(strong: real, weak: real, b: real)
    requires 0.0 <= weak
    ensures weak <= strong ==> Clamp01(strong * b) >= Clamp01(weak * b)
  {
    if weak > strong {
    } else if b >= 0.0 {
      ScaleMonotone(strong, weak, b);
      Clamp01Monotone(strong * b, weak * b);
    } else {
      NonNegativeProduct(strong, -b);
      NonNegativeProduct(weak, -b);
      assert Clamp01(strong * b) == 0.0 && Clamp01(weak * b) == 0.0;
    }
  }

  lemma SynergyFacts(minS: real, maxS: real, similarity: real)
    requires 0.0 <= minS <= maxS
    ensures similarity > 0.0 && minS / (maxS + 1e-5) >= similarity ==> minS > 0.0
    ensures minS == maxS && minS >= 0.001 && similarity <= 0.99 ==> minS / (maxS + 1e-5) >= similarity
  {
    if minS == 0.0 {
      assert minS / (maxS + 1e-5) == 0.0;
    }
    if minS == maxS && minS >= 0.001 {
      QuotientAtLeast(minS, maxS + 1e-5, 0.99);
    }
  }

  lemma QuotientAtLeast(x: real, y: real, c: real)
    requires y > 0.0 && x >= c * y
    ensures x / y >= c
  {
    assert x / y == c + (x - c * y) / y;
  }

  /** The two-hand examples: equal speeds trigger the boost, a hand eight
      times slower does not, whichever hand it is. */
  lemma SynergyExamples()
    ensures BothHandsActive(4.0, 4.0, 0.55)
    ensures !BothHandsActive(4.0, 0.5, 0.55) && !BothHandsActive(0.5, 4.0, 0.55)
    ensures DominantSplit(5.0, 1.0, 0.9, 0.35) == (0.9, 0.35)
    ensures DominantSplit(1.0, 5.0, 0.9, 0.35) == (0.35, 0.9)
  {
  }
}
