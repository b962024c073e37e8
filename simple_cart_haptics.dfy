/**
  CartHapticController (SimpleCartHaptics): the hand on the side of the turn
  leads with a light high-frequency buzz scaled by the angular velocity, and
  the other hand anchors with a low-frequency one scaled by the steering
  angle. Nothing is stored between frames.
*/
module SimpleCartHaptics {
  import opened Unity
  import opened Haptics

  datatype Config = Config(maxVelocity: real, maxAngle: real)

  /** Both scales are positive (the script divides by them). */
  predicate ValidConfig(c: Config) {
    c.maxVelocity > 0.0 && c.maxAngle > 0.0
  }

  function Defaults(): (c: Config)
    ensures ValidConfig(c)
  {
    Config(5.0, 45.0)
  }

  /** The leading hand: the right one exactly when the cart turns with a
      positive angular velocity. */
  function LeadingHand(angularVelocity: real): (h: Hand)
    ensures h == Right <==> angularVelocity > 0.0
  {
    if angularVelocity > 0.0 then Right else Left
  }

  /** The leader's amplitude: the angular velocity's share of the maximum,
      kept within [0.05, 0.4]. */
  function LeadingAmp(c: Config, angularVelocity: real): (a: real)
    requires ValidConfig(c)
    ensures 0.05 <= a <= 0.4
    ensures 0.05 * c.maxVelocity <= Abs(angularVelocity) <= 0.4 * c.maxVelocity ==> a * c.maxVelocity == Abs(angularVelocity)
  {
    var q := Abs(angularVelocity) / c.maxVelocity;
    assert q * c.maxVelocity == Abs(angularVelocity);
    if 0.05 * c.maxVelocity <= Abs(angularVelocity) <= 0.4 * c.maxVelocity then
      InRangeQuotient(Abs(angularVelocity), c.maxVelocity, 0.05, 0.4);
      Clamp(q, 0.05, 0.4)
    else Clamp(q, 0.05, 0.4)
  }

  /** The anchor's amplitude: the steering angle's share of the maximum,
      kept within [0.1, 0.6]. */
  function AnchorAmp(c: Config, steeringAngle: real): (a: real)
    requires ValidConfig(c)
    ensures 0.1 <= a <= 0.6
    ensures 0.1 * c.maxAngle <= Abs(steeringAngle) <= 0.6 * c.maxAngle ==> a * c.maxAngle == Abs(steeringAngle)
  {
    var q := Abs(steeringAngle) / c.maxAngle;
    assert q * c.maxAngle == Abs(steeringAngle);
    if 0.1 * c.maxAngle <= Abs(steeringAngle) <= 0.6 * c.maxAngle then
      InRangeQuotient(Abs(steeringAngle), c.maxAngle, 0.1, 0.6);
      Clamp(q, 0.1, 0.6)
    else Clamp(q, 0.1, 0.6)
  }

  /** A quotient of a value between `lo * y` and `hi * y` lies between lo and hi. */
  lemma InRangeQuotient(x: real, y: real, lo: real, hi: real)
    requires y > 0.0 && lo * y <= x <= hi * y
    ensures lo <= x / y <= hi
  {
    var q := x / y;
    assert q * y == x;
    assert (q - lo) * y == x - lo * y;
    assert (hi - q) * y == hi * y - x;
    SignOfProduct(q - lo, y);
    SignOfProduct(hi - q, y);
  }

  /** Update: the leader at 0.8, then the other hand at 0.25. */
  function Commands(c: Config, angularVelocity: real, steeringAngle: real): (out: seq<Vibration>)
    requires ValidConfig(c)
    ensures |out| == 2 && AllInUnit(out)
    ensures out[0] == Vibration(0.8, LeadingAmp(c, angularVelocity), LeadingHand(angularVelocity))
    ensures out[1] == Vibration(0.25, AnchorAmp(c, steeringAngle), Other(LeadingHand(angularVelocity)))
    // The two commands go to different hands; a non-positive angular velocity leads with the left.
    ensures out[0].hand != out[1].hand
    ensures angularVelocity <= 0.0 ==> out[0].hand == Left && out[1].hand == Right
  {
    var leading := LeadingHand(angularVelocity);
    var opposing := if angularVelocity > 0.0 then Left else Right;
    [Vibration(0.8, LeadingAmp(c, angularVelocity), leading), Vibration(0.25, AnchorAmp(c, steeringAngle), opposing)]
  }
}
