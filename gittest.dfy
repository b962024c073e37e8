/**
  HeavyCartController (gittest): a non-linear control/display gain makes a
  virtual cart handle lag the controller's roll rate, more so the faster it
  turns; the right hand leads with a buzz scaled by the real rate and the
  left hand anchors with one scaled by how far the virtual handle falls
  behind.

  Mathf.Exp is not computable here: it is the function `exp`, of which only
  `0 < exp(x) <= 1` for `x <= 0` is assumed where it is needed.
*/
module HeavyCart {
  import opened Unity
  import opened Haptics

  datatype Config = Config(minGain: real, sensitivity: real)

  /** A gain floor of at most one and a non-negative sensitivity (true of the defaults). */
  predicate ValidConfig(c: Config) {
    c.minGain <= 1.0 && c.sensitivity >= 0.0
  }

  function Defaults(): (c: Config)
    ensures ValidConfig(c) && c.minGain >= 0.0
  {
    Config(0.3, 0.5)
  }

  /** Mathf.Rad2Deg as a float. */
  const Rad2Deg: real := 57.29578

  /** `exp` behaves like the exponential at `x`, a non-positive argument. */
  predicate ExpAt(exp: real -> real, x: real) {
    x <= 0.0 ==> 0.0 < exp(x) <= 1.0
  }

  /** The exponent of the gain. */
  function Exponent(c: Config, omega: real): real {
    -c.sensitivity * Abs(omega)
  }

  /** The control/display gain `minGain + (1 - minGain) * exp(-sensitivity * |omega|)`:
      one at rest, and within [minGain, 1] whenever exp maps a non-positive
      exponent into (0, 1]. */
  function CdGain(c: Config, omega: real, exp: real -> real): (g: real)
    ensures g == c.minGain + (1.0 - c.minGain) * exp(Exponent(c, omega))
    ensures ValidConfig(c) && ExpAt(exp, Exponent(c, omega)) ==> c.minGain <= g <= 1.0
  {
    var e := exp(Exponent(c, omega));
    if ValidConfig(c) && ExpAt(exp, Exponent(c, omega)) then
      NonNegativeProduct(c.sensitivity, Abs(omega));
      ProductBound(1.0 - c.minGain, 1.0 - c.minGain, e, 1.0);
      c.minGain + (1.0 - c.minGain) * e
    else c.minGain + (1.0 - c.minGain) * e
  }

  /** The virtual handle's rotation this frame, in degrees. */
  function DeltaRotation(c: Config, omega: real, deltaTime: real, exp: real -> real): real {
    omega * CdGain(c, omega, exp) * deltaTime * Rad2Deg
  }

  /** How far the virtual handle's rate falls behind the real one. */
  function Discrepancy(c: Config, omega: real, exp: real -> real): (d: real)
    ensures d >= 0.0
    ensures ValidConfig(c) && ExpAt(exp, Exponent(c, omega)) ==> d <= Abs(omega) * (1.0 - c.minGain)
  {
    var g := CdGain(c, omega, exp);
    if ValidConfig(c) && ExpAt(exp, Exponent(c, omega)) then
      assert Abs(omega * (1.0 - g)) == Abs(omega) * (1.0 - g) by {
        if omega < 0.0 { assert omega * (1.0 - g) == -(Abs(omega) * (1.0 - g)); }
      }
      ScaleMonotone(1.0 - c.minGain, 1.0 - g, Abs(omega));
      assert (1.0 - c.minGain) * Abs(omega) == Abs(omega) * (1.0 - c.minGain);
      Abs(omega * (1.0 - g))
    else Abs(omega * (1.0 - g))
  }

  /** The leader's amplitude: a fifth of the rate, at most 0.4. */
  function LeadingAmp(omega: real): (a: real)
    ensures 0.0 <= a <= 0.4
    ensures Abs(omega) <= 2.0 ==> a == Abs(omega) * 0.2
  {
    Clamp(Abs(omega) * 0.2, 0.0, 0.4)
  }

  /** The anchor's amplitude: half the discrepancy, within [0.1, 0.8]. */
  function AnchorAmp(discrepancy: real): (a: real)
    ensures 0.1 <= a <= 0.8
    ensures 0.2 <= discrepancy <= 1.6 ==> a == discrepancy * 0.5
  {
    Clamp(discrepancy * 0.5, 0.1, 0.8)
  }

  /** ApplyAsymmetricHaptics: the right hand leads at 0.8, the left anchors at 0.2. */
  function Commands(omega: real, discrepancy: real): (out: seq<Vibration>)
    ensures |out| == 2 && AllInUnit(out)
    ensures out[0] == Vibration(0.8, LeadingAmp(omega), Right)
    ensures out[1] == Vibration(0.2, AnchorAmp(discrepancy), Left)
  {
    [Vibration(0.8, LeadingAmp(omega), Right), Vibration(0.2, AnchorAmp(discrepancy), Left)]
  }

  /** At rest the gain is one: the handle follows exactly, the leader is
      silent and the anchor sits at its floor. */
  lemma AtRest(c: Config, exp: real -> real)
    requires exp(0.0) == 1.0
    ensures CdGain(c, 0.0, exp) == 1.0 && Discrepancy(c, 0.0, exp) == 0.0
    ensures Commands(0.0, Discrepancy(c, 0.0, exp)) == [Vibration(0.8, 0.0, Right), Vibration(0.2, 0.1, Left)]
  {
    assert Exponent(c, 0.0) == 0.0;
  }

  class HeavyCartController {
    const config: Config
    var virtualRotationZ: real

    constructor (config: Config)
      ensures this.config == config && virtualRotationZ == 0.0
    {
      this.config := config;
      virtualRotationZ := 0.0;
    }

    /** Update from the right controller's roll rate `realOmega`. */
    method Update(realOmega: real, deltaTime: real, exp: real -> real) returns (out: seq<Vibration>)
      modifies this
      ensures virtualRotationZ == old(virtualRotationZ) + DeltaRotation(config, realOmega, deltaTime, exp)
      ensures out == Commands(realOmega, Discrepancy(config, realOmega, exp))
    {
      var cdGain := ControlDisplayGain(realOmega, exp);
      var deltaRotation := realOmega * cdGain * deltaTime * Rad2Deg;
      virtualRotationZ := virtualRotationZ + deltaRotation;
      var visualDiscrepancy := Abs(realOmega * (1.0 - cdGain));
      assert visualDiscrepancy == Discrepancy(config, realOmega, exp);
      out := ApplyAsymmetricHaptics(realOmega, visualDiscrepancy);
    }

    /** The gain line of Update. */
    method ControlDisplayGain(omega: real, exp: real -> real) returns (g: real)
      ensures g == CdGain(config, omega, exp)
    {
      var x := -config.sensitivity * Abs(omega);
      assert x == Exponent(config, omega);
      g := config.minGain + (1.0 - config.minGain) * exp(x);
    }

    method ApplyAsymmetricHaptics(omega: real, discrepancy: real) returns (out: seq<Vibration>)
      ensures out == Commands(omega, discrepancy)
    {
      var leadingAmp := Clamp(Abs(omega) * 0.2, 0.0, 0.4);
      var anchorAmp := Clamp(discrepancy * 0.5, 0.1, 0.8);
      out := [Vibration(0.8, leadingAmp, Right), Vibration(0.2, anchorAmp, Left)];
    }
  }
}
