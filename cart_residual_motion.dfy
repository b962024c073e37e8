/**
  CartResidualMotion: while the handle is grabbed the controllers' velocities
  are cached; on the frame the grab ends, the cart gets a forward impulse
  from the mean hand speed and a turning impulse from the hands' tangential
  speeds around the cart's centre, and a low-drag inertia window opens whose
  length and drag follow the release speed. When the window has run out
  the normal drag is put back.
*/
module ResidualMotion {
  import opened Unity
  import opened Wrappers

  datatype Config = Config(
    residualBoost: real, releaseSpeedGain: real, maxLinearSpeed: real,
    angularGain: real, angularResidualBoost: real, maxAngularImpulse: real,
    minInertiaTime: real, maxInertiaTime: real, minInertiaDrag: real, maxInertiaDrag: real,
    normalDrag: real, normalAngularDrag: real)

  /** The speed cap divides `speed01`, so it must be positive. */
  predicate ValidConfig(c: Config) {
    c.maxLinearSpeed > 0.0
  }

  /** The caps are not negative and each window bound is below its partner
      (true of the defaults, not enforced by the script). */
  predicate OrderedTuning(c: Config) {
    && c.maxAngularImpulse >= 0.0 && c.angularGain >= 0.0 && c.angularResidualBoost >= 0.0
    && c.minInertiaTime <= c.maxInertiaTime && c.minInertiaDrag <= c.maxInertiaDrag
  }

  function Defaults(): (c: Config)
    ensures ValidConfig(c) && OrderedTuning(c)
    ensures c.minInertiaTime > 0.0
  {
    Config(5.0, 1.2, 7.5, 2.5, 0.8, 2.5, 1.8, 3.5, 0.008, 0.025, 0.3, 1.2)
  }

  /** `wasGrabbing`, `inertiaTimer`, `cachedVL`, `cachedVR`, and the cart
      rigidbody's `drag` and `angularDrag`. */
  datatype State = State(wasGrabbing: bool, inertiaTimer: real, cachedVL: Vec3, cachedVR: Vec3,
                         drag: real, angularDrag: real)

  /** What one Update reads: whether any point selects the grabbable,
      Time.deltaTime, the two controller velocities in world space, the
      cart's position and the two hand anchors' positions. */
  datatype Frame = Frame(isGrabbing: bool, deltaTime: real, leftVelocity: Vec3, rightVelocity: Vec3,
                         center: Vec3, leftHand: Vec3, rightHand: Vec3)

  /** The values ApplyResidualMotion computes. */
  datatype Release = Release(linearSpeed: real, speed01: real, tangentialL: real, tangentialR: real,
                             angularImpulse: real)

  // ---------------------------------------------------------------------------
  // ComputeTangentialSpeed
  // ---------------------------------------------------------------------------

  /** The horizontal offset of a hand from the cart's centre. */
  function Offset(handPos: Vec3, center: Vec3): (r: Vec3)
    ensures r.y == 0.0
  {
    Horizontal(Sub(handPos, center))
  }

  /** The horizontal direction at right angles to the offset: up x offset, normalised. */
  function Tangent(r: Vec3, mag: Vec3 -> real): Vec3 {
    Normalize(Cross(Up, r), mag)
  }

  /** The hand velocity's component along the tangent; zero for a hand
      within 1 cm of the centre. */
  function TangentialSpeed(handPos: Vec3, handVel: Vec3, center: Vec3, mag: Vec3 -> real): (t: real)
    ensures SqrMagnitude(Offset(handPos, center)) < 0.0001 ==> t == 0.0
  {
    var r := Offset(handPos, center);
    if SqrMagnitude(r) < 0.0001 then 0.0 else Dot(handVel, Tangent(r, mag))
  }

  /** Away from the centre the tangent is a horizontal unit vector at right
      angles to the offset: pulling straight along the offset gives no
      tangential speed, and moving along the tangent at speed k gives k. */
  lemma TangentIsPerpendicularUnit(handPos: Vec3, center: Vec3, mag: Vec3 -> real, k: real)
    requires var r := Offset(handPos, center);
      SqrMagnitude(r) >= 0.0001 && IsMagnitudeOf(mag(Cross(Up, r)), Cross(Up, r))
    ensures var r := Offset(handPos, center);
      var u := Tangent(r, mag);
      && u.y == 0.0 && SqrMagnitude(u) == 1.0 && Dot(u, r) == 0.0
      && TangentialSpeed(handPos, Scale(r, k), center, mag) == 0.0
      && TangentialSpeed(handPos, Scale(u, k), center, mag) == k
  {
    var r := Offset(handPos, center);
    var n := Cross(Up, r);
    assert n == Vec3(r.z, 0.0, -r.x);
    assert SqrMagnitude(n) == SqrMagnitude(r);
    var m := mag(n);
    LengthAboveEpsilon(m);
    NormalizeIsUnitOrZero(n, mag);
    var u := Tangent(r, mag);
    var inv := 1.0 / m;
    assert u == Vec3(r.z * inv, 0.0, -r.x * inv);
    assert Dot(u, r) == r.z * inv * r.x - r.x * inv * r.z;
    assert Dot(Scale(r, k), u) == k * Dot(r, u);
    assert Dot(Scale(u, k), u) == k * SqrMagnitude(u);
  }

  /** A length whose square is at least 1e-4 is above Vector3.kEpsilon. */
  lemma LengthAboveEpsilon(m: real)
    requires m >= 0.0 && m * m >= 0.0001
    ensures m > NormalizeEpsilon
  {
    if m <= NormalizeEpsilon {
      ProductBound(m, NormalizeEpsilon, m, NormalizeEpsilon);
    }
  }

  // ---------------------------------------------------------------------------
  // ApplyResidualMotion
  // ---------------------------------------------------------------------------

  /** Step 1: the mean of the two cached hand speeds, clamped to [0, maxLinearSpeed]. */
  function LinearSpeed(c: Config, mL: real, mR: real): (v: real)
    requires ValidConfig(c)
    ensures 0.0 <= v <= c.maxLinearSpeed
    ensures 0.0 <= (mL + mR) * 0.5 <= c.maxLinearSpeed ==> v == (mL + mR) * 0.5
  {
    Clamp((mL + mR) * 0.5, 0.0, c.maxLinearSpeed)
  }

  /** The release speed as a fraction of the cap. */
  function Speed01(c: Config, linearSpeed: real): (s: real)
    requires ValidConfig(c)
    ensures InUnit(s)
    ensures 0.0 <= linearSpeed <= c.maxLinearSpeed ==> s * c.maxLinearSpeed == linearSpeed
  {
    var q := linearSpeed / c.maxLinearSpeed;
    assert q * c.maxLinearSpeed == linearSpeed;
    if 0.0 <= linearSpeed <= c.maxLinearSpeed then
      QuotientBetween(linearSpeed, c.maxLinearSpeed);
      Clamp01(q)
    else Clamp01(q)
  }

  /** `Mathf.Sign(x) * root * angularGain * angularResidualBoost`, before the clamp. */
  function RawImpulse(c: Config, x: real, root: real): real {
    Sign(x) * root * c.angularGain * c.angularResidualBoost
  }

  /** Step 2: the signed, square-root compressed turning impulse, clamped to
      [-maxAngularImpulse, maxAngularImpulse]. */
  function AngularImpulse(c: Config, angularInput: real, sqrt: real -> real): (a: real)
    ensures c.maxAngularImpulse >= 0.0 ==> -c.maxAngularImpulse <= a <= c.maxAngularImpulse
  {
    Clamp(RawImpulse(c, angularInput, sqrt(Abs(angularInput))), -c.maxAngularImpulse, c.maxAngularImpulse)
  }

  /** The impulse turns the way the hands do: with non-negative gains it is
      not negative for a non-negative input and not positive otherwise, and
      with positive gains and cap a negative input gives a negative impulse. */
  lemma ImpulseSign(c: Config, angularInput: real, sqrt: real -> real)
    requires IsSqrtOf(sqrt(Abs(angularInput)), Abs(angularInput))
    requires OrderedTuning(c)
    ensures angularInput >= 0.0 ==> AngularImpulse(c, angularInput, sqrt) >= 0.0
    ensures angularInput < 0.0 ==> AngularImpulse(c, angularInput, sqrt) <= 0.0
    ensures c.angularGain > 0.0 && c.angularResidualBoost > 0.0 && c.maxAngularImpulse > 0.0 ==>
      (AngularImpulse(c, angularInput, sqrt) >= 0.0 <==> angularInput >= 0.0)
  {
    var root := sqrt(Abs(angularInput));
    var g := root * c.angularGain;
    NonNegativeProduct(root, c.angularGain);
    NonNegativeProduct(g, c.angularResidualBoost);
    var mag := g * c.angularResidualBoost;
    if angularInput >= 0.0 {
      assert RawImpulse(c, angularInput, root) == mag;
    } else {
      assert RawImpulse(c, angularInput, root) == -mag;
      if c.angularGain > 0.0 && c.angularResidualBoost > 0.0 {
        assert root > 0.0;
        SignOfProduct(root, c.angularGain);
        SignOfProduct(g, c.angularResidualBoost);
      }
    }
  }

  /** Step 3: the inertia window's length, from the shortest at rest to the
      longest at the speed cap. */
  function InertiaTime(c: Config, speed01: real): (t: real)
    ensures Between(t, c.minInertiaTime, c.maxInertiaTime)
  {
    Lerp(c.minInertiaTime, c.maxInertiaTime, speed01)
  }

  /** The drag inside the window: the highest at rest, the lowest at the cap. */
  function InertiaDrag(c: Config, speed01: real): (d: real)
    ensures Between(d, c.minInertiaDrag, c.maxInertiaDrag)
  {
    Lerp(c.maxInertiaDrag, c.minInertiaDrag, speed01)
  }

  /** The angular drag inside the window, between 3 and 6. */
  function InertiaAngularDrag(speed01: real): (d: real)
    ensures 3.0 <= d <= 6.0
  {
    Lerp(3.0, 6.0, speed01)
  }

  /** A faster release never gets more drag. */
  lemma DragDoesNotIncrease(c: Config, s1: real, s2: real)
    requires c.minInertiaDrag <= c.maxInertiaDrag && s1 <= s2
    ensures InertiaDrag(c, s2) <= InertiaDrag(c, s1)
  {
    var d := c.minInertiaDrag - c.maxInertiaDrag;
    var u1 := Clamp01(s1);
    var u2 := Clamp01(s2);
    Clamp01Monotone(s2, s1);
    NonNegativeProduct(-d, u2 - u1);
    assert d * u2 - d * u1 == d * (u2 - u1);
  }

  /** Steps 1 and 2 from the cached velocities. */
  function ReleaseOf(c: Config, vL: Vec3, vR: Vec3, f: Frame, mag: Vec3 -> real, sqrt: real -> real): (rel: Release)
    requires ValidConfig(c)
    ensures 0.0 <= rel.linearSpeed <= c.maxLinearSpeed && InUnit(rel.speed01)
    ensures rel.tangentialL == TangentialSpeed(f.leftHand, vL, f.center, mag)
    ensures rel.tangentialR == TangentialSpeed(f.rightHand, vR, f.center, mag)
    ensures c.maxAngularImpulse >= 0.0 ==> -c.maxAngularImpulse <= rel.angularImpulse <= c.maxAngularImpulse
  {
    var linearSpeed := LinearSpeed(c, mag(vL), mag(vR));
    var tL := TangentialSpeed(f.leftHand, vL, f.center, mag);
    var tR := TangentialSpeed(f.rightHand, vR, f.center, mag);
    Release(linearSpeed, Speed01(c, linearSpeed), tL, tR, AngularImpulse(c, tL + tR, sqrt))
  }

  /** ApplyResidualMotion: the window's length and the two drags are set from the release speed. */
  function Apply(c: Config, s: State, f: Frame, mag: Vec3 -> real, sqrt: real -> real): (r: (State, Release))
    requires ValidConfig(c)
    ensures r.1 == ReleaseOf(c, s.cachedVL, s.cachedVR, f, mag, sqrt)
    ensures r.0 == s.(inertiaTimer := InertiaTime(c, r.1.speed01), drag := InertiaDrag(c, r.1.speed01),
                      angularDrag := InertiaAngularDrag(r.1.speed01))
  {
    var rel := ReleaseOf(c, s.cachedVL, s.cachedVR, f, mag, sqrt);
    (s.(inertiaTimer := InertiaTime(c, rel.speed01), drag := InertiaDrag(c, rel.speed01),
        angularDrag := InertiaAngularDrag(rel.speed01)), rel)
  }

  /** The end of Update: a running window counts down by deltaTime, an
      expired one puts the normal drags back. */
  function Recover(c: Config, s: State, deltaTime: real): (r: State)
    ensures s.inertiaTimer > 0.0 ==> r == s.(inertiaTimer := s.inertiaTimer - deltaTime)
    ensures s.inertiaTimer <= 0.0 ==> r == s.(drag := c.normalDrag, angularDrag := c.normalAngularDrag)
  {
    if s.inertiaTimer > 0.0 then s.(inertiaTimer := s.inertiaTimer - deltaTime)
    else s.(drag := c.normalDrag, angularDrag := c.normalAngularDrag)
  }

  /** The velocities are cached while grabbing. */
  function Cache(s: State, f: Frame): (r: State)
    ensures f.isGrabbing ==> r.cachedVL == f.leftVelocity && r.cachedVR == f.rightVelocity
    ensures !f.isGrabbing ==> r == s
    ensures r.wasGrabbing == s.wasGrabbing && r.inertiaTimer == s.inertiaTimer
    ensures r.drag == s.drag && r.angularDrag == s.angularDrag
  {
    if f.isGrabbing then s.(cachedVL := f.leftVelocity, cachedVR := f.rightVelocity) else s
  }

  /** The state after the grab edge, before the recovery at the end of Update. */
  function Released(c: Config, s: State, f: Frame, mag: Vec3 -> real, sqrt: real -> real): (r: (State, Option<Release>))
    requires ValidConfig(c)
  {
    var s1 := Cache(s, f);
    if s.wasGrabbing && !f.isGrabbing then
      var a := Apply(c, s1, f, mag, sqrt);
      (a.0.(wasGrabbing := false), Some(a.1))
    else (s1.(wasGrabbing := f.isGrabbing), None)
  }

  /** One Update: new state and the release values when the grab ended. */
  function Step(c: Config, s: State, f: Frame, mag: Vec3 -> real, sqrt: real -> real): (r: (State, Option<Release>))
    requires ValidConfig(c)
    // The residual motion is applied exactly on the frame the grab ends ...
    ensures r.1.Some? <==> s.wasGrabbing && !f.isGrabbing
    ensures r.0.wasGrabbing == f.isGrabbing
    // ... from the velocities cached on the last grabbed frame.
    ensures r.1.Some? ==> r.1.value == ReleaseOf(c, s.cachedVL, s.cachedVR, f, mag, sqrt)
    ensures f.isGrabbing ==> r.0.cachedVL == f.leftVelocity && r.0.cachedVR == f.rightVelocity
    ensures !f.isGrabbing ==> r.0.cachedVL == s.cachedVL && r.0.cachedVR == s.cachedVR
    // Without a release, a window in progress counts down and an expired one restores the drags.
    ensures r.1.None? && s.inertiaTimer > 0.0 ==>
      r.0.inertiaTimer == s.inertiaTimer - f.deltaTime && r.0.drag == s.drag && r.0.angularDrag == s.angularDrag
    ensures r.1.None? && s.inertiaTimer <= 0.0 ==>
      r.0.inertiaTimer == s.inertiaTimer && r.0.drag == c.normalDrag && r.0.angularDrag == c.normalAngularDrag
  {
    var p := Released(c, s, f, mag, sqrt);
    (Recover(c, p.0, f.deltaTime), p.1)
  }

  /** On a release, the window is set afresh from the release speed (what
      was left of an earlier window does not matter) and counts down from
      this frame on; the drags are the window's unless it is empty. */
  lemma ReleaseOpensWindow(c: Config, s: State, f: Frame, mag: Vec3 -> real, sqrt: real -> real, leftover: real)
    requires ValidConfig(c) && s.wasGrabbing && !f.isGrabbing
    ensures var r := Step(c, s, f, mag, sqrt);
      var rel := ReleaseOf(c, s.cachedVL, s.cachedVR, f, mag, sqrt);
      var t := InertiaTime(c, rel.speed01);
      && r.0 == Step(c, s.(inertiaTimer := leftover), f, mag, sqrt).0
      && (t > 0.0 ==> r.0.inertiaTimer == t - f.deltaTime && r.0.drag == InertiaDrag(c, rel.speed01)
                      && r.0.angularDrag == InertiaAngularDrag(rel.speed01))
      && (t <= 0.0 ==> r.0.drag == c.normalDrag && r.0.angularDrag == c.normalAngularDrag)
  {
  }

  /** With ordered tuning a release keeps the window within its bounds:
      its length in [minInertiaTime, maxInertiaTime], the drag in
      [minInertiaDrag, maxInertiaDrag], the angular drag in [3, 6] and the
      impulse within its cap. */
  lemma ReleaseBounds(c: Config, s: State, f: Frame, mag: Vec3 -> real, sqrt: real -> real)
    requires ValidConfig(c) && OrderedTuning(c) && s.wasGrabbing && !f.isGrabbing
    ensures var rel := Step(c, s, f, mag, sqrt).1.value;
      var a := Apply(c, Cache(s, f), f, mag, sqrt).0;
      && 0.0 <= rel.linearSpeed <= c.maxLinearSpeed && InUnit(rel.speed01)
      && -c.maxAngularImpulse <= rel.angularImpulse <= c.maxAngularImpulse
      && c.minInertiaTime <= a.inertiaTimer <= c.maxInertiaTime
      && c.minInertiaDrag <= a.drag <= c.maxInertiaDrag
      && 3.0 <= a.angularDrag <= 6.0
  {
  }

  /** A release happens once per grab: the frame after a release releases nothing. */
  lemma OneReleasePerGrab(c: Config, s: State, f1: Frame, f2: Frame, mag: Vec3 -> real, sqrt: real -> real)
    requires ValidConfig(c) && !f1.isGrabbing
    ensures Step(c, Step(c, s, f1, mag, sqrt).0, f2, mag, sqrt).1.None?
  {
  }

  class CartResidualMotion {
    const config: Config
    var wasGrabbing: bool
    var inertiaTimer: real
    var cachedVL: Vec3
    var cachedVR: Vec3
    var drag: real
    var angularDrag: real

    ghost function Snapshot(): State
      reads this
    {
      State(wasGrabbing, inertiaTimer, cachedVL, cachedVR, drag, angularDrag)
    }

    /** The field initialisers; the rigidbody's drags are whatever the scene set. */
    constructor (config: Config, drag: real, angularDrag: real)
      requires ValidConfig(config)
      ensures this.config == config && Snapshot() == State(false, 0.0, Zero, Zero, drag, angularDrag)
    {
      this.config := config;
      wasGrabbing := false;
      inertiaTimer := 0.0;
      cachedVL := Zero;
      cachedVR := Zero;
      this.drag := drag;
      this.angularDrag := angularDrag;
    }

    method Update(f: Frame, mag: Vec3 -> real, sqrt: real -> real) returns (release: Option<Release>)
      requires ValidConfig(config)
      modifies this
      ensures (Snapshot(), release) == Step(config, old(Snapshot()), f, mag, sqrt)
    {
      ghost var s0 := Snapshot();
      if f.isGrabbing {
        CacheControllerVelocity(f.leftVelocity, f.rightVelocity);
      }
      release := None;
      if wasGrabbing && !f.isGrabbing {
        var rel := ApplyResidualMotion(f, mag, sqrt);
        release := Some(rel);
      }
      wasGrabbing := f.isGrabbing;
      assert (Snapshot(), release) == Released(config, s0, f, mag, sqrt);
      if inertiaTimer > 0.0 {
        inertiaTimer := inertiaTimer - f.deltaTime;
      } else {
        drag := config.normalDrag;
        angularDrag := config.normalAngularDrag;
      }
    }

    method CacheControllerVelocity(vL: Vec3, vR: Vec3)
      modifies this`cachedVL, this`cachedVR
      ensures cachedVL == vL && cachedVR == vR
    {
      cachedVL := vL;
      cachedVR := vR;
    }

    method ApplyResidualMotion(f: Frame, mag: Vec3 -> real, sqrt: real -> real) returns (rel: Release)
      requires ValidConfig(config)
      modifies this`inertiaTimer, this`drag, this`angularDrag
      ensures (Snapshot(), rel) == Apply(config, old(Snapshot()), f, mag, sqrt)
    {
      var linearSpeed := LinearSpeed(config, mag(cachedVL), mag(cachedVR));
      var speed01 := Speed01(config, linearSpeed);
      var tSpeedL := TangentialSpeed(f.leftHand, cachedVL, f.center, mag);
      var tSpeedR := TangentialSpeed(f.rightHand, cachedVR, f.center, mag);
      var angularImpulse := AngularImpulse(config, tSpeedL + tSpeedR, sqrt);
      inertiaTimer := InertiaTime(config, speed01);
      drag := InertiaDrag(config, speed01);
      angularDrag := InertiaAngularDrag(speed01);
      rel := Release(linearSpeed, speed01, tSpeedL, tSpeedR, angularImpulse);
    }
  }
}
