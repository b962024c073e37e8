/**
  The part of Unity's engine arithmetic that the cart and haptic scripts use:
  Vector3, Mathf.Clamp / Clamp01 / Lerp / Sign / Repeat / DeltaAngle, and the
  hand-written yaw fold the older scripts use instead of DeltaAngle.

  Floats are modelled as exact reals. Square roots (Vector3.magnitude and the
  normalisation built on it) are not computable here, so they are passed in as
  a function `mag` together with the property that it is the Euclidean length.
*/
module Unity {

  // ---------------------------------------------------------------------------
  // Vector3
  // ---------------------------------------------------------------------------

  datatype Vec3 = Vec3(x: real, y: real, z: real)

  const Zero: Vec3 := Vec3(0.0, 0.0, 0.0)
  const Up: Vec3 := Vec3(0.0, 1.0, 0.0)

  function Add(a: Vec3, b: Vec3): Vec3 { Vec3(a.x + b.x, a.y + b.y, a.z + b.z) }

  function Sub(a: Vec3, b: Vec3): Vec3 { Vec3(a.x - b.x, a.y - b.y, a.z - b.z) }

  function Scale(v: Vec3, k: real): Vec3 { Vec3(v.x * k, v.y * k, v.z * k) }

  function Dot(a: Vec3, b: Vec3): real { a.x * b.x + a.y * b.y + a.z * b.z }

  function Cross(a: Vec3, b: Vec3): Vec3 {
    Vec3(a.y * b.z - a.z * b.y, a.z * b.x - a.x * b.z, a.x * b.y - a.y * b.x)
  }

  function SqrMagnitude(v: Vec3): (r: real)
    ensures r >= 0.0
  {
    v.x * v.x + v.y * v.y + v.z * v.z
  }

  /** `v.y = 0f`, which is also Vector3.ProjectOnPlane(v, Vector3.up). */
  function Horizontal(v: Vec3): (r: Vec3)
    ensures r.y == 0.0 && r.x == v.x && r.z == v.z
  {
    Vec3(v.x, 0.0, v.z)
  }

  /** `m` is the Euclidean length of `v` (what Vector3.magnitude returns):
      the non-negative square root of the squared length, zero for the zero
      vector. */
  predicate IsMagnitudeOf(m: real, v: Vec3) {
    m >= 0.0 && m * m == SqrMagnitude(v) && (v == Zero ==> m == 0.0)
  }

  /** `r` is Mathf.Sqrt(x) for a non-negative `x`. */
  predicate IsSqrtOf(r: real, x: real) {
    r >= 0.0 && r * r == x
  }

  /** A function that returns Vector3.magnitude for every vector. */
  ghost predicate MagnitudeOracle(mag: Vec3 -> real) {
    forall v :: IsMagnitudeOf(mag(v), v)
  }

  /** Vector3.kEpsilon, the cut-off below which normalisation yields zero. */
  const NormalizeEpsilon: real := 0.00001

  /** Vector3.normalized and Vector3.Normalize(): divide by the length, or
      return the zero vector when the length is at most kEpsilon. */
  function Normalize(v: Vec3, mag: Vec3 -> real): Vec3 {
    if mag(v) > NormalizeEpsilon then Scale(v, 1.0 / mag(v)) else Zero
  }

  lemma NormalizeIsUnitOrZero(v: Vec3, mag: Vec3 -> real)
    requires IsMagnitudeOf(mag(v), v)
    ensures Normalize(v, mag) == Zero || SqrMagnitude(Normalize(v, mag)) == 1.0
    ensures Normalize(v, mag) == Zero <==> mag(v) <= NormalizeEpsilon
  {
    var m := mag(v);
    if m > NormalizeEpsilon {
      var k := 1.0 / m;
      assert k * m == 1.0;
      var n := Scale(v, k);
      calc {
        SqrMagnitude(n);
        == (v.x * k) * (v.x * k) + (v.y * k) * (v.y * k) + (v.z * k) * (v.z * k);
        == (v.x * v.x + v.y * v.y + v.z * v.z) * (k * k);
        == (m * m) * (k * k);
        == (m * k) * (m * k);
        == 1.0;
      }
    }
  }

  /** Normalising a vector that already has length one changes nothing. */
  lemma NormalizeUnit(v: Vec3, mag: Vec3 -> real)
    requires IsMagnitudeOf(mag(v), v) && SqrMagnitude(v) == 1.0
    ensures Normalize(v, mag) == v
  {
    UnitRoot(mag(v));
  }

  /** Normalising twice is normalising once. */
  lemma NormalizeIdempotent(v: Vec3, mag: Vec3 -> real)
    requires IsMagnitudeOf(mag(v), v)
    requires IsMagnitudeOf(mag(Normalize(v, mag)), Normalize(v, mag))
    ensures Normalize(Normalize(v, mag), mag) == Normalize(v, mag)
  {
    NormalizeIsUnitOrZero(v, mag);
    if Normalize(v, mag) != Zero {
      NormalizeUnit(Normalize(v, mag), mag);
    }
  }

  // ---------------------------------------------------------------------------
  // Mathf
  // ---------------------------------------------------------------------------

  function Abs(x: real): (r: real)
    ensures r >= 0.0 && (r == x || r == -x)
  {
    if x < 0.0 then -x else x
  }

  function Max(a: real, b: real): (r: real)
    ensures r >= a && r >= b && (r == a || r == b)
  {
    if a >= b then a else b
  }

  function Min(a: real, b: real): (r: real)
    ensures r <= a && r <= b && (r == a || r == b)
  {
    if a <= b then a else b
  }

  predicate InUnit(x: real) { 0.0 <= x <= 1.0 }

  /** x lies between a and b, whichever way round they are. */
  predicate Between(x: real, a: real, b: real) { Min(a, b) <= x <= Max(a, b) }

  /** Mathf.Clamp: the lower bound is checked first. */
  function Clamp(v: real, lo: real, hi: real): (r: real)
    ensures lo <= hi ==> lo <= r <= hi
    ensures lo <= v <= hi ==> r == v
    ensures v < lo ==> r == lo
  {
    if v < lo then lo else if v > hi then hi else v
  }

  /** Mathf.Clamp01. */
  function Clamp01(v: real): (r: real)
    ensures InUnit(r)
    ensures InUnit(v) ==> r == v
    ensures v <= 0.0 ==> r == 0.0
    ensures v >= 1.0 ==> r == 1.0
  {
    if v < 0.0 then 0.0 else if v > 1.0 then 1.0 else v
  }

  lemma Clamp01Monotone(u: real, v: real)
    requires u >= v
    ensures Clamp01(u) >= Clamp01(v)
  {
  }

  /** Mathf.Lerp clamps its parameter to [0,1], so the result never leaves
      the segment between `a` and `b`. */
  function Lerp(a: real, b: real, t: real): (r: real)
    ensures Between(r, a, b)
    ensures t <= 0.0 ==> r == a
    ensures t >= 1.0 ==> r == b
    ensures a == b ==> r == a
  {
    var c := Clamp01(t);
    LerpBetween(a, b, c);
    a + (b - a) * c
  }

  lemma LerpBetween(a: real, b: real, c: real)
    requires InUnit(c)
    ensures Between(a + (b - a) * c, a, b)
  {
    var d := b - a;
    assert d - d * c == d * (1.0 - c);
    if d >= 0.0 {
      NonNegativeProduct(d, c);
      NonNegativeProduct(d, 1.0 - c);
    } else {
      NonNegativeProduct(-d, c);
      NonNegativeProduct(-d, 1.0 - c);
    }
  }

  /** The only non-negative square root of one is one. */
  lemma UnitRoot(m: real)
    requires m >= 0.0 && m * m == 1.0
    ensures m == 1.0
  {
    if m < 1.0 {
      NonNegativeProduct(m, 1.0 - m);
    } else if m > 1.0 {
      NonNegativeProduct(m, m - 1.0);
    }
  }

  lemma NonNegativeProduct(x: real, y: real)
    requires x >= 0.0 && y >= 0.0
    ensures x * y >= 0.0
  {
  }

  /** With a positive factor, the product has the sign of the other factor. */
  lemma SignOfProduct(x: real, d: real)
    requires d > 0.0
    ensures x > 0.0 <==> x * d > 0.0
  {
    if x > 0.0 {
      assert x * d > 0.0;
    } else {
      NonNegativeProduct(-x, d);
    }
  }

  /** A part over a larger positive whole is a fraction in [0, 1]. */
  lemma QuotientBetween(x: real, y: real)
    requires 0.0 <= x <= y && y > 0.0
    ensures InUnit(x / y)
  {
    var q := x / y;
    assert q * y == x;
    assert (q - 1.0) * y == x - y;
    SignOfProduct(q - 1.0, y);
    assert (-q) * y == -x;
    SignOfProduct(-q, y);
  }

  /** Scaling by a non-negative factor keeps the order. */
  lemma ScaleMonotone(a: real, b: real, g: real)
    requires a >= b && g >= 0.0
    ensures a * g >= b * g
  {
    NonNegativeProduct(a - b, g);
  }

  /** Products of non-negative quantities respect upper bounds. */
  lemma ProductBound(a: real, ceilA: real, b: real, ceilB: real)
    requires 0.0 <= a <= ceilA && 0.0 <= b <= ceilB
    ensures 0.0 <= a * b <= ceilA * ceilB
  {
    NonNegativeProduct(a, b);
    ScaleMonotone(ceilA, a, b);
    ScaleMonotone(ceilB, b, ceilA);
  }

  /** Mathf.Sign: zero counts as positive. */
  function Sign(x: real): (r: real)
    ensures r == 1.0 || r == -1.0
    ensures r == 1.0 <==> x >= 0.0
    ensures r * Abs(x) == x
  {
    if x >= 0.0 then 1.0 else -1.0
  }

  /** Mathf.Max(deltaTime, 1e-4f): the guard every rate computation divides by. */
  function GuardedDt(deltaTime: real): (dt: real)
    ensures dt >= 1e-4 && dt >= deltaTime
    ensures deltaTime >= 1e-4 ==> dt == deltaTime
  {
    Max(deltaTime, 1e-4)
  }

  // ---------------------------------------------------------------------------
  // Angles in degrees
  // ---------------------------------------------------------------------------

  /** x is a whole number of turns of 360 degrees. */
  predicate WholeTurns(x: real) { (x / 360.0).Floor as real == x / 360.0 }

  /** Mathf.Repeat(t, 360): t brought into [0, 360) by whole turns. */
  function Repeat360(t: real): (r: real)
    ensures 0.0 <= r < 360.0
    ensures WholeTurns(r - t)
  {
    var k := (t / 360.0).Floor;
    var r := t - k as real * 360.0;
    assert (r - t) / 360.0 == -(k as real);
    assert ((r - t) / 360.0).Floor == -k;
    Clamp(r, 0.0, 360.0)
  }

  /** Mathf.DeltaAngle(current, target): the shortest signed turn from
      `current` to `target`, in (-180, 180]. */
  function DeltaAngle(current: real, target: real): (r: real)
    ensures -180.0 < r <= 180.0
    ensures WholeTurns(r - (target - current))
  {
    var d := Repeat360(target - current);
    if d > 180.0 then
      var r := d - 360.0;
      WholeTurnsShift(d - (target - current), -1);
      assert r - (target - current) == d - (target - current) - 360.0;
      r
    else d
  }

  lemma WholeTurnsShift(x: real, k: int)
    requires WholeTurns(x)
    ensures WholeTurns(x + 360.0 * k as real)
  {
    var f := (x / 360.0).Floor;
    TurnsAdd(x, f, k);
    assert ((f + k) as real).Floor == f + k;
  }

  lemma TurnsAdd(x: real, f: int, k: int)
    requires x / 360.0 == f as real
    ensures (x + 360.0 * k as real) / 360.0 == (f + k) as real
  {
  }

  /** The fold the older scripts write by hand:
      `if (d > 180f) d -= 360f; if (d < -180f) d += 360f;` */
  function FoldDelta(d: real): (r: real)
    ensures -360.0 < d < 360.0 ==> -180.0 <= r <= 180.0
    ensures r == d || r == d - 360.0 || r == d + 360.0
    ensures WholeTurns(r - d)
  {
    var d1 := if d > 180.0 then d - 360.0 else d;
    var r := if d1 < -180.0 then d1 + 360.0 else d1;
    assert WholeTurns(0.0);
    WholeTurnsShift(0.0, -1);
    WholeTurnsShift(0.0, 1);
    r
  }

  /** Yaw change between two `eulerAngles.y` readings, folded by hand. */
  function YawDelta(previous: real, current: real): (r: real)
    ensures 0.0 <= previous < 360.0 && 0.0 <= current < 360.0 ==> -180.0 <= r <= 180.0
    ensures WholeTurns(r - (current - previous))
  {
    FoldDelta(current - previous)
  }

  /** For readings of `eulerAngles.y`, which lie in [0, 360), the hand fold
      and Mathf.DeltaAngle agree everywhere except on a half turn to the
      left, which the fold reports as -180 and DeltaAngle as +180. */
  lemma {:induction false} FoldAgreesWithDeltaAngle(previous: real, current: real)
    requires 0.0 <= previous < 360.0 && 0.0 <= current < 360.0
    ensures current - previous != -180.0 ==> YawDelta(previous, current) == DeltaAngle(previous, current)
    ensures current - previous == -180.0 ==>
      YawDelta(previous, current) == -180.0 && DeltaAngle(previous, current) == 180.0
  {
    var d := current - previous;
    if d >= 0.0 {
      assert (d / 360.0).Floor == 0;
      assert Repeat360(d) == d;
    } else {
      assert (d / 360.0).Floor == -1;
      assert Repeat360(d) == d + 360.0;
    }
  }

  lemma YawAcrossNorth()
    ensures YawDelta(359.0, 1.0) == 2.0
    ensures DeltaAngle(359.0, 1.0) == 2.0
  {
    FoldAgreesWithDeltaAngle(359.0, 1.0);
  }
}
