/**
  CartPhysics_Interaction: a cart pushed by the hands that grab it. Every
  physics step damps the cart's motion, refreshes the set of grabbing hands
  (no duplicates, the last-position table pruned to them, a new hand seeded
  with its current position), pushes the cart at each hand with the hand's
  horizontal velocity, adds the turn of the line between two hands to the
  yaw rate, and clamps the horizontal speed and the yaw rate.

  Hands are identified by a `HandId` (the Transform reference); their
  positions this step are the function `pos`.
*/
module CartPhysics {
  import opened Unity
  import opened Wrappers

  type HandId = nat

  datatype Config = Config(
    forceMultiplier: real, maxLinearSpeed: real, maxAngularSpeed: real,
    linearDamping: real, angularDamping: real, velocityDeadzone: real, twoHandYawGain: real)

  /** The damping rates and the caps are not negative (true of the defaults,
      not enforced by the script); only the bounds below need it. */
  predicate NonNegativeTuning(c: Config) {
    c.maxLinearSpeed >= 0.0 && c.maxAngularSpeed >= 0.0 && c.linearDamping >= 0.0 && c.angularDamping >= 0.0
  }

  /** Neither divisor of ApplyDamping is zero for this step time. */
  predicate DampDefined(c: Config, dt: real) {
    DampDivisor(c.linearDamping, dt) != 0.0 && DampDivisor(c.angularDamping, dt) != 0.0
  }

  function Defaults(): (c: Config)
    ensures NonNegativeTuning(c)
  {
    Config(50.0, 5.0, 3.0, 1.5, 4.0, 0.05, 1.2)
  }

  /** Mathf.Deg2Rad as a float. */
  const Deg2Rad: real := 0.0174532924

  /** One interactable of `handGrabInteractables`: null, or its selecting
      interactors, each a MonoBehaviour on some hand or not one. */
  type Interactable = Option<seq<Option<HandId>>>

  /** What one FixedUpdate reads: Time.fixedDeltaTime, the interactables and
      the hands' positions. */
  datatype Frame = Frame(fixedDeltaTime: real, interactables: seq<Interactable>, pos: HandId -> Vec3)

  /** One `AddForceAtPosition(force * dt, cur, ForceMode.VelocityChange)`. */
  datatype Push = Push(impulse: Vec3, at: Vec3)

  /** `activeHands`, `lastPos`, `lastTwoHandDir`, and the rigidbody's
      `velocity` and `angularVelocity`. */
  datatype State = State(activeHands: seq<HandId>, lastPos: map<HandId, Vec3>, lastTwoHandDir: Vec3,
                         velocity: Vec3, angularVelocity: Vec3)

  predicate NoDuplicates(xs: seq<HandId>) {
    forall i, j :: 0 <= i < j < |xs| ==> xs[i] != xs[j]
  }

  /** The hand list and the table agree: no hand twice, and a last position
      for exactly the listed hands. */
  predicate Bookkept(hands: seq<HandId>, lastPos: map<HandId, Vec3>) {
    NoDuplicates(hands) && lastPos.Keys == set t | t in hands
  }

  // ---------------------------------------------------------------------------
  // RefreshActiveHands
  // ---------------------------------------------------------------------------

  /** The hands behind one interactable's selecting interactors, in order. */
  function Present(xs: seq<Option<HandId>>): (p: seq<HandId>)
    ensures forall t :: t in p <==> Some(t) in xs
  {
    if xs == [] then []
    else
      var init := Present(xs[..|xs| - 1]);
      var last := xs[|xs| - 1];
      assert xs == xs[..|xs| - 1] + [last];
      if last.Some? then init + [last.value] else init
  }

  /** The hands selecting any of the interactables, in visiting order, null
      interactables skipped. */
  function Selected(ls: seq<Interactable>): seq<HandId> {
    if ls == [] then []
    else
      var last := ls[|ls| - 1];
      Selected(ls[..|ls| - 1]) + (if last.Some? then Present(last.value) else [])
  }

  /** A hand is selected exactly when some non-null interactable has it
      among its selecting interactors. */
  lemma {:induction false} SelectedMembers(ls: seq<Interactable>, t: HandId)
    ensures t in Selected(ls) <==> exists i :: 0 <= i < |ls| && ls[i].Some? && Some(t) in ls[i].value
    decreases |ls|
  {
    if ls != [] {
      var init := ls[..|ls| - 1];
      SelectedMembers(init, t);
      assert forall i :: 0 <= i < |init| ==> init[i] == ls[i];
      if t in Selected(ls) && !(t in Selected(init)) {
        assert ls[|ls| - 1].Some? && Some(t) in ls[|ls| - 1].value;
      }
      if exists i :: 0 <= i < |ls| && ls[i].Some? && Some(t) in ls[i].value {
        var i :| 0 <= i < |ls| && ls[i].Some? && Some(t) in ls[i].value;
        if i == |ls| - 1 {
          assert t in Present(ls[i].value);
        } else {
          assert init[i] == ls[i];
        }
      }
    }
  }

  /** `if (!activeHands.Contains(t)) activeHands.Add(t)` over a sequence. */
  function Dedup(xs: seq<HandId>): (d: seq<HandId>)
    ensures NoDuplicates(d)
    ensures forall t :: t in d <==> t in xs
  {
    if xs == [] then []
    else
      var d := Dedup(xs[..|xs| - 1]);
      var x := xs[|xs| - 1];
      assert xs == xs[..|xs| - 1] + [x];
      if x in d then d else d + [x]
  }

  /** The table after the collection loop: a newly seen hand is seeded with its position. */
  function Seeded(m: map<HandId, Vec3>, hands: seq<HandId>, pos: HandId -> Vec3): map<HandId, Vec3> {
    m + map t | t in hands && t !in m :: pos(t)
  }

  /** Listing one more hand seeds it unless it already has an entry. */
  lemma SeedOne(m: map<HandId, Vec3>, hands: seq<HandId>, pos: HandId -> Vec3, t: HandId)
    ensures t in hands ==> t in Seeded(m, hands, pos)
    ensures t !in hands ==>
      Seeded(m, hands + [t], pos) == if t in Seeded(m, hands, pos) then Seeded(m, hands, pos) else Seeded(m, hands, pos)[t := pos(t)]
  {
    assert forall u :: u in hands + [t] <==> u in hands || u == t;
  }

  /** The table after the clean-up loop: hands that let go are dropped. */
  function Pruned(m: map<HandId, Vec3>, hands: seq<HandId>): map<HandId, Vec3> {
    map t | t in m && t in hands :: m[t]
  }

  /** RefreshActiveHands: the selecting hands without duplicates, and the
      table restricted to them, a new hand seeded with its position. */
  function Refresh(m: map<HandId, Vec3>, ls: seq<Interactable>, pos: HandId -> Vec3): (r: (seq<HandId>, map<HandId, Vec3>))
    ensures Bookkept(r.0, r.1)
    ensures forall t :: t in r.0 <==> t in Selected(ls)
    ensures forall t :: t in r.1 && t in m ==> r.1[t] == m[t]
    ensures forall t :: t in r.1 && t !in m ==> r.1[t] == pos(t)
  {
    var hands := Dedup(Selected(ls));
    (hands, Pruned(Seeded(m, hands, pos), hands))
  }

  // ---------------------------------------------------------------------------
  // The per-hand loop of FixedUpdate
  // ---------------------------------------------------------------------------

  /** A hand's horizontal velocity over the step, zero below the deadzone. */
  function HandVelocity(c: Config, cur: Vec3, prev: Vec3, dt: real): (vel: Vec3)
    requires dt > 0.0
    ensures vel.y == 0.0
    ensures vel == Zero || SqrMagnitude(vel) >= c.velocityDeadzone * c.velocityDeadzone
    ensures cur == prev ==> vel == Zero
  {
    var v := Horizontal(Scale(Sub(cur, prev), 1.0 / dt));
    if SqrMagnitude(v) < c.velocityDeadzone * c.velocityDeadzone then Zero else v
  }

  /** `TryGetValue` with the first-frame fallback to the current position. */
  function Previous(m: map<HandId, Vec3>, t: HandId, cur: Vec3): Vec3 {
    if t in m then m[t] else cur
  }

  function PushOf(c: Config, cur: Vec3, prev: Vec3, dt: real): (p: Push)
    requires dt > 0.0
    ensures p.at == cur && p.impulse.y == 0.0
    ensures cur == prev ==> p.impulse == Zero
  {
    Push(Scale(Scale(HandVelocity(c, cur, prev, dt), c.forceMultiplier), dt), cur)
  }

  /** The pushes of the hands in order, each from the table's last position. */
  function Pushes(c: Config, hands: seq<HandId>, m: map<HandId, Vec3>, pos: HandId -> Vec3, dt: real): (ps: seq<Push>)
    requires dt > 0.0
    ensures |ps| == |hands|
    ensures forall i :: 0 <= i < |hands| ==> ps[i] == PushOf(c, pos(hands[i]), Previous(m, hands[i], pos(hands[i])), dt)
  {
    if hands == [] then []
    else
      var t := hands[|hands| - 1];
      Pushes(c, hands[..|hands| - 1], m, pos, dt) + [PushOf(c, pos(t), Previous(m, t, pos(t)), dt)]
  }

  /** `lastPos[handTf] = cur` for each hand in turn. */
  function Advance(m: map<HandId, Vec3>, hands: seq<HandId>, pos: HandId -> Vec3): map<HandId, Vec3> {
    if hands == [] then m
    else
      var t := hands[|hands| - 1];
      Advance(m, hands[..|hands| - 1], pos)[t := pos(t)]
  }

  /** After the loop every listed hand's entry is its position this step,
      and every other entry is untouched. */
  lemma {:induction false} AdvanceIs(m: map<HandId, Vec3>, hands: seq<HandId>, pos: HandId -> Vec3)
    ensures Advance(m, hands, pos) == m + map t | t in hands :: pos(t)
    decreases |hands|
  {
    if hands != [] {
      var init := hands[..|hands| - 1];
      var t := hands[|hands| - 1];
      AdvanceIs(m, init, pos);
      assert hands == init + [t];
      assert forall u :: u in hands <==> u in init || u == t;
    }
  }

  /** A hand not in the list keeps its entry (or its absence). */
  lemma {:induction false} AdvanceAway(m: map<HandId, Vec3>, hands: seq<HandId>, pos: HandId -> Vec3, t: HandId)
    requires t !in hands
    ensures t in Advance(m, hands, pos) <==> t in m
    ensures t in m ==> Advance(m, hands, pos)[t] == m[t]
    decreases |hands|
  {
    if hands != [] {
      var init := hands[..|hands| - 1];
      assert hands == init + [hands[|hands| - 1]];
      AdvanceAway(m, init, pos, t);
    }
  }

  // ---------------------------------------------------------------------------
  // Damping, the two-hand turn and the clamps
  // ---------------------------------------------------------------------------

  /** `1f + damping * dt`, the divisor of ApplyDamping. */
  function DampDivisor(damping: real, dt: real): real {
    1.0 + damping * dt
  }

  /** `1f / (1f + damping * dt)`: a factor in (0, 1] for non-negative damping and dt. */
  function DampFactor(damping: real, dt: real): (f: real)
    requires DampDivisor(damping, dt) != 0.0
    ensures damping >= 0.0 && dt >= 0.0 ==> 0.0 < f <= 1.0
  {
    if damping >= 0.0 && dt >= 0.0 then
      NonNegativeProduct(damping, dt);
      QuotientBetween(1.0, 1.0 + damping * dt);
      1.0 / (1.0 + damping * dt)
    else 1.0 / (1.0 + damping * dt)
  }

  /** ApplyDamping: x and z of the velocity scaled by the linear factor, y
      kept; the angular velocity reduced to its scaled y part. */
  function Damp(c: Config, dt: real, v: Vec3, w: Vec3): (r: (Vec3, Vec3))
    requires DampDefined(c, dt)
    ensures r.0.y == v.y && r.1.x == 0.0 && r.1.z == 0.0
  {
    var lin := DampFactor(c.linearDamping, dt);
    var ang := DampFactor(c.angularDamping, dt);
    (Vec3(v.x * lin, v.y, v.z * lin), Vec3(0.0, w.y * ang, 0.0))
  }

  /** Damping never speeds anything up. */
  lemma DampShrinks(c: Config, dt: real, v: Vec3, w: Vec3)
    requires NonNegativeTuning(c) && dt > 0.0
    ensures DampDefined(c, dt)
    ensures var r := Damp(c, dt, v, w);
      NoFaster(r.0.x, v.x) && NoFaster(r.0.z, v.z) && NoFaster(r.1.y, w.y)
  {
    NonNegativeProduct(c.linearDamping, dt);
    NonNegativeProduct(c.angularDamping, dt);
    var lin := DampFactor(c.linearDamping, dt);
    var ang := DampFactor(c.angularDamping, dt);
    ShrinkBy(v.x, lin);
    ShrinkBy(v.z, lin);
    ShrinkBy(w.y, ang);
  }

  predicate NoFaster(a: real, b: real) { Abs(a) <= Abs(b) }

  /** A factor in (0, 1] never increases a magnitude. */
  lemma ShrinkBy(x: real, f: real)
    requires 0.0 < f <= 1.0
    ensures NoFaster(x * f, x)
  {
    if x >= 0.0 {
      ShrinkNonNegative(x, f);
    } else {
      ShrinkNegative(x, f);
    }
  }

  lemma ShrinkNonNegative(x: real, f: real)
    requires 0.0 < f <= 1.0 && x >= 0.0
    ensures Abs(x * f) <= Abs(x)
  {
    ScaleMonotone(1.0, f, x);
    NonNegativeProduct(x, f);
    assert f * x == x * f && x * f <= x;
    assert Abs(x * f) == x * f && Abs(x) == x;
  }

  lemma ShrinkNegative(x: real, f: real)
    requires 0.0 < f <= 1.0 && x < 0.0
    ensures Abs(x * f) <= Abs(x)
  {
    var y := -x;
    ScaleMonotone(1.0, f, y);
    NonNegativeProduct(y, f);
    assert x * f == -(y * f);
    assert f * y == y * f && y * f <= y;
    assert Abs(x * f) == y * f;
    assert Abs(x) == y;
  }

  /** `(signedAngle * Mathf.Deg2Rad) / dt * twoHandYawGain`: the yaw rate the turn adds. */
  function YawKick(c: Config, signedAngle: real, dt: real): (k: real)
    requires dt > 0.0
    ensures signedAngle == 0.0 ==> k == 0.0
  {
    (signedAngle * Deg2Rad) / dt * c.twoHandYawGain
  }

  /** The two-hand turn: the horizontal direction from the first hand to the
      second, measured against the last one (or against itself when there is
      none yet); the yaw rate gets the kick and is clamped. */
  function TwoHandTurn(c: Config, w: Vec3, lastDir: Vec3, p0: Vec3, p1: Vec3, dt: real,
                       mag: Vec3 -> real, signedAngle: (Vec3, Vec3) -> real): (r: (Vec3, Vec3))
    requires dt > 0.0
    ensures r.1 == Normalize(Sub(Horizontal(p1), Horizontal(p0)), mag)
    ensures r.0.x == 0.0 && r.0.z == 0.0
    ensures c.maxAngularSpeed >= 0.0 ==> -c.maxAngularSpeed <= r.0.y <= c.maxAngularSpeed
    // The first two-hand step measures the direction against itself.
    ensures lastDir == Zero && signedAngle(r.1, r.1) == 0.0 ==>
      r.0.y == Clamp(w.y, -c.maxAngularSpeed, c.maxAngularSpeed)
  {
    var dir := Normalize(Sub(Horizontal(p1), Horizontal(p0)), mag);
    var from := if lastDir == Zero then dir else lastDir;
    var kick := YawKick(c, signedAngle(from, dir), dt);
    (Vec3(0.0, Clamp(w.y + kick, -c.maxAngularSpeed, c.maxAngularSpeed), 0.0), dir)
  }

  /** The horizontal speed limit: above the cap the horizontal part is
      rescaled to the cap along its direction; y is kept. */
  function ClampLinear(c: Config, v: Vec3, mag: Vec3 -> real): (r: Vec3)
    ensures r.y == v.y
    ensures mag(Horizontal(v)) <= c.maxLinearSpeed ==> r == v
  {
    var h := Horizontal(v);
    if mag(h) > c.maxLinearSpeed then
      var n := Normalize(h, mag);
      Vec3(n.x * c.maxLinearSpeed, v.y, n.z * c.maxLinearSpeed)
    else v
  }

  /** With the true length, the horizontal speed ends at or below the cap. */
  lemma ClampLinearBound(c: Config, v: Vec3, mag: Vec3 -> real)
    requires c.maxLinearSpeed >= 0.0 && IsMagnitudeOf(mag(Horizontal(v)), Horizontal(v))
    ensures SqrMagnitude(Horizontal(ClampLinear(c, v, mag))) <= c.maxLinearSpeed * c.maxLinearSpeed
  {
    var h := Horizontal(v);
    var cap := c.maxLinearSpeed;
    if mag(h) > cap {
      var n := Normalize(h, mag);
      NormalizeIsUnitOrZero(h, mag);
      assert n.y == 0.0;
      assert Horizontal(ClampLinear(c, v, mag)) == Vec3(n.x * cap, 0.0, n.z * cap);
      CapScaled(n, cap);
    } else {
      assert ClampLinear(c, v, mag) == v;
      ProductBound(mag(h), cap, mag(h), cap);
    }
  }

  /** A flat unit (or zero) direction scaled by the cap has at most the cap's length. */
  lemma CapScaled(n: Vec3, cap: real)
    requires n.y == 0.0 && (n == Zero || SqrMagnitude(n) == 1.0)
    ensures SqrMagnitude(Vec3(n.x * cap, 0.0, n.z * cap)) <= cap * cap
  {
    assert SqrMagnitude(Vec3(n.x * cap, 0.0, n.z * cap)) == SqrMagnitude(n) * (cap * cap);
  }

  /** The yaw-rate limit: x and z zeroed, y clamped. */
  function ClampAngular(c: Config, w: Vec3): (r: Vec3)
    ensures r.x == 0.0 && r.z == 0.0
    ensures c.maxAngularSpeed >= 0.0 ==> -c.maxAngularSpeed <= r.y <= c.maxAngularSpeed
    ensures -c.maxAngularSpeed <= w.y <= c.maxAngularSpeed ==> r.y == w.y
  {
    Vec3(0.0, Clamp(w.y, -c.maxAngularSpeed, c.maxAngularSpeed), 0.0)
  }

  // ---------------------------------------------------------------------------
  // FixedUpdate
  // ---------------------------------------------------------------------------

  /** The two-hand block: the turn with two or more hands, otherwise the
      direction is forgotten. */
  function Turn(c: Config, hands: seq<HandId>, w: Vec3, lastDir: Vec3, f: Frame,
                mag: Vec3 -> real, signedAngle: (Vec3, Vec3) -> real): (r: (Vec3, Vec3))
    requires f.fixedDeltaTime > 0.0
    ensures |hands| < 2 ==> r == (w, Zero)
  {
    if |hands| >= 2 then TwoHandTurn(c, w, lastDir, f.pos(hands[0]), f.pos(hands[1]), f.fixedDeltaTime, mag, signedAngle)
    else (w, Zero)
  }

  /** Moving a consistent table to this step's positions keeps it consistent. */
  lemma AdvanceKeepsBookkept(m: map<HandId, Vec3>, hands: seq<HandId>, pos: HandId -> Vec3)
    requires Bookkept(hands, m)
    ensures Bookkept(hands, Advance(m, hands, pos))
    ensures forall t :: t in Advance(m, hands, pos) ==> Advance(m, hands, pos)[t] == pos(t)
  {
    AdvanceIs(m, hands, pos);
    var a := Advance(m, hands, pos);
    assert a.Keys == m.Keys;
    forall t | t in a
      ensures a[t] == pos(t)
    {
      assert t in hands;
    }
  }

  /** The steps after the refresh, when at least one hand grabs: the pushes,
      the table moved to this step's positions, the turn and the clamps. */
  function Drive(c: Config, hands: seq<HandId>, m: map<HandId, Vec3>, lastDir: Vec3, v: Vec3, w: Vec3, f: Frame,
                 mag: Vec3 -> real, signedAngle: (Vec3, Vec3) -> real): (r: (State, seq<Push>))
    requires f.fixedDeltaTime > 0.0 && Bookkept(hands, m)
    ensures r.0.activeHands == hands && Bookkept(hands, r.0.lastPos)
    ensures forall t :: t in r.0.lastPos ==> r.0.lastPos[t] == f.pos(t)
    ensures r.1 == Pushes(c, hands, m, f.pos, f.fixedDeltaTime)
    ensures |hands| == 1 ==> r.0.lastTwoHandDir == Zero
    ensures r.0.angularVelocity.x == 0.0 && r.0.angularVelocity.z == 0.0
    ensures c.maxAngularSpeed >= 0.0 ==> -c.maxAngularSpeed <= r.0.angularVelocity.y <= c.maxAngularSpeed
    ensures r.0.velocity.y == v.y
  {
    AdvanceKeepsBookkept(m, hands, f.pos);
    var turn := Turn(c, hands, w, lastDir, f, mag, signedAngle);
    (State(hands, Advance(m, hands, f.pos), turn.1, ClampLinear(c, v, mag), ClampAngular(c, turn.0)),
     Pushes(c, hands, m, f.pos, f.fixedDeltaTime))
  }

  /** One FixedUpdate: new state and the pushes applied to the cart. */
  function Step(c: Config, s: State, f: Frame, mag: Vec3 -> real, signedAngle: (Vec3, Vec3) -> real): (r: (State, seq<Push>))
    requires DampDefined(c, f.fixedDeltaTime) && f.fixedDeltaTime > 0.0
    // The hand list and the table stay consistent ...
    ensures Bookkept(r.0.activeHands, r.0.lastPos)
    ensures forall t :: t in r.0.activeHands <==> t in Selected(f.interactables)
    // ... one push per grabbing hand, at that hand ...
    ensures |r.1| == |r.0.activeHands|
    ensures forall i :: 0 <= i < |r.1| ==> r.1[i].at == f.pos(r.0.activeHands[i]) && r.1[i].impulse.y == 0.0
    // With no hand only the damping runs (the two-hand direction is kept).
    ensures r.0.activeHands == [] ==>
      && r.1 == [] && r.0.lastPos == map[] && r.0.lastTwoHandDir == s.lastTwoHandDir
      && (r.0.velocity, r.0.angularVelocity) == Damp(c, f.fixedDeltaTime, s.velocity, s.angularVelocity)
    // With one hand the two-hand direction is forgotten.
    ensures |r.0.activeHands| == 1 ==> r.0.lastTwoHandDir == Zero
    // With any hand the entries become this step's positions, x and z of
    // the angular velocity are zero, and a non-negative cap bounds the yaw rate.
    ensures r.0.activeHands != [] ==>
      && (forall t :: t in r.0.lastPos ==> r.0.lastPos[t] == f.pos(t))
      && r.0.angularVelocity.x == 0.0 && r.0.angularVelocity.z == 0.0
      && r.0.velocity.y == s.velocity.y
    ensures r.0.activeHands != [] && c.maxAngularSpeed >= 0.0 ==>
      -c.maxAngularSpeed <= r.0.angularVelocity.y <= c.maxAngularSpeed
  {
    var damped := Damp(c, f.fixedDeltaTime, s.velocity, s.angularVelocity);
    var refreshed := Refresh(s.lastPos, f.interactables, f.pos);
    var hands := refreshed.0;
    if hands == [] then
      assert refreshed.1 == map[];
      (State(hands, refreshed.1, s.lastTwoHandDir, damped.0, damped.1), [])
    else
      Drive(c, hands, refreshed.1, s.lastTwoHandDir, damped.0, damped.1, f, mag, signedAngle)
  }

  /** A hand seen for the first time pushes nothing: its table entry is seeded
      with its current position. */
  lemma FirstStepDoesNotPush(c: Config, s: State, f: Frame, mag: Vec3 -> real, signedAngle: (Vec3, Vec3) -> real)
    requires DampDefined(c, f.fixedDeltaTime) && f.fixedDeltaTime > 0.0
    ensures var r := Step(c, s, f, mag, signedAngle);
      forall i :: 0 <= i < |r.1| && r.0.activeHands[i] !in s.lastPos ==> r.1[i].impulse == Zero
  {
    var refreshed := Refresh(s.lastPos, f.interactables, f.pos);
    var hands := refreshed.0;
    var m := refreshed.1;
    if hands != [] {
      var damped := Damp(c, f.fixedDeltaTime, s.velocity, s.angularVelocity);
      assert Step(c, s, f, mag, signedAngle) == Drive(c, hands, m, s.lastTwoHandDir, damped.0, damped.1, f, mag, signedAngle);
      forall i | 0 <= i < |hands| && hands[i] !in s.lastPos
        ensures Previous(m, hands[i], f.pos(hands[i])) == f.pos(hands[i])
      {
      }
    }
  }

  /** With the true horizontal length the speed ends within its cap whenever a hand grabs. */
  lemma StepSpeedBound(c: Config, s: State, f: Frame, mag: Vec3 -> real, signedAngle: (Vec3, Vec3) -> real)
    requires c.maxLinearSpeed >= 0.0 && DampDefined(c, f.fixedDeltaTime) && f.fixedDeltaTime > 0.0
    requires var v := Damp(c, f.fixedDeltaTime, s.velocity, s.angularVelocity).0;
      IsMagnitudeOf(mag(Horizontal(v)), Horizontal(v))
    ensures var r := Step(c, s, f, mag, signedAngle).0;
      r.activeHands != [] ==> SqrMagnitude(Horizontal(r.velocity)) <= c.maxLinearSpeed * c.maxLinearSpeed
  {
    var v := Damp(c, f.fixedDeltaTime, s.velocity, s.angularVelocity).0;
    ClampLinearBound(c, v, mag);
  }

  class CartPhysicsInteraction {
    const config: Config
    var activeHands: seq<HandId>
    var lastPos: map<HandId, Vec3>
    var lastTwoHandDir: Vec3
    var velocity: Vec3
    var angularVelocity: Vec3

    ghost function Snapshot(): State
      reads this
    {
      State(activeHands, lastPos, lastTwoHandDir, velocity, angularVelocity)
    }

    ghost predicate Valid()
      reads this
    {
      Bookkept(activeHands, lastPos)
    }

    /** The field initialisers; the rigidbody starts with the given velocities. */
    constructor (config: Config, velocity: Vec3, angularVelocity: Vec3)
      ensures Valid() && this.config == config
      ensures Snapshot() == State([], map[], Zero, velocity, angularVelocity)
    {
      this.config := config;
      activeHands := [];
      lastPos := map[];
      lastTwoHandDir := Zero;
      this.velocity := velocity;
      this.angularVelocity := angularVelocity;
    }

    method FixedUpdate(f: Frame, mag: Vec3 -> real, signedAngle: (Vec3, Vec3) -> real) returns (pushes: seq<Push>)
      requires Valid() && DampDefined(config, f.fixedDeltaTime) && f.fixedDeltaTime > 0.0
      modifies this
      ensures Valid()
      ensures (Snapshot(), pushes) == Step(config, old(Snapshot()), f, mag, signedAngle)
    {
      ApplyDamping(f.fixedDeltaTime);
      RefreshActiveHands(f.interactables, f.pos);
      if |activeHands| == 0 {
        pushes := [];
        return;
      }
      pushes := DriveHands(f, mag, signedAngle);
    }

    /** FixedUpdate after the refresh, when some hand grabs. */
    method DriveHands(f: Frame, mag: Vec3 -> real, signedAngle: (Vec3, Vec3) -> real) returns (pushes: seq<Push>)
      requires f.fixedDeltaTime > 0.0 && Bookkept(activeHands, lastPos)
      modifies this`lastPos, this`lastTwoHandDir, this`velocity, this`angularVelocity
      ensures (Snapshot(), pushes)
        == Drive(config, activeHands, old(lastPos), old(lastTwoHandDir), old(velocity), old(angularVelocity), f, mag, signedAngle)
    {
      pushes := ApplyHandForces(f.fixedDeltaTime, f.pos);
      TwoHandYaw(f, mag, signedAngle);
      LimitSpeeds(mag);
    }

    /** The two-hand block of FixedUpdate. */
    method TwoHandYaw(f: Frame, mag: Vec3 -> real, signedAngle: (Vec3, Vec3) -> real)
      requires f.fixedDeltaTime > 0.0
      modifies this`lastTwoHandDir, this`angularVelocity
      ensures (angularVelocity, lastTwoHandDir)
        == Turn(config, activeHands, old(angularVelocity), old(lastTwoHandDir), f, mag, signedAngle)
    {
      if |activeHands| >= 2 {
        var p0 := Horizontal(f.pos(activeHands[0]));
        var p1 := Horizontal(f.pos(activeHands[1]));
        var dir := Normalize(Sub(p1, p0), mag);
        if lastTwoHandDir == Zero {
          lastTwoHandDir := dir;
        }
        var yawVel := YawKick(config, signedAngle(lastTwoHandDir, dir), f.fixedDeltaTime);
        angularVelocity := Vec3(0.0, Clamp(angularVelocity.y + yawVel, -config.maxAngularSpeed, config.maxAngularSpeed), 0.0);
        lastTwoHandDir := dir;
      } else {
        lastTwoHandDir := Zero;
      }
    }

    /** The horizontal speed limit and the yaw-rate limit. */
    method LimitSpeeds(mag: Vec3 -> real)
      modifies this`velocity, this`angularVelocity
      ensures velocity == ClampLinear(config, old(velocity), mag)
      ensures angularVelocity == ClampAngular(config, old(angularVelocity))
    {
      var v := Horizontal(velocity);
      if mag(v) > config.maxLinearSpeed {
        var n := Normalize(v, mag);
        velocity := Vec3(n.x * config.maxLinearSpeed, velocity.y, n.z * config.maxLinearSpeed);
      }
      var w := angularVelocity;
      angularVelocity := Vec3(0.0, Clamp(w.y, -config.maxAngularSpeed, config.maxAngularSpeed), 0.0);
    }

    method ApplyDamping(dt: real)
      requires DampDefined(config, dt)
      modifies this`velocity, this`angularVelocity
      ensures (velocity, angularVelocity) == Damp(config, dt, old(velocity), old(angularVelocity))
    {
      var lin := DampFactor(config.linearDamping, dt);
      var ang := DampFactor(config.angularDamping, dt);
      velocity := Vec3(velocity.x * lin, velocity.y, velocity.z * lin);
      angularVelocity := Vec3(0.0, angularVelocity.y * ang, 0.0);
      assert velocity == Damp(config, dt, old(velocity), old(angularVelocity)).0;
      assert angularVelocity == Damp(config, dt, old(velocity), old(angularVelocity)).1;
    }

    method RefreshActiveHands(ls: seq<Interactable>, pos: HandId -> Vec3)
      modifies this`activeHands, this`lastPos
      ensures (activeHands, lastPos) == Refresh(old(lastPos), ls, pos)
    {
      ghost var m0 := lastPos;
      activeHands := [];
      var i := 0;
      while i < |ls|
        invariant 0 <= i <= |ls|
        invariant activeHands == Dedup(Selected(ls[..i]))
        invariant lastPos == Seeded(m0, activeHands, pos)
      {
        assert ls[..i + 1][..i] == ls[..i];
        assert Selected(ls[..i + 1]) == Selected(ls[..i]) + (if ls[i].Some? then Present(ls[i].value) else []);
        if ls[i].Some? {
          CollectSelecting(ls[i].value, pos, m0, Selected(ls[..i]));
        } else {
          assert Selected(ls[..i + 1]) == Selected(ls[..i]);
        }
        i := i + 1;
      }
      assert ls[..|ls|] == ls;
      PruneLastPos();
    }

    /** The inner loop: each selecting hand is listed once and seeded once. */
    method CollectSelecting(list: seq<Option<HandId>>, pos: HandId -> Vec3, ghost m0: map<HandId, Vec3>, ghost seen: seq<HandId>)
      requires activeHands == Dedup(seen) && lastPos == Seeded(m0, activeHands, pos)
      modifies this`activeHands, this`lastPos
      ensures activeHands == Dedup(seen + Present(list)) && lastPos == Seeded(m0, activeHands, pos)
    {
      var j := 0;
      assert seen + Present(list[..j]) == seen;
      while j < |list|
        invariant 0 <= j <= |list|
        invariant activeHands == Dedup(seen + Present(list[..j]))
        invariant lastPos == Seeded(m0, activeHands, pos)
      {
        assert list[..j + 1][..j] == list[..j];
        if list[j].Some? {
          ghost var before := seen + Present(list[..j]);
          assert seen + Present(list[..j + 1]) == before + [list[j].value];
          AddSelecting(list[j].value, pos, m0, before);
        } else {
          assert Present(list[..j + 1]) == Present(list[..j]);
        }
        j := j + 1;
      }
      assert list[..|list|] == list;
    }

    /** One selecting hand: listed unless it already is, seeded unless it has an entry. */
    method AddSelecting(t: HandId, pos: HandId -> Vec3, ghost m0: map<HandId, Vec3>, ghost before: seq<HandId>)
      requires activeHands == Dedup(before) && lastPos == Seeded(m0, activeHands, pos)
      modifies this`activeHands, this`lastPos
      ensures activeHands == Dedup(before + [t]) && lastPos == Seeded(m0, activeHands, pos)
    {
      assert (before + [t])[..|before|] == before;
      SeedOne(m0, activeHands, pos, t);
      if t !in activeHands {
        activeHands := activeHands + [t];
      }
      if t !in lastPos {
        lastPos := lastPos[t := pos(t)];
      }
    }

    /** The clean-up loop over a copy of the keys: a hand that let go loses its entry. */
    method PruneLastPos()
      modifies this`lastPos
      ensures lastPos == Pruned(old(lastPos), activeHands)
    {
      ghost var m1 := lastPos;
      var keys := lastPos.Keys;
      while keys != {}
        invariant keys <= m1.Keys
        invariant lastPos == map t | t in m1 && (t in keys || t in activeHands) :: m1[t]
        decreases keys
      {
        var k :| k in keys;
        if k !in activeHands {
          lastPos := lastPos - {k};
        }
        keys := keys - {k};
      }
    }

    /** The foreach over the grabbing hands: one push each, and the table
        entry moved to the current position. */
    method ApplyHandForces(dt: real, pos: HandId -> Vec3) returns (pushes: seq<Push>)
      requires dt > 0.0 && NoDuplicates(activeHands)
      modifies this`lastPos
      ensures pushes == Pushes(config, activeHands, old(lastPos), pos, dt)
      ensures lastPos == Advance(old(lastPos), activeHands, pos)
    {
      ghost var m := lastPos;
      pushes := [];
      var i := 0;
      while i < |activeHands|
        invariant 0 <= i <= |activeHands|
        invariant pushes == Pushes(config, activeHands[..i], m, pos, dt)
        invariant lastPos == Advance(m, activeHands[..i], pos)
      {
        var t := activeHands[i];
        var cur := pos(t);
        assert activeHands[..i + 1][..i] == activeHands[..i];
        assert t !in activeHands[..i];
        AdvanceAway(m, activeHands[..i], pos, t);
        var prev: Vec3;
        if t in lastPos {
          prev := lastPos[t];
        } else {
          prev := cur;
          lastPos := lastPos[t := cur];
        }
        assert prev == Previous(m, t, cur);
        var vel := HandVelocity(config, cur, prev, dt);
        pushes := pushes + [Push(Scale(Scale(vel, config.forceMultiplier), dt), cur)];
        lastPos := lastPos[t := cur];
        i := i + 1;
      }
      assert activeHands[..|activeHands|] == activeHands;
    }
  }

}
