/**
  PlayerController's rotation: the right thumbstick's x either turns the rig
  smoothly (`x * rotationSpeed * deltaTime` degrees a frame) or, in snap
  mode, by `snapTurnAngle` toward the stick once per push: the snap needs the
  stick past 0.8 and an armed latch, and the latch re-arms only when the
  stick comes back inside 0.2.

  The rig's heading is the total yaw turned so far, in degrees.
*/
module Player {
  import opened Unity

  datatype RotationType = Smooth | Snap

  datatype Config = Config(rotationType: RotationType, rotationSpeed: real, snapTurnAngle: real)

  function Defaults(): (c: Config)
    ensures c.rotationType == Snap && c.snapTurnAngle > 0.0
  {
    Config(Snap, 60.0, 45.0)
  }

  /** `_isReadyToSnapTurn` and the yaw the rig has turned. */
  datatype State = State(ready: bool, yaw: real)

  /** The stick pushed far enough to snap. */
  predicate PastSnap(x: real) { Abs(x) > 0.8 }

  /** The stick back near the centre. */
  predicate Centred(x: real) { Abs(x) < 0.2 }

  /** The turn this frame: smooth in proportion to the stick, or one snap
      toward the stick when armed. */
  function Turn(c: Config, s: State, x: real, deltaTime: real): (a: real)
    ensures c.rotationType == Smooth ==> a == x * c.rotationSpeed * deltaTime
    ensures c.rotationType == Snap ==>
      (a != 0.0 ==> s.ready && PastSnap(x)) && (c.snapTurnAngle != 0.0 && s.ready && PastSnap(x) ==> a != 0.0)
    // A snap turns by the snap angle, in the stick's direction.
    ensures c.rotationType == Snap && s.ready && PastSnap(x) ==>
      Abs(a) == Abs(c.snapTurnAngle) && (c.snapTurnAngle > 0.0 ==> (a > 0.0 <==> x > 0.0))
  {
    match c.rotationType
    case Smooth => x * c.rotationSpeed * deltaTime
    case Snap =>
      if PastSnap(x) && s.ready then
        SnapDirection(c.snapTurnAngle, x);
        c.snapTurnAngle * Sign(x)
      else 0.0
  }

  lemma SnapDirection(angle: real, x: real)
    requires x != 0.0
    ensures Abs(angle * Sign(x)) == Abs(angle)
    ensures angle > 0.0 ==> (angle * Sign(x) > 0.0 <==> x > 0.0)
  {
    if x < 0.0 {
      assert angle * Sign(x) == -angle;
    }
  }

  /** The latch after the frame: a snap disarms it, a centred stick re-arms
      it, anything else leaves it. */
  function Latch(c: Config, s: State, x: real): (ready: bool)
    ensures c.rotationType == Smooth ==> ready == s.ready
    ensures c.rotationType == Snap ==>
      && (s.ready && PastSnap(x) ==> !ready)
      && (!(s.ready && PastSnap(x)) && Centred(x) ==> ready)
      && (!(s.ready && PastSnap(x)) && !Centred(x) ==> ready == s.ready)
  {
    match c.rotationType
    case Smooth => s.ready
    case Snap =>
      if PastSnap(x) && s.ready then false
      else if Centred(x) then true
      else s.ready
  }

  /** HandleRotation. */
  function Step(c: Config, s: State, x: real, deltaTime: real): (r: State)
    ensures r.yaw == s.yaw + Turn(c, s, x, deltaTime)
    ensures r.ready == Latch(c, s, x)
    // The latch is re-armed only by a centred stick.
    ensures !s.ready && r.ready ==> Centred(x)
  {
    State(Latch(c, s, x), s.yaw + Turn(c, s, x, deltaTime))
  }

  /** Whether the frame snapped. */
  predicate Snapped(c: Config, s: State, x: real) {
    c.rotationType == Snap && s.ready && PastSnap(x)
  }

  /** The number of snaps over a run of frames. */
  function Snaps(c: Config, s: State, xs: seq<real>, deltaTime: real): nat
    decreases |xs|
  {
    if xs == [] then 0
    else (if Snapped(c, s, xs[0]) then 1 else 0) + Snaps(c, Step(c, s, xs[0], deltaTime), xs[1..], deltaTime)
  }

  /** One push is at most one snap: over frames that never bring the stick
      back inside 0.2 there is at most one snap, and none once the latch is
      disarmed. */
  lemma {:induction false} OneSnapPerPush(c: Config, s: State, xs: seq<real>, deltaTime: real)
    requires forall i :: 0 <= i < |xs| ==> !Centred(xs[i])
    ensures Snaps(c, s, xs, deltaTime) <= 1
    ensures !s.ready ==> Snaps(c, s, xs, deltaTime) == 0
    decreases |xs|
  {
    if xs != [] {
      var next := Step(c, s, xs[0], deltaTime);
      OneSnapPerPush(c, next, xs[1..], deltaTime);
      if Snapped(c, s, xs[0]) {
        assert !next.ready;
      } else if s.ready {
        assert c.rotationType == Smooth || !PastSnap(xs[0]);
      }
    }
  }

  class PlayerController {
    const config: Config
    var isReadyToSnapTurn: bool
    var yaw: real

    ghost function Snapshot(): State
      reads this
    {
      State(isReadyToSnapTurn, yaw)
    }

    /** The latch starts armed; the rig's heading is given. */
    constructor (config: Config, yaw: real)
      ensures this.config == config && Snapshot() == State(true, yaw)
    {
      this.config := config;
      isReadyToSnapTurn := true;
      this.yaw := yaw;
    }

    /** Update: the movement half is not modelled, the rotation half is HandleRotation. */
    method Update(x: real, deltaTime: real)
      modifies this
      ensures Snapshot() == Step(config, old(Snapshot()), x, deltaTime)
    {
      HandleRotation(x, deltaTime);
    }

    method HandleRotation(x: real, deltaTime: real)
      modifies this
      ensures Snapshot() == Step(config, old(Snapshot()), x, deltaTime)
    {
      match config.rotationType {
        case Smooth =>
          yaw := yaw + x * config.rotationSpeed * deltaTime;
        case Snap =>
          if Abs(x) > 0.8 && isReadyToSnapTurn {
            var angle := config.snapTurnAngle * Sign(x);
            yaw := yaw + angle;
            isReadyToSnapTurn := false;
          } else if Abs(x) < 0.2 {
            isReadyToSnapTurn := true;
          }
      }
    }
  }
}
