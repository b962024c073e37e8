/**
  The motion-phase state machine of the cart haptics: Idle, Start, Moving and
  Brake, driven by the forward speed, the forward acceleration and a pulse
  timer. `PhaseStep` is the switch of RotateHapticCombined.Update, which
  RotateHapticTemporal.Update repeats with its phases named StartPulse and
  BrakePulse; `PhaseStepV2` is RotateHapticCombinedV2.UpdatePhase, which also
  lets an in-place yaw start and sustain motion.
*/
module MotionPhase {
  import opened Unity

  datatype Phase = Idle | Start | Moving | Brake

  /** `_phase` and `_phaseT`. */
  datatype PhaseState = PhaseState(phase: Phase, t: real)

  /** speedThresholdUp, speedThresholdDown, brakeAccelThreshold, pulseDuration. */
  datatype Thresholds = Thresholds(speedUp: real, speedDown: real, brakeAccel: real, pulseDuration: real)

  /** The transitions the phase switch can make (staying put included):
      Brake is entered only from Start and Moving, and Idle is left only
      for Start. */
  predicate Successor(p: Phase, q: Phase) {
    || p == q
    || (p == Idle && q == Start)
    || (p == Start && (q == Brake || q == Moving))
    || (p == Moving && (q == Brake || q == Idle))
    || (p == Brake && (q == Idle || q == Moving))
  }

  /** Deceleration along the projection axis strong enough to count as braking. */
  predicate Braking(aZ: real, th: Thresholds) { aZ <= -th.brakeAccel }

  /** One frame of the Idle/Start/Moving/Brake switch. */
  function PhaseStep(s: PhaseState, speedAbs: real, aZ: real, dt: real, th: Thresholds): (r: PhaseState)
    ensures Successor(s.phase, r.phase)
    ensures r.phase != s.phase ==> r.t == 0.0
    // Idle is left for Start exactly when the speed reaches the upper threshold.
    ensures s.phase == Idle ==> (r.phase == Start <==> speedAbs >= th.speedUp) && (r.phase == Idle ==> r == s)
    // Braking pre-empts the start pulse and interrupts cruising.
    ensures (s.phase == Start || s.phase == Moving) && Braking(aZ, th) ==> r == PhaseState(Brake, 0.0)
    ensures s.phase == Start && !Braking(aZ, th) ==> (r.phase == Moving <==> s.t + dt >= th.pulseDuration)
    // Hysteresis: Moving drops to Idle only at or below the lower threshold.
    ensures s.phase == Moving && !Braking(aZ, th) ==>
      (r.phase == Idle <==> speedAbs <= th.speedDown) && (r.phase == Moving ==> r == s)
    // The brake pulse runs its full length, then settles by the lower threshold.
    ensures s.phase == Brake ==> (r.phase == Brake <==> s.t + dt < th.pulseDuration)
    ensures s.phase == Brake && r.phase != Brake ==> (r.phase == Idle <==> speedAbs <= th.speedDown)
    // Inside a pulse the timer advances by dt and stays below the pulse length.
    ensures (r.phase == Start || r.phase == Brake) && r.phase == s.phase ==>
      r.t == s.t + dt && r.t < th.pulseDuration
    ensures s.t >= 0.0 && dt >= 0.0 ==> r.t >= 0.0
  {
    match s.phase
    case Idle =>
      if speedAbs >= th.speedUp then PhaseState(Start, 0.0) else s
    case Start =>
      var t := s.t + dt;
      if Braking(aZ, th) then PhaseState(Brake, 0.0)
      else if t >= th.pulseDuration then PhaseState(Moving, 0.0)
      else PhaseState(Start, t)
    case Moving =>
      if Braking(aZ, th) then PhaseState(Brake, 0.0)
      else if speedAbs <= th.speedDown then PhaseState(Idle, 0.0)
      else s
    case Brake =>
      var t := s.t + dt;
      if t >= th.pulseDuration then
        PhaseState(if speedAbs <= th.speedDown then Idle else Moving, 0.0)
      else PhaseState(Brake, t)
  }

  /** RotateHapticCombinedV2.UpdatePhase: a yaw of three times the yaw
      threshold also starts motion, and Moving needs both the speed and the
      yaw to settle before it returns to Idle. */
  function PhaseStepV2(s: PhaseState, speedAbs: real, aZ: real, yawAbs: real, yawThreshold: real,
                       dt: real, th: Thresholds): (r: PhaseState)
    ensures Successor(s.phase, r.phase)
    ensures r.phase != s.phase ==> r.t == 0.0
    ensures s.phase == Idle ==>
      (r.phase == Start <==> speedAbs >= th.speedUp || yawAbs >= yawThreshold * 3.0) && (r.phase == Idle ==> r == s)
    ensures s.phase == Moving && Braking(aZ, th) ==> r == PhaseState(Brake, 0.0)
    ensures s.phase == Moving && !Braking(aZ, th) ==>
      (r.phase == Idle <==> speedAbs <= th.speedDown && yawAbs <= yawThreshold) && (r.phase == Moving ==> r == s)
    // The pulse phases behave exactly as in the forward-only machine ...
    ensures s.phase == Start || s.phase == Brake ==> r == PhaseStep(s, speedAbs, aZ, dt, th)
    // ... and with a yaw below its threshold the whole machine does.
    ensures yawAbs <= yawThreshold && yawAbs < yawThreshold * 3.0 ==> r == PhaseStep(s, speedAbs, aZ, dt, th)
    ensures s.t >= 0.0 && dt >= 0.0 ==> r.t >= 0.0
  {
    match s.phase
    case Idle =>
      if speedAbs >= th.speedUp || yawAbs >= yawThreshold * 3.0 then PhaseState(Start, 0.0) else s
    case Start =>
      var t := s.t + dt;
      if Braking(aZ, th) then PhaseState(Brake, 0.0)
      else if t >= th.pulseDuration then PhaseState(Moving, 0.0)
      else PhaseState(Start, t)
    case Moving =>
      if Braking(aZ, th) then PhaseState(Brake, 0.0)
      else if speedAbs <= th.speedDown && yawAbs <= yawThreshold then PhaseState(Idle, 0.0)
      else s
    case Brake =>
      var t := s.t + dt;
      if t >= th.pulseDuration then
        PhaseState(if speedAbs <= th.speedDown then Idle else Moving, 0.0)
      else PhaseState(Brake, t)
  }

  /** The carrier frequency of a phase: baseFreq, raised by 0.15 and clamped
      to [0, 1] during the brake pulse. */
  function PhaseFrequency(baseFreq: real, phase: Phase): (f: real)
    ensures InUnit(baseFreq) ==> InUnit(f) && f >= baseFreq
    ensures phase != Brake ==> f == baseFreq
    ensures phase == Brake && 0.0 <= baseFreq <= 0.85 ==> f == baseFreq + 0.15
    ensures phase == Brake && baseFreq >= 0.85 ==> f == 1.0
  {
    if phase == Brake then Clamp01(baseFreq + 0.15) else baseFreq
  }

  // ---------------------------------------------------------------------------
  // Runs of frames
  // ---------------------------------------------------------------------------

  /** What one frame feeds the machine: |vZ|, aZ and the guarded dt. */
  datatype Tick = Tick(speedAbs: real, aZ: real, dt: real)

  function Run(s: PhaseState, ticks: seq<Tick>, th: Thresholds): PhaseState
    decreases |ticks|
  {
    if |ticks| == 0 then s
    else Run(PhaseStep(s, ticks[0].speedAbs, ticks[0].aZ, ticks[0].dt, th), ticks[1..], th)
  }

  /** Total time covered by a run of frames. */
  function Elapsed(ticks: seq<Tick>): (e: real)
    ensures (forall i :: 0 <= i < |ticks| ==> ticks[i].dt >= 0.0) ==> e >= 0.0
  {
    if |ticks| == 0 then 0.0 else ticks[0].dt + Elapsed(ticks[1..])
  }

  lemma {:induction false} RunSnoc(s: PhaseState, ticks: seq<Tick>, last: Tick, th: Thresholds)
    ensures Run(s, ticks + [last], th) == PhaseStep(Run(s, ticks, th), last.speedAbs, last.aZ, last.dt, th)
    decreases |ticks|
  {
    if |ticks| > 0 {
      assert (ticks + [last])[1..] == ticks[1..] + [last];
      RunSnoc(PhaseStep(s, ticks[0].speedAbs, ticks[0].aZ, ticks[0].dt, th), ticks[1..], last, th);
    }
  }

  /** No chatter while cruising: however the speed wanders between the two
      thresholds, without braking the machine stays in Moving. */
  lemma {:induction false} MovingHoldsInBand(s: PhaseState, ticks: seq<Tick>, th: Thresholds)
    requires s.phase == Moving
    requires forall i :: 0 <= i < |ticks| ==> ticks[i].speedAbs > th.speedDown && !Braking(ticks[i].aZ, th)
    ensures Run(s, ticks, th) == s
    decreases |ticks|
  {
    if |ticks| > 0 {
      MovingHoldsInBand(s, ticks[1..], th);
    }
  }

  /** No chatter at rest: below the upper threshold Idle is never left. */
  lemma {:induction false} IdleHoldsBelowUp(s: PhaseState, ticks: seq<Tick>, th: Thresholds)
    requires s.phase == Idle
    requires forall i :: 0 <= i < |ticks| ==> ticks[i].speedAbs < th.speedUp
    ensures Run(s, ticks, th) == s
    decreases |ticks|
  {
    if |ticks| > 0 {
      IdleHoldsBelowUp(s, ticks[1..], th);
    }
  }

  /** Without braking the start pulse lasts as long as its timer is below
      pulseDuration, and the timer is the time spent in it. */
  lemma {:induction false} StartHoldsUntilPulseEnds(s: PhaseState, ticks: seq<Tick>, th: Thresholds)
    requires s.phase == Start
    requires forall i :: 0 <= i < |ticks| ==> ticks[i].dt >= 0.0 && !Braking(ticks[i].aZ, th)
    requires s.t + Elapsed(ticks) < th.pulseDuration
    ensures Run(s, ticks, th) == PhaseState(Start, s.t + Elapsed(ticks))
    decreases |ticks|
  {
    if |ticks| > 0 {
      var next := PhaseStep(s, ticks[0].speedAbs, ticks[0].aZ, ticks[0].dt, th);
      assert Elapsed(ticks[1..]) >= 0.0;
      assert next == PhaseState(Start, s.t + ticks[0].dt);
      StartHoldsUntilPulseEnds(next, ticks[1..], th);
    }
  }

  /** ... and on the first frame at which it reaches pulseDuration the
      machine moves on to Moving with a fresh timer. */
  lemma StartPulseThenMoving(s: PhaseState, ticks: seq<Tick>, last: Tick, th: Thresholds)
    requires s.phase == Start
    requires forall i :: 0 <= i < |ticks| ==> ticks[i].dt >= 0.0 && !Braking(ticks[i].aZ, th)
    requires !Braking(last.aZ, th)
    requires s.t + Elapsed(ticks) < th.pulseDuration <= s.t + Elapsed(ticks) + last.dt
    ensures Run(s, ticks + [last], th) == PhaseState(Moving, 0.0)
  {
    StartHoldsUntilPulseEnds(s, ticks, th);
    RunSnoc(s, ticks, last, th);
  }

  /** What one frame feeds the V2 machine: |vZ|, aZ, the yaw change and the guarded dt. */
  datatype TickV2 = TickV2(speedAbs: real, aZ: real, yawAbs: real, dt: real)

  function RunV2(s: PhaseState, ticks: seq<TickV2>, yawThreshold: real, th: Thresholds): PhaseState
    decreases |ticks|
  {
    if |ticks| == 0 then s
    else
      var k := ticks[0];
      RunV2(PhaseStepV2(s, k.speedAbs, k.aZ, k.yawAbs, yawThreshold, k.dt, th), ticks[1..], yawThreshold, th)
  }

  /** In the V2 machine either signal keeps the cart Moving: over any run
      without braking in which each frame is above the lower speed threshold
      or turns faster than the yaw threshold, Moving is never left. */
  lemma {:induction false} MovingHoldsWhileTurningV2(s: PhaseState, ticks: seq<TickV2>, yawThreshold: real, th: Thresholds)
    requires s.phase == Moving
    requires forall i :: 0 <= i < |ticks| ==>
      (ticks[i].speedAbs > th.speedDown || ticks[i].yawAbs > yawThreshold) && !Braking(ticks[i].aZ, th)
    ensures RunV2(s, ticks, yawThreshold, th) == s
    decreases |ticks|
  {
    if |ticks| > 0 {
      MovingHoldsWhileTurningV2(s, ticks[1..], yawThreshold, th);
    }
  }

  /** At rest the V2 machine needs either signal to start: below the upper
      speed threshold and below three times the yaw threshold, Idle is never left. */
  lemma {:induction false} IdleHoldsV2(s: PhaseState, ticks: seq<TickV2>, yawThreshold: real, th: Thresholds)
    requires s.phase == Idle
    requires forall i :: 0 <= i < |ticks| ==>
      ticks[i].speedAbs < th.speedUp && ticks[i].yawAbs < yawThreshold * 3.0
    ensures RunV2(s, ticks, yawThreshold, th) == s
    decreases |ticks|
  {
    if |ticks| > 0 {
      IdleHoldsV2(s, ticks[1..], yawThreshold, th);
    }
  }
}
