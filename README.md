# Rotating-cart haptics, modelled in Dafny

This project models the per-frame decision logic of a Unity VR experiment on
pushing and turning a shopping cart. Every frame, the scripts turn the cart's
motion and the two Touch controllers' motion into vibration commands, one
(frequency, amplitude) pair per hand. The scripts covered are:

- three motion-phase synthesizers with an Idle / Start / Moving / Brake
  machine: `RotateHapticCombined`, `RotateHapticTemporal` and
  `RotateHapticCombinedV2`;
- seven rotation mappers: `RotateHaptic`, `RotateHaptic2`, `testhaptic`,
  `RotateHapticAsymmetric`, `CartHapticPhysicsManager`, `CartHapticController`
  (SimpleCartHaptics.cs) and `HeavyCartController` (gittest.cs);
- the release impulse and inertia window of `CartResidualMotion`;
- the hand bookkeeping and speed limits of `CartPhysics_Interaction`;
- the snap-turn latch of `PlayerController`.

How the scripts are represented:

- Each script that keeps state between frames is a `class` whose fields are
  the script's private fields.
- Each such class has a ghost `Snapshot()` of those fields.
- The class's `Update` (or `FixedUpdate`) method is proved equal to a pure
  `Step` function of the old state and the frame's inputs. The properties are
  stated about `Step`, in its `ensures` and in lemmas beside it.
- `OVRInput.SetControllerVibration` calls become the returned
  `seq<Vibration>`, in call order. `[]` means nothing was sent. `Silence` is
  the (0, 0) pair every stop path sends to left and right.
- Engine inputs are parameters: `Time.deltaTime`, positions, velocities,
  `eulerAngles.y`, the selecting-point counts and the stick position.
- Library maths Dafny cannot compute is passed in as functions, with the
  properties the proofs need given as preconditions:
  - `Vector3.magnitude` through `mag` and `IsMagnitudeOf`;
  - `Mathf.Sqrt` through `sqrt` and `IsSqrtOf`;
  - `Mathf.Exp` through `exp` and `ExpAt`;
  - `Vector3.SignedAngle` through `signedAngle`;
  - `AnimationCurve.Evaluate` through `real -> real` curves.
- Floats are `real`.
- Each script's `[Range]` attributes and positive divisors are a
  `ValidConfig` predicate. Each script's `Defaults()` gives its inspector
  defaults.

Shared modules:

- `Unity` models Vector3 and the Mathf functions the scripts rely on:
  - `Mathf.Lerp` clamps its parameter, so the result lies between the two ends;
  - `Mathf.DeltaAngle` returns a value in (-180, 180];
  - `Mathf.Sign(0)` is 1;
  - `Mathf.Clamp` and `Mathf.Clamp01`;
  - the hand-written yaw fold of the older scripts.
- `Haptics` holds the command type and the hand-dominance helpers several
  scripts share.
- `MotionPhase` holds the phase machine.

## Model

| member | source | states |
|---|---|---|
| Unity.Horizontal | Assets/Scripts/CartPhysics.cs:108-111 | Projecting onto the ground plane zeroes y and keeps x and z. |
| Unity.NormalizeIsUnitOrZero | Assets/Scripts/RotateHapticTemporal.cs:129-131 | Given the true length, `normalized` has length one, or is zero exactly when the length is at most Vector3.kEpsilon. |
| Unity.NormalizeUnit | Assets/Scripts/RotateHapticTemporal.cs:131 | Normalizing a vector of length one leaves it unchanged. |
| Unity.NormalizeIdempotent | Assets/Scripts/RotateHapticTemporal.cs:129-131 | Normalizing twice (the custom axis followed by `axisW.Normalize()`) is the same as normalizing once. |
| Unity.Clamp | Assets/Scripts/SimpleCartHaptics.cs:22 | Mathf.Clamp stays in [lo, hi], is the identity inside the range, and gives lo below it. |
| Unity.Clamp01 | Assets/Scripts/RotateHaptic.cs:40-41 | Mathf.Clamp01 lands in [0, 1], is the identity on [0, 1], gives 0 at or below 0 and 1 at or above 1. |
| Unity.Lerp | Assets/Scripts/RotateHapticAsymmetric.cs:59-60 | Mathf.Lerp lies between its two ends, returns a for t <= 0 and b for t >= 1, and is constant when a == b. |
| Unity.Sign | Assets/Scripts/PlayerController.cs:69 | Mathf.Sign is 1 or -1, is 1 exactly for x >= 0 (zero counts as positive), and times abs(x) gives x. |
| Unity.GuardedDt | Assets/Scripts/RotateHapticCombined.cs:94 | The guarded dt is at least 1e-4 and at least deltaTime, and equals deltaTime from 1e-4 on, so no rate divides by zero. |
| Unity.Repeat360 | Assets/Scripts/RotateHapticCombinedV2.cs:76 | Mathf.Repeat(t, 360) lies in [0, 360) and differs from t by whole turns. |
| Unity.DeltaAngle | Assets/Scripts/RotateHapticCombinedV2.cs:76 | Mathf.DeltaAngle lies in (-180, 180] and differs from target - current by whole turns. |
| Unity.FoldDelta | Assets/Scripts/RotateHapticCombined.cs:112-114 | The hand fold adds or subtracts at most one turn and brings a difference in (-360, 360) into [-180, 180]. |
| Unity.YawDelta | Assets/Scripts/RotateHaptic.cs:30-34 | For two readings in [0, 360), the folded yaw change lies in [-180, 180] and differs from the raw difference by whole turns. |
| Unity.FoldAgreesWithDeltaAngle | Assets/Scripts/RotateHapticCombined.cs:111-116 | For readings in [0, 360), the hand fold equals Mathf.DeltaAngle, except that a raw -180 stays -180 where DeltaAngle gives 180. |
| Unity.YawAcrossNorth | Assets/Scripts/RotateHapticCombined.cs:111-116 | From 359 to 1 both the fold and DeltaAngle give a 2 degree turn. |
| Haptics.Latch | Assets/Scripts/RotateHaptic.cs:43-78 | An active frame sends its commands and sets the latch. An inactive frame clears it and sends the stop exactly when the latch was set, else nothing. |
| Haptics.LatchStopsOnce | Assets/Scripts/RotateHaptic.cs:67-78 | Of two inactive frames in a row the second sends nothing, and the inactive frame after an active one sends the stop. |
| Haptics.Deadzoned | Assets/Scripts/RotateHapticCombined.cs:206-207 | A hand speed below the deadzone becomes exactly 0; at or above it the speed is kept. |
| Haptics.BothHandsActive | Assets/Scripts/RotateHapticCombined.cs:210-212 | Two still hands never trigger the synergy. With a positive similarity it needs both hands moving. Equal speeds from 0.001 up trigger it for similarity at most 0.99. |
| Haptics.DominantSplit | Assets/Scripts/RotateHapticCombined.cs:216-235 | The strong share goes to the strictly faster hand, to the left hand on a tie, and the other hand gets the weak share. |
| Haptics.Gain | Assets/Scripts/RotateHapticCombined.cs:194 | The gained amplitude is in [0, 1], and 0 for a non-positive input with a non-negative gain. |
| Haptics.GainMonotone | Assets/Scripts/RotateHapticCombined.cs:194 | With a non-negative gain, a larger input never gives a smaller gained amplitude. |
| Haptics.HandSpeeds | Assets/Scripts/RotateHapticCombined.cs:199-207 | Both hand speeds are non-negative, and each is 0 or at least the deadzone. |
| Haptics.Boosted | Assets/Scripts/RotateHapticCombined.cs:213 | The base amplitude is multiplied by the boost exactly when the synergy holds. A boost of at least one never lowers it. |
| Haptics.ShareTargets | Assets/Scripts/RotateHapticCombined.cs:231-235 | Both targets are in [0, 1] even after the boost. With strong >= weak the faster hand (left on a tie) never gets less. Still hands get the unboosted clamped shares. |
| Haptics.ClampedShareOrder | Assets/Scripts/RotateHapticCombined.cs:231-232 | With 0 <= weak <= strong, the clamped strong share is at least the clamped weak share. |
| Haptics.SynergyExamples | Assets/Scripts/RotateHapticCombined.cs:210-228 | Equal speeds trigger the boost, a speed ratio of 8 does not, and the faster hand gets 0.9 against 0.35 on either side. |
| MotionPhase.PhaseStep | Assets/Scripts/RotateHapticCombined.cs:119-164 | See "PhaseStep in detail" below the table. |
| MotionPhase.PhaseStepV2 | Assets/Scripts/RotateHapticCombinedV2.cs:94-127 | Idle starts on speed >= up or yaw >= 3 x the yaw threshold. Moving → Idle needs both speed <= down and yaw <= threshold, and braking wins. Start and Brake behave as in PhaseStep. Every change resets the timer. With the yaw at or below its threshold it is PhaseStep. |
| MotionPhase.PhaseFrequency | Assets/Scripts/RotateHapticCombined.cs:168-177 | The carrier is baseFreq outside Brake. In Brake it is baseFreq + 0.15 clamped to 1, so in [0, 1] and never below baseFreq. |
| MotionPhase.MovingHoldsInBand | Assets/Scripts/RotateHapticCombined.cs:143-154 | Hysteresis: over any run of frames with speed above the down threshold and no braking, Moving stays Moving with its timer untouched. |
| MotionPhase.IdleHoldsBelowUp | Assets/Scripts/RotateHapticCombined.cs:121-127 | Over any run of frames below the up threshold, Idle is never left. |
| MotionPhase.StartHoldsUntilPulseEnds | Assets/Scripts/RotateHapticCombined.cs:129-141 | Without braking, Start lasts while its accumulated time stays below pulseDuration, and the timer is the elapsed time. |
| MotionPhase.StartPulseThenMoving | Assets/Scripts/RotateHapticCombined.cs:136-140 | On the first non-braking frame at which the accumulated time reaches pulseDuration, Start becomes Moving with the timer reset. |
| MotionPhase.MovingHoldsWhileTurningV2 | Assets/Scripts/RotateHapticCombinedV2.cs:113-116 | In the V2 machine, a run of frames that are fast enough or turning, and not braking, leaves Moving and its state unchanged. |
| MotionPhase.IdleHoldsV2 | Assets/Scripts/RotateHapticCombinedV2.cs:98-105 | In the V2 machine, a run of frames below speedUp and below three times the yaw threshold leaves Idle unchanged. |
| CombinedHaptics.Defaults | Assets/Scripts/RotateHapticCombined.cs:9-36 | The default settings are valid, down < up, weak < strong, the floor is in [0, 1], the boost is at least 1 and the gain is non-negative. |
| CombinedHaptics.Sense | Assets/Scripts/RotateHapticCombined.cs:94-116 | dt >= 1e-4. The velocity is the rigidbody's or the displacement over dt. vZ is its forward component and aZ times dt is the change of vZ. The yaw change is at most 180 for readings in [0, 360). |
| CombinedHaptics.BaseAmplitude | Assets/Scripts/RotateHapticCombined.cs:166-196 | The base amplitude is in [0, 1] or the active floor, at least the floor in any active phase, and 0 at rest without yaw. An in-place rotation alone is felt through the clamped yaw factor. |
| CombinedHaptics.Smooth | Assets/Scripts/RotateHapticCombined.cs:237-251 | At rest without yaw both amplitudes move toward 0 and (0, 0) is sent. Otherwise each moves toward its target and is sent at the phase frequency. Amplitudes and commands stay in [0, 1]. |
| CombinedHaptics.Step | Assets/Scripts/RotateHapticCombined.cs:84-260 | The phase follows PhaseStep on the sensed motion, and the previous-sample fields take this frame's values. Amplitudes and commands stay in [0, 1]. At rest the stop goes out. Otherwise both new amplitudes are sent at the phase's frequency, each moved from its old value towards its target share, the strong one on the faster hand. |
| CombinedHaptics.Stop | Assets/Scripts/RotateHapticCombined.cs:262-267 | StopHaptics zeroes both amplitudes, leaves the rest, keeps the invariant and sends (0, 0) to both hands. |
| CombinedHaptics.StopIdempotent | Assets/Scripts/RotateHapticCombined.cs:262-269 | Stopping twice is the same as stopping once. |
| CombinedHaptics.RotateHapticCombined.constructor | Assets/Scripts/RotateHapticCombined.cs:57-61 | Start seeds the previous position and yaw from the frame, in Idle with silent amplitudes. |
| CombinedHaptics.RotateHapticCombined.Update | Assets/Scripts/RotateHapticCombined.cs:84-260 | Update performs exactly Step and keeps the invariant. |
| CombinedHaptics.RotateHapticCombined.AdvancePhase | Assets/Scripts/RotateHapticCombined.cs:119-164 | The switch statement moves the fields exactly as PhaseStep. |
| CombinedHaptics.RotateHapticCombined.SmoothAndSend | Assets/Scripts/RotateHapticCombined.cs:237-251 | The smoothing and the two SetControllerVibration calls are exactly Smooth. |
| CombinedHaptics.RotateHapticCombined.StopHaptics | Assets/Scripts/RotateHapticCombined.cs:262-269 | StopHaptics and OnDisable perform exactly Stop. |
| TemporalHaptics.Defaults | Assets/Scripts/RotateHapticTemporal.cs:17-57 | The defaults are valid, use Auto velocity and the forward axis, and have down < up and weak < strong. |
| TemporalHaptics.WorldVelocity | Assets/Scripts/RotateHapticTemporal.cs:104-121 | The rigidbody velocity is used iff the mode is Rigidbody, or Auto with a non-kinematic body, and it is not near zero (sqrMagnitude < 1e-6 falls back to the displacement over dt). Forced Rigidbody without a body is the throwing frame. |
| TemporalHaptics.ProjectionAxisUnitOrZero | Assets/Scripts/RotateHapticTemporal.cs:123-131 | The projection axis is the chosen one (forward, right or the rotated custom axis) normalized: length one, or zero exactly for a degenerate axis. |
| TemporalHaptics.Sense | Assets/Scripts/RotateHapticTemporal.cs:101-138 | Only the throwing frame has no motion. Otherwise dt is guarded, the velocity is WorldVelocity, vZ is along the axis, and aZ times dt is the change of vZ. |
| TemporalHaptics.BaseAmplitude | Assets/Scripts/RotateHapticTemporal.cs:163-182 | The base amplitude is in [0, 1], 0 in Idle and at least the floor otherwise. This variant has no yaw input. |
| TemporalHaptics.Targets | Assets/Scripts/RotateHapticTemporal.cs:184-201 | Both targets are in [0, 1] even after the boost, and zero in Idle. |
| TemporalHaptics.Output | Assets/Scripts/RotateHapticTemporal.cs:203-218 | Idle sends (0, 0). Other phases send the smoothed amplitudes, each between its old value and its target. A zero deltaTime freezes the amplitudes, a full step silences Idle at once, and the [0, 1] invariant is kept. |
| TemporalHaptics.Sampled | Assets/Scripts/RotateHapticTemporal.cs:137-161 | The phase follows PhaseStep and the previous position and velocity take this frame's values. |
| TemporalHaptics.Respond | Assets/Scripts/RotateHapticTemporal.cs:163-218 | Steps 3 to 5 keep the invariant, send (0, 0) in Idle, and otherwise send the smoothed shares at the phase frequency. |
| TemporalHaptics.Step | Assets/Scripts/RotateHapticTemporal.cs:90-222 | The frame throws iff forced Rigidbody mode has no body. Otherwise it senses, advances the phase and responds, keeping amplitudes and commands in [0, 1]; Idle sends (0, 0). |
| TemporalHaptics.RotateHapticTemporal.constructor | Assets/Scripts/RotateHapticTemporal.cs:64-67 | Start seeds the previous position, in Idle with silent amplitudes. |
| TemporalHaptics.RotateHapticTemporal.Update | Assets/Scripts/RotateHapticTemporal.cs:90-222 | On a completed frame Update performs Sampled and then Respond. On the throwing frame it changes nothing and sends nothing. |
| TemporalHaptics.RotateHapticTemporal.SenseMotion | Assets/Scripts/RotateHapticTemporal.cs:101-138 | Computes Sense and stores this frame's position and velocity, or stops (fields untouched) on the throwing frame. |
| TemporalHaptics.RotateHapticTemporal.AdvancePhase | Assets/Scripts/RotateHapticTemporal.cs:141-161 | The switch moves the fields exactly as PhaseStep. |
| TemporalHaptics.RotateHapticTemporal.RespondAndSend | Assets/Scripts/RotateHapticTemporal.cs:163-218 | Performs Respond. |
| TemporalHaptics.RotateHapticTemporal.SmoothAndSend | Assets/Scripts/RotateHapticTemporal.cs:203-218 | Performs Output. |
| TemporalHaptics.RotateHapticTemporal.StopAll | Assets/Scripts/RotateHapticTemporal.cs:224-230 | StopAll sends (0, 0) to both hands and leaves `_ampL` and `_ampR` unchanged. |
| CombinedHapticsV2.Defaults | Assets/Scripts/RotateHapticCombinedV2.cs:12-37 | The defaults are valid with a non-negative floor and boost, and have down < up, weak < strong and a boost above 1. |
| CombinedHapticsV2.Ceiling | Assets/Scripts/RotateHapticCombinedV2.cs:156-171 | The largest unclamped target, floor times boost (each at least 1), is at least 1. |
| CombinedHapticsV2.Sense | Assets/Scripts/RotateHapticCombinedV2.cs:65-81 | dt >= 1e-4, the rigidbody velocity when present, and the DeltaAngle yaw change in [0, 180] for any two readings. |
| CombinedHapticsV2.SenseMeasures | Assets/Scripts/RotateHapticCombinedV2.cs:68-72 | Without a rigidbody the velocity times dt is the displacement. vZ is the forward component and aZ times dt is its change. |
| CombinedHapticsV2.BaseAmplitude | Assets/Scripts/RotateHapticCombinedV2.cs:129-152 | CalculateBaseAmplitude returns a value in [0, 1], and 0 in Idle. |
| CombinedHapticsV2.BaseAmplitudeCurves | Assets/Scripts/RotateHapticCombinedV2.cs:134-149 | In Start the yaw start curve is used iff yawAbs > 10 x speedAbs, else the forward one. Brake uses the brake curve. In Moving the cruise curve is raised to yawAbs x yawGain only above the yaw threshold. |
| CombinedHapticsV2.YawFloorOnlyInMoving | Assets/Scripts/RotateHapticCombinedV2.cs:143-149 | Outside Moving above the threshold and the start-curve choice, two yaws give the same base amplitude: the yaw floor applies only in Moving. |
| CombinedHapticsV2.Frequency | Assets/Scripts/RotateHapticCombinedV2.cs:88 | The frequency is baseFreq + 0.15 exactly in Brake and baseFreq otherwise. It is not clamped, so it exceeds 1 for baseFreq > 0.85. |
| CombinedHapticsV2.HandSpeeds3D | Assets/Scripts/RotateHapticCombinedV2.cs:158-161 | Both 3-D hand speeds are non-negative, and each is 0 or at least the deadzone. |
| CombinedHapticsV2.HandSpeeds3DMeasure | Assets/Scripts/RotateHapticCombinedV2.cs:158-161 | A counted speed squared is the full 3-D squared magnitude, vertical part included. A hand at rest counts as still. |
| CombinedHapticsV2.Floored | Assets/Scripts/RotateHapticCombinedV2.cs:156 | Outside Idle the amplitude is raised to the floor; in [0, max(1, floor)] for an input in [0, 1]. |
| CombinedHapticsV2.Boost | Assets/Scripts/RotateHapticCombinedV2.cs:163-165 | The amplitude is multiplied by the boost exactly when both hands move alike. |
| CombinedHapticsV2.BoostBound | Assets/Scripts/RotateHapticCombinedV2.cs:163-165 | A non-negative boost keeps the amplitude in [0, amp x max(1, boost)]. |
| CombinedHapticsV2.Shares | Assets/Scripts/RotateHapticCombinedV2.cs:168-171 | The targets are strongAmp x b and weakAmp x b with no clamp; the strong one goes to the faster hand, the left on a tie. |
| CombinedHapticsV2.SharesBounded | Assets/Scripts/RotateHapticCombinedV2.cs:170-171 | Without a clamp the targets are still bounded by the boosted amplitude. |
| CombinedHapticsV2.SharesFavourFaster | Assets/Scripts/RotateHapticCombinedV2.cs:168-171 | With weak <= strong the faster hand never gets less than the other. |
| CombinedHapticsV2.UnderCeiling | Assets/Scripts/RotateHapticCombinedV2.cs:156-165 | The floored amplitude times the boost stays under the ceiling. |
| CombinedHapticsV2.TargetsWithinCeiling | Assets/Scripts/RotateHapticCombinedV2.cs:156-171 | With a base amplitude in [0, 1], both unclamped targets stay in [0, Ceiling]. |
| CombinedHapticsV2.Distribute | Assets/Scripts/RotateHapticCombinedV2.cs:173-182 | The smoothing changes only the amplitudes. |
| CombinedHapticsV2.DistributeMoves | Assets/Scripts/RotateHapticCombinedV2.cs:173-182 | In Idle without yaw both amplitudes move toward 0, otherwise toward their targets, so [0, Ceiling] is preserved. |
| CombinedHapticsV2.Output | Assets/Scripts/RotateHapticCombinedV2.cs:184-185 | Both amplitudes are sent every frame at one frequency, which is raised by 0.15 exactly in Brake. |
| CombinedHapticsV2.Sampled | Assets/Scripts/RotateHapticCombinedV2.cs:79-84 | The phase follows PhaseStepV2, and the previous position, velocity and yaw take this frame's values. |
| CombinedHapticsV2.Step | Assets/Scripts/RotateHapticCombinedV2.cs:63-92 | The phase follows PhaseStepV2, and the amplitudes decay when quiet and otherwise approach the targets. With a non-negative floor and boost the invariant [0, Ceiling] is kept. |
| CombinedHapticsV2.TargetsExceedOne | Assets/Scripts/RotateHapticCombinedV2.cs:163-171 | With the defaults a full cruise with both hands alike commands 1.125 > 1 on the dominant hand. |
| CombinedHapticsV2.Stop | Assets/Scripts/RotateHapticCombinedV2.cs:227-232 | StopHaptics zeroes both amplitudes, keeps the rest and sends (0, 0). |
| CombinedHapticsV2.StopKeepsInvariant | Assets/Scripts/RotateHapticCombinedV2.cs:227-234 | A stop keeps the invariant, and stopping twice is stopping once. |
| CombinedHapticsV2.RotateHapticCombinedV2.constructor | Assets/Scripts/RotateHapticCombinedV2.cs:54-61 | Start seeds the previous position and yaw, in Idle with silent amplitudes. |
| CombinedHapticsV2.RotateHapticCombinedV2.Update | Assets/Scripts/RotateHapticCombinedV2.cs:63-92 | Update performs Step and sends Output of the new state. With a non-negative floor and boost it keeps the [0, Ceiling] invariant. |
| CombinedHapticsV2.RotateHapticCombinedV2.SenseMotion | Assets/Scripts/RotateHapticCombinedV2.cs:65-81 | Computes Sense and stores this frame's position, velocity and yaw. |
| CombinedHapticsV2.RotateHapticCombinedV2.UpdatePhase | Assets/Scripts/RotateHapticCombinedV2.cs:94-127 | The switch moves the fields exactly as PhaseStepV2. |
| CombinedHapticsV2.RotateHapticCombinedV2.DistributeHaptics | Assets/Scripts/RotateHapticCombinedV2.cs:173-185 | Performs Distribute and sends both amplitudes at the given frequency. |
| CombinedHapticsV2.RotateHapticCombinedV2.StopHaptics | Assets/Scripts/RotateHapticCombinedV2.cs:227-234 | Performs Stop. |
| RotationHaptics2.Defaults | Assets/Scripts/RotateHaptic2.cs:5-41 | The defaults are valid, not heavy, weak < strong in amplitude and frequency, and have non-negative boosts and gain. |
| RotationHaptics2.Sense | Assets/Scripts/RotateHaptic2.cs:62-81 | dt >= 1e-4, DeltaAngle in (-180, 180], and the cart velocity is the rigidbody's, or zero without one. |
| RotationHaptics2.SenseMeasures | Assets/Scripts/RotateHaptic2.cs:66-80 | angularSpeed times dt is the delta, and accelZ times dt is the change of the forward speed. |
| RotationHaptics2.ActiveIff | Assets/Scripts/RotateHaptic2.cs:84 | The active branch runs iff abs(delta) > threshold or the signed angular speed > 2. A fast turn to the left below the threshold stays inactive. |
| RotationHaptics2.RotScale | Assets/Scripts/RotateHaptic2.cs:87 | rotScale is in [0, 1], 0 for a turn to the left, and 1 from rotationToMaxSpeed on. |
| RotationHaptics2.InertiaEffort | Assets/Scripts/RotateHaptic2.cs:94 | The effort is non-negative for a non-negative gain, and 0 inside the deadzone. |
| RotationHaptics2.RawTargets | Assets/Scripts/RotateHaptic2.cs:90-98 | Strong is at least minAmpWhileActive and weak at least half of it, each at least its scaled share plus its effort. |
| RotationHaptics2.Synergy | Assets/Scripts/RotateHaptic2.cs:101-103 | The synergy needs the faster hand above 0.1 (which guards the division), and both hands moving for a positive similarity. Equal speeds above 0.1 trigger it. |
| RotationHaptics2.Boost | Assets/Scripts/RotateHaptic2.cs:101-107 | With neither hand above 0.1 the targets are unchanged; with the synergy both are multiplied by the boost. A boost of at least one never lowers them. |
| RotationHaptics2.TargetsFloors | Assets/Scripts/RotateHaptic2.cs:97-107 | The floors hold before the boost, and still hold after a boost of at least one. |
| RotationHaptics2.Amplitudes | Assets/Scripts/RotateHaptic2.cs:110-112 | Final amplitudes are in [0, 1], with the clamped strong target on the faster hand, the left on a tie. |
| RotationHaptics2.FreqLift | Assets/Scripts/RotateHaptic2.cs:115-116 | The acceleration lift is non-negative for a non-negative boost. |
| RotationHaptics2.Frequencies | Assets/Scripts/RotateHaptic2.cs:115-116 | Both frequencies are in [0, 1]: the clamped strong one on the faster hand and never below the set frequency. |
| RotationHaptics2.Drive | Assets/Scripts/RotateHaptic2.cs:119-129 | The active branch sets the latch, moves each amplitude toward its clamped target and sends both with their frequencies. |
| RotationHaptics2.Release | Assets/Scripts/RotateHaptic2.cs:131-146 | Unlatched, nothing changes and nothing is sent. Latched, both amplitudes decay, (0, 0) is sent, and the latch clears only once `_ampL` < 0.01. |
| RotationHaptics2.Step | Assets/Scripts/RotateHaptic2.cs:60-149 | The yaw is remembered every frame. The active, latched-inactive and idle branches are as above, and amplitudes and commands stay in [0, 1]. |
| RotationHaptics2.StepSmooths | Assets/Scripts/RotateHaptic2.cs:110-124 | While active each amplitude moves from its old value toward its clamped share. |
| RotationHaptics2.RotateHaptic2.constructor | Assets/Scripts/RotateHaptic2.cs:54-58 | Start reads the yaw and takes the cart as still, unlatched and silent. |
| RotationHaptics2.RotateHaptic2.Update | Assets/Scripts/RotateHaptic2.cs:60-149 | Update performs exactly Step and keeps the invariant. |
| RotationHaptics2.RotateHaptic2.SenseMotion | Assets/Scripts/RotateHaptic2.cs:62-81 | Computes Sense and stores the cart velocity. |
| RotationHaptics2.RotateHaptic2.DriveHaptics | Assets/Scripts/RotateHaptic2.cs:119-129 | Performs Drive on the amplitudes that Update derives from Targets, the reference definition of lines 90-107 (floors in TargetsFloors). |
| RotationHaptics2.RotateHaptic2.ReleaseHaptics | Assets/Scripts/RotateHaptic2.cs:131-146 | Performs Release. |
| RotationHaptics2.RotateHaptic2.Disable | Assets/Scripts/RotateHaptic2.cs:151 | OnDisable stops only the left controller, which is not the two-hand stop. |
| RotationHaptics.Defaults | Assets/Scripts/RotateHaptic.cs:5-18 | The defaults are valid, not heavy, and have weak < strong in amplitude and frequency. |
| RotationHaptics.Levels | Assets/Scripts/RotateHaptic.cs:37-41 | The weight-adjusted levels are in [0, 1], unchanged without the heavy option, and never weaker with a multiplier of at least one. |
| RotationHaptics.Commands | Assets/Scripts/RotateHaptic.cs:47-60 | A negative delta drives the left hand strong and the right weak; a delta >= 0 the reverse. All commands are in [0, 1]. |
| RotationHaptics.Step | Assets/Scripts/RotateHaptic.cs:28-81 | The yaw is remembered. Vibration is commanded iff abs(folded delta) > threshold. The stop goes out only on the vibrating → idle frame, and commands stay in [0, 1]. |
| RotationHaptics.StillFramesSendOneStop | Assets/Scripts/RotateHaptic.cs:67-78 | The second of two still frames sends nothing. |
| RotationHaptics.TurnAcrossNorth | Assets/Scripts/RotateHaptic.cs:30-60 | From 359 to 1 with the defaults the right hand gets (0.9, 0.8) and the left (0.2, 0.2). |
| RotationHaptics.RotateHaptic.constructor | Assets/Scripts/RotateHaptic.cs:23-26 | Start reads the yaw and is not vibrating. |
| RotationHaptics.RotateHaptic.Update | Assets/Scripts/RotateHaptic.cs:28-81 | Update performs exactly Step. |
| RotationHaptics.RotateHaptic.Disable | Assets/Scripts/RotateHaptic.cs:83-87 | OnDisable sends (0, 0) to both hands. |
| TestHaptics.Defaults | Assets/Scripts/testhaptic.cs:5-26 | The defaults are valid, not heavy, and have weak < strong in amplitude and frequency. |
| TestHaptics.Levels | Assets/Scripts/testhaptic.cs:58-59 | With the heavy option the levels are clamped to [0, 1]; without it they are as set. |
| TestHaptics.ScaleDivisor | Assets/Scripts/testhaptic.cs:65 | The divisor of rotScale is at least 1e-3. |
| TestHaptics.RotScale | Assets/Scripts/testhaptic.cs:65 | rotScale is in [0, 1] and 1 from the divisor on. |
| TestHaptics.Dominance | Assets/Scripts/testhaptic.cs:71-73 | Dominance is in [0, 1], 0 for equal speeds and 1 when only one hand moves (at 1e-4 or more). |
| TestHaptics.ScalesAreRatios | Assets/Scripts/testhaptic.cs:65-73 | Below the divisor rotScale is the turn over the divisor, and the dominance is the speed difference over the guarded sum. |
| TestHaptics.Scaled | Assets/Scripts/testhaptic.cs:75-76 | strongScaled is strong x rotScale. weakScaled lies between 0.6 x strongScaled and weak x rotScale, at either end for dominance 0 or 1. Both are in [0, 1]. |
| TestHaptics.Commands | Assets/Scripts/testhaptic.cs:68-88 | The left hand gets strong amplitude and frequency iff lSpeed >= rSpeed, and all commands are in [0, 1]. |
| TestHaptics.Step | Assets/Scripts/testhaptic.cs:36-102 | The yaw is remembered. Vibration iff abs(folded delta) > threshold, with deadzoned hand speeds. The stop goes out only on the vibrating → idle frame. |
| TestHaptics.DominanceShapesWeakHand | Assets/Scripts/testhaptic.cs:71-76 | With both hands alike the weaker hand gets 60% of strong; with one hand only it gets the weak level. |
| TestHaptics.TestHaptic.constructor | Assets/Scripts/testhaptic.cs:31-34 | Start reads the yaw and is not vibrating. |
| TestHaptics.TestHaptic.Update | Assets/Scripts/testhaptic.cs:36-102 | Update performs exactly Step. |
| TestHaptics.TestHaptic.Disable | Assets/Scripts/testhaptic.cs:104-108 | OnDisable sends (0, 0) to both hands. |
| AsymmetricHaptics.Defaults | Assets/Scripts/RotateHapticAsymmetric.cs:9-21 | The defaults are valid with weak < strong and resist < drive. |
| AsymmetricHaptics.TangentialIgnoresRadialAndVertical | Assets/Scripts/RotateHapticAsymmetric.cs:41-42 | Moving toward or away from the cart's centre, or vertically, gives no speed around the cart. |
| AsymmetricHaptics.LeftDominant | Assets/Scripts/RotateHapticAsymmetric.cs:54 | Left dominates iff abs(sL) > abs(sR), strictly, so ties go right. |
| AsymmetricHaptics.Fade | Assets/Scripts/RotateHapticAsymmetric.cs:76-87 | SmoothToZero moves both amplitudes toward 0 and sends both at driveFreq. |
| AsymmetricHaptics.Drive | Assets/Scripts/RotateHapticAsymmetric.cs:54-73 | The dominant hand moves toward strongAmp at driveFreq and the other toward weakAmp at resistFreq. |
| AsymmetricHaptics.Step | Assets/Scripts/RotateHapticAsymmetric.cs:25-74 | Without a grab both amplitudes are cleared and (0, 0) is sent. A slow turn only fades; otherwise the hands are driven. |
| AsymmetricHaptics.StepKeepsInvariant | Assets/Scripts/RotateHapticAsymmetric.cs:25-94 | The amplitudes stay in [0, 1] and every command is in range. |
| AsymmetricHaptics.SlowTurnOnlyFades | Assets/Scripts/RotateHapticAsymmetric.cs:47-51 | Below minYawSpeed no amplitude rises. |
| AsymmetricHaptics.RotateHapticAsymmetric.constructor | Assets/Scripts/RotateHapticAsymmetric.cs:23 | Both amplitudes start at zero. |
| AsymmetricHaptics.RotateHapticAsymmetric.Update | Assets/Scripts/RotateHapticAsymmetric.cs:25-74 | Update performs exactly Step. |
| AsymmetricHaptics.RotateHapticAsymmetric.DriveAmplitudes | Assets/Scripts/RotateHapticAsymmetric.cs:54-73 | Performs Drive. |
| AsymmetricHaptics.RotateHapticAsymmetric.MoveToward | Assets/Scripts/RotateHapticAsymmetric.cs:59-73 | Lerps both amplitudes at smooth x dt and sends them. |
| AsymmetricHaptics.RotateHapticAsymmetric.SmoothToZero | Assets/Scripts/RotateHapticAsymmetric.cs:76-81 | Performs Fade. |
| AsymmetricHaptics.RotateHapticAsymmetric.Apply | Assets/Scripts/RotateHapticAsymmetric.cs:83-87 | Sends both current amplitudes at driveFreq. |
| AsymmetricHaptics.RotateHapticAsymmetric.StopHaptics | Assets/Scripts/RotateHapticAsymmetric.cs:89-96 | Zeroes both amplitudes and sends (0, 0). |
| CartHapticPhysics.Defaults | Assets/Scripts/CartHapticPhysicsManager.cs:20-26 | granularFrequency is in [0.01, 0.2]. |
| CartHapticPhysics.HapticDt | Assets/Scripts/CartHapticPhysicsManager.cs:56 | dt is the frame time when positive and 0.01 otherwise. |
| CartHapticPhysics.Target | Assets/Scripts/CartHapticPhysicsManager.cs:70 | The target intensity is in [0, 1], 0 at the deadzone and 1 from the deadzone + 0.5 on. |
| CartHapticPhysics.NextIntensity | Assets/Scripts/CartHapticPhysicsManager.cs:59-72 | Below the deadzone the intensity moves toward 0, otherwise toward the target times the effort curve at speed / 3 clamped to [0, 1]. |
| CartHapticPhysics.Leader | Assets/Scripts/CartHapticPhysicsManager.cs:84-85 | The leader is the left hand iff it is strictly faster; ties go right. |
| CartHapticPhysics.Pulse | Assets/Scripts/CartHapticPhysicsManager.cs:93-100 | The timer fires iff it reaches granularFrequency, and then resets to 0. |
| CartHapticPhysics.Commands | Assets/Scripts/CartHapticPhysicsManager.cs:90-105 | The leader pulse at 0.8 is sent only when the timer fires; the anchor (the other hand) gets 0.1 every call. |
| CartHapticPhysics.Step | Assets/Scripts/CartHapticPhysicsManager.cs:37-51 | Without a grab everything stops and the intensity is 0. The intensity ends 0 or above 0.01, and the stop is sent exactly when it is 0. The last position is always refreshed. |
| CartHapticPhysics.FadesBelowDeadzone | Assets/Scripts/CartHapticPhysicsManager.cs:60-63 | Below the deadzone a non-negative intensity only falls. |
| CartHapticPhysics.StaysInUnit | Assets/Scripts/CartHapticPhysicsManager.cs:53-105 | With an effort curve into [0, 1], the intensity and all commands stay in [0, 1]. |
| CartHapticPhysics.NextIntensityInUnit | Assets/Scripts/CartHapticPhysicsManager.cs:59-72 | The smoothed intensity stays in [0, 1]. |
| CartHapticPhysics.CommandsInUnit | Assets/Scripts/CartHapticPhysicsManager.cs:90-105 | Commands from intensities in [0, 1] are in [0, 1]. |
| CartHapticPhysics.TimerStaysBelowPeriod | Assets/Scripts/CartHapticPhysicsManager.cs:93-100 | For a non-negative frame time the pulse timer stays in [0, granularFrequency). |
| CartHapticPhysics.CartHapticPhysicsManager.constructor | Assets/Scripts/CartHapticPhysicsManager.cs:28-35 | Timer and intensity start at 0 and the last position is the rigidbody's. |
| CartHapticPhysics.CartHapticPhysicsManager.Update | Assets/Scripts/CartHapticPhysicsManager.cs:37-51 | Update performs exactly Step. |
| CartHapticPhysics.CartHapticPhysicsManager.HandleAsymmetricHaptics | Assets/Scripts/CartHapticPhysicsManager.cs:53-88 | Performs Handle, the reference definition of lines 53-88, whose results Step's contract and the lemmas beside it characterise. |
| CartHapticPhysics.CartHapticPhysicsManager.SmoothIntensity | Assets/Scripts/CartHapticPhysicsManager.cs:59-72 | The intensity becomes NextIntensity. |
| CartHapticPhysics.CartHapticPhysicsManager.ApplyCustomHaptics | Assets/Scripts/CartHapticPhysicsManager.cs:90-105 | The timer follows Pulse and the commands are Commands. |
| CartHapticPhysics.CartHapticPhysicsManager.StopAllHaptics | Assets/Scripts/CartHapticPhysicsManager.cs:107-112 | The intensity is 0 and (0, 0) goes to both hands. |
| SimpleCartHaptics.Defaults | Assets/Scripts/SimpleCartHaptics.cs:10-11 | Both scales are positive. |
| SimpleCartHaptics.LeadingHand | Assets/Scripts/SimpleCartHaptics.cs:16 | The right hand leads iff the angular velocity is positive. |
| SimpleCartHaptics.LeadingAmp | Assets/Scripts/SimpleCartHaptics.cs:22 | leadingAmp is in [0.05, 0.4], and inside that band it is the speed over maxVelocity. |
| SimpleCartHaptics.AnchorAmp | Assets/Scripts/SimpleCartHaptics.cs:27 | anchorAmp is in [0.1, 0.6], and inside that band it is the angle over maxAngle. |
| SimpleCartHaptics.Commands | Assets/Scripts/SimpleCartHaptics.cs:13-32 | The leader gets frequency 0.8 with the leading amplitude and the opposing hand 0.25 with the anchor amplitude, always on different hands, all in [0, 1]. A non-positive velocity leads left. |
| HeavyCart.Defaults | Assets/Scripts/gittest.cs:6-7 | minGain <= 1 and sensitivity >= 0. |
| HeavyCart.CdGain | Assets/Scripts/gittest.cs:21 | With exp in (0, 1] for non-positive arguments, the C/D gain is in [minGain, 1]. |
| HeavyCart.Discrepancy | Assets/Scripts/gittest.cs:32 | The discrepancy is non-negative and at most abs(omega) x (1 - minGain). |
| HeavyCart.LeadingAmp | Assets/Scripts/gittest.cs:39 | leadingAmp is in [0, 0.4] and is abs(omega) x 0.2 up to abs(omega) = 2. |
| HeavyCart.AnchorAmp | Assets/Scripts/gittest.cs:44 | anchorAmp is in [0.1, 0.8] and is half the discrepancy between 0.2 and 1.6. |
| HeavyCart.Commands | Assets/Scripts/gittest.cs:36-46 | The right hand always leads at frequency 0.8 with the leading amplitude, and the left anchors at frequency 0.2 with the anchor amplitude, all in [0, 1]. |
| HeavyCart.AtRest | Assets/Scripts/gittest.cs:21-45 | At rest the gain is 1, there is no discrepancy, and the hands get (0.8, 0) and (0.2, 0.1). |
| HeavyCart.HeavyCartController.constructor | Assets/Scripts/gittest.cs:11 | The virtual rotation starts at 0. |
| HeavyCart.HeavyCartController.Update | Assets/Scripts/gittest.cs:13-34 | virtualRotationZ grows by exactly omega x gain x dt x Rad2Deg, and the commands are Commands of the discrepancy. |
| HeavyCart.HeavyCartController.ControlDisplayGain | Assets/Scripts/gittest.cs:21 | Computes CdGain. |
| HeavyCart.HeavyCartController.ApplyAsymmetricHaptics | Assets/Scripts/gittest.cs:36-46 | Sends Commands. |
| Player.Defaults | Assets/Scripts/PlayerController.cs:11-20 | Snap mode with a positive snap angle. |
| Player.Turn | Assets/Scripts/PlayerController.cs:57-79 | A smooth turn is x x rotationSpeed x dt. A snap turns only when armed and abs(x) > 0.8, by abs(snapTurnAngle), in the stick's direction. |
| Player.Latch | Assets/Scripts/PlayerController.cs:66-77 | A snap disarms the latch, a centred stick (abs(x) < 0.2) re-arms it, and anything in between leaves it. |
| Player.Step | Assets/Scripts/PlayerController.cs:52-80 | The heading grows by Turn. The latch follows Latch and is re-armed only by a centred stick. |
| Player.OneSnapPerPush | Assets/Scripts/PlayerController.cs:66-77 | Over any frames that never centre the stick there is at most one snap, and none once the latch is disarmed. |
| Player.PlayerController.constructor | Assets/Scripts/PlayerController.cs:20 | The latch starts armed. |
| Player.PlayerController.Update | Assets/Scripts/PlayerController.cs:29-33 | The rotation half of Update performs Step. |
| Player.PlayerController.HandleRotation | Assets/Scripts/PlayerController.cs:52-80 | Performs Step. |
| ResidualMotion.Defaults | Assets/Scripts/CartResidualMotion.cs:14-30 | The defaults are valid and ordered, with a positive minimum window. |
| ResidualMotion.Offset | Assets/Scripts/CartResidualMotion.cs:172-173 | The hand offset is horizontal. |
| ResidualMotion.TangentialSpeed | Assets/Scripts/CartResidualMotion.cs:170-180 | The tangential speed is 0 when the horizontal offset's squared length is below 1e-4. |
| ResidualMotion.TangentIsPerpendicularUnit | Assets/Scripts/CartResidualMotion.cs:178-179 | Otherwise the tangent is horizontal, has length one and is perpendicular to the offset: radial motion contributes nothing and motion along the tangent counts in full. |
| ResidualMotion.LinearSpeed | Assets/Scripts/CartResidualMotion.cs:104-109 | linearSpeed is in [0, maxLinearSpeed] and is the mean hand speed inside it. |
| ResidualMotion.Speed01 | Assets/Scripts/CartResidualMotion.cs:111 | speed01 is in [0, 1] and is the speed over the cap. |
| ResidualMotion.AngularImpulse | Assets/Scripts/CartResidualMotion.cs:120-133 | The angular impulse is in [-max, max]. |
| ResidualMotion.ImpulseSign | Assets/Scripts/CartResidualMotion.cs:120-133 | With the tuning ordered, the impulse is >= 0 for input >= 0 and <= 0 for negative input. With positive gains and cap it is >= 0 exactly when the input is. |
| ResidualMotion.InertiaTime | Assets/Scripts/CartResidualMotion.cs:138 | inertiaTimer lies between minInertiaTime and maxInertiaTime. |
| ResidualMotion.InertiaDrag | Assets/Scripts/CartResidualMotion.cs:140 | The drag lies between minInertiaDrag and maxInertiaDrag. |
| ResidualMotion.InertiaAngularDrag | Assets/Scripts/CartResidualMotion.cs:141 | The angular drag is in [3, 6]. |
| ResidualMotion.DragDoesNotIncrease | Assets/Scripts/CartResidualMotion.cs:140 | The drag does not increase with speed01. |
| ResidualMotion.ReleaseOf | Assets/Scripts/CartResidualMotion.cs:104-133 | The release values are within their bounds, and the tangential speeds come from the cached velocities. |
| ResidualMotion.Apply | Assets/Scripts/CartResidualMotion.cs:96-141 | ApplyResidualMotion sets the window and both drags from the release speed and changes nothing else. |
| ResidualMotion.Recover | Assets/Scripts/CartResidualMotion.cs:63-72 | A running window counts down by deltaTime; an expired one restores the normal drags. |
| ResidualMotion.Cache | Assets/Scripts/CartResidualMotion.cs:51-54 | The velocities are cached only while grabbing. |
| ResidualMotion.Step | Assets/Scripts/CartResidualMotion.cs:47-73 | The release happens exactly on a grabbing → not-grabbing edge, from the cached velocities. wasGrabbing follows the frame. Without a release the window counts down or restores the drags. |
| ResidualMotion.ReleaseOpensWindow | Assets/Scripts/CartResidualMotion.cs:56-72 | A release overwrites the window, whatever was left of it, and counts it down from this frame. |
| ResidualMotion.ReleaseBounds | Assets/Scripts/CartResidualMotion.cs:104-141 | On a release all values lie in their documented ranges. |
| ResidualMotion.OneReleasePerGrab | Assets/Scripts/CartResidualMotion.cs:56-61 | The frame after a non-grabbing frame never releases: one release per grab. |
| ResidualMotion.CartResidualMotion.constructor | Assets/Scripts/CartResidualMotion.cs:36-40 | Not grabbing, with no window and the rigidbody's drags. |
| ResidualMotion.CartResidualMotion.Update | Assets/Scripts/CartResidualMotion.cs:47-73 | Update performs exactly Step. |
| ResidualMotion.CartResidualMotion.CacheControllerVelocity | Assets/Scripts/CartResidualMotion.cs:78-91 | Stores both velocities. |
| ResidualMotion.CartResidualMotion.ApplyResidualMotion | Assets/Scripts/CartResidualMotion.cs:96-165 | Performs Apply. |
| CartPhysics.Defaults | Assets/Scripts/CartPhysics.cs:14-20 | The dampings and caps are non-negative. |
| CartPhysics.Present | Assets/Scripts/CartPhysics.cs:124-131 | A hand is listed exactly when some non-null selecting interactor carries it. |
| CartPhysics.SelectedMembers | Assets/Scripts/CartPhysics.cs:118-139 | Selected, the reference list of RefreshActiveHands' loops, holds a hand exactly when some non-null interactable has it among its selecting interactors. |
| CartPhysics.Dedup | Assets/Scripts/CartPhysics.cs:130-131 | The list has no duplicates and holds exactly the hands seen. |
| CartPhysics.Refresh | Assets/Scripts/CartPhysics.cs:113-146 | After RefreshActiveHands there are no duplicates, and the table's keys are exactly the active hands, which are the selecting ones. Kept entries are unchanged; new ones are seeded with the current position. |
| CartPhysics.HandVelocity | Assets/Scripts/CartPhysics.cs:50-54 | A hand's velocity has y = 0, and is zero or at least the deadzone in squared length; an unmoved hand gives zero. |
| CartPhysics.PushOf | Assets/Scripts/CartPhysics.cs:50-59 | A push acts at the hand with a horizontal impulse, and is zero for an unmoved hand. |
| CartPhysics.Pushes | Assets/Scripts/CartPhysics.cs:39-62 | One push per active hand, in order, each from the table's last position. |
| CartPhysics.AdvanceIs | Assets/Scripts/CartPhysics.cs:61 | The loop's table is the old one with every listed hand's entry overwritten by its current position. |
| CartPhysics.AdvanceKeepsBookkept | Assets/Scripts/CartPhysics.cs:61 | Moving a consistent table to this frame's positions keeps its keys equal to the active hands, and every entry becomes the current position. |
| CartPhysics.AdvanceAway | Assets/Scripts/CartPhysics.cs:61 | Hands not in the list keep their entries. |
| CartPhysics.DampFactor | Assets/Scripts/CartPhysics.cs:101-102 | For non-negative damping and dt the factor is in (0, 1]. |
| CartPhysics.Damp | Assets/Scripts/CartPhysics.cs:98-106 | Defined whenever both divisors 1 + damping·dt are non-zero, whatever the signs. Damping keeps the vertical velocity and zeroes angular x and z. |
| CartPhysics.DampShrinks | Assets/Scripts/CartPhysics.cs:98-106 | With non-negative dampings and a positive dt, damping is defined and never speeds up linear x and z or the yaw rate. |
| CartPhysics.ShrinkBy | Assets/Scripts/CartPhysics.cs:104-105 | A factor in (0, 1] never increases a magnitude. |
| CartPhysics.YawKick | Assets/Scripts/CartPhysics.cs:74 | No turn between the hands adds no yaw rate. |
| CartPhysics.TwoHandTurn | Assets/Scripts/CartPhysics.cs:65-80 | The new direction is the normalized horizontal vector between the hands. Angular x and z are 0 and y is clamped. When there was no previous direction, the first two-hand step adds no turn: the yaw rate is only clamped. |
| CartPhysics.ClampLinear | Assets/Scripts/CartPhysics.cs:87-89 | The speed limit keeps y, and changes nothing under the cap. |
| CartPhysics.ClampLinearBound | Assets/Scripts/CartPhysics.cs:87-89 | With the true length the horizontal speed ends at or below maxLinearSpeed. |
| CartPhysics.ClampAngular | Assets/Scripts/CartPhysics.cs:92-95 | The yaw rate ends in [-max, max] with x and z = 0, and is unchanged inside. |
| CartPhysics.Turn | Assets/Scripts/CartPhysics.cs:65-84 | With fewer than two hands the stored direction resets to zero and the yaw is untouched. |
| CartPhysics.Drive | Assets/Scripts/CartPhysics.cs:36-95 | After the refresh the bookkeeping holds, entries are current positions, pushes are Pushes, the yaw is limited and the vertical velocity is kept. |
| CartPhysics.Step | Assets/Scripts/CartPhysics.cs:29-96 | See "Step in detail" below the table. |
| CartPhysics.FirstStepDoesNotPush | Assets/Scripts/CartPhysics.cs:43-48 | A hand without a table entry before the step pushes nothing on its first step. |
| CartPhysics.StepSpeedBound | Assets/Scripts/CartPhysics.cs:87-89 | Whenever a hand grabs and the cap is non-negative, with the true length the horizontal speed ends within the cap. |
| CartPhysics.CartPhysicsInteraction.constructor | Assets/Scripts/CartPhysics.cs:23-25 | No hands, an empty table and a zero direction. |
| CartPhysics.CartPhysicsInteraction.FixedUpdate | Assets/Scripts/CartPhysics.cs:29-96 | For any tuning with non-zero damping divisors, FixedUpdate performs exactly Step and keeps the bookkeeping invariant. |
| CartPhysics.CartPhysicsInteraction.DriveHands | Assets/Scripts/CartPhysics.cs:36-95 | Performs Drive. |
| CartPhysics.CartPhysicsInteraction.TwoHandYaw | Assets/Scripts/CartPhysics.cs:65-84 | Performs Turn. |
| CartPhysics.CartPhysicsInteraction.LimitSpeeds | Assets/Scripts/CartPhysics.cs:86-95 | Applies ClampLinear and ClampAngular. |
| CartPhysics.CartPhysicsInteraction.ApplyDamping | Assets/Scripts/CartPhysics.cs:98-106 | Applies Damp. |
| CartPhysics.CartPhysicsInteraction.RefreshActiveHands | Assets/Scripts/CartPhysics.cs:113-146 | Performs Refresh with its loops. |
| CartPhysics.CartPhysicsInteraction.CollectSelecting | Assets/Scripts/CartPhysics.cs:124-137 | The inner loop lists each selecting hand once and seeds it once, as the reference definitions Dedup and Seeded say. |
| CartPhysics.CartPhysicsInteraction.AddSelecting | Assets/Scripts/CartPhysics.cs:129-135 | One hand is listed unless it already is, and seeded unless it has an entry: one step of Dedup and Seeded. |
| CartPhysics.CartPhysicsInteraction.PruneLastPos | Assets/Scripts/CartPhysics.cs:142-145 | Entries of hands that let go are removed, leaving Pruned, the reference definition of lines 142-145. |
| CartPhysics.CartPhysicsInteraction.ApplyHandForces | Assets/Scripts/CartPhysics.cs:39-62 | The loop yields Pushes and updates the table as Advance, the reference definition of line 61 (characterised by AdvanceIs). |

**PhaseStep in detail.** Every transition satisfies `Successor`, and every
phase change resets the timer. In addition:

- Idle → Start happens iff speed >= up.
- Braking pre-empts Start and Moving.
- Start → Moving happens once the pulse time is reached.
- Moving → Idle happens iff speed <= down.
- Brake lasts until the pulse ends, then goes to Idle iff speed <= down,
  otherwise to Moving.
- The timer stays non-negative.

**Step in detail** (`CartPhysics.Step`). It is defined for any tuning whose
two damping divisors `1 + damping * fixedDeltaTime` are non-zero.

- After the refresh the bookkeeping holds, and the active hands are the
  selecting ones.
- There is one horizontal push per hand, applied at that hand.
- With no hands only damping runs.
- With one hand the stored direction is reset to zero.
- With a hand grabbing, x and z of the angular velocity are 0 and the
  vertical velocity is kept. With a non-negative maxAngularSpeed the yaw
  rate lies within it.

## Left out

- `OVRInput`, `SetControllerVibration`, `Debug.Log` and `Invoke` are device
  and engine I/O. Controller readings are parameters and vibration calls are
  returned. The A-button test pulse of the two phase scripts (a full-strength
  pulse stopped 0.25 s later through `Invoke`) is not modelled.
- Rigidbody integration is not modelled: `AddForce`, `AddTorque`,
  `AddForceAtPosition`, mass and gravity.
  - `CartPhysics_Interaction` returns its pushes instead of applying them, so
    the velocity the limits act on is the damped velocity before the pushes.
  - `CartResidualMotion` returns the release values: linear speed, speed01,
    tangential speeds and angular impulse. The impulse vectors built from
    `forward`, `releaseSpeedGain`, `residualBoost` and the cart's mass are not
    modelled.
- `AnimationCurve.Evaluate` is a function parameter. The default curves built
  in `Start` / `InitializeCurves` are configuration and are not modelled.
- Quaternion and transform maths are not modelled: `Quaternion.Euler`, the
  `localRotation` write in gittest.cs, `transform.Rotate`, the rotated custom
  axis, and `InverseTransformDirection` in RotateHaptic2.cs. The custom axis
  is an input vector. RotateHaptic2's forward speed is the cart velocity's
  component along the frame's forward axis.
- `Camera.main.TransformDirection` in `CacheControllerVelocity` is not
  modelled: the cached velocities are taken as already in world space.
- `Vector3.SignedAngle` is a function parameter. Only the property that
  SignedAngle of a direction with itself is zero enters a contract.
- `PlayerController.HandleMovement` is not modelled; it only normalizes a
  vector and writes the transform.
- HeavyInertiaTransformer.cs, WeightRotateDamping.cs and
  WheelVisualController.cs are not part of this model. They are wrappers of
  an unseen transformer and visual wheel code.
- Float rounding, NaN and infinities are not modelled: every quantity is a
  real. Divisions are guarded by the same conditions as in the scripts, and
  `ValidConfig` requires the divisors the scripts assume positive.
- Null references are not modelled, except one: the `_rb.velocity` read on a
  missing rigidbody in RotateHapticTemporal.cs. That frame is modelled as the
  `None` result of `TemporalHaptics.Step`, with nothing changed and nothing
  sent. The null `grabbable` case of RotateHapticAsymmetric.cs is modelled as
  a missing selecting-point count.
- Unity's `Awake` / `Start` / `Reset` wiring and component lookup are left
  out. The constructors keep only the initial field values.
- CartPhysics.Step: bounds the yaw rate only for a non-negative
  maxAngularSpeed. A negative cap inverts Mathf.Clamp's range; the clamp is
  still modelled as written, but no bound is stated for it.
- CartPhysics.DampShrinks, CartPhysics.StepSpeedBound: the damping and
  speed-cap bounds need non-negative dampings, or a non-negative
  maxLinearSpeed. The script's fields are plain floats and do not enforce
  this. The rest of CartPhysics takes any tuning whose divisors
  `1 + damping * fixedDeltaTime` are non-zero.
- CartPhysics.ApplyDamping: a divisor `1 + damping * fixedDeltaTime` equal to
  zero, possible only with a negative damping, would give a float infinity.
  That step is not modelled.
- CombinedHapticsV2.Step: the [0, Ceiling] invariant on the amplitudes is
  promised only when minAmpWhileActive and bothHandsBoost are non-negative.
  The script declares them as plain floats; with negative values the
  amplitudes are modelled but not bounded.
- CartPhysics.Step: states that horizontal speed ends within the cap only in
  the lemma `StepSpeedBound`. That lemma needs the magnitude oracle to give
  the true length of the damped horizontal velocity.
- CombinedHaptics.BaseAmplitude: states "in [0, 1] or equal to the floor"
  rather than "in [0, 1]". The floor is only assumed below 1 by the scripts'
  defaults.
- CartHapticPhysics.StaysInUnit: the [0, 1] bound needs an effort curve that
  maps [0, 1] into [0, 1] and intensities in [0, 1]. The script does not
  enforce either.
