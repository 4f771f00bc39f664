# First-person locomotion, arrows and target of ShooterGameWithThree.JS

This project models the gameplay logic of a small Three.js first-person shooter:

- **Locomotion step.** A camera-mounted player walks, sprints, jumps and lands. It is driven by a held-key map and mouse look. The source carries it three times, with the same constants: the `Controls` class, `FPP.js` and `shooting/main.js`. Here it is modelled once:
  - `Locomotion`: the body and the stages of one tick;
  - `LocomotionFacts`: what a tick and a run of ticks guarantee;
  - `Input`: the key map, key lower-casing and the pitch clamp;
  - `Controls`: the controller state and its event handlers.
- **FPP animation.** `Fpp` picks the run, walk or idle animation weight after each tick and caps the frame delta at 0.1 s.
- **Arrow lifecycle.** `Volley` covers the shooting scene's list of in-flight arrows. A click fires only under pointer lock. The frame loop advances every arrow and retires those more than 100 units from the camera, as an order-preserving filter. `ArrowEntity` covers the separate `Arrow` class: its update, `lookAt` turn and dispose.
- **Target.** `Target` covers the target's slide left and right, clamped to x in [-2, 2], and its ring radii.

Some simplifications:

- Floating-point numbers are idealised as `real`.
- Lengths are compared squared:
  - `|v| < 0.001` becomes `LenSq(v) < 0.000001`;
  - `|v| > 0.01` becomes `LenSq(v) > 0.0001`;
  - `distanceTo > 100` becomes `DistSq > 10000`.
- The camera's horizontal forward and right vectors are taken as parameters: they come from the camera quaternion.
- Frame times are parameters, since they come from the clock.

Facts about the code that the model keeps:

- There is no ballistic arrow mode and no hit scoring. Arrows fly straight along the camera's view direction and are never checked for contact with the target.
- The arrow's retirement distance is measured from the camera's current position, not from where the arrow was fired.
- The controller starts grounded wherever the camera happens to be.
- The controllers tick as the source computes the tick, including the in-place scaling of the direction vectors described under "## Findings". This covers `Controls.Update`, and through it `Fpp.HandleMovement`, `Fpp.Animate` and `Volley.Animate`. `Locomotion.Step` is the corrected tick, kept as the reference. `Controls.UpdateIsCorrectedWithoutOpposingKeys` proves the two agree unless both keys of an opposing pair are held.

## Model

| member | source | states |
|---|---|---|
| Input.Lower | src/shooting/systems/Controls.js:37 | lower-casing keeps the length, turns each upper-case ASCII letter into its lower-case partner (32 code points on) and keeps every other character |
| Input.LowerIdempotent | src/shooting/systems/Controls.js:37 | lower-casing an already lower-cased key name changes nothing |
| Input.LowerIgnoresCase | src/shooting/systems/Controls.js:37-52 | key names that differ only in letter case lower-case to the same name, so a keydown reported as `W` and a keyup reported as `w` address the same entry |
| Input.Press | src/shooting/systems/Controls.js:39 | the pressed key reads as held and every other key keeps its state |
| Input.Release | src/shooting/systems/Controls.js:52 | the released key reads as not held and every other key keeps its state |
| Input.PressThenRelease | src/shooting/systems/Controls.js:36-53 | press then release of one key leaves it not held and every other key as before |
| Input.ClampPitch | src/FPP.js:248 | the clamped pitch lies in [-pi/2, pi/2]; it is unchanged inside the range and pinned to the nearer bound outside it |
| Input.MouseMove | src/FPP.js:242-252 | yaw moves by exactly -movementX * 0.002; pitch moves by -movementY * 0.002 when that stays in range and is otherwise pinned to the bound it crossed |
| Input.MouseMovesAccumulate | src/shooting/main.js:160-165 | over any sequence of mouse moves the pitch never leaves [-pi/2, pi/2] and the yaw is the start yaw minus 0.002 times the summed horizontal movement |
| Locomotion.ClampDelta | src/FPP.js:379 | the step is the elapsed time when that is at most 0.1 s and exactly 0.1 s otherwise, so it never exceeds either |
| Locomotion.MovementOf | src/shooting/systems/Controls.js:84-100 | each movement flag is set exactly when its key (w, s, a, d, shift) is held |
| Locomotion.MoveSpeed | src/shooting/systems/Controls.js:83-86 | the speed is 0.01, or 0.02 exactly when shift is held |
| Locomotion.Accelerate | src/shooting/systems/Controls.js:88-103 | the key impulse is added horizontally and gravity lowers the vertical speed by 0.02 * delta * 60 every tick, grounded or not; position and flags are untouched |
| Locomotion.Jump | src/shooting/systems/Controls.js:105-110 | a requested jump on the ground sets vertical speed 0.35 and clears both flags, leaving the rest; otherwise the body is unchanged |
| Locomotion.Integrate | src/shooting/systems/Controls.js:112-113 | each coordinate of the position advances by the matching velocity component times delta * 60; velocity and flags are kept |
| Locomotion.ClampToGround | src/shooting/systems/Controls.js:115-120 | afterwards the height is at least 1; a body below 1 is set to height 1, vertical speed 0, grounded; a body at or above 1 is unchanged; horizontal state is always kept |
| Locomotion.Damp | src/FPP.js:335-336 | velocity is scaled by 0.9, so its squared length shrinks by 0.81; position and flags are kept |
| Locomotion.Snap | src/FPP.js:338-341 | afterwards velocity is exactly zero or at least 0.001 long; a long enough velocity is kept and a shorter one becomes zero |
| Locomotion.StepWith | src/shooting/main.js:234-260 | after any tick the height is at least 1, the velocity is zero or at least 0.001 long, and a jump request survives only if it was made while airborne |
| Locomotion.Step | src/shooting/systems/Controls.js:67-129 | the corrected tick, with each held key adding its own direction, keeps the ground and snap invariants |
| Locomotion.StepAsWritten | src/FPP.js:282-342 | the tick as written, in-place key impulse included, keeps the same ground and snap invariants |
| LocomotionFacts.JumpLiftsOff | src/shooting/systems/Controls.js:105-120 | a requested jump from the ground leaves the body airborne, consumes the request, raises it by 0.35 * delta * 60 and leaves vertical speed 0.35 * 0.9 |
| LocomotionFacts.NoJumpInFlight | src/FPP.js:319-323 | while airborne the jump never fires: the request is kept and only gravity changes the vertical speed |
| LocomotionFacts.RestingStaysResting | src/shooting/systems/Controls.js:102-120 | a grounded body at height 1 with no vertical speed and no request stays so after any tick with any keys |
| LocomotionFacts.VerticalIgnoresKeys | src/shooting/systems/Controls.js:76-103 | within one tick the movement keys do not affect height, grounding or the jump request, because the horizontal directions have no vertical part |
| LocomotionFacts.KeysReachVerticalThroughSnap | src/shooting/systems/Controls.js:122-128 | across ticks they can: the snap tests the full 3-D length, so a body rising at 0.0125 loses its vertical speed with no key held but keeps 0.00045 of it with w held, and the next tick leaves it at a different height |
| LocomotionFacts.SprintDoublesImpulse | src/shooting/systems/Controls.js:83-100 | with the corrected impulse, holding shift makes the key impulse exactly twice the impulse without it, whatever else is held |
| LocomotionFacts.SprintDoublesImpulseAsWritten | src/shooting/systems/Controls.js:83-100 | with the impulse as written, shift doubles it whenever no opposing pair is held |
| LocomotionFacts.SprintDoesNotDoubleAsWritten | src/shooting/systems/Controls.js:83-94 | as written, with w and s held, delta 0.1 and forward (0, 0, -1), shift gives (0, 0, -0.1056), which is not twice the (0, 0, -0.0564) without it |
| Locomotion.KeyImpulse | src/shooting/systems/Controls.js:88-100 | the key impulse as the guards intend it: with each opposing pair held or released together it is zero, and `LocomotionFacts.KeyImpulseSumsHeldKeys` equates it with the per-key sum |
| Locomotion.KeyImpulseAsWritten | src/shooting/systems/Controls.js:88-100 | the key impulse as the source computes it, with `multiplyScalar` scaling the direction vectors in place; with no key held it is zero, and with only w held it is forward times the move step |
| LocomotionFacts.KeyImpulseSumsHeldKeys | src/shooting/systems/Controls.js:88-100 | the corrected impulse is exactly the independent sum of what the four key guards add: w forward * k, s forward * -k, d right * k, a right * -k |
| LocomotionFacts.AsWrittenSumsHeldKeys | src/shooting/systems/Controls.js:88-100 | the impulse as written is that same independent sum whenever no opposing pair is held |
| LocomotionFacts.OpposingKeysCancel | src/shooting/systems/Controls.js:89-100 | with the corrected impulse, w with s and a with d cancel: with each pair held or released together no horizontal velocity is added |
| LocomotionFacts.AsWrittenAgreesWithoutOpposingKeys | src/shooting/systems/Controls.js:89-100 | unless both keys of an opposing pair are held, the impulse as written equals the corrected one |
| LocomotionFacts.AheadDrift | src/shooting/main.js:221-226 | with w and s held, the as-written forward contribution is forward scaled by k - k*k instead of zero |
| LocomotionFacts.AsWrittenForwardBackDrift | src/FPP.js:302-313 | with w and s held and no side key, the whole as-written impulse is forward scaled by k - k*k, where k = moveSpeed * delta * 60 |
| LocomotionFacts.SideDrift | src/shooting/systems/Controls.js:95-100 | with a and d held, the as-written side guards add right * -(k + k*k) instead of nothing |
| LocomotionFacts.AsWrittenLeftRightDrift | src/shooting/main.js:227-232 | with a and d held and no forward key, the whole as-written impulse is right * -(k + k*k) |
| LocomotionFacts.AsWrittenForwardBackExample | src/shooting/systems/Controls.js:89-94 | w and s held, no sprint, delta 0.1, forward (0, 0, -1): the as-written impulse is (0, 0, -0.0564) |
| LocomotionFacts.IdleTick | src/shooting/systems/Controls.js:102-128 | with no key held a resting body stays resting and its velocity either snaps to zero or its squared length shrinks by 0.81 |
| LocomotionFacts.IdleSettlesWithin | src/shooting/systems/Controls.js:122-128 | a resting body with no key held stops completely within n ticks when its squared speed is below 0.000001 * (1 + 0.2 n) |
| LocomotionFacts.IdleVelocityReachesZero | src/shooting/main.js:254-260 | a resting body with no key held reaches exactly zero velocity after finitely many ticks, with an explicit bound |
| Controls.Init | src/shooting/systems/Controls.js:4-19 | a new controller stands still and grounded where the camera is, with no jump pending, level look and no key held |
| Controls.OnKeyDown | src/shooting/systems/Controls.js:36-49 | the lower-cased key becomes held and others keep their state; space requests a jump exactly when grounded, or keeps an earlier request; enter asks for pointer lock exactly when it is not held; nothing else changes |
| Controls.OnKeyUp | src/shooting/systems/Controls.js:51-53 | the lower-cased key becomes released; other keys, the body and the look are unchanged |
| Controls.OnMouseMove | src/shooting/systems/Controls.js:56-61 | only the look changes: yaw moves by -movementX * 0.002; pitch moves by -movementY * 0.002 when that stays in [-pi/2, pi/2] and is otherwise pinned to the bound it crossed |
| Controls.Update | src/shooting/systems/Controls.js:67-129 | one tick as written keeps the ground and snap invariants, consumes a jump request made on the ground, and changes neither look nor keys |
| Controls.HandlersKeepRequestOnGround | src/shooting/systems/Controls.js:36-129 | a jump is pending only while grounded from the constructor on and under every handler, and no jump is pending after any tick: space requests only on the ground and the tick clears grounding only together with the request |
| Controls.UpdateIsCorrectedWithoutOpposingKeys | src/shooting/systems/Controls.js:89-100 | unless w and s, or a and d, are held together, the controller's tick equals the corrected tick |
| Controls.SpaceThenUpdateJumpsOnce | src/shooting/systems/Controls.js:41-110 | space on the ground then one tick lifts the player by 0.35 * delta * 60 and leaves it airborne, and a second space in the air requests nothing |
| Fpp.SelectAnimation | src/FPP.js:344-358 | exactly one weight is 1 and the others 0: run iff moving faster than 0.01 with shift, walk iff moving without shift, idle iff not moving |
| Fpp.HandleMovement | src/FPP.js:282-359 | the player moves by the tick as written, in-place key impulse included, and stays on or above the ground; the weights are those of `SelectAnimation` for the velocity the tick leaves: exactly one of run, walk and idle, run exactly when moving with shift held, walk exactly when moving without it, idle exactly when not moving, so a stopped player is idle |
| Fpp.Animate | src/FPP.js:375-387 | any elapsed time of 0.1 s or more moves the player exactly as a 0.1 s frame; shorter frames pass through unchanged |
| Volley.Shoot | src/shooting/main.js:108-133 | firing appends exactly one arrow at the camera position whose velocity equals the view direction, and keeps all earlier arrows in order |
| Volley.OnMouseDown | src/shooting/main.js:193-197 | a click fires exactly when the pointer is locked and otherwise leaves the arrows as they were |
| Volley.Advance | src/shooting/main.js:274 | an arrow moves by velocity * delta * 20 and keeps its velocity |
| Volley.Survivors | src/shooting/main.js:272-280 | the retire pass never adds arrows and every kept arrow is within 100 of the camera |
| Volley.AdvanceAndRetire | src/shooting/main.js:272-280 | the backwards splice loop computes exactly the order-preserving filter of advanced arrows within 100 of the camera |
| Volley.SurvivorsAppend | src/shooting/main.js:272-280 | the retire pass distributes over concatenation, so it is a filter that keeps relative order |
| Volley.SurvivorsMembership | src/shooting/main.js:276-279 | an arrow is kept iff it is the advanced form of some input arrow and lies within 100 of the camera |
| Volley.AllInRangeKept | src/shooting/main.js:272-274 | when no advanced arrow is out of range, every arrow is kept, in place, merely advanced |
| Volley.NewShotSurvives | src/shooting/main.js:128-132 | after a shot, the next retire pass yields the old arrows' survivors followed by the new arrow exactly when its advanced position is within 100 of the camera |
| Volley.Animate | src/shooting/main.js:264-283 | a frame ticks the player with the step capped at 0.1 s, then leaves exactly the order-preserving filter of advanced arrows within 100 of the moved camera; the player stays on or above the ground and look and keys are untouched |
| ArrowEntity.New | src/shooting/components/arrow.js:4-25 | the argument-less constructor yields an active arrow at rest at the origin in its initial pose; the caller places it |
| ArrowEntity.Update | src/shooting/components/arrow.js:27-40 | an inactive arrow is unchanged; an active one moves by velocity * delta * 20, keeps its velocity, and turns toward its velocity exactly when that is longer than 0.1 |
| ArrowEntity.Dispose | src/shooting/components/arrow.js:42-46 | disposing deactivates the arrow and changes nothing else |
| ArrowEntity.DisposeIdempotent | src/shooting/components/arrow.js:42-46 | disposing twice is the same as disposing once |
| ArrowEntity.DisposedArrowIsInert | src/shooting/components/arrow.js:27-28 | any number of updates leave a disposed arrow exactly as it was |
| ArrowEntity.ActiveArrowFliesStraight | src/shooting/components/arrow.js:31-32 | over any sequence of updates an active arrow stays active, keeps its velocity and is displaced by velocity * 20 * the total elapsed time |
| Target.RingRadii | src/shooting/components/target.js:14-44 | the four ring radii 2, 1.3, 0.6, 0.25 strictly decrease from the outer ring to the bullseye and are positive |
| Target.MoveLeft | src/shooting/components/target.js:71-73 | x becomes max(x - 0.2, -2): never below -2, non-increasing within the range, y and z unchanged |
| Target.MoveRight | src/shooting/components/target.js:75-77 | x becomes min(x + 0.2, 2): never above 2, non-decreasing within the range, y and z unchanged |
| Target.MoveRightUndoesMoveLeft | src/shooting/components/target.js:71-77 | away from the left edge a step left then right returns the target to where it was |
| Target.SlideStaysInRange | src/shooting/components/target.js:71-77 | any sequence of slides from within [-2, 2] stays within it and never changes y or z |
| Target.StartSlidesInRange | src/shooting/components/target.js:53 | from the start position (0, 2, -20) any sequence of slides keeps x in [-2, 2], y at 2 and z at -20 |

## Left out

- Camera direction vectors: computing forward and right from the camera quaternion and normalising them needs trigonometry and square roots, so they are parameters of the tick, required only to be horizontal. Likewise the shot direction from `camera.getWorldDirection` is a parameter of `Volley.Shoot`, not required to be of unit length.
- Camera rotation: `camera.rotation.set(pitch, yaw, 0, 'YXZ')` and the arrow's `lookAt` geometry are rendering; the model keeps the yaw and pitch values and a record of the direction the arrow faces.
- Floating-point rounding: all arithmetic is exact real arithmetic. Pi/2 is the literal double value; the proofs use only that it is positive.
- Input.Lower: only ASCII letters are lower-cased; JavaScript `toLowerCase` also folds non-ASCII letters, which no movement key uses.
- Rendering, scene and assets: scene, lights, ground, renderer, window resize, the target's box collider (built but never consulted), the GLTF player model and the animation mixer's playback are presentation. `World.js` and the other component files are not part of this model.
- DOM and browser events: the loading and start screens, registering listeners, `requestPointerLock` (modelled only as the request flag a keydown yields), `preventDefault` on the d key, and the status display have no game state.
- Mouse-move gating: the source attaches the mousemove listener only while the pointer is locked. The model's handler is meant to be called only then, and that is not enforced.
- Bobbing objects: the decorative bobbing objects in `FPP.js` are left out as scenery.
- Arrow damage: the arrow's `damage` field is never read, so it is not modelled.
- Ballistic arrows and hit scoring: the code has no ballistic arrow mode and never tests arrows against the target, so there is nothing of either to model.
- Wall-clock time: `clock.getDelta()` is replaced by the elapsed time passed in.
- Fpp.HandleMovement: the model always returns the animation weights. In `FPP.js`, `setAnimationWeight` (lines 120-123) reads `actions`, which the GLTF load callback assigns only later (lines 103-107), while `animate` starts 100 ms after setup (line 418). Until the player model loads, or for good if loading fails, each `handleMovement` throws a TypeError after the locomotion step, and the rest of that frame is skipped. Script errors and asset loading are outside the model.
- Player model: `FPP.js` places the loaded model at (0, -0.5, 0) (line 92) inside `cameraParent` (line 97). The tick moves the camera inside that group and never the group itself (lines 326-333), so the model stays where it was placed while the camera walks away. It is rendering and is not modelled.

## Findings

| source | as written | input that shows it | evidently intended | confidence | as-written member | corrected member |
|---|---|---|---|---|---|---|
| src/shooting/systems/Controls.js:89-100 (also src/FPP.js:302-313 and src/shooting/main.js:221-232) | `multiplyScalar` scales `forward` and `right` in place, so the second key of an opposing pair adds a vector the first has already scaled: w with s adds forward * (k - k*k) and a with d adds right * -(k + k*k), with k = moveSpeed * delta * 60 | w and s held, no shift, delta 0.1, forward (0, 0, -1): the velocity gains (0, 0, -0.0564) instead of nothing | each held key adds its own direction times k independently, so opposing keys cancel | high; not executed | LocomotionFacts.AsWrittenForwardBackExample, LocomotionFacts.AsWrittenLeftRightDrift (model: Locomotion.KeyImpulseAsWritten, Locomotion.StepAsWritten, used by Controls.Update) | LocomotionFacts.OpposingKeysCancel, LocomotionFacts.KeyImpulseSumsHeldKeys (model: Locomotion.KeyImpulse, Locomotion.Step) |
