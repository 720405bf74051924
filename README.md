# PlayerMovemntController, modelled in Dafny

This project models the locomotion and action state machine of the Unity
component `PlayerMovemntController` of an isometric 3D game. The component
runs once per frame. It does four things:

- It walks the character along the movement input.
- It derives a jump arc from an apex height and time, and integrates the
  vertical velocity every frame.
- It gates a dash behind a duration and a cooldown.
- It chains up to three sword attacks with a forward lunge, and resets the
  chain after a pause.

Each frame it asks the engine's character controller for at most one move.

The model is a class, `Controller.PlayerMovemntController`. It has the
component's fields, and its methods mirror the component's handlers step by
step. Each method's contract ties the new state to a pure specification
function of the old state:

- `ComboAttack`: the sword-attack chain and its delayed reset.
- `Dashing`: dash gating and its duration and cooldown countdowns.
- `JumpArc`: the jump constants, gravity and the launch.
- `Locomotion`: which move a frame issues.

The properties are proved about these functions. Some are per-call
contracts. Others are lemmas over whole runs of events and frames.

The coroutines become timer fields, and the caller advances them once per
frame with `Tick(dt)`:

- `AttackResetRoutine` waits 0.5 s and then clears the chain.
- `DashRoutine` waits `dashTime` and then clears `isDashing`.
- `StartDashCooldown` runs a countdown loop, one iteration per frame, and
  then clears `isDashOnCooldown`.

Engine queries become parameters:

- `grounded` is what `CharacterController.isGrounded` reports at that point
  of the frame.
- `dt` is `Time.deltaTime`.
- `forward` is the facing after the rotation step.

A frame is: input callbacks, then `Update`, then `Tick`.

## Behaviour taken from the code as written

- `isJumping` is never assigned true. The object invariant records this, so
  the `else if` branch of `HandleJump` is dead, and `JumpArc.HandleJump`
  shows that it changes nothing anyway.
- The chain counter goes up only when `attackResetRoutine` is non-null. That
  holds from the first `EndAttack` on, because the field is never set back to
  null. It does not depend on whether a reset is still waiting. So the very
  first attack leaves the count at 0, and after a completed reset the next
  attack counts 1.
- When the lunge flag and the dash flag are both set (an attack started
  during a dash), `Update` issues no move at all. It does not pick one
  source by priority.
- The dash direction follows the live input during a dash. The early return
  in `OnMovementInput` is commented out.
- A walk carries the vertical velocity scaled by the walking speed. A dash
  or a lunge carries no vertical velocity.
- The timer reset of the chain does not rewrite the animator's
  `AttackCount`. The model records that parameter (`shownAttackCount`), so it
  keeps its last value after the reset.
- The cooldown loop makes its first check, and its first subtraction, in
  the frame of the dash itself. With a cooldown time of zero or less, the
  flag is cleared at once.

## Model

| member | source | states |
|---|---|---|
| JumpArc.SetUpJumpVariables | PlayerMovemntController.cs:109-114 | gravity == -initialJumpVelocity / timeToApex; the ballistic arc peaks at exactly maxJumpHeight at timeToApex; positive height and time give negative gravity and positive launch velocity |
| JumpArc.DefaultJumpVariables | PlayerMovemntController.cs:32-33 | the fixed constants 1 and 0.7 give gravity -800/49 (about -16.33), initial velocity 40/7 (about 5.71) and launch velocity 20/7 (about 2.857) |
| JumpArc.AirborneStep | PlayerMovemntController.cs:215-229 | the net change per airborne frame is gravity*dt when falling (velocity <= 0) and gravity*dt/2 when rising; with gravity < 0 and dt > 0 the velocity strictly decreases |
| JumpArc.FallingDecrementIsDouble | PlayerMovemntController.cs:203-229 | the falling decrement is exactly twice the rising one |
| JumpArc.HandleGravity | PlayerMovemntController.cs:201-230 | grounded: the velocity becomes -0.05 whatever it was, and the jump animation flag is cleared; airborne: one averaged step; the jump flags are untouched |
| JumpArc.HandleJump | PlayerMovemntController.cs:154-167 | launches exactly when not jumping, grounded and jump pressed, setting the velocity to initialJumpVelocity*0.5 and the jump animation flag; otherwise the state is unchanged; isJumping never changes |
| JumpArc.GroundedFrame | PlayerMovemntController.cs:252-253 | a grounded frame (gravity, then jump) ends at the launch velocity if the jump is pressed and at -0.05 otherwise, independent of the previous velocity |
| JumpArc.FallingFramesAreLinear | PlayerMovemntController.cs:215-221 | n falling frames lower the velocity by exactly n*gravity*dt |
| JumpArc.RisingFramesAreLinear | PlayerMovemntController.cs:222-229 | n rising frames lower the velocity by exactly n*gravity*dt/2 |
| JumpArc.LaunchStopsRisingAtApexTime | PlayerMovemntController.cs:161 | after a half-impulse launch, airborne frames totalling maxJumpTime/2 bring the vertical velocity to exactly 0 |
| ComboAttack.InitialIsValid | PlayerMovemntController.cs:45-48 | the initial combo state satisfies the combo invariant |
| ComboAttack.Attack | PlayerMovemntController.cs:116-130 | no-op unless grounded and not attacking; on firing sets isAttacking and the lunge flag; the count goes up by exactly 1, and a waiting reset is cancelled, iff it fires and a reset routine has ever been started; keeps the invariant |
| ComboAttack.HalfAttack | PlayerMovemntController.cs:132-135 | clears the lunge flag and changes nothing else |
| ComboAttack.EndAttack | PlayerMovemntController.cs:137-152 | no-op when not attacking; otherwise clears isAttacking, arms the 0.5 s reset and resets a count of 3 to 0 at once; keeps the invariant 0 <= count <= 3 and (not attacking ==> count < 3) |
| ComboAttack.ResetTick | PlayerMovemntController.cs:103-107 | a waiting reset runs down by dt and, once the wait is over, sets the count to 0 without telling the animator; keeps the invariant |
| ComboAttack.RunPreservesInv | PlayerMovemntController.cs:103-152 | every sequence of attack, halfway, end and frame events keeps the combo invariant |
| ComboAttack.NoChainBeforeFirstEnd | PlayerMovemntController.cs:123-128 | until some attack has ended, the count stays 0 whatever else happens |
| ComboAttack.ChainSurvivesShortPause | PlayerMovemntController.cs:103-107 | frames of less total time than the remaining wait keep the count and the pending reset |
| ComboAttack.ChainEndsAfterLongPause | PlayerMovemntController.cs:103-107 | frames of at least the remaining wait set the count to 0 and end the wait |
| ComboAttack.StaysClearedWithoutReset | PlayerMovemntController.cs:103-107 | with no reset waiting, elapsed frames change nothing |
| ComboAttack.QuickFollowUpsCompleteChain | PlayerMovemntController.cs:116-152 | the first attack leaves the count at 0; three follow-ups started less than 0.5 s after each end reach 1, 2 and 3; the end of the third resets to 0 |
| ComboAttack.SlowFollowUpRestartsChain | PlayerMovemntController.cs:103-130 | letting the reset finish sets the count to 0, and the next attack counts 1 |
| Dashing.StartDashCooldown | PlayerMovemntController.cs:266-282 | starting the cooldown sets the flag and loads dashCooldownTime minus this frame's time; a cooldown time <= 0 leaves the flag cleared |
| Dashing.DashRoutine | PlayerMovemntController.cs:285-289 | starting the dash sets isDashing for dashTime seconds |
| Dashing.CharacterDash | PlayerMovemntController.cs:256-264 | with movement pressed, not dashing and not on cooldown, sets isDashing and isDashOnCooldown; otherwise leaves the state unchanged |
| Dashing.OnRollInput | PlayerMovemntController.cs:88-91 | the state changes iff grounded, movement pressed, not dashing and not on cooldown |
| Dashing.ResumeCooldown | PlayerMovemntController.cs:271-281 | one loop iteration: subtracts dt while the counter is positive, otherwise clears the cooldown flag |
| Dashing.ResumeDash | PlayerMovemntController.cs:289-291 | one frame of the wait: the dash stays on iff time is left after dt |
| Dashing.Tick | PlayerMovemntController.cs:261-262 | both routines advance independently, and each flag can only be cleared, never set |
| Dashing.CooldownHolds | PlayerMovemntController.cs:271-278 | while the frames total less than the counter, the cooldown stays on and the counter is reduced by exactly that total |
| Dashing.ClearedFlagsStayCleared | PlayerMovemntController.cs:266-292 | without a new dash, a cleared dash or cooldown flag stays cleared |
| Dashing.CooldownLifts | PlayerMovemntController.cs:271-281 | once the frames have used up the counter, the next frame clears the cooldown |
| Dashing.DashHolds | PlayerMovemntController.cs:285-292 | while the frames total less than the remaining dash time, isDashing stays set |
| Dashing.DashEnds | PlayerMovemntController.cs:285-292 | after at least one frame and frames totalling the remaining dash time, isDashing is clear |
| Dashing.RollIgnoredDuringCooldown | PlayerMovemntController.cs:256-282 | a roll while less than dashCooldownTime has passed since the dash is ignored: the state is unchanged |
| Dashing.RollAcceptedAfterCooldown | PlayerMovemntController.cs:256-282 | once dashCooldownTime has passed and one more frame has run, the cooldown is off and a grounded, moving roll starts a dash if the last one is over |
| Locomotion.ChooseMove | PlayerMovemntController.cs:237-249 | walk iff neither the lunge nor the dash flag; dash iff dashing and not lunging; lunge iff lunging and not dashing; no move iff both; each with its speed times dt |
| Locomotion.OnlyWalkCarriesVerticalVelocity | PlayerMovemntController.cs:237-249 | dash, lunge and no-move do not depend on the vertical velocity; a dash along a horizontal direction has no vertical part |
| Controller.PlayerMovemntController.constructor | PlayerMovemntController.cs:20-49 | everything at rest, the combo and dash in their initial states, and gravity and launch velocity from SetUpJumpVariables(1, 0.7); the invariant holds |
| Controller.PlayerMovemntController.OnMovementInput | PlayerMovemntController.cs:75-86 | walk and dash directions take the new axis, also during a dash; isMovementPressed iff x != 0 or y != 0; vertical velocity kept |
| Controller.PlayerMovemntController.OnJumpPressed | PlayerMovemntController.cs:98-101 | latches the jump button state |
| Controller.PlayerMovemntController.OnRollInput | PlayerMovemntController.cs:88-91 | new dash state is Dashing.OnRollInput of the old one; only dash fields change |
| Controller.PlayerMovemntController.CharacterDash | PlayerMovemntController.cs:256-264 | new dash state is Dashing.CharacterDash of the old one |
| Controller.PlayerMovemntController.StartDashCooldown | PlayerMovemntController.cs:266-277 | new dash state is Dashing.StartDashCooldown of the old one; only the cooldown fields change |
| Controller.PlayerMovemntController.DashRoutine | PlayerMovemntController.cs:285-289 | new dash state is Dashing.DashRoutine of the old one |
| Controller.PlayerMovemntController.Attack | PlayerMovemntController.cs:116-130 | new combo state is ComboAttack.Attack of the old one; invariant kept |
| Controller.PlayerMovemntController.HalfAttack | PlayerMovemntController.cs:132-135 | only the lunge flag is cleared |
| Controller.PlayerMovemntController.EndAttack | PlayerMovemntController.cs:137-152 | new combo state is ComboAttack.EndAttack of the old one; invariant kept |
| Controller.PlayerMovemntController.HandleAnimation | PlayerMovemntController.cs:169-181 | afterwards the Walking parameter equals isMovementPressed |
| Controller.PlayerMovemntController.HandleGravity | PlayerMovemntController.cs:201-230 | new vertical state is JumpArc.HandleGravity of the old one; horizontal movement kept |
| Controller.PlayerMovemntController.HandleJump | PlayerMovemntController.cs:154-167 | new vertical state is JumpArc.HandleJump of the old one; the else-if branch is unreachable |
| Controller.PlayerMovemntController.Update | PlayerMovemntController.cs:232-254 | in this order: Walking follows isMovementPressed, one move chosen by ChooseMove from the pre-gravity velocity, then gravity, then the jump |
| Controller.PlayerMovemntController.ResumeAttackReset | PlayerMovemntController.cs:103-107 | new combo state is ComboAttack.ResetTick of the old one |
| Controller.PlayerMovemntController.ResumeDashCooldown | PlayerMovemntController.cs:271-281 | new dash state is Dashing.ResumeCooldown of the old one |
| Controller.PlayerMovemntController.ResumeDash | PlayerMovemntController.cs:289-292 | new dash state is Dashing.ResumeDash of the old one |
| Controller.PlayerMovemntController.Tick | PlayerMovemntController.cs:266-292 | one frame of the reset, cooldown and dash coroutines: ResetTick and Dashing.Tick of the old state |
| Controller.AttackDuringDashIssuesNoMove | PlayerMovemntController.cs:237-249 | moving, dashing and then attacking on the ground leads the next Update to issue no move |
| Controller.JumpFromRest | PlayerMovemntController.cs:154-167 | jumping from rest on the ground gives a vertical velocity of exactly 20/7 |

## Left out

- Input-system wiring: `Awake`'s callback registration, `OnEnable`, `OnDisable` and `PlayerActions` are engine plumbing. The handlers are methods a caller invokes, and `OnSwordAttack` is `Attack`.
- `HandleRotation`: `Quaternion.LookRotation` and `Slerp` live in the engine. The facing it produces enters `Update` as the opaque `forward`.
- `CharacterController.Move` and `isGrounded`: collision physics is not modelled. Grounded is a parameter, and `Update` records the move it requests in `lastMove`, not a position.
- Animator writes: only `Walking` and `AttackCount` are recorded. `Jumping`, `Dashing` and `IsAttacking` are always written with the values of `isJumpAnimating`, `isDashing` and `isAttacking`.
- Coroutine scheduling: `Tick(dt)` advances every waiting routine once per frame. Nothing is claimed about which engine frame first resumes a routine, or about how `WaitForSeconds` rounds to frames.
- Floating point: all arithmetic is exact `real` arithmetic. No property depends on float rounding.
- JumpArc.SetUpJumpVariables: requires a non-zero jump time, because the IEEE infinities of a division by zero are not modelled. The component only ever uses 0.7.
- `dashMovementInput`: it is read from the same callback value as `currentMovementInput`, so the model keeps only the latter.
