# First-person controller: crouch, float, movement, look and interaction in Dafny

This project models the per-step state machines of a Unity first-person
character. It proves properties of the model over exact real numbers.

- **PlayerVerticalMovement** (`vertical_movement.dfy`) handles crouching.
  The crouch callback updates the crouch flag from the input phase, the
  hold-or-toggle mode and a Sprint guard. It also re-arms a countdown timer.
  The crouch coroutine then moves the capsule's height and center from one
  profile to the other. From the capsule it derives the head height and the
  float height. The ground probe (`Float`) changes the vertical velocity so
  that it equals the height error times the float force. It also sets the
  grounded flag.
- **FirstPersonController** (`first_person_controller.dfy`) is the older
  controller built on a CharacterController. It has a crouch toggle that
  first asks whether the player can stand up, and it uses the same timer
  re-arm. It also has gravity clamped to a maximum speed, a jump allowed
  only when grounded, a clamped pitch, a speed chosen by the crouch flag,
  and a crouch step whose center is always half the height.
- **PlayerHorizontalMovement** (`horizontal_movement.dfy`) picks a speed
  for each player state. Only when grounded does it add a velocity change
  that brings the horizontal velocity to `speed * direction`.
- **PlayerCameraController** (`camera_controller.dfy`) handles look input.
  The yaw delta of each look event replaces the previous one. The pitch
  accumulates and is clamped. Every frame the body turns by the yaw delta
  and the head takes the pitch.
- **PlayerInteraction** (`interaction.dfy`) tracks the target under the
  probe. Each physics step replaces or clears it. An interact press in the
  started phase calls that target's `Interact` exactly once.

The shared Unity components live in `player.dfy`: the collider, the head,
the rigidbody velocity and the grounded flag. Every controller that holds
the same `Player` sees the others' writes. `numeric.dfy` holds Unity's
`Mathf.Clamp`, `Mathf.Clamp01` and `Mathf.Lerp` (Lerp clamps its
parameter), the interpolation fraction `1 - timer / duration` and the
timer re-arm rule. It also proves that re-arming with swapped endpoints
continues from the point already reached. Frame time, raycast and
linecast answers, `isGrounded`, gravity and the body's rotation are
parameters.

The central invariant of both crouch implementations is `Synced`: the
capsule (and, for the newer controller, the head height and float height)
equals the interpolation at the current timer. Every coroutine step
restores it. A callback that re-arms the timer together with a flip of the
crouch flag keeps it; a re-arm without a flip can break it. The toggle
always flips the flag. In hold mode a repeated event does not, which is the
finding below.

## Model

| member | source | states |
|---|---|---|
| Numeric.Clamp | Assets/Scripts/FirstPersonController.cs:88 | the result lies in [lo, hi] whenever lo <= hi; a value already in range is returned unchanged; one below or above is moved to that bound |
| Numeric.Lerp | Assets/Scripts/Player/PlayerVerticalMovement.cs:129-132 | the result lies between the two endpoints; a parameter at or below 0 gives the start and one at or above 1 gives the end exactly |
| Numeric.Progress | Assets/Scripts/Player/PlayerVerticalMovement.cs:126 | the fraction is at least 1 once the timer is not positive, at most 0 at or above the full duration, and within [0, 1] in between |
| Numeric.Rearm | Assets/Scripts/Player/PlayerVerticalMovement.cs:102 | a timer no greater than the duration is re-armed into [0, duration] |
| Numeric.RearmContinuity | Assets/Scripts/Player/PlayerVerticalMovement.cs:102-133 | interpolating with swapped endpoints from the re-armed timer gives the same value as before the re-arm |
| VerticalMovement.Profile | Assets/Scripts/Player/PlayerVerticalMovement.cs:113-133 | the interpolated height lies between the crouch and standing heights and the center between the two centers; a non-positive timer gives the target profile exactly, a full timer the initial one |
| VerticalMovement.Step | Assets/Scripts/Player/PlayerVerticalMovement.cs:111-140 | one loop pass lowers the timer by exactly the frame time and keeps the crouch flag; afterwards the capsule, the head height `(center + height/2) * ratio` and the float height `center` agree with the timer; a pass that ends the timer leaves the capsule exactly at the target |
| VerticalMovement.Run | Assets/Scripts/Player/PlayerVerticalMovement.cs:109-144 | the coroutine over a sequence of frame times keeps the crouch flag, never raises the timer, and if it runs at all leaves everything in step with the timer |
| VerticalMovement.RunCompletes | Assets/Scripts/Player/PlayerVerticalMovement.cs:111-133 | frame times that add up to at least the remaining time end the loop with the capsule exactly at the target profile |
| VerticalMovement.HalfwayAtHalfTime | Assets/Scripts/Player/PlayerVerticalMovement.cs:124-133 | at half the crouch time the capsule is exactly halfway between the two profiles |
| VerticalMovement.NextCrouching | Assets/Scripts/Player/PlayerVerticalMovement.cs:89-98 | Sprint leaves the flag alone; started sets it in hold mode and negates it in toggle mode; canceled in hold mode clears it; an event that does not re-arm never changes it; in toggle mode every re-arming event flips it |
| VerticalMovement.OnCrouchEffect | Assets/Scripts/Player/PlayerVerticalMovement.cs:87-107 | in Sprint nothing changes; the flag becomes NextCrouching's; an event that does not re-arm changes nothing at all; one that re-arms sets the timer to Rearm of the old timer, within [0, crouchTime]; the callback itself writes no geometry, head or float height |
| VerticalMovement.ReverseWithoutJump | Assets/Scripts/Player/PlayerVerticalMovement.cs:102-133 | reversing the crouch flag with the re-armed timer yields the same height and center as before the reversal |
| VerticalMovement.FlipKeepsSynced | Assets/Scripts/Player/PlayerVerticalMovement.cs:87-107 | a callback that re-arms only together with a change of the flag keeps the capsule in step with the timer |
| VerticalMovement.RedundantHoldPressDesyncs | Assets/Scripts/Player/PlayerVerticalMovement.cs:91-102 | with the shipped values and any head-to-height ratio, a hold-mode press while settled in a crouch (in step with its timer) leaves the capsule out of step with the re-armed timer |
| VerticalMovement.RedundantPressRestarts | Assets/Scripts/Player/PlayerVerticalMovement.cs:91-102 | for any configuration whose two heights differ, that press keeps the flag, sets the timer to the full duration, breaks the invariant, and the next frame follows the profile that starts from standing |
| VerticalMovement.FirstFrameAfterRestart | Assets/Scripts/Player/PlayerVerticalMovement.cs:124-131 | with the shipped values, the first 0.02 s frame of a restarted crouch sets the height to 1.2425 |
| VerticalMovement.RedundantHoldPressSnaps | Assets/Scripts/Player/PlayerVerticalMovement.cs:91-131 | with the shipped values and any head-to-height ratio, the same press takes a settled crouch of height 0.875 to height 1.2425 on the next 0.02 s frame |
| VerticalMovement.OnCrouchIntended | Assets/Scripts/Player/PlayerVerticalMovement.cs:91-102 | the flag follows the same rule; the timer changes only when the flag changes |
| VerticalMovement.IntendedKeepsSynced | Assets/Scripts/Player/PlayerVerticalMovement.cs:91-133 | with the intended re-arm rule every crouch callback keeps the capsule in step with the timer |
| VerticalMovement.FloatResponse | Assets/Scripts/Player/PlayerVerticalMovement.cs:67-84 | a miss clears grounded and keeps the velocity; a hit exactly at the float height changes nothing; any other hit makes the vertical velocity equal to error times float force and sets grounded |
| VerticalMovement.FloatCorrectsTowardsHeight | Assets/Scripts/Player/PlayerVerticalMovement.cs:69-77 | after an off-height hit the velocity does not depend on the previous velocity or flag, and with a positive force it points back towards the float height |
| VerticalMovement.StartSynced | Assets/Scripts/Player/PlayerVerticalMovement.cs:46-51 | when the capsule starts at the standing profile and its top is the model height (as with the shipped values), Start's head ratio and float height agree with the capsule |
| VerticalMovement.PlayerVerticalMovement.constructor | Assets/Scripts/Player/PlayerVerticalMovement.cs:46-51 | head ratio = head y / model height, float height = standing center, no transition, not crouching |
| VerticalMovement.PlayerVerticalMovement.Float | Assets/Scripts/Player/PlayerVerticalMovement.cs:61-85 | the rigidbody's vertical velocity and the grounded flag become FloatResponse's; the horizontal velocity is untouched |
| VerticalMovement.PlayerVerticalMovement.OnCrouch | Assets/Scripts/Player/PlayerVerticalMovement.cs:87-107 | the flag and timer become OnCrouchEffect's, and nothing else changes; it reports whether the coroutine is restarted |
| VerticalMovement.PlayerVerticalMovement.Crouch | Assets/Scripts/Player/PlayerVerticalMovement.cs:109-144 | the coroutine's while loop over the frame times leaves the state Run describes; the x and z of the collider center and of the head stay put |
| HorizontalMovement.SpeedFor | Assets/Scripts/Player/PlayerHorizontalMovement.cs:78-95 | Walk, Crouch and Sprint give their configured speeds, and any other enumeration value gives 0 |
| HorizontalMovement.MoveVelocity | Assets/Scripts/Player/PlayerHorizontalMovement.cs:59-73 | ungrounded: velocity unchanged; grounded: horizontal velocity becomes exactly speed times direction and the vertical one changes only by speed times direction.y |
| HorizontalMovement.MoveSettles | Assets/Scripts/Player/PlayerHorizontalMovement.cs:64-71 | for a level direction a second correction with the same input changes nothing |
| HorizontalMovement.SprintForwardScenario | Assets/Scripts/Player/PlayerHorizontalMovement.cs:59-95 | with speeds 5, 2.5 and 8, sprinting forward while grounded gives a planar velocity of 8 forward |
| HorizontalMovement.PlayerHorizontalMovement.constructor | Assets/Scripts/Player/PlayerHorizontalMovement.cs:35-38 | Start chooses the speed from the state |
| HorizontalMovement.PlayerHorizontalMovement.UpdateSpeed | Assets/Scripts/Player/PlayerHorizontalMovement.cs:78-95 | the speed becomes SpeedFor of the current state |
| HorizontalMovement.PlayerHorizontalMovement.OnMove | Assets/Scripts/Player/PlayerHorizontalMovement.cs:49-54 | the stored input is (x, 0, y), with no vertical part; the speed is untouched |
| HorizontalMovement.PlayerHorizontalMovement.Move | Assets/Scripts/Player/PlayerHorizontalMovement.cs:59-73 | the rigidbody velocity becomes MoveVelocity of the rotated stored input; the speed is untouched |
| CameraController.YawDelta | Assets/Scripts/Player/PlayerCameraController.cs:47 | the delta is x times the sensitivity, negated when X is inverted; zero input gives zero |
| CameraController.NextPitch | Assets/Scripts/Player/PlayerCameraController.cs:49-50 | the pitch stays within [yMin, yMax] when yMin <= yMax; an in-range pitch with zero input is unchanged; an in-range sum is taken as is; a sum below yMin gives exactly yMin and one above yMax exactly yMax |
| CameraController.DefaultUpwardLookLowersPitch | Assets/Scripts/Player/PlayerCameraController.cs:16-50 | with the shipped settings a positive y input never raises an in-range pitch, and lowers it unless it is already at -90 |
| CameraController.InvertedLookScenario | Assets/Scripts/Player/PlayerCameraController.cs:49-50 | inverted Y with sensitivity 2: a raw input of 1 lowers the pitch by 2, clamped |
| CameraController.PlayerCameraController.constructor | Assets/Scripts/Player/PlayerCameraController.cs:12-21 | the serialized look settings are kept and the yaw delta and pitch start at C#'s default 0 |
| CameraController.PlayerCameraController.OnLook | Assets/Scripts/Player/PlayerCameraController.cs:43-51 | the yaw delta is overwritten with YawDelta, the pitch becomes NextPitch of the old pitch, and it lies in range |
| CameraController.PlayerCameraController.Rotate | Assets/Scripts/Player/PlayerCameraController.cs:53-58 | the body yaw grows by the stored delta, and the head pitch is set to the stored pitch |
| CameraController.PlayerCameraController.RotateFrames | Assets/Scripts/Player/PlayerCameraController.cs:38-58 | n frames with no look event add n times the delta to the yaw, and the head pitch does not drift |
| Interaction.NextTarget | Assets/Scripts/Player/PlayerInteraction.cs:47-59 | a hit with an Interactable becomes the target; a miss or a hit without one leaves no target, whatever there was before |
| Interaction.InteractCalls | Assets/Scripts/Player/PlayerInteraction.cs:31-45 | exactly one call, to the current target, on a started phase with a target; none otherwise |
| Interaction.PlayerInteraction.constructor | Assets/Scripts/Player/PlayerInteraction.cs:14 | there is no current target (C#'s default null) and no Interact call has been made |
| Interaction.PlayerInteraction.CheckForInteractable | Assets/Scripts/Player/PlayerInteraction.cs:47-59 | the current target becomes NextTarget of the probe |
| Interaction.PlayerInteraction.OnInteract | Assets/Scripts/Player/PlayerInteraction.cs:31-40 | the recorded Interact calls grow by InteractCalls of the phase and the current target |
| Interaction.PlayerInteraction.Interact | Assets/Scripts/Player/PlayerInteraction.cs:42-45 | one Interact call on the current target is recorded |
| FirstPersonController.CrouchAccepted | Assets/Scripts/FirstPersonController.cs:64 | a press is always accepted when standing, and when crouched exactly when the player can stand up |
| FirstPersonController.JumpStep | Assets/Scripts/FirstPersonController.cs:59-62 | a jump press while grounded gives the jump velocity; anything else leaves the velocity as it was |
| FirstPersonController.GravityStep | Assets/Scripts/FirstPersonController.cs:97-105 | the new vertical velocity lies in [-max, max]; grounded gives 0; otherwise an in-range `v + g*dt` is taken as is, one below -max gives exactly -max and one above max exactly max |
| FirstPersonController.Toggle | Assets/Scripts/FirstPersonController.cs:64-69 | the flag flips exactly when a press is accepted; otherwise nothing changes; the timer stays within [0, crouchTime] |
| FirstPersonController.CapsuleAt | Assets/Scripts/FirstPersonController.cs:124-144 | center.y is always half the height and the head is at 0.85 of it; the height lies between the two heights and is the target height once the timer is not positive |
| FirstPersonController.CrouchStep | Assets/Scripts/FirstPersonController.cs:116-145 | a non-positive timer changes nothing; otherwise the timer drops by dt and the capsule agrees with it |
| FirstPersonController.ToggleKeepsSynced | Assets/Scripts/FirstPersonController.cs:64-68 | an accepted press re-arms with the flag flipped, so the capsule stays in step with the timer; a rejected press changes nothing |
| FirstPersonController.CrouchStepFinishes | Assets/Scripts/FirstPersonController.cs:118-134 | the step that takes the timer to zero or below sets the height exactly to the target, and the following steps do nothing |
| FirstPersonController.FirstPersonController.constructor | Assets/Scripts/FirstPersonController.cs:13-40 | standing, no transition, no velocity, no rotation; the capsule is in step exactly when the scene places it at the standing height with center half of it and head at 0.85 of it |
| FirstPersonController.FirstPersonController.Controls | Assets/Scripts/FirstPersonController.cs:51-70 | axes stored; yaw delta overwritten; pitch accumulated without clamping; the vertical velocity becomes JumpStep's (the jump velocity only for a press while grounded); crouch flag and timer become Toggle's; the stand-up probe is consulted only for a press while crouched |
| FirstPersonController.FirstPersonController.Jump | Assets/Scripts/FirstPersonController.cs:108-114 | grounded sets the jump velocity, otherwise the velocity is unchanged |
| FirstPersonController.FirstPersonController.ApplyGravity | Assets/Scripts/FirstPersonController.cs:93-106 | Move is given the distance the old velocity covers in dt (`Fall`, velocity times dt), and the velocity becomes GravityStep's |
| FirstPersonController.FirstPersonController.Rotation | Assets/Scripts/FirstPersonController.cs:84-91 | the yaw grows by the delta; the pitch is clamped into [yMin, yMax] and set on the head |
| FirstPersonController.FirstPersonController.Movement | Assets/Scripts/FirstPersonController.cs:72-82 | the displacement is the rotated input times the crouch speed when crouched (walk speed otherwise) times dt |
| FirstPersonController.FirstPersonController.Crouch | Assets/Scripts/FirstPersonController.cs:116-145 | the timer and capsule become CrouchStep's; the x and z of the center and of the head stay put |
| FirstPersonController.FirstPersonController.Update | Assets/Scripts/FirstPersonController.cs:42-49 | after a frame the pitch lies in [yMin, yMax], the speed within the bound, and a capsule in step stays in step; the new state is the composition of the five steps: axes stored, the yaw turned by the new delta, the pitch clamped from the old pitch plus the scaled input and set on the head, Move given JumpStep's velocity times dt, the velocity GravityStep of JumpStep's, the crouch flag, timer and capsule CrouchStep of Toggle's stance, and the displacement the rotated input at the speed of the toggled flag |
| PlayerRig.Player.constructor | Assets/Scripts/Player/Player.cs:9-15 | the shared rigidbody, collider and head start from the scene's values |

## Left out

- The input event bus is left out: the `Player` forwarding callbacks, subscription in OnEnable and removal in OnDisable, and `InputController`'s action maps and cursor handling. The crouch and sprint lambdas subscribed at `PlayerHorizontalMovement.cs:26-27` are never removed. Each callback is a method here, and the caller decides the order.
- Player state transitions are left out. Nothing in these scripts assigns the Walk, Crouch or Sprint state, so the state is a parameter wherever it is read. Hold-to-crouch is a parameter too.
- Physics queries are inputs, not geometry. The ground raycast (origin, `groundCheckLength`, layer mask) becomes an optional hit distance. The interaction raycast becomes a `Probe`, so its use of the head position as a direction is not modelled. The stand-up linecast becomes a boolean. `isGrounded` is a field or a parameter.
- Integration of positions by the physics engine is left out. The model keeps the velocity that `AddForce(..., VelocityChange)` leaves, and the displacements handed to `CharacterController.Move`, not where the body ends up.
- Quaternion and Euler maths is left out. The body rotation applied to a vector is a function parameter, yaw is an accumulated real, and the head pitch is the Euler x angle.
- VerticalMovement.PlayerVerticalMovement.OnCrouch: `StartCoroutine` runs the first loop pass at once, inside the callback. Here that pass is the first frame time given to `Crouch`. `StopCoroutine` of an old loop is implied, since one loop reads the shared timer.
- VerticalMovement.PlayerVerticalMovement.constructor: requires a non-zero model height. With zero, Unity's float division gives an infinite ratio, or NaN when the head's y is 0 too, and exact reals represent neither.
- Crouch durations must be positive (`crouchTime > 0`) in both controllers. The legacy controller has no default for it. With a duration of zero or less neither controller divides by it: a re-arm gives `crouchTime - timer` only for a positive timer and `crouchTime` otherwise, so the timer never becomes positive, the interpolation loop never runs, and a press flips the flag while the capsule stays where it is. The model does not cover that configuration.
- Float rounding is left out. Arithmetic is exact over reals, so the `== 0` test of the float rule is an exact comparison.
- `Interactable.Interact` and its reaction queue are left out. The interaction component records the calls it makes on the target.
- Audio, data saving and the reaction components are not part of this model.

## Findings

| source | as written | input that shows it | evidently intended | confidence | as-written member | corrected member |
|---|---|---|---|---|---|---|
| Assets/Scripts/Player/PlayerVerticalMovement.cs:100-102 | the timer is re-armed on every started event (and on canceled in hold mode), even when the crouch flag keeps its value | hold mode, settled in a crouch with timer 0, state Walk, a started event (e.g. the release came while sprinting and was ignored): the timer becomes 1, and the next 0.02 s frame sets the height to 1.2425 from 0.875 | re-arm only when the flag changes, so the capsule is never snapped | medium, not executed | VerticalMovement.RedundantHoldPressSnaps | VerticalMovement.IntendedKeepsSynced |

The class `VerticalMovement.PlayerVerticalMovement` follows the code as
written (`OnCrouchEffect`). `OnCrouchIntended` and `IntendedKeepsSynced`
are the corrected rule and its proof that every callback keeps the capsule
in step.
