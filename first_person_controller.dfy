/** FirstPersonController: the older, self-contained controller built on a
    CharacterController. Each frame it reads the controls, integrates gravity,
    applies the look rotation, moves and advances the crouch interpolation. */
module FirstPersonController {
  import opened Numeric
  import opened Vectors

  /** The serialized settings of the component. */
  datatype Settings = Settings(
    walkSpeed: real, crouchSpeed: real,
    sensitivity: real, invertYAxis: bool, yMaxAngle: real, yMinAngle: real,
    jumpForce: real, maxVerticalVelocity: real,
    standingHeight: real, crouchHeight: real, crouchTime: real)

  predicate ValidSettings(s: Settings) {
    s.crouchTime > 0.0 && s.yMinAngle <= s.yMaxAngle && s.maxVerticalVelocity >= 0.0
  }

  /** What one frame reads from the input axes and buttons and from the physics
      queries: the stand-up line cast, and CharacterController.isGrounded when
      Jump asks and after gravity's Move. */
  datatype FrameInput = FrameInput(
    moveHorizontal: real, moveVertical: real, mouseX: real, mouseY: real,
    jumpDown: bool, crouchDown: bool, canStandUp: bool,
    groundedAtJump: bool, groundedAfterMove: bool, gravityY: real, dt: real)

  /** Whether a crouch press is accepted: always when standing, only with room
      above when crouched. */
  function CrouchAccepted(isCrouched: bool, canStandUp: bool): (r: bool)
    ensures !isCrouched ==> r
    ensures isCrouched ==> r == canStandUp
  {
    (isCrouched && canStandUp) || !isCrouched
  }

  /** The vertical velocity after the jump button is read: a press takes the
      jump velocity only when the controller is grounded. */
  function JumpStep(s: Settings, velocity: real, pressed: bool, grounded: bool): (r: real)
    ensures pressed && grounded ==> r == s.jumpForce
    ensures !(pressed && grounded) ==> r == velocity
  {
    if pressed && grounded then s.jumpForce else velocity
  }

  /** The vertical distance covered in `dt` at vertical velocity `v`. */
  function Fall(v: real, dt: real): real {
    v * dt
  }

  /** ApplyGravity's new vertical velocity. */
  function GravityStep(velocity: real, grounded: bool, gravityY: real, dt: real, maxVelocity: real): (r: real)
    requires maxVelocity >= 0.0
    ensures -maxVelocity <= r <= maxVelocity
    ensures grounded ==> r == 0.0
    ensures !grounded && -maxVelocity <= velocity + gravityY * dt <= maxVelocity ==> r == velocity + gravityY * dt
    ensures !grounded && velocity + gravityY * dt < -maxVelocity ==> r == -maxVelocity
    ensures !grounded && velocity + gravityY * dt > maxVelocity ==> r == maxVelocity
  {
    if grounded then 0.0 else Clamp(velocity + gravityY * dt, -maxVelocity, maxVelocity)
  }

  /** The crouch flag and its timer. */
  datatype Stance = Stance(crouched: bool, timer: real)

  /** The crouch part of Controls. */
  function Toggle(s: Settings, stance: Stance, pressed: bool, canStandUp: bool): (r: Stance)
    requires s.crouchTime > 0.0 && stance.timer <= s.crouchTime
    ensures r.crouched != stance.crouched <==> pressed && CrouchAccepted(stance.crouched, canStandUp)
    ensures r.crouched == stance.crouched ==> r == stance
    ensures r.timer <= s.crouchTime
    ensures 0.0 <= stance.timer ==> 0.0 <= r.timer
  {
    if pressed && CrouchAccepted(stance.crouched, canStandUp) then
      Stance(!stance.crouched, Rearm(s.crouchTime, stance.timer))
    else stance
  }

  /** The controller's height, center.y and the head's local y. */
  datatype Capsule = Capsule(height: real, centerY: real, headY: real)

  /** The capsule Crouch writes once the timer reads `timer`: the center is
      always half the height and the head sits at 0.85 of it. */
  function CapsuleAt(s: Settings, crouched: bool, timer: real): (r: Capsule)
    requires s.crouchTime > 0.0
    ensures r.centerY == r.height / 2.0
    ensures r.headY == r.height * 0.85
    ensures Between(r.height, s.crouchHeight, s.standingHeight)
    ensures timer <= 0.0 ==> r.height == (if crouched then s.crouchHeight else s.standingHeight)
  {
    var initialHeight := if crouched then s.standingHeight else s.crouchHeight;
    var targetHeight := if crouched then s.crouchHeight else s.standingHeight;
    var t := Progress(s.crouchTime, timer);
    var height := Lerp(initialHeight, targetHeight, t);
    LerpHalves(initialHeight, targetHeight, t);
    Capsule(height, Lerp(initialHeight / 2.0, targetHeight / 2.0, t), height * 0.85)
  }

  /** The capsule agrees with the interpolation at the current timer. */
  predicate Synced(s: Settings, stance: Stance, capsule: Capsule)
    requires s.crouchTime > 0.0
  {
    stance.timer <= s.crouchTime && capsule == CapsuleAt(s, stance.crouched, stance.timer)
  }

  /** Crouch: nothing while the timer is not positive; otherwise the timer
      runs down by `dt` and the capsule follows it. */
  function CrouchStep(s: Settings, stance: Stance, capsule: Capsule, dt: real): (r: (Stance, Capsule))
    requires s.crouchTime > 0.0 && stance.timer <= s.crouchTime && dt > 0.0
    ensures stance.timer <= 0.0 ==> r == (stance, capsule)
    ensures stance.timer > 0.0 ==> r.0 == stance.(timer := stance.timer - dt) && Synced(s, r.0, r.1)
  {
    if stance.timer <= 0.0 then (stance, capsule)
    else
      var next := stance.(timer := stance.timer - dt);
      (next, CapsuleAt(s, next.crouched, next.timer))
  }

  /** An accepted press always flips the flag, so the re-armed timer continues
      the capsule from where it is; a rejected one changes nothing. */
  lemma ToggleKeepsSynced(s: Settings, stance: Stance, capsule: Capsule, pressed: bool, canStandUp: bool)
    requires s.crouchTime > 0.0 && Synced(s, stance, capsule)
    ensures Synced(s, Toggle(s, stance, pressed, canStandUp), capsule)
  {
    if pressed && CrouchAccepted(stance.crouched, canStandUp) {
      var from := if stance.crouched then s.standingHeight else s.crouchHeight;
      var to := if stance.crouched then s.crouchHeight else s.standingHeight;
      RearmContinuity(from, to, s.crouchTime, stance.timer);
      RearmContinuity(from / 2.0, to / 2.0, s.crouchTime, stance.timer);
    }
  }

  /** The step that takes the timer to zero or below puts the capsule exactly at
      the target height, and from then on the step does nothing. */
  lemma CrouchStepFinishes(s: Settings, stance: Stance, capsule: Capsule, dt: real)
    requires s.crouchTime > 0.0 && stance.timer <= s.crouchTime && dt > 0.0
    requires 0.0 < stance.timer <= dt
    ensures var (next, after) := CrouchStep(s, stance, capsule, dt);
            && after.height == (if stance.crouched then s.crouchHeight else s.standingHeight)
            && CrouchStep(s, next, after, dt) == (next, after)
  {
  }

  class FirstPersonController {
    const settings: Settings
    var moveHorizontal: real
    var moveVertical: real
    var rotationHorizontal: real
    var rotationVertical: real
    var verticalVelocity: real
    var crouchTimer: real
    var isCrouched: bool
    /** CharacterController.height and .center, the head's local position. */
    var height: real
    var center: Vec3
    var headLocal: Vec3
    /** Body yaw and head pitch (localEulerAngles.x). */
    var yaw: real
    var headPitch: real

    ghost predicate Valid()
      reads this
    {
      ValidSettings(settings) && crouchTimer <= settings.crouchTime
    }

    /** The state Update leaves between frames: pitch within its range and
        vertical speed within its bound. */
    ghost predicate Settled()
      reads this
    {
      && settings.yMinAngle <= rotationVertical <= settings.yMaxAngle
      && -settings.maxVerticalVelocity <= verticalVelocity <= settings.maxVerticalVelocity
    }

    function CurrentStance(): Stance
      reads this
    {
      Stance(isCrouched, crouchTimer)
    }

    function CurrentCapsule(): Capsule
      reads this
    {
      Capsule(height, center.y, headLocal.y)
    }

    /** The component as placed in the scene (Start does nothing). */
    constructor (settings: Settings, height: real, center: Vec3, headLocal: Vec3)
      requires ValidSettings(settings)
      ensures Valid() && this.settings == settings
      ensures !isCrouched && crouchTimer == 0.0 && verticalVelocity == 0.0
      ensures rotationHorizontal == 0.0 && rotationVertical == 0.0 && yaw == 0.0 && headPitch == 0.0
      ensures this.height == height && this.center == center && this.headLocal == headLocal
      ensures Synced(settings, CurrentStance(), CurrentCapsule())
              <==> height == settings.standingHeight && center.y == height / 2.0 && headLocal.y == height * 0.85
    {
      this.settings := settings;
      moveHorizontal, moveVertical := 0.0, 0.0;
      rotationHorizontal, rotationVertical := 0.0, 0.0;
      verticalVelocity := 0.0;
      crouchTimer := 0.0;
      isCrouched := false;
      this.height := height;
      this.center := center;
      this.headLocal := headLocal;
      yaw, headPitch := 0.0, 0.0;
    }

    /** Controls. `probed` tells whether the stand-up line cast was consulted:
        only for a crouch press while crouched. */
    method Controls(input: FrameInput) returns (probed: bool)
      requires Valid()
      modifies this`moveHorizontal, this`moveVertical, this`rotationHorizontal, this`rotationVertical,
               this`verticalVelocity, this`isCrouched, this`crouchTimer
      ensures Valid()
      ensures moveHorizontal == input.moveHorizontal && moveVertical == input.moveVertical
      ensures rotationHorizontal == input.mouseX * settings.sensitivity
      ensures rotationVertical == old(rotationVertical) + input.mouseY * settings.sensitivity * (if settings.invertYAxis then -1.0 else 1.0)
      ensures verticalVelocity == JumpStep(settings, old(verticalVelocity), input.jumpDown, input.groundedAtJump)
      ensures CurrentStance() == Toggle(settings, old(CurrentStance()), input.crouchDown, input.canStandUp)
      ensures probed == (input.crouchDown && old(isCrouched))
    {
      moveHorizontal := input.moveHorizontal;
      moveVertical := input.moveVertical;
      rotationHorizontal := input.mouseX * settings.sensitivity;
      rotationVertical := rotationVertical + input.mouseY * settings.sensitivity * (if settings.invertYAxis then -1.0 else 1.0);
      if input.jumpDown {
        Jump(input.groundedAtJump);
      }
      probed := input.crouchDown && isCrouched;
      if input.crouchDown && ((isCrouched && input.canStandUp) || !isCrouched) {
        isCrouched := !isCrouched;
        crouchTimer := if crouchTimer > 0.0 then settings.crouchTime - crouchTimer else settings.crouchTime;
      }
    }

    /** Jump: only a grounded controller takes the jump velocity. */
    method Jump(grounded: bool)
      modifies this`verticalVelocity
      ensures verticalVelocity == if grounded then settings.jumpForce else old(verticalVelocity)
    {
      if grounded {
        verticalVelocity := settings.jumpForce;
      }
    }

    /** ApplyGravity. `rise` is the vertical distance handed to Move, from the
        velocity before the update. */
    method ApplyGravity(grounded: bool, gravityY: real, dt: real) returns (rise: real)
      requires Valid()
      modifies this`verticalVelocity
      ensures rise == Fall(old(verticalVelocity), dt)
      ensures verticalVelocity == GravityStep(old(verticalVelocity), grounded, gravityY, dt, settings.maxVerticalVelocity)
    {
      rise := verticalVelocity * dt;
      if grounded {
        verticalVelocity := 0.0;
      } else {
        verticalVelocity := verticalVelocity + gravityY * dt;
        verticalVelocity := Clamp(verticalVelocity, -settings.maxVerticalVelocity, settings.maxVerticalVelocity);
      }
    }

    /** Rotation: the yaw delta turns the body, the accumulated pitch is
        clamped and set on the head. */
    method Rotation()
      requires Valid()
      modifies this`yaw, this`rotationVertical, this`headPitch
      ensures yaw == old(yaw) + rotationHorizontal
      ensures rotationVertical == Clamp(old(rotationVertical), settings.yMinAngle, settings.yMaxAngle)
      ensures settings.yMinAngle <= rotationVertical <= settings.yMaxAngle
      ensures headPitch == rotationVertical
    {
      yaw := yaw + rotationHorizontal;
      rotationVertical := Clamp(rotationVertical, settings.yMinAngle, settings.yMaxAngle);
      headPitch := rotationVertical;
    }

    /** Movement: the displacement handed to Move. `rotation` is the body's
        rotation applied to a vector. */
    method Movement(rotation: Vec3 -> Vec3, dt: real) returns (displacement: Vec3)
      ensures displacement == Scale(dt, Scale(if isCrouched then settings.crouchSpeed else settings.walkSpeed,
                                               rotation(Vec3(moveHorizontal, 0.0, moveVertical))))
    {
      var movement := Vec3(moveHorizontal, 0.0, moveVertical);
      movement := rotation(movement);
      var speed := if isCrouched then settings.crouchSpeed else settings.walkSpeed;
      displacement := Scale(dt, Scale(speed, movement));
    }

    /** Crouch: one step of the height interpolation. */
    method Crouch(dt: real)
      requires Valid() && dt > 0.0
      modifies this`crouchTimer, this`height, this`center, this`headLocal
      ensures Valid()
      ensures (CurrentStance(), CurrentCapsule()) == CrouchStep(settings, old(CurrentStance()), old(CurrentCapsule()), dt)
      ensures center.x == old(center.x) && center.z == old(center.z)
      ensures headLocal.x == old(headLocal.x) && headLocal.z == old(headLocal.z)
    {
      if crouchTimer <= 0.0 {
        return;
      }
      crouchTimer := crouchTimer - dt;
      var initialHeight := if isCrouched then settings.standingHeight else settings.crouchHeight;
      var targetHeight := if isCrouched then settings.crouchHeight else settings.standingHeight;
      var initialCenter := initialHeight / 2.0;
      var targetCenter := targetHeight / 2.0;
      var t := Progress(settings.crouchTime, crouchTimer);
      height := Lerp(initialHeight, targetHeight, t);
      center := center.(y := Lerp(initialCenter, targetCenter, t));
      headLocal := headLocal.(y := height * 0.85);
    }

    /** Update: one frame. */
    method Update(input: FrameInput, rotation: Vec3 -> Vec3) returns (probed: bool, rise: real, displacement: Vec3)
      requires Valid() && input.dt > 0.0
      modifies this
      ensures Valid() && Settled()
      ensures Synced(settings, old(CurrentStance()), old(CurrentCapsule())) ==> Synced(settings, CurrentStance(), CurrentCapsule())
      ensures probed == (input.crouchDown && old(isCrouched))
      ensures rise == Fall(JumpStep(settings, old(verticalVelocity), input.jumpDown, input.groundedAtJump), input.dt)
      ensures verticalVelocity == GravityStep(JumpStep(settings, old(verticalVelocity), input.jumpDown, input.groundedAtJump),
                                              input.groundedAfterMove, input.gravityY, input.dt, settings.maxVerticalVelocity)
      ensures moveHorizontal == input.moveHorizontal && moveVertical == input.moveVertical
      ensures rotationHorizontal == input.mouseX * settings.sensitivity && yaw == old(yaw) + rotationHorizontal
      ensures rotationVertical == Clamp(old(rotationVertical) + input.mouseY * settings.sensitivity * (if settings.invertYAxis then -1.0 else 1.0),
                                        settings.yMinAngle, settings.yMaxAngle)
      ensures headPitch == rotationVertical
      ensures var toggled := Toggle(settings, old(CurrentStance()), input.crouchDown, input.canStandUp);
              && (CurrentStance(), CurrentCapsule()) == CrouchStep(settings, toggled, old(CurrentCapsule()), input.dt)
              && displacement == Scale(input.dt, Scale(if toggled.crouched then settings.crouchSpeed else settings.walkSpeed,
                                                       rotation(Vec3(input.moveHorizontal, 0.0, input.moveVertical))))
      ensures center.x == old(center.x) && center.z == old(center.z)
      ensures headLocal.x == old(headLocal.x) && headLocal.z == old(headLocal.z)
    {
      ghost var toggled := Toggle(settings, CurrentStance(), input.crouchDown, input.canStandUp);
      ghost var capsule := CurrentCapsule();
      ghost var wasSynced := Synced(settings, CurrentStance(), capsule);
      probed := Controls(input);
      rise := ApplyGravity(input.groundedAfterMove, input.gravityY, input.dt);
      Rotation();
      displacement := Movement(rotation, input.dt);
      assert CurrentStance() == toggled && CurrentCapsule() == capsule;
      if wasSynced {
        ToggleKeepsSynced(settings, old(CurrentStance()), capsule, input.crouchDown, input.canStandUp);
      }
      Crouch(input.dt);
    }
  }
}
