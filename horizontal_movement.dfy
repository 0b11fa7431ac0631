/** PlayerHorizontalMovement: the speed chosen from the player's state and the
    grounded-gated velocity correction towards the input direction. */
module HorizontalMovement {
  import opened Vectors
  import opened Input
  import opened PlayerRig

  /** The serialized speeds of the component. */
  datatype Speeds = Speeds(walk: real, crouch: real, sprint: real)

  /** UpdateSpeed's choice: one configured speed per named state, nothing for
      any other value of the enumeration. */
  function SpeedFor(speeds: Speeds, state: PlayerState): (r: real)
    ensures state.Walk? ==> r == speeds.walk
    ensures state.Crouch? ==> r == speeds.crouch
    ensures state.Sprint? ==> r == speeds.sprint
    ensures state.Other? ==> r == 0.0
  {
    match state
    case Walk => speeds.walk
    case Crouch => speeds.crouch
    case Sprint => speeds.sprint
    case Other(_) => 0.0
  }

  /** The rigidbody velocity after Move: when grounded, the velocity change
      `speed * direction - (vx, 0, vz)` is added, so the horizontal velocity
      becomes exactly `speed * direction`. */
  function MoveVelocity(speed: real, direction: Vec3, velocity: Vec3, grounded: bool): (r: Vec3)
    ensures !grounded ==> r == velocity
    ensures grounded ==> r.x == speed * direction.x && r.z == speed * direction.z
    ensures grounded ==> r.y == velocity.y + speed * direction.y
  {
    if grounded then Add(velocity, Sub(Scale(speed, direction), Horizontal(velocity)))
    else velocity
  }

  /** The correction is referenced to the current velocity: for a level
      direction a second step with the same input changes nothing more. */
  lemma MoveSettles(speed: real, direction: Vec3, velocity: Vec3, grounded: bool)
    requires direction.y == 0.0
    ensures var once := MoveVelocity(speed, direction, velocity, grounded);
            MoveVelocity(speed, direction, once, grounded) == once
  {
  }

  /** With walk 5, crouch 2.5 and sprint 8, a sprinting player pushing forward
      while grounded is given a planar velocity of 8 forward. */
  lemma SprintForwardScenario(velocity: Vec3)
    ensures var speed := SpeedFor(Speeds(5.0, 2.5, 8.0), Sprint);
            Horizontal(MoveVelocity(speed, Vec3(0.0, 0.0, 1.0), velocity, true)) == Vec3(0.0, 0.0, 8.0)
  {
  }

  class PlayerHorizontalMovement {
    const speeds: Speeds
    const player: Player
    var moveInput: Vec3
    var speed: real

    /** Awake, OnEnable and Start: the speed is chosen once from the state. */
    constructor (speeds: Speeds, player: Player, state: PlayerState)
      ensures this.speeds == speeds && this.player == player
      ensures moveInput == Zero && speed == SpeedFor(speeds, state)
    {
      this.speeds := speeds;
      this.player := player;
      moveInput := Zero;
      speed := SpeedFor(speeds, state);
    }

    /** UpdateSpeed, run at Start and by the crouch and sprint subscriptions. */
    method UpdateSpeed(state: PlayerState)
      modifies this`speed
      ensures speed == SpeedFor(speeds, state)
    {
      match state
      case Walk => speed := speeds.walk;
      case Crouch => speed := speeds.crouch;
      case Sprint => speed := speeds.sprint;
      case Other(_) => speed := 0.0;
    }

    /** OnMove: the 2D input is stored on the horizontal plane. */
    method OnMove(x: real, y: real)
      modifies this`moveInput
      ensures moveInput == Vec3(x, 0.0, y) && moveInput.y == 0.0
      ensures speed == old(speed)
    {
      moveInput := Vec3(x, 0.0, y);
    }

    /** FixedUpdate's Move. `rotation` is the body's rotation applied to a
        vector (`transform.rotation * v`). */
    method Move(rotation: Vec3 -> Vec3)
      modifies player`velocity
      ensures player.velocity == MoveVelocity(speed, rotation(moveInput), old(player.velocity), player.isGrounded)
      ensures speed == old(speed)
    {
      if player.isGrounded {
        var moveDirection := rotation(moveInput);
        var currentHorizontalVelocity := Horizontal(player.velocity);
        var targetHorizontalVelocity := Scale(speed, moveDirection);
        player.velocity := Add(player.velocity, Sub(targetHorizontalVelocity, currentHorizontalVelocity));
      }
    }
  }
}
