/** PlayerCameraController: look input turns into a per-frame yaw delta and an
    accumulated, clamped pitch, applied to the body and the head every frame. */
module CameraController {
  import opened Numeric
  import opened PlayerRig

  /** The serialized look settings. */
  datatype LookConfig = LookConfig(
    xSensitivity: real, invertX: bool,
    ySensitivity: real, invertY: bool, yMaxAngle: real, yMinAngle: real)

  /** The values the component ships with. */
  const Defaults := LookConfig(2.0, false, 2.0, true, 90.0, -90.0)

  function Sign(invert: bool): real {
    if invert then -1.0 else 1.0
  }

  /** The yaw delta of one look event; it replaces the previous one. */
  function YawDelta(c: LookConfig, x: real): (r: real)
    ensures x == 0.0 ==> r == 0.0
    ensures c.invertX ==> r == -(x * c.xSensitivity)
    ensures !c.invertX ==> r == x * c.xSensitivity
  {
    x * c.xSensitivity * Sign(c.invertX)
  }

  /** The pitch after one look event: the scaled input is added and the sum
      clamped to the configured range. */
  function NextPitch(c: LookConfig, pitch: real, y: real): (r: real)
    ensures c.yMinAngle <= c.yMaxAngle ==> c.yMinAngle <= r <= c.yMaxAngle
    ensures c.yMinAngle <= c.yMaxAngle && pitch + y * c.ySensitivity * Sign(c.invertY) < c.yMinAngle
            ==> r == c.yMinAngle
    ensures c.yMinAngle <= c.yMaxAngle && pitch + y * c.ySensitivity * Sign(c.invertY) > c.yMaxAngle
            ==> r == c.yMaxAngle
    ensures c.yMinAngle <= pitch <= c.yMaxAngle && y == 0.0 ==> r == pitch
    ensures c.yMinAngle <= pitch + y * c.ySensitivity * Sign(c.invertY) <= c.yMaxAngle
            ==> r == pitch + y * c.ySensitivity * Sign(c.invertY)
  {
    Clamp(pitch + y * c.ySensitivity * Sign(c.invertY), c.yMinAngle, c.yMaxAngle)
  }

  /** With the shipped settings (inverted Y, range [-90, 90]) an upward input
      never raises the pitch, and lowers it unless it is already at -90. */
  lemma DefaultUpwardLookLowersPitch(pitch: real, y: real)
    requires -90.0 <= pitch <= 90.0 && y > 0.0
    ensures NextPitch(Defaults, pitch, y) <= pitch
    ensures pitch > -90.0 ==> NextPitch(Defaults, pitch, y) < pitch
  {
  }

  /** Inverted Y with sensitivity 2: a raw input of 1 lowers the pitch by 2,
      clamped to the range. */
  lemma InvertedLookScenario(c: LookConfig, pitch: real)
    requires c.invertY && c.ySensitivity == 2.0 && c.yMinAngle <= c.yMaxAngle
    ensures NextPitch(c, pitch, 1.0) == Clamp(pitch - 2.0, c.yMinAngle, c.yMaxAngle)
  {
  }

  class PlayerCameraController {
    const config: LookConfig
    const player: Player
    var rotationHorizontal: real
    var rotationVertical: real

    ghost predicate Valid()
      reads this
    {
      config.yMinAngle <= config.yMaxAngle
    }

    constructor (config: LookConfig, player: Player)
      requires config.yMinAngle <= config.yMaxAngle
      ensures Valid() && this.config == config && this.player == player
      ensures rotationHorizontal == 0.0 && rotationVertical == 0.0
    {
      this.config := config;
      this.player := player;
      rotationHorizontal := 0.0;
      rotationVertical := 0.0;
    }

    /** OnLook: the yaw delta is overwritten, the pitch accumulated and clamped. */
    method OnLook(x: real, y: real)
      requires Valid()
      modifies this
      ensures Valid()
      ensures rotationHorizontal == YawDelta(config, x)
      ensures rotationVertical == NextPitch(config, old(rotationVertical), y)
      ensures config.yMinAngle <= rotationVertical <= config.yMaxAngle
    {
      rotationHorizontal := x * config.xSensitivity * (if config.invertX then -1.0 else 1.0);
      rotationVertical := rotationVertical + y * config.ySensitivity * (if config.invertY then -1.0 else 1.0);
      rotationVertical := Clamp(rotationVertical, config.yMinAngle, config.yMaxAngle);
    }

    /** Update's Rotate: the yaw delta turns the body, the pitch is set on the
        head absolutely. */
    method Rotate()
      modifies player`yaw, player`headPitch
      ensures player.yaw == old(player.yaw) + rotationHorizontal
      ensures player.headPitch == rotationVertical
    {
      player.yaw := player.yaw + rotationHorizontal;
      player.headPitch := rotationVertical;
    }

    /** `n` frames of Update with no look event between them: the yaw grows by
        `n` times the stored delta and the head pitch does not drift. */
    method RotateFrames(n: nat)
      modifies player`yaw, player`headPitch
      ensures player.yaw == old(player.yaw) + (n as real) * rotationHorizontal
      ensures n > 0 ==> player.headPitch == rotationVertical
      ensures n == 0 ==> player.headPitch == old(player.headPitch)
    {
      var i := 0;
      while i < n
        invariant i <= n
        invariant player.yaw == old(player.yaw) + (i as real) * rotationHorizontal
        invariant i > 0 ==> player.headPitch == rotationVertical
        invariant i == 0 ==> player.headPitch == old(player.headPitch)
      {
        Rotate();
        i := i + 1;
      }
    }
  }
}
