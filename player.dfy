/** The Unity components that the player's behaviour scripts share through their
    `_player` reference: the capsule collider, the head transform, the rigidbody
    and the grounded flag. Every controller holding the same Player sees the
    others' writes. */
module PlayerRig {
  import opened Vectors

  class Player {
    /** Written by the ground probe of the vertical controller, read by the
        horizontal controller. */
    var isGrounded: bool
    /** Rigidbody.linearVelocity. */
    var velocity: Vec3
    /** CapsuleCollider.height and CapsuleCollider.center. */
    var colliderHeight: real
    var colliderCenter: Vec3
    /** Head.localPosition. */
    var headLocal: Vec3
    /** Body yaw, accumulated in degrees, and head pitch (Head.localEulerAngles.x). */
    var yaw: real
    var headPitch: real

    constructor (height: real, center: Vec3, head: Vec3)
      ensures !isGrounded && velocity == Zero
      ensures colliderHeight == height && colliderCenter == center && headLocal == head
      ensures yaw == 0.0 && headPitch == 0.0
    {
      isGrounded := false;
      velocity := Zero;
      colliderHeight := height;
      colliderCenter := center;
      headLocal := head;
      yaw := 0.0;
      headPitch := 0.0;
    }
  }
}
