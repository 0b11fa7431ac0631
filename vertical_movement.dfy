/** PlayerVerticalMovement: the crouch state and its timed interpolation of the
    capsule, the head height and the float height, and the ground-following
    float rule. */
module VerticalMovement {
  import opened Numeric
  import opened Vectors
  import opened Input
  import opened PlayerRig

  /** The serialized settings of the component. `groundCheckLength` is the
      ground ray's length; the ray's answer is a parameter of Float, so the
      bound it puts on the hit distance is not part of the model. */
  datatype Config = Config(
    standingHeight: real, standingCenter: real, modelHeight: real,
    crouchHeight: real, crouchCenter: real, crouchTime: real,
    groundCheckLength: real, floatForce: real)

  /** The values the component ships with. */
  const Defaults := Config(1.25, 1.175, 1.8, 0.875, 0.8225, 1.0, 1.5, 25.0)

  /** A crouch transition needs a positive duration, and the head ratio a
      non-zero model height. */
  predicate ValidConfig(c: Config) {
    c.crouchTime > 0.0 && c.modelHeight != 0.0
  }

  /** The capsule's height and the vertical component of its center. */
  datatype Geometry = Geometry(height: real, center: real)

  function Standing(c: Config): Geometry {
    Geometry(c.standingHeight, c.standingCenter)
  }

  function Crouched(c: Config): Geometry {
    Geometry(c.crouchHeight, c.crouchCenter)
  }

  /** The profile a transition heads for, given the crouch flag. */
  function TargetOf(c: Config, crouching: bool): Geometry {
    if crouching then Crouched(c) else Standing(c)
  }

  /** The profile a transition starts from: the other one. */
  function InitialOf(c: Config, crouching: bool): Geometry {
    TargetOf(c, !crouching)
  }

  /** The geometry the coroutine writes once the timer reads `timer`. */
  function Profile(c: Config, crouching: bool, timer: real): (g: Geometry)
    requires c.crouchTime > 0.0
    ensures Between(g.height, c.crouchHeight, c.standingHeight)
    ensures Between(g.center, c.crouchCenter, c.standingCenter)
    ensures timer <= 0.0 ==> g == TargetOf(c, crouching)
    ensures timer >= c.crouchTime ==> g == InitialOf(c, crouching)
  {
    var from, to := InitialOf(c, crouching), TargetOf(c, crouching);
    var t := Progress(c.crouchTime, timer);
    Geometry(Lerp(from.height, to.height, t), Lerp(from.center, to.center, t))
  }

  /** Local head height derived from the capsule: its top scaled by the
      head-to-height ratio of the reference model. */
  function HeadHeight(g: Geometry, ratio: real): real {
    (g.center + g.height / 2.0) * ratio
  }

  /** What the crouch coroutine reads and writes. */
  datatype CrouchState = CrouchState(
    isCrouching: bool, timer: real, geometry: Geometry, headY: real, floatHeight: real)

  /** The capsule, the head and the float height agree with the interpolation
      at the current timer. */
  predicate Synced(c: Config, ratio: real, s: CrouchState)
    requires c.crouchTime > 0.0
  {
    && s.timer <= c.crouchTime
    && s.geometry == Profile(c, s.isCrouching, s.timer)
    && s.headY == HeadHeight(s.geometry, ratio)
    && s.floatHeight == s.geometry.center
  }

  /** One pass of the coroutine's loop body. */
  function Step(c: Config, ratio: real, s: CrouchState, dt: real): (r: CrouchState)
    requires c.crouchTime > 0.0 && s.timer <= c.crouchTime && dt > 0.0
    ensures r.isCrouching == s.isCrouching && r.timer == s.timer - dt
    ensures Synced(c, ratio, r)
    ensures r.timer <= 0.0 ==> r.geometry == TargetOf(c, s.isCrouching)
  {
    var timer := s.timer - dt;
    var g := Profile(c, s.isCrouching, timer);
    CrouchState(s.isCrouching, timer, g, HeadHeight(g, ratio), g.center)
  }

  predicate AllPositive(dts: seq<real>) {
    forall i :: 0 <= i < |dts| ==> dts[i] > 0.0
  }

  function Sum(dts: seq<real>): real {
    if |dts| == 0 then 0.0 else dts[0] + Sum(dts[1..])
  }

  /** The coroutine's loop, resumed once per frame with that frame's time: it
      stops when the frames run out or the timer is no longer positive. */
  function Run(c: Config, ratio: real, s: CrouchState, dts: seq<real>): (r: CrouchState)
    requires c.crouchTime > 0.0 && s.timer <= c.crouchTime && AllPositive(dts)
    ensures r.isCrouching == s.isCrouching && r.timer <= s.timer
    ensures r == s || Synced(c, ratio, r)
    ensures s.timer > 0.0 && |dts| > 0 ==> Synced(c, ratio, r)
    decreases |dts|
  {
    if |dts| == 0 || s.timer <= 0.0 then s
    else Run(c, ratio, Step(c, ratio, s, dts[0]), dts[1..])
  }

  /** Frames adding up to at least the remaining time finish the transition:
      the timer has run out and the capsule is exactly at the target profile. */
  lemma {:induction false} RunCompletes(c: Config, ratio: real, s: CrouchState, dts: seq<real>)
    requires c.crouchTime > 0.0 && s.timer <= c.crouchTime && AllPositive(dts)
    requires 0.0 < s.timer <= Sum(dts)
    ensures Run(c, ratio, s, dts).timer <= 0.0
    ensures Run(c, ratio, s, dts).geometry == TargetOf(c, s.isCrouching)
    decreases |dts|
  {
    var next := Step(c, ratio, s, dts[0]);
    if next.timer > 0.0 {
      RunCompletes(c, ratio, next, dts[1..]);
    }
  }

  /** At half the duration the capsule is exactly halfway between the profiles. */
  lemma HalfwayAtHalfTime(c: Config, crouching: bool)
    requires c.crouchTime > 0.0
    ensures var from, to := InitialOf(c, crouching), TargetOf(c, crouching);
            Profile(c, crouching, c.crouchTime / 2.0)
              == Geometry((from.height + to.height) / 2.0, (from.center + to.center) / 2.0)
  {
    assert (c.crouchTime / 2.0) / c.crouchTime == 1.0 / 2.0;
  }

  /** The crouch flag after a crouch callback. */
  function NextCrouching(crouching: bool, state: PlayerState, hold: bool, phase: Phase): (r: bool)
    ensures state.Sprint? ==> r == crouching
    ensures !state.Sprint? && phase.Started? ==> r == (hold || !crouching)
    ensures !state.Sprint? && phase.Canceled? && hold ==> !r
    ensures !Rearms(state, hold, phase) ==> r == crouching
    ensures !hold && Rearms(state, hold, phase) ==> r != crouching
  {
    if state.Sprint? then crouching
    else if phase.Started? then (if hold then true else !crouching)
    else if phase.Canceled? && hold then false
    else crouching
  }

  /** Whether a crouch callback re-arms the timer and restarts the coroutine. */
  function Rearms(state: PlayerState, hold: bool, phase: Phase): bool {
    !state.Sprint? && (phase.Started? || (phase.Canceled? && hold))
  }

  /** The state after a crouch callback, as written. */
  function OnCrouchEffect(c: Config, s: CrouchState, state: PlayerState, hold: bool, phase: Phase): (r: CrouchState)
    requires c.crouchTime > 0.0 && s.timer <= c.crouchTime
    ensures state.Sprint? ==> r == s
    ensures r.isCrouching == NextCrouching(s.isCrouching, state, hold, phase)
    ensures !Rearms(state, hold, phase) ==> r == s
    ensures Rearms(state, hold, phase) ==> r.timer == Rearm(c.crouchTime, s.timer)
    ensures r.timer <= c.crouchTime
    ensures 0.0 <= s.timer ==> 0.0 <= r.timer
    ensures r.geometry == s.geometry && r.headY == s.headY && r.floatHeight == s.floatHeight
  {
    s.(isCrouching := NextCrouching(s.isCrouching, state, hold, phase),
       timer := if Rearms(state, hold, phase) then Rearm(c.crouchTime, s.timer) else s.timer)
  }

  /** Reversing a transition, with the re-armed timer, continues from the point
      reached: same height and same center. */
  lemma ReverseWithoutJump(c: Config, crouching: bool, timer: real)
    requires c.crouchTime > 0.0 && timer <= c.crouchTime
    ensures Profile(c, !crouching, Rearm(c.crouchTime, timer)) == Profile(c, crouching, timer)
  {
    var from, to := InitialOf(c, crouching), TargetOf(c, crouching);
    RearmContinuity(from.height, to.height, c.crouchTime, timer);
    RearmContinuity(from.center, to.center, c.crouchTime, timer);
  }

  /** A callback that re-arms only together with a change of the crouch flag
      keeps the capsule in step with the timer. Toggle mode always is such. */
  lemma FlipKeepsSynced(c: Config, ratio: real, s: CrouchState, state: PlayerState, hold: bool, phase: Phase)
    requires c.crouchTime > 0.0 && Synced(c, ratio, s)
    requires Rearms(state, hold, phase) ==> NextCrouching(s.isCrouching, state, hold, phase) != s.isCrouching
    ensures Synced(c, ratio, OnCrouchEffect(c, s, state, hold, phase))
  {
    if Rearms(state, hold, phase) {
      ReverseWithoutJump(c, s.isCrouching, s.timer);
    }
  }

  /** In hold mode a press while already crouched re-arms without a change of
      the flag: with the shipped values and any head ratio, a settled crouch,
      in step with its timer, is out of step after the press. */
  lemma RedundantHoldPressDesyncs(ratio: real)
    ensures Synced(Defaults, ratio, SettledCrouch(Defaults, ratio))
    ensures !Synced(Defaults, ratio, OnCrouchEffect(Defaults, SettledCrouch(Defaults, ratio), Walk, true, Started))
  {
    RedundantPressRestarts(Defaults, ratio, SettledCrouch(Defaults, ratio), 0.02);
  }

  /** The same press restarts the transition from the standing profile: for
      any head ratio, the next 0.02 s frame puts the capsule most of the way
      back up. */
  lemma RedundantHoldPressSnaps(ratio: real)
    ensures SettledCrouch(Defaults, ratio).geometry.height == 0.875
    ensures Step(Defaults, ratio, OnCrouchEffect(Defaults, SettledCrouch(Defaults, ratio), Walk, true, Started), 0.02)
              .geometry.height == 1.2425
  {
    RedundantPressRestarts(Defaults, ratio, SettledCrouch(Defaults, ratio), 0.02);
    FirstFrameAfterRestart();
  }

  /** The state of a crouch that has finished: the timer has run out and
      everything sits at the crouched profile. */
  function SettledCrouch(c: Config, ratio: real): (s: CrouchState)
    requires c.crouchTime > 0.0
    ensures s.isCrouching && s.timer == 0.0 && Synced(c, ratio, s)
  {
    CrouchState(true, 0.0, Crouched(c), HeadHeight(Crouched(c), ratio), c.crouchCenter)
  }

  /** A hold-mode press while settled in a crouch keeps the flag and puts the
      timer back at the full duration, where the profile is the standing one. */
  lemma RedundantPressRestarts(c: Config, ratio: real, settled: CrouchState, dt: real)
    requires c.crouchTime > 0.0 && c.crouchHeight != c.standingHeight && dt > 0.0
    requires settled.isCrouching && settled.timer == 0.0 && Synced(c, ratio, settled)
    ensures var pressed := OnCrouchEffect(c, settled, Walk, true, Started);
            && pressed == settled.(timer := c.crouchTime)
            && !Synced(c, ratio, pressed)
            && Step(c, ratio, pressed, dt).geometry == Profile(c, true, c.crouchTime - dt)
  {
    assert Profile(c, true, c.crouchTime) == Standing(c);
  }

  /** With the shipped values, the first 0.02 s frame after a restart of a
      crouch sets the height to 1.2425. */
  lemma FirstFrameAfterRestart()
    ensures Profile(Defaults, true, Defaults.crouchTime - 0.02).height == 1.2425
  {
    assert Progress(Defaults.crouchTime, Defaults.crouchTime - 0.02) == 0.02;
    assert Lerp(1.25, 0.875, 0.02) == 1.2425;
  }

  /** The evidently intended callback: re-arm only when the flag changes. */
  function OnCrouchIntended(c: Config, s: CrouchState, state: PlayerState, hold: bool, phase: Phase): (r: CrouchState)
    requires c.crouchTime > 0.0 && s.timer <= c.crouchTime
    ensures r.isCrouching == NextCrouching(s.isCrouching, state, hold, phase)
    ensures r.timer != s.timer ==> r.isCrouching != s.isCrouching
    ensures r.geometry == s.geometry && r.headY == s.headY && r.floatHeight == s.floatHeight
  {
    var crouching := NextCrouching(s.isCrouching, state, hold, phase);
    if crouching == s.isCrouching then s
    else s.(isCrouching := crouching, timer := Rearm(c.crouchTime, s.timer))
  }

  /** With the intended re-arm rule every callback keeps the capsule in step. */
  lemma IntendedKeepsSynced(c: Config, ratio: real, s: CrouchState, state: PlayerState, hold: bool, phase: Phase)
    requires c.crouchTime > 0.0 && Synced(c, ratio, s)
    ensures Synced(c, ratio, OnCrouchIntended(c, s, state, hold, phase))
  {
    if NextCrouching(s.isCrouching, state, hold, phase) != s.isCrouching {
      ReverseWithoutJump(c, s.isCrouching, s.timer);
    }
  }

  /** The outcome of the ground probe for the velocity and the grounded flag. */
  datatype FloatOutcome = FloatOutcome(velocityY: real, grounded: bool)

  /** Float: on a hit the vertical velocity is changed by an impulse so that it
      equals the height error times the float force. */
  function FloatResponse(floatHeight: real, floatForce: real, hit: Option<real>, velocityY: real, grounded: bool): (r: FloatOutcome)
    ensures hit.None? ==> r == FloatOutcome(velocityY, false)
    ensures hit.Some? && hit.value == floatHeight ==> r == FloatOutcome(velocityY, grounded)
    ensures hit.Some? && hit.value != floatHeight ==> r.grounded && r.velocityY == (floatHeight - hit.value) * floatForce
  {
    match hit
    case None => FloatOutcome(velocityY, false)
    case Some(distance) =>
      var error := floatHeight - distance;
      if error == 0.0 then FloatOutcome(velocityY, grounded)
      else FloatOutcome(velocityY + (error * floatForce - velocityY), true)
  }

  /** The correction is referenced to the current velocity: after a hit off the
      float height the velocity no longer depends on what it was, and with a
      positive force it points back towards the float height. */
  lemma FloatCorrectsTowardsHeight(floatHeight: real, floatForce: real, distance: real, v1: real, v2: real, g1: bool, g2: bool)
    requires floatForce > 0.0 && distance != floatHeight
    ensures FloatResponse(floatHeight, floatForce, Some(distance), v1, g1)
         == FloatResponse(floatHeight, floatForce, Some(distance), v2, g2)
    ensures var v := FloatResponse(floatHeight, floatForce, Some(distance), v1, g1).velocityY;
            (distance < floatHeight ==> v > 0.0) && (distance > floatHeight ==> v < 0.0)
  {
    var e := floatHeight - distance;
    if e > 0.0 { assert e * floatForce > 0.0; }
    if e < 0.0 { assert (-e) * floatForce > 0.0; }
  }

  /** Start's value of the head ratio and float height agree with the capsule
      when it begins at the standing profile and the standing capsule's top is
      the model height (as with the shipped values). */
  lemma StartSynced(c: Config, headY: real)
    requires ValidConfig(c) && c.standingCenter + c.standingHeight / 2.0 == c.modelHeight
    ensures Synced(c, headY / c.modelHeight, CrouchState(false, 0.0, Standing(c), headY, c.standingCenter))
  {
    assert c.modelHeight * (headY / c.modelHeight) == headY;
  }

  class PlayerVerticalMovement {
    const config: Config
    const player: Player
    var crouchTimer: real
    var floatHeight: real
    var headToHeightRatio: real
    var isCrouching: bool

    ghost predicate Valid()
      reads this
    {
      ValidConfig(config) && crouchTimer <= config.crouchTime
    }

    /** The coroutine's view of the component and of the player's parts. */
    function State(): CrouchState
      reads this, player
    {
      CrouchState(isCrouching, crouchTimer,
                  Geometry(player.colliderHeight, player.colliderCenter.y),
                  player.headLocal.y, floatHeight)
    }

    /** Awake and Start: the head ratio comes from the head's height in the scene. */
    constructor (config: Config, player: Player)
      requires ValidConfig(config)
      ensures Valid() && this.config == config && this.player == player
      ensures headToHeightRatio == player.headLocal.y / config.modelHeight
      ensures floatHeight == config.standingCenter
      ensures crouchTimer == 0.0 && !isCrouching
    {
      this.config := config;
      this.player := player;
      crouchTimer := 0.0;
      isCrouching := false;
      headToHeightRatio := player.headLocal.y / config.modelHeight;
      floatHeight := config.standingCenter;
    }

    /** FixedUpdate: the ground probe. `hit` is the raycast's hit distance. */
    method Float(hit: Option<real>)
      requires Valid()
      modifies player`velocity, player`isGrounded
      ensures var r := FloatResponse(floatHeight, config.floatForce, hit, old(player.velocity.y), old(player.isGrounded));
              player.velocity == old(player.velocity).(y := r.velocityY) && player.isGrounded == r.grounded
    {
      match hit
      case Some(distance) =>
        var distanceToFloatHeight := floatHeight - distance;
        if distanceToFloatHeight == 0.0 {
          return;
        }
        var liftAmount := distanceToFloatHeight * config.floatForce - player.velocity.y;
        player.velocity := Add(player.velocity, Vec3(0.0, liftAmount, 0.0));
        player.isGrounded := true;
      case None =>
        player.isGrounded := false;
    }

    /** The crouch callback. `restarted` tells whether the coroutine is
        (re)started; the frames it then runs are given to Crouch. */
    method OnCrouch(state: PlayerState, holdToCrouch: bool, phase: Phase) returns (restarted: bool)
      requires Valid()
      modifies this`isCrouching, this`crouchTimer
      ensures Valid()
      ensures State() == OnCrouchEffect(config, old(State()), state, holdToCrouch, phase)
      ensures restarted == Rearms(state, holdToCrouch, phase)
    {
      restarted := false;
      if state.Sprint? {
        return;
      }
      if phase.Started? {
        isCrouching := if holdToCrouch then true else !isCrouching;
      } else if phase.Canceled? && holdToCrouch {
        isCrouching := false;
      }
      if phase.Started? || (phase.Canceled? && holdToCrouch) {
        crouchTimer := if crouchTimer > 0.0 then config.crouchTime - crouchTimer else config.crouchTime;
        restarted := true;
      }
    }

    /** The Crouch coroutine, resumed once per frame with the frame times
        `frameTimes`; `frames` is the number of passes through its loop. */
    method Crouch(frameTimes: seq<real>) returns (frames: nat)
      requires Valid() && AllPositive(frameTimes)
      modifies this`crouchTimer, this`floatHeight, player`colliderHeight, player`colliderCenter, player`headLocal
      ensures Valid() && frames <= |frameTimes|
      ensures State() == Run(config, headToHeightRatio, old(State()), frameTimes)
      ensures player.colliderCenter.x == old(player.colliderCenter.x) && player.colliderCenter.z == old(player.colliderCenter.z)
      ensures player.headLocal.x == old(player.headLocal.x) && player.headLocal.z == old(player.headLocal.z)
    {
      frames := 0;
      while frames < |frameTimes| && crouchTimer > 0.0
        invariant frames <= |frameTimes| && Valid()
        invariant Run(config, headToHeightRatio, old(State()), frameTimes)
               == Run(config, headToHeightRatio, State(), frameTimes[frames..])
        invariant player.colliderCenter.x == old(player.colliderCenter.x) && player.colliderCenter.z == old(player.colliderCenter.z)
        invariant player.headLocal.x == old(player.headLocal.x) && player.headLocal.z == old(player.headLocal.z)
      {
        ghost var before := State();
        var initial, target := InitialOf(config, isCrouching), TargetOf(config, isCrouching);
        crouchTimer := crouchTimer - frameTimes[frames];
        var t := Progress(config.crouchTime, crouchTimer);
        // collider height and center
        var height := Lerp(initial.height, target.height, t);
        var centerY := Lerp(initial.center, target.center, t);
        player.colliderHeight := height;
        player.colliderCenter := player.colliderCenter.(y := centerY);
        // head position, then float height, from the collider just written
        var headY := HeadHeight(Geometry(height, centerY), headToHeightRatio);
        player.headLocal := player.headLocal.(y := headY);
        floatHeight := centerY;
        assert State() == Step(config, headToHeightRatio, before, frameTimes[frames]);
        assert frameTimes[frames..][1..] == frameTimes[frames + 1..];
        frames := frames + 1;
      }
    }
  }
}
