/** `PlayerController` (CharacterController.cs): the per-frame locomotion
    pipeline run by `Update` — input clamping, the crouch toggle and
    capsule sizing, target and current speed, the jump, gravity with a
    terminal velocity, landing, and the footstep timer — plus `AddForce`
    and `SetMovementEnabled`. The camera-relative move direction, the
    character's forward vector and the grounded flag `CharacterController.Move`
    reports are frame inputs; the capsule's height, centre and radius are
    held on this class as a `Capsule` value. */
module Locomotion {
  import opened Engine

  /** The inspector settings the modelled code reads. `jumpSpeed` is the
      vertical launch speed `HandleJump` computes as the square root of
      `jumpHeight * -2 * gravity`; `Launches` says it is that root, and
      `JumpReachesJumpHeight` what follows from it. */
  datatype PlayerSettings = PlayerSettings(
    walkSpeed: real,
    runSpeed: real,
    crouchSpeed: real,
    acceleration: real,
    deceleration: real,
    airControl: real,
    jumpHeight: real,
    jumpSpeed: real,
    gravity: real,
    terminalVelocity: real,
    crouchHeight: real,
    standingHeight: real,
    crouchTransitionSpeed: real,
    footstepIntervalWalk: real,
    footstepIntervalRun: real)

  predicate Launches(cfg: PlayerSettings)
  {
    IsMagnitude(cfg.jumpSpeed, cfg.jumpHeight * -2.0 * cfg.gravity)
  }

  /** The input magnitude below which the target speed is zero, and above
      which the speed ramps with `acceleration` rather than `deceleration`. */
  const InputDeadZone := 0.1

  /** The vertical speed that keeps a grounded character pressed down. */
  const GroundStick := -2.0

  /** The crouching capsule's radius as a fraction of the standing one. */
  const CrouchRadiusScale := 0.8

  /** The input block `GetInput` fills: the movement axes with their
      length, and the jump, run and crouch keys. */
  datatype InputState = InputState(
    axis: Vec2,
    magnitude: real,
    jumpPressed: bool,
    runHeld: bool,
    crouchPressed: bool)

  /** The shape of the `CharacterController` component's capsule: its
      height, the height of its centre, and its radius. */
  datatype Capsule = Capsule(height: real, centerY: real, radius: real)

  /** What `Update` holds from one frame to the next, and what it sets. */
  datatype PlayerState = PlayerState(
    input: InputState,
    isCrouching: bool,
    capsule: Capsule,
    targetSpeed: real,
    currentSpeed: real,
    moveDirection: Vec3,
    moveMagnitude: real,
    velocity: Vec3,
    verticalVelocity: real,
    isGrounded: bool,
    wasGrounded: bool,
    footstepTimer: real)

  /** One frame's readings: the raw movement axes and their length, the
      jump, shift and control keys, the camera-relative move direction and
      the character's forward vector, whether `Move` ended on the ground,
      and the frame time. */
  datatype PlayerInput = PlayerInput(
    rawAxis: Vec2,
    rawMagnitude: real,
    jumpDown: bool,
    shiftHeld: bool,
    crouchDown: bool,
    moveDirection: Vec3,
    moveMagnitude: real,
    forward: Vec3,
    groundedAfterMove: bool,
    dt: real)

  /** The reported lengths are the lengths of the axis vector and of the
      move direction. */
  predicate WellFormed(i: PlayerInput)
  {
    IsMagnitude(i.rawMagnitude, SqrMagnitude2(i.rawAxis)) &&
    IsMagnitude(i.moveMagnitude, SqrMagnitude3(i.moveDirection))
  }

  lemma SquareAtMostOne(m: real)
    requires 0.0 <= m <= 1.0
    ensures m * m <= 1.0
  {
    MulNonNeg(m, 1.0 - m);
  }

  // ---------------------------------------------------------------- GetInput

  /** `GetInput`'s axis: a vector longer than one is normalised, a shorter
      one is kept, so diagonal input is never faster. */
  function ClampedAxis(raw: Vec2, m: real): (r: Vec2)
    requires IsMagnitude(m, SqrMagnitude2(raw))
    ensures SqrMagnitude2(r) <= 1.0
    ensures m <= 1.0 ==> r == raw
    ensures m > 1.0 ==> SqrMagnitude2(r) == 1.0 && r.x * m == raw.x && r.y * m == raw.y
    ensures IsMagnitude(Min(m, 1.0), SqrMagnitude2(r))
  {
    if m > 1.0 then
      MulPos(m, m);
      Normalized2(raw, m)
    else
      SquareAtMostOne(m);
      raw
  }

  /** `GetInput`: the clamped axis with its length, and the three keys. */
  function ReadInput(s: PlayerState, i: PlayerInput): (r: PlayerState)
    requires WellFormed(i)
    ensures SqrMagnitude2(r.input.axis) <= 1.0 && IsMagnitude(r.input.magnitude, SqrMagnitude2(r.input.axis))
    ensures i.rawMagnitude <= 1.0 ==> r.input.axis == i.rawAxis
    ensures r.input.jumpPressed == i.jumpDown && r.input.runHeld == i.shiftHeld && r.input.crouchPressed == i.crouchDown
    ensures r.(input := s.input) == s
  {
    s.(input := InputState(ClampedAxis(i.rawAxis, i.rawMagnitude), Min(i.rawMagnitude, 1.0),
                           i.jumpDown, i.shiftHeld, i.crouchDown))
  }

  // ---------------------------------------------------------------- HandleCrouch

  /** `HandleCrouch`: the control key toggles crouching; the capsule's
      height eases toward the crouch or standing height, its centre sits at
      half the height, and its radius shrinks to 0.8 of the original while
      crouching. */
  function Crouch(cfg: PlayerSettings, originalRadius: real, s: PlayerState, dt: real): (r: PlayerState)
    ensures r.isCrouching == (s.isCrouching != s.input.crouchPressed)
    ensures r.capsule.radius == if r.isCrouching then originalRadius * CrouchRadiusScale else originalRadius
    ensures r.capsule.centerY == r.capsule.height / 2.0
    ensures var target := if r.isCrouching then cfg.crouchHeight else cfg.standingHeight;
            Min(s.capsule.height, target) <= r.capsule.height <= Max(s.capsule.height, target)
    ensures r.(isCrouching := s.isCrouching, capsule := s.capsule) == s
  {
    var crouching := if s.input.crouchPressed then !s.isCrouching else s.isCrouching;
    var target := if crouching then cfg.crouchHeight else cfg.standingHeight;
    var height := Lerp(s.capsule.height, target, dt * cfg.crouchTransitionSpeed);
    s.(isCrouching := crouching,
       capsule := Capsule(height, height / 2.0, if crouching then originalRadius * CrouchRadiusScale else originalRadius))
  }

  // ---------------------------------------------------------------- CalculateMovement

  /** The speed `CalculateMovement` aims for, given the input's length. */
  function TargetSpeed(cfg: PlayerSettings, crouching: bool, runHeld: bool, inputMagnitude: real): (r: real)
    ensures inputMagnitude < InputDeadZone ==> r == 0.0
    ensures inputMagnitude >= InputDeadZone && crouching ==> r == cfg.crouchSpeed
    ensures inputMagnitude >= InputDeadZone && !crouching && runHeld ==> r == cfg.runSpeed
    ensures inputMagnitude >= InputDeadZone && !crouching && !runHeld ==> r == cfg.walkSpeed
  {
    var chosen := if crouching then cfg.crouchSpeed else (if runHeld && !crouching then cfg.runSpeed else cfg.walkSpeed);
    if inputMagnitude < InputDeadZone then 0.0 else chosen
  }

  /** The ramp rate: `acceleration` while the input is above the dead zone,
      `deceleration` otherwise. An input exactly at the dead zone keeps its
      target speed but ramps with `deceleration`. */
  function RampRate(cfg: PlayerSettings, inputMagnitude: real): real
  {
    if inputMagnitude > InputDeadZone then cfg.acceleration else cfg.deceleration
  }

  /** The most the speed may change in one frame: ramp rate times frame time. */
  function MaxSpeedChange(cfg: PlayerSettings, inputMagnitude: real, dt: real): real
  {
    RampRate(cfg, inputMagnitude) * dt
  }

  /** The planar velocity: the move direction at the current speed, cut
      down by `airControl` while airborne. */
  function Planar(direction: Vec3, speed: real, grounded: bool, airControl: real): Vec3
  {
    if grounded then Scale(direction, speed) else Scale(Scale(direction, speed), airControl)
  }

  /** `CalculateMovement`: the speed ramps toward the target by at most
      the ramp rate times the frame time, never overshooting; the move
      direction is taken over with its length; the planar velocity follows. */
  function Movement(cfg: PlayerSettings, s: PlayerState, direction: Vec3, directionLength: real, dt: real): (r: PlayerState)
    ensures r.targetSpeed == TargetSpeed(cfg, s.isCrouching, s.input.runHeld, s.input.magnitude)
    ensures MaxSpeedChange(cfg, s.input.magnitude, dt) >= 0.0 ==>
              Abs(r.currentSpeed - s.currentSpeed) <= MaxSpeedChange(cfg, s.input.magnitude, dt) &&
              Min(s.currentSpeed, r.targetSpeed) <= r.currentSpeed <= Max(s.currentSpeed, r.targetSpeed)
    ensures Abs(r.targetSpeed - s.currentSpeed) <= MaxSpeedChange(cfg, s.input.magnitude, dt) ==> r.currentSpeed == r.targetSpeed
    ensures r.moveDirection == direction && r.moveMagnitude == directionLength
    ensures r.velocity == Planar(direction, r.currentSpeed, s.isGrounded, cfg.airControl)
    ensures r.(targetSpeed := s.targetSpeed, currentSpeed := s.currentSpeed, moveDirection := s.moveDirection,
               moveMagnitude := s.moveMagnitude, velocity := s.velocity) == s
  {
    var target := TargetSpeed(cfg, s.isCrouching, s.input.runHeld, s.input.magnitude);
    var speed := MoveTowards(s.currentSpeed, target, MaxSpeedChange(cfg, s.input.magnitude, dt));
    s.(targetSpeed := target,
       currentSpeed := speed,
       moveDirection := direction,
       moveMagnitude := directionLength,
       velocity := Planar(direction, speed, s.isGrounded, cfg.airControl))
  }

  // ---------------------------------------------------------------- HandleJump

  /** The jump condition: on the ground, jump pressed, not crouching. */
  predicate JumpAllowed(s: PlayerState)
  {
    s.isGrounded && s.input.jumpPressed && !s.isCrouching
  }

  /** `HandleJump`: sets the launch speed and, when the character already
      moves, adds half its forward vector. */
  function Jump(cfg: PlayerSettings, s: PlayerState, forward: Vec3): (r: PlayerState)
    ensures !JumpAllowed(s) ==> r == s
    ensures JumpAllowed(s) ==> r.verticalVelocity == cfg.jumpSpeed
    ensures JumpAllowed(s) ==>
              r.velocity == if SqrMagnitude3(s.velocity) > 0.0 then Add(s.velocity, Scale(forward, 0.5)) else s.velocity
    ensures r.(verticalVelocity := s.verticalVelocity, velocity := s.velocity) == s
  {
    if JumpAllowed(s) then
      s.(verticalVelocity := cfg.jumpSpeed,
         velocity := if MagnitudeAbove(SqrMagnitude3(s.velocity), 0.0) then Add(s.velocity, Scale(forward, 0.5)) else s.velocity)
    else s
  }

  /** With `jumpSpeed` the root `Launches` names and gravity pulling down,
      a launch under that gravity alone rises exactly `jumpHeight`: the
      apex height `v * v / (-2 * gravity)` of the launch speed `v`. */
  lemma JumpReachesJumpHeight(cfg: PlayerSettings, s: PlayerState, forward: Vec3)
    requires Launches(cfg) && cfg.gravity < 0.0 && JumpAllowed(s)
    ensures var v := Jump(cfg, s, forward).verticalVelocity;
            v >= 0.0 && v * v / (-2.0 * cfg.gravity) == cfg.jumpHeight
  {
    var v := Jump(cfg, s, forward).verticalVelocity;
    assert v * v == cfg.jumpHeight * (-2.0 * cfg.gravity);
  }

  // ---------------------------------------------------------------- ApplyGravity

  /** `ApplyGravity`'s vertical speed. */
  function Fall(cfg: PlayerSettings, grounded: bool, vv: real, dt: real): (r: real)
    ensures grounded && vv < 0.0 ==> r == GroundStick
    ensures !(grounded && vv < 0.0) ==> r >= cfg.terminalVelocity
    ensures !(grounded && vv < 0.0) && vv + cfg.gravity * dt >= cfg.terminalVelocity ==> r == vv + cfg.gravity * dt
    ensures !(grounded && vv < 0.0) && vv + cfg.gravity * dt < cfg.terminalVelocity ==> r == cfg.terminalVelocity
  {
    if grounded && vv < 0.0 then GroundStick else Max(vv + cfg.gravity * dt, cfg.terminalVelocity)
  }

  function Gravity(cfg: PlayerSettings, s: PlayerState, dt: real): (r: PlayerState)
    ensures r.verticalVelocity == Fall(cfg, s.isGrounded, s.verticalVelocity, dt)
    ensures r.velocity == s.velocity.(y := r.verticalVelocity)
    ensures r.(verticalVelocity := s.verticalVelocity, velocity := s.velocity) == s
  {
    var vv := Fall(cfg, s.isGrounded, s.verticalVelocity, dt);
    s.(verticalVelocity := vv, velocity := s.velocity.(y := vv))
  }

  // ---------------------------------------------------------------- ApplyMovement

  /** `ApplyMovement` after the engine's `Move`: the grounded flags shift,
      and a landing (airborne before, grounded now) zeroes the vertical
      speed through `OnLand`. */
  function Settle(s: PlayerState, groundedNow: bool): (r: PlayerState)
    ensures r.wasGrounded == s.isGrounded && r.isGrounded == groundedNow
    ensures r.verticalVelocity == if !s.isGrounded && groundedNow then 0.0 else s.verticalVelocity
    ensures r.(wasGrounded := s.wasGrounded, isGrounded := s.isGrounded, verticalVelocity := s.verticalVelocity) == s
  {
    var landed := !s.isGrounded && groundedNow;
    s.(wasGrounded := s.isGrounded,
       isGrounded := groundedNow,
       verticalVelocity := if landed then 0.0 else s.verticalVelocity)
  }

  // ---------------------------------------------------------------- HandleFootsteps

  /** Footsteps tick while grounded, faster than 0.1 and steering a
      direction longer than 0.1. */
  predicate Stepping(s: PlayerState)
  {
    s.isGrounded && s.currentSpeed > InputDeadZone && s.moveMagnitude > InputDeadZone
  }

  /** `HandleFootsteps`: the new timer and whether a step sounds. The
      interval depends on `isRunning`, then scales by walk speed over current
      speed. */
  function Footsteps(cfg: PlayerSettings, isRunning: bool, s: PlayerState, dt: real): (r: (PlayerState, bool))
    ensures !Stepping(s) ==> r.0 == s.(footstepTimer := 0.0) && !r.1
    ensures r.1 <==> Stepping(s) && s.footstepTimer - dt <= 0.0
    ensures Stepping(s) && !r.1 ==> r.0.footstepTimer == s.footstepTimer - dt
    ensures r.1 ==> r.0.footstepTimer * s.currentSpeed ==
                      (if isRunning then cfg.footstepIntervalRun else cfg.footstepIntervalWalk) * cfg.walkSpeed
    ensures r.0.(footstepTimer := s.footstepTimer) == s
  {
    if Stepping(s) then
      var t := s.footstepTimer - dt;
      if t <= 0.0 then
        var interval := if isRunning then cfg.footstepIntervalRun else cfg.footstepIntervalWalk;
        (s.(footstepTimer := interval * (cfg.walkSpeed / s.currentSpeed)), true)
      else (s.(footstepTimer := t), false)
    else (s.(footstepTimer := 0.0), false)
  }

  // ---------------------------------------------------------------- Update

  /** One `Update`: GetInput, HandleCrouch, CalculateMovement, HandleJump,
      ApplyGravity, ApplyMovement, HandleFootsteps, in that order. */
  function Frame(cfg: PlayerSettings, originalRadius: real, isRunning: bool, s: PlayerState, i: PlayerInput): (PlayerState, bool)
    requires WellFormed(i)
  {
    Footsteps(cfg, isRunning, Vertical(cfg, Steer(cfg, originalRadius, s, i), i), i.dt)
  }

  /** The first half of a frame: GetInput, HandleCrouch, CalculateMovement. */
  function Steer(cfg: PlayerSettings, originalRadius: real, s: PlayerState, i: PlayerInput): PlayerState
    requires WellFormed(i)
  {
    Movement(cfg, Crouch(cfg, originalRadius, ReadInput(s, i), i.dt), i.moveDirection, i.moveMagnitude, i.dt)
  }

  /** The second half: HandleJump, ApplyGravity, ApplyMovement. */
  function Vertical(cfg: PlayerSettings, s: PlayerState, i: PlayerInput): PlayerState
  {
    Settle(Gravity(cfg, Jump(cfg, s, i.forward), i.dt), i.groundedAfterMove)
  }

  function Frames(cfg: PlayerSettings, originalRadius: real, isRunning: bool, s: PlayerState, ins: seq<PlayerInput>): PlayerState
    requires forall k :: 0 <= k < |ins| ==> WellFormed(ins[k])
    decreases |ins|
  {
    if ins == [] then s
    else Frames(cfg, originalRadius, isRunning, Frame(cfg, originalRadius, isRunning, s, ins[0]).0, ins[1..])
  }

  /** Settings under which the bounds below hold: non-negative speeds and
      ramp rates, a non-negative launch speed, and a terminal velocity no
      higher than the ground-stick speed. */
  predicate Sane(cfg: PlayerSettings)
  {
    cfg.walkSpeed >= 0.0 && cfg.runSpeed >= 0.0 && cfg.crouchSpeed >= 0.0 &&
    cfg.acceleration >= 0.0 && cfg.deceleration >= 0.0 &&
    cfg.jumpSpeed >= 0.0 && cfg.terminalVelocity <= GroundStick
  }

  function TopSpeed(cfg: PlayerSettings): real
  {
    Max(cfg.walkSpeed, Max(cfg.runSpeed, cfg.crouchSpeed))
  }

  /** The speed lies between zero and the fastest setting, the vertical
      speed never falls past terminal velocity, and the capsule's height
      lies between the lowest and the highest of the crouch height, the
      standing height and `h0`, the height the capsule started with. */
  predicate Bounded(cfg: PlayerSettings, h0: real, s: PlayerState)
  {
    0.0 <= s.currentSpeed <= TopSpeed(cfg) &&
    s.verticalVelocity >= cfg.terminalVelocity &&
    Min(Min(cfg.crouchHeight, cfg.standingHeight), h0) <= s.capsule.height <= Max(Max(cfg.crouchHeight, cfg.standingHeight), h0)
  }

  lemma MovementBounded(cfg: PlayerSettings, s: PlayerState, direction: Vec3, directionLength: real, dt: real)
    requires Sane(cfg) && dt >= 0.0
    requires 0.0 <= s.currentSpeed <= TopSpeed(cfg)
    ensures 0.0 <= Movement(cfg, s, direction, directionLength, dt).currentSpeed <= TopSpeed(cfg)
  {
    MulNonNeg(RampRate(cfg, s.input.magnitude), dt);
  }

  /** Every frame keeps the bounds, for any readings with a non-negative
      frame time. */
  lemma FrameKeepsBounded(cfg: PlayerSettings, h0: real, originalRadius: real, isRunning: bool, s: PlayerState, i: PlayerInput)
    requires Sane(cfg) && WellFormed(i) && i.dt >= 0.0
    requires Bounded(cfg, h0, s)
    ensures Bounded(cfg, h0, Frame(cfg, originalRadius, isRunning, s, i).0)
  {
    var a := ReadInput(s, i);
    var b := Crouch(cfg, originalRadius, a, i.dt);
    MovementBounded(cfg, b, i.moveDirection, i.moveMagnitude, i.dt);
  }

  lemma {:induction false} FramesKeepBounded(cfg: PlayerSettings, h0: real, originalRadius: real, isRunning: bool, s: PlayerState, ins: seq<PlayerInput>)
    requires Sane(cfg)
    requires forall k :: 0 <= k < |ins| ==> WellFormed(ins[k]) && ins[k].dt >= 0.0
    requires Bounded(cfg, h0, s)
    ensures Bounded(cfg, h0, Frames(cfg, originalRadius, isRunning, s, ins))
    decreases |ins|
  {
    if ins != [] {
      FrameKeepsBounded(cfg, h0, originalRadius, isRunning, s, ins[0]);
      var rest := ins[1..];
      assert forall k :: 0 <= k < |rest| ==> rest[k] == ins[k + 1];
      FramesKeepBounded(cfg, h0, originalRadius, isRunning, Frame(cfg, originalRadius, isRunning, s, ins[0]).0, rest);
    }
  }

  /** `isRunning` is never assigned, so the footstep interval is the walk
      one even while the character runs. */
  lemma RunningStepsAtWalkInterval(cfg: PlayerSettings, s: PlayerState, dt: real)
    requires Footsteps(cfg, false, s, dt).1
    ensures Footsteps(cfg, false, s, dt).0.footstepTimer * s.currentSpeed == cfg.footstepIntervalWalk * cfg.walkSpeed
  {}

  /** A landing frame ends with no vertical speed, whatever was jumped or fallen. */
  lemma LandingStops(cfg: PlayerSettings, originalRadius: real, isRunning: bool, s: PlayerState, i: PlayerInput)
    requires WellFormed(i) && !s.isGrounded && i.groundedAfterMove
    ensures Frame(cfg, originalRadius, isRunning, s, i).0.verticalVelocity == 0.0
    ensures Frame(cfg, originalRadius, isRunning, s, i).0.isGrounded && !Frame(cfg, originalRadius, isRunning, s, i).0.wasGrounded
  {}

  /** No jump starts from the air or from a crouch. */
  lemma NoAirOrCrouchJump(cfg: PlayerSettings, s: PlayerState, forward: Vec3)
    requires !s.isGrounded || s.isCrouching
    ensures Jump(cfg, s, forward) == s
  {}

  // ---------------------------------------------------------------- AddForce

  /** Unity's `ForceMode`. */
  datatype ForceMode = Force | Acceleration | Impulse | VelocityChange

  /** The velocity after `AddForce`: a tenth of the force for `Force`, the
      force itself for `Impulse`, the force scaled by the frame time for
      `Acceleration`, and a replacement for `VelocityChange`. */
  function Pushed(velocity: Vec3, force: Vec3, mode: ForceMode, dt: real): Vec3
  {
    match mode {
      case Force => Add(velocity, Vec3(force.x / 10.0, force.y / 10.0, force.z / 10.0))
      case Impulse => Add(velocity, force)
      case VelocityChange => force
      case Acceleration => Add(velocity, Scale(force, dt))
    }
  }

  /** Two impulses act as their sum, and a velocity change forgets what came before. */
  lemma ImpulsesAdd(v: Vec3, f: Vec3, g: Vec3, dt: real)
    ensures Pushed(Pushed(v, f, Impulse, dt), g, Impulse, dt) == Pushed(v, Add(f, g), Impulse, dt)
    ensures Pushed(Pushed(v, f, Impulse, dt), g, VelocityChange, dt) == g
  {}

  // ---------------------------------------------------------------- the component

  class PlayerController {
    const cfg: PlayerSettings
    var enabled: bool
    var originalRadius: real
    var isRunning: bool
    var input: InputState
    var isCrouching: bool
    /** The `CharacterController` component's capsule. */
    var capsule: Capsule
    var targetSpeed: real
    var currentSpeed: real
    var moveDirection: Vec3
    var moveMagnitude: real
    var velocity: Vec3
    var verticalVelocity: real
    var isGrounded: bool
    var wasGrounded: bool
    var footstepTimer: real

    function State(): PlayerState
      reads this
    {
      PlayerState(input, isCrouching, capsule, targetSpeed, currentSpeed, moveDirection, moveMagnitude,
                  velocity, verticalVelocity, isGrounded, wasGrounded, footstepTimer)
    }

    /** The capsule's height when the component was created. */
    const initialHeight: real

    /** With sane settings the bounds hold between frames. */
    predicate Valid()
      reads this
    {
      Sane(cfg) ==> Bounded(cfg, initialHeight, State())
    }

    /** A fresh component on a capsule of the given height and radius:
        standing, airborne, with `wasGrounded` set, at rest. */
    constructor (cfg: PlayerSettings, controllerHeight: real, controllerRadius: real)
      ensures this.cfg == cfg && enabled && !isRunning && !isCrouching && !isGrounded && wasGrounded
      ensures capsule.height == controllerHeight && capsule.radius == controllerRadius
      ensures currentSpeed == 0.0 && verticalVelocity == 0.0 && footstepTimer == 0.0
      ensures initialHeight == controllerHeight && Valid()
    {
      this.cfg := cfg;
      initialHeight := controllerHeight;
      enabled := true;
      originalRadius := controllerRadius;
      isRunning := false;
      input := InputState(Vec2(0.0, 0.0), 0.0, false, false, false);
      isCrouching := false;
      capsule := Capsule(controllerHeight, controllerHeight / 2.0, controllerRadius);
      targetSpeed := 0.0;
      currentSpeed := 0.0;
      moveDirection := Zero3;
      moveMagnitude := 0.0;
      velocity := Zero3;
      verticalVelocity := 0.0;
      isGrounded := false;
      wasGrounded := true;
      footstepTimer := 0.0;
    }

    /** `Start`: remembers the capsule's radius and clears velocity and move direction. */
    method Start()
      modifies this`originalRadius, this`velocity, this`moveDirection, this`moveMagnitude
      ensures originalRadius == capsule.radius
      ensures velocity == Zero3 && moveDirection == Zero3 && moveMagnitude == 0.0
    {
      originalRadius := capsule.radius;
      velocity := Zero3;
      moveDirection := Zero3;
      moveMagnitude := 0.0;
    }

    /** `Update`, which the engine runs only while the component is enabled;
        `footstep` reports `PlayFootstep`. */
    method Update(i: PlayerInput) returns (footstep: bool)
      requires enabled && WellFormed(i) && i.dt >= 0.0
      requires Valid()
      modifies this
      ensures Valid()
      ensures (State(), footstep) == Frame(cfg, originalRadius, isRunning, old(State()), i)
      ensures enabled && originalRadius == old(originalRadius) && isRunning == old(isRunning)
    {
      SteerPhase(i);
      VerticalPhase(i);
      footstep := HandleFootsteps(i.dt);
      if Sane(cfg) {
        FrameKeepsBounded(cfg, initialHeight, originalRadius, isRunning, old(State()), i);
      }
    }

    /** `GetInput`, `HandleCrouch` and `CalculateMovement`, the first three calls of `Update`. */
    method SteerPhase(i: PlayerInput)
      requires WellFormed(i)
      modifies this`input, this`isCrouching, this`capsule,
               this`targetSpeed, this`currentSpeed, this`moveDirection, this`moveMagnitude, this`velocity
      ensures State() == Steer(cfg, originalRadius, old(State()), i)
    {
      GetInput(i);
      HandleCrouch(i.dt);
      CalculateMovement(i.moveDirection, i.moveMagnitude, i.dt);
    }

    /** `HandleJump`, `ApplyGravity` and `ApplyMovement`, the next three. */
    method VerticalPhase(i: PlayerInput)
      modifies this`verticalVelocity, this`velocity, this`wasGrounded, this`isGrounded
      ensures State() == Vertical(cfg, old(State()), i)
    {
      HandleJump(i.forward);
      ApplyGravity(i.dt);
      ApplyMovement(i.groundedAfterMove);
    }

    method GetInput(i: PlayerInput)
      requires WellFormed(i)
      modifies this`input
      ensures State() == ReadInput(old(State()), i)
    {
      input := InputState(ClampedAxis(i.rawAxis, i.rawMagnitude), Min(i.rawMagnitude, 1.0),
                          i.jumpDown, i.shiftHeld, i.crouchDown);
    }

    method HandleCrouch(dt: real)
      modifies this`isCrouching, this`capsule
      ensures State() == Crouch(cfg, originalRadius, old(State()), dt)
    {
      if input.crouchPressed {
        isCrouching := !isCrouching;
      }
      var targetHeight := if isCrouching then cfg.crouchHeight else cfg.standingHeight;
      var height := Lerp(capsule.height, targetHeight, dt * cfg.crouchTransitionSpeed);
      capsule := Capsule(height, height / 2.0, if isCrouching then originalRadius * CrouchRadiusScale else originalRadius);
    }

    method CalculateMovement(direction: Vec3, directionLength: real, dt: real)
      modifies this`targetSpeed, this`currentSpeed, this`moveDirection, this`moveMagnitude, this`velocity
      ensures State() == Movement(cfg, old(State()), direction, directionLength, dt)
    {
      var target := if isCrouching then cfg.crouchSpeed else (if input.runHeld && !isCrouching then cfg.runSpeed else cfg.walkSpeed);
      if input.magnitude < InputDeadZone {
        target := 0.0;
      }
      targetSpeed := target;
      currentSpeed := MoveTowards(currentSpeed, target, MaxSpeedChange(cfg, input.magnitude, dt));
      moveDirection := direction;
      moveMagnitude := directionLength;
      velocity := Planar(direction, currentSpeed, isGrounded, cfg.airControl);
    }

    method HandleJump(forward: Vec3)
      modifies this`verticalVelocity, this`velocity
      ensures State() == Jump(cfg, old(State()), forward)
    {
      if isGrounded && input.jumpPressed && !isCrouching {
        verticalVelocity := cfg.jumpSpeed;
        if MagnitudeAbove(SqrMagnitude3(velocity), 0.0) {
          velocity := Add(velocity, Scale(forward, 0.5));
        }
      }
    }

    method ApplyGravity(dt: real)
      modifies this`verticalVelocity, this`velocity
      ensures State() == Gravity(cfg, old(State()), dt)
    {
      if isGrounded && verticalVelocity < 0.0 {
        verticalVelocity := GroundStick;
      } else {
        verticalVelocity := verticalVelocity + cfg.gravity * dt;
        verticalVelocity := Max(verticalVelocity, cfg.terminalVelocity);
      }
      velocity := velocity.(y := verticalVelocity);
    }

    method ApplyMovement(groundedNow: bool)
      modifies this`wasGrounded, this`isGrounded, this`verticalVelocity
      ensures State() == Settle(old(State()), groundedNow)
    {
      wasGrounded := isGrounded;
      isGrounded := groundedNow;
      if !wasGrounded && isGrounded {
        verticalVelocity := 0.0;
      }
    }

    method HandleFootsteps(dt: real) returns (plays: bool)
      modifies this`footstepTimer
      ensures State() == Footsteps(cfg, isRunning, old(State()), dt).0
      ensures plays == Footsteps(cfg, isRunning, old(State()), dt).1
    {
      plays := false;
      if isGrounded && currentSpeed > InputDeadZone && moveMagnitude > InputDeadZone {
        footstepTimer := footstepTimer - dt;
        if footstepTimer <= 0.0 {
          plays := true;
          var interval := if isRunning then cfg.footstepIntervalRun else cfg.footstepIntervalWalk;
          footstepTimer := interval * (cfg.walkSpeed / currentSpeed);
        }
      } else {
        footstepTimer := 0.0;
      }
    }

    /** `SetMovementEnabled`: disabling also stops the character. */
    method SetMovementEnabled(enable: bool)
      requires Valid()
      modifies this`enabled, this`velocity, this`currentSpeed
      ensures Valid()
      ensures enabled == enable
      ensures !enable ==> velocity == Zero3 && currentSpeed == 0.0
      ensures enable ==> velocity == old(velocity) && currentSpeed == old(currentSpeed)
    {
      enabled := enable;
      if !enable {
        velocity := Zero3;
        currentSpeed := 0.0;
      }
    }

    /** `AddForce`, an impulse unless another mode is given; `dt` is the
        frame time the `Acceleration` mode scales by. */
    method AddForce(force: Vec3, dt: real, mode: ForceMode := Impulse)
      modifies this`velocity
      ensures velocity == Pushed(old(velocity), force, mode, dt)
    {
      match mode {
        case Force => velocity := Add(velocity, Vec3(force.x / 10.0, force.y / 10.0, force.z / 10.0));
        case Impulse => velocity := Add(velocity, force);
        case VelocityChange => velocity := force;
        case Acceleration => velocity := Add(velocity, Scale(force, dt));
      }
    }
  }
}
