/** `PlayerMovement.cs`: the first-person walker with the NPC dialogue
    gate. Each `Update` reads the keys, the ground check and the movement
    axes, moves the character, plays footsteps and applies jump and gravity.

    Only the vertical component of `velocity` is ever written, so the model
    keeps that component alone. The camera-relative move direction
    (`right * x + forward * z`), its length, the ground check and the
    launch speed `Mathf.Sqrt(jumpHeight * -2 * gravity)` are inputs. */
module Movement {
  import opened Engine

  /** An `NPCConversation` reference, by identity. */
  type ConversationId = nat

  /** The vertical speed a grounded, falling player is pinned to. */
  const GroundedVelocity := -2.0

  /** Axis readings at or below this in absolute value do not count as moving. */
  const AxisDeadZone := 0.1

  datatype MoverConfig = MoverConfig(
    walkSpeed: real,
    runSpeed: real,
    jumpVelocity: real,
    gravity: real,
    walkStepInterval: real,
    runStepInterval: real)

  datatype MoverState = MoverState(
    hasNPC: bool,
    dialogue: Option<ConversationId>,
    velocityY: real,
    isGrounded: bool,
    wasGrounded: bool,
    currentSpeed: real,
    stepTimer: real,
    isMoving: bool)

  /** One frame's readings. `move` is the camera-relative direction before
      its height is dropped; `flatLength` is the length of that direction
      without its height. */
  datatype MoveInput = MoveInput(
    eDown: bool,
    grounded: bool,
    x: real,
    z: real,
    move: Vec3,
    flatLength: real,
    shiftHeld: bool,
    jumpDown: bool,
    dt: real)

  /** What a frame does outside the component: the conversation started
      (with the `DialogoNPC` it was given), whether `OnLand` and `OnJump`
      ran, the horizontal `controller.Move` displacement and whether a
      footstep played. */
  datatype MoveOutput = MoveOutput(
    conversation: Option<Option<ConversationId>>,
    landed: bool,
    jumped: bool,
    displacement: Vec3,
    footstep: bool)

  /** The E-key gate: with an NPC at hand, E starts the conversation and
      uses the NPC up until the player walks in again. */
  datatype Gate = Gate(starts: bool, hasNPC: bool)

  function DialogueGate(hasNPC: bool, eDown: bool): (r: Gate)
    ensures r.starts <==> eDown && hasNPC
    ensures r.starts ==> !r.hasNPC
    ensures !r.starts ==> r.hasNPC == hasNPC
  {
    if eDown && hasNPC then Gate(true, false) else Gate(false, hasNPC)
  }

  /** A grounded player that is falling is pinned to `GroundedVelocity`. */
  function GroundClamp(grounded: bool, velocityY: real): (r: real)
    ensures grounded && velocityY < 0.0 ==> r == GroundedVelocity
    ensures !(grounded && velocityY < 0.0) ==> r == velocityY
    ensures grounded ==> r >= GroundedVelocity || r == velocityY
  {
    if grounded && velocityY < 0.0 then GroundedVelocity else velocityY
  }

  /** `isMoving`: a grounded player with either axis out of the dead zone. */
  function Moving(grounded: bool, x: real, z: real): (r: bool)
    ensures r ==> grounded
    ensures r <==> grounded && (Abs(x) > AxisDeadZone || Abs(z) > AxisDeadZone)
  {
    (Abs(x) > AxisDeadZone || Abs(z) > AxisDeadZone) && grounded
  }

  /** The run rule: only forward (`z > 0`) with shift held. */
  function Speed(cfg: MoverConfig, shiftHeld: bool, z: real): (r: real)
    ensures r == cfg.runSpeed || r == cfg.walkSpeed
    ensures shiftHeld && z > 0.0 ==> r == cfg.runSpeed
    ensures !(shiftHeld && z > 0.0) ==> r == cfg.walkSpeed
  {
    if shiftHeld && z > 0.0 then cfg.runSpeed else cfg.walkSpeed
  }

  /** The move direction with its height dropped. */
  function Flat(v: Vec3): (r: Vec3)
    ensures r.y == 0.0 && r.x == v.x && r.z == v.z
  {
    v.(y := 0.0)
  }

  /** The horizontal move vector: flat, and normalised when longer than one,
      so it never exceeds length one. */
  function HorizontalMove(move: Vec3, flatLength: real): (r: Vec3)
    requires IsMagnitude(flatLength, SqrMagnitude3(Flat(move)))
    ensures r.y == 0.0
    ensures SqrMagnitude3(r) <= 1.0
    ensures flatLength <= 1.0 ==> r == Flat(move)
    ensures flatLength > 1.0 ==> SqrMagnitude3(r) == 1.0
  {
    MagnitudeComparisons(flatLength, SqrMagnitude3(Flat(move)), 1.0);
    if flatLength > 1.0 then
      var r := Normalized3(Flat(move), flatLength);
      assert r.y == 0.0 / flatLength;
      r
    else Flat(move)
  }

  /** The footstep countdown: `(stepTimer, plays)`. */
  datatype Steps = Steps(timer: real, plays: bool)

  function Footsteps(cfg: MoverConfig, timer: real, moving: bool, speed: real, dt: real): (r: Steps)
    ensures !moving ==> r == Steps(0.0, false)
    ensures moving && timer - dt > 0.0 ==> r == Steps(timer - dt, false)
    ensures r.plays <==> moving && timer - dt <= 0.0
    ensures r.plays && speed == cfg.runSpeed ==> r.timer == cfg.runStepInterval
    ensures r.plays && speed != cfg.runSpeed ==> r.timer == cfg.walkStepInterval
  {
    if !moving then Steps(0.0, false)
    else if timer - dt <= 0.0 then
      Steps(if speed == cfg.runSpeed then cfg.runStepInterval else cfg.walkStepInterval, true)
    else Steps(timer - dt, false)
  }

  /** The vertical speed gravity adds in one frame. */
  function GravityStep(cfg: MoverConfig, dt: real): real
  {
    cfg.gravity * dt
  }

  /** The frame's horizontal motion: the move direction at the given speed
      for the frame time. */
  function Displacement(m: Vec3, speed: real, dt: real): Vec3
  {
    Scale(m, speed * dt)
  }

  /** One `Update`. */
  function Frame(cfg: MoverConfig, s: MoverState, i: MoveInput): (r: (MoverState, MoveOutput))
    requires IsMagnitude(i.flatLength, SqrMagnitude3(Flat(i.move)))
    // the horizontal displacement is at most one frame's travel at the
    // frame's speed: a flat move vector of length at most one
    ensures var m := HorizontalMove(i.move, i.flatLength);
            r.1.displacement == Scale(m, r.0.currentSpeed * i.dt) && m.y == 0.0 && SqrMagnitude3(m) <= 1.0
  {
    var gate := DialogueGate(s.hasNPC, i.eDown);
    var landed := i.grounded && !s.wasGrounded;
    var pinned := GroundClamp(i.grounded, s.velocityY);
    var moving := Moving(i.grounded, i.x, i.z);
    var m := HorizontalMove(i.move, i.flatLength);
    var speed := Speed(cfg, i.shiftHeld, i.z);
    var steps := Footsteps(cfg, s.stepTimer, moving, speed, i.dt);
    var jumped := i.jumpDown && i.grounded;
    var launched := if jumped then cfg.jumpVelocity else pinned;
    var state := MoverState(gate.hasNPC, s.dialogue, launched + GravityStep(cfg, i.dt), i.grounded, i.grounded,
                            speed, steps.timer, moving);
    var out := MoveOutput(if gate.starts then Some(s.dialogue) else None, landed, jumped,
                          Displacement(m, speed, i.dt), steps.plays);
    (state, out)
  }

  /** `OnLand` runs exactly on the first grounded frame after an airborne one,
      and the previous-frame flag is the frame's ground check afterwards. */
  lemma LandsExactlyOnTouchdown(cfg: MoverConfig, s: MoverState, i: MoveInput)
    requires IsMagnitude(i.flatLength, SqrMagnitude3(Flat(i.move)))
    ensures Frame(cfg, s, i).1.landed <==> i.grounded && !s.wasGrounded
    ensures Frame(cfg, s, i).0.wasGrounded == i.grounded
  {}

  /** A jump happens only from the ground, and in the air gravity is the
      only change to the vertical speed. */
  lemma AirborneOnlyGravity(cfg: MoverConfig, s: MoverState, i: MoveInput)
    requires IsMagnitude(i.flatLength, SqrMagnitude3(Flat(i.move)))
    requires !i.grounded
    ensures !Frame(cfg, s, i).1.jumped
    ensures Frame(cfg, s, i).0.velocityY == s.velocityY + cfg.gravity * i.dt
  {}

  /** A jump from the ground leaves at launch speed less one frame of gravity. */
  lemma JumpLaunches(cfg: MoverConfig, s: MoverState, i: MoveInput)
    requires IsMagnitude(i.flatLength, SqrMagnitude3(Flat(i.move)))
    requires i.grounded && i.jumpDown
    ensures Frame(cfg, s, i).1.jumped
    ensures Frame(cfg, s, i).0.velocityY == cfg.jumpVelocity + cfg.gravity * i.dt
  {}

  /** Standing on the ground without jumping, with downward gravity, settles
      the vertical speed at `GroundedVelocity` plus one frame of gravity and
      keeps it there frame after frame. */
  lemma GroundedSettles(cfg: MoverConfig, s: MoverState, i: MoveInput)
    requires IsMagnitude(i.flatLength, SqrMagnitude3(Flat(i.move)))
    requires cfg.gravity <= 0.0 && i.dt >= 0.0
    requires i.grounded && !i.jumpDown
    requires s.velocityY == GroundedVelocity + cfg.gravity * i.dt
    ensures Frame(cfg, s, i).0.velocityY == s.velocityY
  {
    MulNonNeg(-cfg.gravity, i.dt);
    assert cfg.gravity * i.dt == -((-cfg.gravity) * i.dt);
  }

  /** The footstep timer never leaves [0, the longer interval]. */
  lemma StepTimerBounded(cfg: MoverConfig, s: MoverState, i: MoveInput)
    requires IsMagnitude(i.flatLength, SqrMagnitude3(Flat(i.move)))
    requires cfg.walkStepInterval >= 0.0 && cfg.runStepInterval >= 0.0 && i.dt >= 0.0
    requires 0.0 <= s.stepTimer <= Max(cfg.walkStepInterval, cfg.runStepInterval)
    ensures 0.0 <= Frame(cfg, s, i).0.stepTimer <= Max(cfg.walkStepInterval, cfg.runStepInterval)
  {}

  /** `PlayerMovement`. */
  class PlayerMovement {
    const cfg: MoverConfig
    var hasNPC: bool
    var dialogue: Option<ConversationId>
    var velocityY: real
    var isGrounded: bool
    var wasGrounded: bool
    var currentSpeed: real
    var stepTimer: real
    var isMoving: bool

    function State(): MoverState
      reads this
    {
      MoverState(hasNPC, dialogue, velocityY, isGrounded, wasGrounded, currentSpeed, stepTimer, isMoving)
    }

    /** The component as loaded, after `Start`: walking speed, on the ground
        as far as landing detection knows. */
    constructor (cfg: MoverConfig)
      ensures this.cfg == cfg
      ensures State() == MoverState(false, None, 0.0, false, true, cfg.walkSpeed, 0.0, false)
    {
      this.cfg := cfg;
      hasNPC := false;
      dialogue := None;
      velocityY := 0.0;
      isGrounded := false;
      wasGrounded := true;
      currentSpeed := cfg.walkSpeed;
      stepTimer := 0.0;
      isMoving := false;
    }

    /** `HandleFootstepSounds`. */
    method HandleFootstepSounds(dt: real) returns (plays: bool)
      modifies this`stepTimer
      ensures Steps(stepTimer, plays) == Footsteps(cfg, old(stepTimer), isMoving, currentSpeed, dt)
    {
      if !isMoving {
        stepTimer := 0.0;
        return false;
      }
      stepTimer := stepTimer - dt;
      plays := false;
      if stepTimer <= 0.0 {
        plays := true;
        stepTimer := if currentSpeed == cfg.runSpeed then cfg.runStepInterval else cfg.walkStepInterval;
      }
    }

    /** The E-key check at the top of `Update`. */
    method DialogueKey(eDown: bool, cursor: Cursor) returns (conversation: Option<Option<ConversationId>>)
      modifies this`hasNPC, cursor
      ensures DialogueGate(old(hasNPC), eDown) == Gate(conversation.Some?, hasNPC)
      ensures conversation.Some? ==> conversation.value == dialogue
      ensures conversation.Some? ==> cursor.lockState == Unlocked && cursor.visible
      ensures conversation.None? ==> cursor.lockState == old(cursor.lockState) && cursor.visible == old(cursor.visible)
    {
      conversation := None;
      if eDown && hasNPC {
        conversation := Some(dialogue);
        hasNPC := false;
        cursor.Release();
      }
    }

    /** The jump check and gravity at the end of `Update`. */
    method JumpAndFall(jumpDown: bool, dt: real) returns (jumped: bool)
      modifies this`velocityY
      ensures jumped == (jumpDown && isGrounded)
      ensures velocityY == (if jumped then cfg.jumpVelocity else old(velocityY)) + GravityStep(cfg, dt)
    {
      jumped := false;
      if jumpDown && isGrounded {
        velocityY := cfg.jumpVelocity;
        jumped := true;
      }
      velocityY := velocityY + GravityStep(cfg, dt);
    }

    /** `Update`; starting a conversation also frees and shows the cursor. */
    method Update(i: MoveInput, cursor: Cursor) returns (out: MoveOutput)
      requires IsMagnitude(i.flatLength, SqrMagnitude3(Flat(i.move)))
      modifies this, cursor
      ensures State() == Frame(cfg, old(State()), i).0
      ensures out == Frame(cfg, old(State()), i).1
      ensures out.conversation.Some? ==> cursor.lockState == Unlocked && cursor.visible
      ensures out.conversation.None? ==> cursor.lockState == old(cursor.lockState) && cursor.visible == old(cursor.visible)
    {
      var conversation := DialogueKey(i.eDown, cursor);
      isGrounded := i.grounded;
      var landed := isGrounded && !wasGrounded;
      velocityY := GroundClamp(isGrounded, velocityY);
      isMoving := Moving(isGrounded, i.x, i.z);
      var m := HorizontalMove(i.move, i.flatLength);
      currentSpeed := Speed(cfg, i.shiftHeld, i.z);
      var displacement := Displacement(m, currentSpeed, i.dt);
      var footstep := HandleFootstepSounds(i.dt);
      var jumped := JumpAndFall(i.jumpDown, i.dt);
      wasGrounded := isGrounded;
      out := MoveOutput(conversation, landed, jumped, displacement, footstep);
    }
  }
}
