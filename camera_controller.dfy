/** `CameraController` (CameraController.cs): the first/third person toggle
    with its head-bob base height, the accumulated mouse look with the pitch
    held in [-80, 80], the head-bob parameter state machine (`wasMoving`
    and the half-second reset timer), the tilt target with its dead zone,
    and which follow and smoothing routines `LateUpdate` runs. Positions,
    rotations and the sine waves those routines compute are not modelled;
    input axes, keys and the frame time are parameters. */
module Camera {
  import opened Engine

  /** The inspector settings the modelled code reads. */
  datatype CameraSettings = CameraSettings(
    mouseSensitivity: real,
    invertY: bool,
    distanceFromPlayer: real,
    cameraHeight: real,
    firstPersonPosition: Vec3,
    enableHeadBob: bool,
    walkBobSpeed: real,
    runBobSpeed: real,
    walkBobAmount: real,
    runBobAmount: real,
    moveThreshold: real,
    enableCameraTilt: bool,
    tiltAmount: real)

  /** The pitch limit `Update` applies to `mouseY`. */
  const PitchLimit := 80.0

  /** `bobResetTime`: how long the bob takes to settle after the player stops. */
  const BobResetTime := 0.5

  /** Horizontal input at or below this leaves the tilt target at zero. */
  const TiltDeadZone := 0.2

  // ---------------------------------------------------------------- mode

  /** The head-bob base height for a camera mode, as the V toggle sets it. */
  function DefaultY(cfg: CameraSettings, firstPerson: bool): real
  {
    if firstPerson then cfg.firstPersonPosition.y else cfg.cameraHeight
  }

  datatype Mode = Mode(isFirstPerson: bool, defaultYPos: real)

  /** The V key: flips the mode and moves the bob base height with it. */
  function ToggleMode(cfg: CameraSettings, m: Mode, vDown: bool): (r: Mode)
    ensures !vDown ==> r == m
    ensures vDown ==> r.isFirstPerson == !m.isFirstPerson
    ensures vDown && r.isFirstPerson ==> r.defaultYPos == cfg.firstPersonPosition.y
    ensures vDown && !r.isFirstPerson ==> r.defaultYPos == cfg.cameraHeight
  {
    if vDown then Mode(!m.isFirstPerson, DefaultY(cfg, !m.isFirstPerson)) else m
  }

  /** Two presses of V come back to the starting mode, with the base height
      that mode's toggle gives. */
  lemma ToggleTwice(cfg: CameraSettings, m: Mode)
    ensures ToggleMode(cfg, ToggleMode(cfg, m, true), true) == Mode(m.isFirstPerson, DefaultY(cfg, m.isFirstPerson))
  {}

  // ---------------------------------------------------------------- look

  /** One mouse axis's contribution in a frame: the reading times the
      sensitivity times the frame time. */
  function MouseDelta(axis: real, sensitivity: real, dt: real): real
  {
    axis * sensitivity * dt
  }

  /** `mouseY` after one frame: the Mouse Y contribution is added when
      `invertY` is set and subtracted otherwise, then the pitch is clamped. */
  function Pitch(mouseY: real, axisY: real, sensitivity: real, invertY: bool, dt: real): (r: real)
    ensures -PitchLimit <= r <= PitchLimit
    ensures var raw := if invertY then mouseY + MouseDelta(axisY, sensitivity, dt) else mouseY - MouseDelta(axisY, sensitivity, dt);
            -PitchLimit <= raw <= PitchLimit ==> r == raw
  {
    var delta := MouseDelta(axisY, sensitivity, dt);
    Clamp(if invertY then mouseY + delta else mouseY - delta, -PitchLimit, PitchLimit)
  }

  /** `invertY` does nothing but flip the sign of the Mouse Y contribution:
      inverted look with an axis reading is normal look with the opposite
      reading. */
  lemma InvertFlipsSign(mouseY: real, axisY: real, sensitivity: real, dt: real)
    ensures Pitch(mouseY, axisY, sensitivity, true, dt) == Pitch(mouseY, -axisY, sensitivity, false, dt)
  {
    assert MouseDelta(-axisY, sensitivity, dt) == -MouseDelta(axisY, sensitivity, dt);
  }

  // ---------------------------------------------------------------- head bob

  /** The fields `UpdateHeadBobParameters` reads and writes; `timer` is the
      bob wave's phase, which this routine only ever resets. */
  datatype Bob = Bob(
    timer: real,
    speed: real,
    amount: real,
    resetTimer: real,
    wasMoving: bool,
    lastHorizontal: real,
    lastVertical: real)

  /** One frame of movement input as the head bob sees it. */
  datatype BobInput = BobInput(horizontal: real, vertical: real, running: bool, dt: real)

  /** The input vector's magnitude exceeds `moveThreshold`, decided on its square. */
  predicate Moving(cfg: CameraSettings, i: BobInput)
  {
    MagnitudeAbove(SqrMagnitude2(Vec2(i.horizontal, i.vertical)), cfg.moveThreshold)
  }

  /** `Moving` is exactly the source's `inputMagnitude > moveThreshold`. */
  lemma MovingIsThreshold(cfg: CameraSettings, i: BobInput, magnitude: real)
    requires IsMagnitude(magnitude, SqrMagnitude2(Vec2(i.horizontal, i.vertical)))
    ensures Moving(cfg, i) <==> magnitude > cfg.moveThreshold
  {
    MagnitudeComparisons(magnitude, SqrMagnitude2(Vec2(i.horizontal, i.vertical)), cfg.moveThreshold);
  }

  /** `UpdateHeadBobParameters`. */
  function BobStep(cfg: CameraSettings, b: Bob, i: BobInput): (r: Bob)
    // moving: run or walk values, and the reset timer starts over
    ensures Moving(cfg, i) ==>
              r.speed == (if i.running then cfg.runBobSpeed else cfg.walkBobSpeed) &&
              r.amount == (if i.running then cfg.runBobAmount else cfg.walkBobAmount) &&
              r.wasMoving && r.resetTimer == 0.0 && r.timer == b.timer
    // just stopped: the reset timer runs and the amount fades toward zero
    ensures !Moving(cfg, i) && b.wasMoving ==> r.resetTimer == b.resetTimer + i.dt
    ensures !Moving(cfg, i) && b.wasMoving && b.resetTimer + i.dt < BobResetTime ==>
              r.wasMoving && r.speed == b.speed && r.timer == b.timer &&
              (b.amount >= 0.0 ==> 0.0 <= r.amount <= b.amount)
    // settled: `wasMoving`, amount, speed and wave phase back to rest;
    // the reset timer is never reset and keeps its value
    ensures !Moving(cfg, i) && b.wasMoving && b.resetTimer + i.dt >= BobResetTime ==>
              !r.wasMoving && r.amount == 0.0 && r.speed == cfg.walkBobSpeed && r.timer == 0.0
    // still and not stopping: at rest, reset timer untouched
    ensures !Moving(cfg, i) && !b.wasMoving ==>
              !r.wasMoving && r.amount == 0.0 && r.speed == cfg.walkBobSpeed &&
              r.timer == b.timer && r.resetTimer == b.resetTimer
    ensures r.lastHorizontal == i.horizontal && r.lastVertical == i.vertical
  {
    var b' :=
      if Moving(cfg, i) then
        b.(speed := if i.running then cfg.runBobSpeed else cfg.walkBobSpeed,
           amount := if i.running then cfg.runBobAmount else cfg.walkBobAmount,
           wasMoving := true,
           resetTimer := 0.0)
      else if b.wasMoving then
        var t := b.resetTimer + i.dt;
        var faded := Lerp(b.amount, 0.0, FadeStep(Clamp01(t / BobResetTime), i.dt));
        if t >= BobResetTime then
          b.(resetTimer := t, wasMoving := false, amount := 0.0, speed := cfg.walkBobSpeed, timer := 0.0)
        else
          b.(resetTimer := t, amount := faded)
      else
        b.(amount := 0.0, speed := cfg.walkBobSpeed);
    b'.(lastHorizontal := i.horizontal, lastVertical := i.vertical)
  }

  /** How far one frame's fade moves the amount toward zero: the reset
      progress times five times the frame time. */
  function FadeStep(progress: real, dt: real): real
  {
    progress * 5.0 * dt
  }

  /** Head-bob parameters over a run of frames. */
  function Bobs(cfg: CameraSettings, b: Bob, ins: seq<BobInput>): Bob
    decreases |ins|
  {
    if ins == [] then b else Bobs(cfg, BobStep(cfg, b, ins[0]), ins[1..])
  }

  /** The frame time summed over a run of frames. */
  function Elapsed(ins: seq<BobInput>): real
    decreases |ins|
  {
    if ins == [] then 0.0 else ins[0].dt + Elapsed(ins[1..])
  }

  /** The bob amount is never negative and never more than the larger of
      the walk and run amounts. */
  predicate AmountBounded(cfg: CameraSettings, b: Bob)
  {
    0.0 <= b.amount <= Max(cfg.walkBobAmount, cfg.runBobAmount)
  }

  /** With non-negative walk and run amounts, every frame keeps the bound. */
  lemma {:induction false} AmountStaysBounded(cfg: CameraSettings, b: Bob, ins: seq<BobInput>)
    requires cfg.walkBobAmount >= 0.0 && cfg.runBobAmount >= 0.0
    requires AmountBounded(cfg, b)
    ensures AmountBounded(cfg, Bobs(cfg, b, ins))
    decreases |ins|
  {
    if ins != [] {
      AmountStaysBounded(cfg, BobStep(cfg, b, ins[0]), ins[1..]);
    }
  }

  /** Once the player stands still (with non-negative frame times) for
      half a second counted from the reset timer, the bob is at rest: not
      moving, amount zero, walk speed. */
  lemma {:induction false} SettlesAfterStopping(cfg: CameraSettings, b: Bob, ins: seq<BobInput>)
    requires ins != []
    requires forall k :: 0 <= k < |ins| ==> !Moving(cfg, ins[k]) && ins[k].dt >= 0.0
    requires b.wasMoving ==> b.resetTimer + Elapsed(ins) >= BobResetTime
    ensures var r := Bobs(cfg, b, ins);
            !r.wasMoving && r.amount == 0.0 && r.speed == cfg.walkBobSpeed
    decreases |ins|
  {
    var next := BobStep(cfg, b, ins[0]);
    assert !Moving(cfg, ins[0]);
    if |ins| > 1 {
      var rest := ins[1..];
      assert forall k :: 0 <= k < |rest| ==> rest[k] == ins[k + 1];
      if next.wasMoving {
        assert next.resetTimer == b.resetTimer + ins[0].dt;
        assert Elapsed(ins) == ins[0].dt + Elapsed(rest);
      }
      SettlesAfterStopping(cfg, next, rest);
    } else {
      assert Elapsed(ins) == ins[0].dt + Elapsed(ins[1..]);
      assert Elapsed(ins[1..]) == 0.0;
    }
  }

  // ---------------------------------------------------------------- tilt

  /** `UpdateCameraTilt`'s target angle. */
  function TargetTilt(horizontal: real, tiltAmount: real): (r: real)
    ensures Abs(horizontal) <= TiltDeadZone ==> r == 0.0
    ensures Abs(horizontal) > TiltDeadZone ==> r == -horizontal * tiltAmount
  {
    if Abs(horizontal) > TiltDeadZone then -horizontal * tiltAmount else 0.0
  }

  /** Steering the other way tilts the other way by the same angle. */
  lemma TiltSymmetric(horizontal: real, tiltAmount: real)
    ensures TargetTilt(-horizontal, tiltAmount) == -TargetTilt(horizontal, tiltAmount)
  {
    assert Abs(-horizontal) == Abs(horizontal);
  }

  // ---------------------------------------------------------------- late update

  datatype Follow = FollowFirstPerson | FollowThirdPerson

  /** The routines one `LateUpdate` runs: which follow routine, and whether
      `ApplyHeadBob` and `ApplyCameraTilt` run. */
  datatype LateWork = LateWork(follow: Option<Follow>, headBob: bool, tilt: bool)

  function LatePlan(cfg: CameraSettings, hasPlayer: bool, firstPerson: bool): (r: LateWork)
    ensures !hasPlayer ==> r == LateWork(None, false, false)
    ensures hasPlayer ==> r.follow == Some(if firstPerson then FollowFirstPerson else FollowThirdPerson)
    ensures r.headBob <==> hasPlayer && cfg.enableHeadBob && firstPerson
    ensures r.tilt <==> hasPlayer && cfg.enableCameraTilt && firstPerson
  {
    if !hasPlayer then LateWork(None, false, false)
    else LateWork(Some(if firstPerson then FollowFirstPerson else FollowThirdPerson),
                  cfg.enableHeadBob && firstPerson,
                  cfg.enableCameraTilt && firstPerson)
  }

  /** In third person neither bob nor tilt is applied, whatever the settings. */
  lemma ThirdPersonStaysLevel(cfg: CameraSettings, hasPlayer: bool)
    ensures !LatePlan(cfg, hasPlayer, false).headBob && !LatePlan(cfg, hasPlayer, false).tilt
  {}

  // ---------------------------------------------------------------- the component

  /** The per-frame state `Update` writes. */
  datatype View = View(mode: Mode, mouseX: real, mouseY: real, bob: Bob, targetTiltAngle: real)

  /** One frame's input: the V key, both mouse axes, the movement axes,
      left shift, and the frame time. */
  datatype Frame = Frame(vDown: bool, axisX: real, axisY: real, horizontal: real, vertical: real, running: bool, dt: real)

  /** `Update`: toggle, look, head-bob parameters, tilt target. */
  function Step(cfg: CameraSettings, v: View, f: Frame): (r: View)
    ensures r.mode == ToggleMode(cfg, v.mode, f.vDown)
    ensures r.mouseX == v.mouseX + MouseDelta(f.axisX, cfg.mouseSensitivity, f.dt)
    ensures r.mouseY == Pitch(v.mouseY, f.axisY, cfg.mouseSensitivity, cfg.invertY, f.dt)
    ensures -PitchLimit <= r.mouseY <= PitchLimit
    ensures r.bob == BobStep(cfg, v.bob, BobInput(f.horizontal, f.vertical, f.running, f.dt))
    ensures r.targetTiltAngle == TargetTilt(f.horizontal, cfg.tiltAmount)
  {
    View(ToggleMode(cfg, v.mode, f.vDown),
         v.mouseX + MouseDelta(f.axisX, cfg.mouseSensitivity, f.dt),
         Pitch(v.mouseY, f.axisY, cfg.mouseSensitivity, cfg.invertY, f.dt),
         BobStep(cfg, v.bob, BobInput(f.horizontal, f.vertical, f.running, f.dt)),
         TargetTilt(f.horizontal, cfg.tiltAmount))
  }

  class CameraController {
    const cfg: CameraSettings
    var hasPlayer: bool
    var isFirstPerson: bool
    var defaultYPos: real
    var cameraOffset: Vec3
    var mouseX: real
    var mouseY: real
    var timer: real
    var currentBobSpeed: real
    var currentBobAmount: real
    var bobResetTimer: real
    var wasMoving: bool
    var lastHorizontalInput: real
    var lastVerticalInput: real
    var targetTiltAngle: real

    function BobState(): Bob
      reads this
    {
      Bob(timer, currentBobSpeed, currentBobAmount, bobResetTimer, wasMoving, lastHorizontalInput, lastVerticalInput)
    }

    function State(): View
      reads this
    {
      View(Mode(isFirstPerson, defaultYPos), mouseX, mouseY, BobState(), targetTiltAngle)
    }

    /** The pitch is in range and, with non-negative bob amounts, so is the
        bob amount. */
    predicate Valid()
      reads this
    {
      -PitchLimit <= mouseY <= PitchLimit &&
      (cfg.walkBobAmount >= 0.0 && cfg.runBobAmount >= 0.0 ==> AmountBounded(cfg, BobState()))
    }

    /** A fresh component: first person, everything else at its default;
        `playerAssigned` is whether the inspector set `player`. */
    constructor (cfg: CameraSettings, playerAssigned: bool)
      ensures this.cfg == cfg && hasPlayer == playerAssigned && isFirstPerson
      ensures State() == View(Mode(true, 0.0), 0.0, 0.0, Bob(0.0, 0.0, 0.0, 0.0, false, 0.0, 0.0), 0.0)
      ensures Valid()
    {
      this.cfg := cfg;
      hasPlayer := playerAssigned;
      isFirstPerson := true;
      defaultYPos := 0.0;
      cameraOffset := Zero3;
      mouseX := 0.0;
      mouseY := 0.0;
      timer := 0.0;
      currentBobSpeed := 0.0;
      currentBobAmount := 0.0;
      bobResetTimer := 0.0;
      wasMoving := false;
      lastHorizontalInput := 0.0;
      lastVerticalInput := 0.0;
      targetTiltAngle := 0.0;
    }

    /** `Start`: locks and hides the cursor, falls back to the object tagged
        "Player" (`playerTagged`) when none was assigned, sets the third
        person offset and the bob base height; `initialLocalY` is the
        camera's starting local height. */
    method Start(playerTagged: bool, initialLocalY: real, cursor: Cursor)
      modifies this, cursor
      ensures cursor.lockState == Locked && !cursor.visible
      ensures hasPlayer == (old(hasPlayer) || playerTagged)
      ensures cameraOffset == Vec3(0.0, cfg.cameraHeight, -cfg.distanceFromPlayer)
      ensures defaultYPos == if isFirstPerson then cfg.firstPersonPosition.y else initialLocalY
      ensures isFirstPerson == old(isFirstPerson) && mouseX == old(mouseX) && mouseY == old(mouseY)
      ensures BobState() == old(BobState()) && targetTiltAngle == old(targetTiltAngle)
    {
      cursor.Lock();
      if !hasPlayer {
        hasPlayer := playerTagged;
      }
      cameraOffset := Vec3(0.0, cfg.cameraHeight, -cfg.distanceFromPlayer);
      defaultYPos := if isFirstPerson then cfg.firstPersonPosition.y else initialLocalY;
    }

    /** `Update`. */
    method Update(f: Frame)
      requires Valid()
      modifies this
      ensures Valid()
      ensures State() == Step(cfg, old(State()), f)
      ensures hasPlayer == old(hasPlayer) && cameraOffset == old(cameraOffset)
    {
      ToggleCamera(f.vDown);
      Look(f.axisX, f.axisY, f.dt);
      UpdateHeadBobParameters(BobInput(f.horizontal, f.vertical, f.running, f.dt));
      UpdateCameraTilt(f.horizontal);
    }

    /** The V toggle at the top of `Update`. */
    method ToggleCamera(vDown: bool)
      modifies this`isFirstPerson, this`defaultYPos
      ensures Mode(isFirstPerson, defaultYPos) == ToggleMode(cfg, old(Mode(isFirstPerson, defaultYPos)), vDown)
    {
      if vDown {
        isFirstPerson := !isFirstPerson;
        defaultYPos := if isFirstPerson then cfg.firstPersonPosition.y else cfg.cameraHeight;
      }
    }

    /** The mouse capture and pitch clamp in `Update`. */
    method Look(axisX: real, axisY: real, dt: real)
      modifies this`mouseX, this`mouseY
      ensures mouseX == old(mouseX) + MouseDelta(axisX, cfg.mouseSensitivity, dt)
      ensures mouseY == Pitch(old(mouseY), axisY, cfg.mouseSensitivity, cfg.invertY, dt)
    {
      mouseX := mouseX + MouseDelta(axisX, cfg.mouseSensitivity, dt);
      if cfg.invertY {
        mouseY := mouseY + MouseDelta(axisY, cfg.mouseSensitivity, dt);
      } else {
        mouseY := mouseY - MouseDelta(axisY, cfg.mouseSensitivity, dt);
      }
      mouseY := Clamp(mouseY, -PitchLimit, PitchLimit);
    }

    method UpdateHeadBobParameters(i: BobInput)
      requires Valid()
      modifies this`timer, this`currentBobSpeed, this`currentBobAmount, this`bobResetTimer,
               this`wasMoving, this`lastHorizontalInput, this`lastVerticalInput
      ensures Valid()
      ensures BobState() == BobStep(cfg, old(BobState()), i)
    {
      if Moving(cfg, i) {
        currentBobSpeed := if i.running then cfg.runBobSpeed else cfg.walkBobSpeed;
        currentBobAmount := if i.running then cfg.runBobAmount else cfg.walkBobAmount;
        wasMoving := true;
        bobResetTimer := 0.0;
      } else if wasMoving {
        bobResetTimer := bobResetTimer + i.dt;
        var resetProgress := Clamp01(bobResetTimer / BobResetTime);
        currentBobAmount := Lerp(currentBobAmount, 0.0, FadeStep(resetProgress, i.dt));
        if bobResetTimer >= BobResetTime {
          wasMoving := false;
          currentBobAmount := 0.0;
          currentBobSpeed := cfg.walkBobSpeed;
          timer := 0.0;
        }
      } else {
        currentBobAmount := 0.0;
        currentBobSpeed := cfg.walkBobSpeed;
      }
      lastHorizontalInput := i.horizontal;
      lastVerticalInput := i.vertical;
    }

    method UpdateCameraTilt(horizontal: real)
      modifies this`targetTiltAngle
      ensures targetTiltAngle == TargetTilt(horizontal, cfg.tiltAmount)
    {
      if Abs(horizontal) > TiltDeadZone {
        targetTiltAngle := -horizontal * cfg.tiltAmount;
      } else {
        targetTiltAngle := 0.0;
      }
    }

    /** `LateUpdate`: which routines run this frame. */
    method LateUpdate() returns (work: LateWork)
      ensures work == LatePlan(cfg, hasPlayer, isFirstPerson)
    {
      if !hasPlayer {
        return LateWork(None, false, false);
      }
      var follow := if isFirstPerson then FollowFirstPerson else FollowThirdPerson;
      work := LateWork(Some(follow), cfg.enableHeadBob && isFirstPerson, cfg.enableCameraTilt && isFirstPerson);
    }
  }
}
