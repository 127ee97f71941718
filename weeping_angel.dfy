/** `WeepingAngel.cs`: an enemy that stands still while it is inside the
    player camera's view and chases the player while it is not; caught
    unseen within `catchDistance`, the player is replaced by the jumpscare
    camera and a kill timer starts, which loads `sceneAfterDeath`.
    The frustum test, the distance and the positions are frame inputs. */
module Angel {
  import opened Engine

  /** The navigation agent's speed and destination, the script's `dest`,
      which of the two game objects are active, and the kill timers running. */
  datatype AngelState = AngelState(
    speed: real,
    destination: Vec3,
    dest: Vec3,
    playerActive: bool,
    jumpscareActive: bool,
    pendingKills: nat)

  /** One camera is live at a time, and a kill timer runs only after a catch. */
  predicate Consistent(s: AngelState)
  {
    s.playerActive != s.jumpscareActive && (s.pendingKills > 0 ==> s.jumpscareActive)
  }

  /** One `Update`. The source runs the frustum test twice, once per branch;
      both tests see the same frame, so one reading `inView` decides both. */
  function Step(s: AngelState, aiSpeed: real, catchDistance: real,
                inView: bool, position: Vec3, playerPosition: Vec3, distance: real): (r: AngelState)
    // seen: frozen where it stands, nothing else happens
    ensures inView ==> r.speed == 0.0 && r.destination == position
    ensures inView ==> r.dest == s.dest && r.playerActive == s.playerActive
                       && r.jumpscareActive == s.jumpscareActive && r.pendingKills == s.pendingKills
    // unseen: full speed toward the player
    ensures !inView ==> r.speed == aiSpeed && r.dest == playerPosition && r.destination == playerPosition
    // a kill timer starts exactly on an unseen frame within reach
    ensures r.pendingKills > s.pendingKills <==> !inView && distance <= catchDistance
    ensures r.pendingKills >= s.pendingKills
    ensures !inView && distance <= catchDistance ==> !r.playerActive && r.jumpscareActive
    // unseen but out of reach: only the chase changes
    ensures !inView && distance > catchDistance ==>
              r == s.(speed := aiSpeed, dest := playerPosition, destination := playerPosition)
    // the player is deactivated only by a catch
    ensures s.playerActive && !r.playerActive ==> !inView && distance <= catchDistance
    ensures Consistent(s) ==> Consistent(r)
  {
    if inView then s.(speed := 0.0, destination := position)
    else
      var chasing := s.(speed := aiSpeed, dest := playerPosition, destination := playerPosition);
      if distance <= catchDistance then
        chasing.(playerActive := false, jumpscareActive := true, pendingKills := s.pendingKills + 1)
      else chasing
  }

  /** One frame's readings: whether the angel is in view, its position, the
      player's position and the distance between them. */
  datatype Reading = Reading(inView: bool, position: Vec3, playerPosition: Vec3, distance: real)

  function Run(s: AngelState, aiSpeed: real, catchDistance: real, frames: seq<Reading>): AngelState
    decreases |frames|
  {
    if frames == [] then s
    else
      var f := frames[0];
      Run(Step(s, aiSpeed, catchDistance, f.inView, f.position, f.playerPosition, f.distance),
          aiSpeed, catchDistance, frames[1..])
  }

  /** An angel that is watched on every frame never catches the player, however
      close it gets. */
  lemma {:induction false} WatchedNeverCatches(s: AngelState, aiSpeed: real, catchDistance: real, frames: seq<Reading>)
    requires forall k :: 0 <= k < |frames| ==> frames[k].inView
    ensures Run(s, aiSpeed, catchDistance, frames).pendingKills == s.pendingKills
    ensures Run(s, aiSpeed, catchDistance, frames).playerActive == s.playerActive
    decreases |frames|
  {
    if frames != [] {
      var f := frames[0];
      WatchedNeverCatches(Step(s, aiSpeed, catchDistance, f.inView, f.position, f.playerPosition, f.distance),
                          aiSpeed, catchDistance, frames[1..]);
    }
  }

  /** Over any run, an active player ends inactive only if some frame was a
      catch: the angel unseen and within `catchDistance`. */
  lemma {:induction false} OnlyCatchDeactivates(s: AngelState, aiSpeed: real, catchDistance: real, frames: seq<Reading>)
    requires s.playerActive && !Run(s, aiSpeed, catchDistance, frames).playerActive
    ensures exists k :: 0 <= k < |frames| && !frames[k].inView && frames[k].distance <= catchDistance
    decreases |frames|
  {
    var f := frames[0];
    var next := Step(s, aiSpeed, catchDistance, f.inView, f.position, f.playerPosition, f.distance);
    if next.playerActive {
      OnlyCatchDeactivates(next, aiSpeed, catchDistance, frames[1..]);
      var k :| 0 <= k < |frames[1..]| && !frames[1..][k].inView && frames[1..][k].distance <= catchDistance;
      assert frames[k + 1] == frames[1..][k];
    } else {
      assert !frames[0].inView && frames[0].distance <= catchDistance;
    }
  }

  /** A catch is permanent for the frames that follow: the player stays inactive. */
  lemma {:induction false} CaughtStaysCaught(s: AngelState, aiSpeed: real, catchDistance: real, frames: seq<Reading>)
    requires !s.playerActive
    ensures !Run(s, aiSpeed, catchDistance, frames).playerActive
    decreases |frames|
  {
    if frames != [] {
      var f := frames[0];
      CaughtStaysCaught(Step(s, aiSpeed, catchDistance, f.inView, f.position, f.playerPosition, f.distance),
                        aiSpeed, catchDistance, frames[1..]);
    }
  }

  class WeepingAngel {
    const aiSpeed: real
    const catchDistance: real
    const jumpscareTime: real
    const sceneAfterDeath: string
    var speed: real
    var destination: Vec3
    var dest: Vec3
    var playerActive: bool
    var jumpscareActive: bool
    var pendingKills: nat

    function State(): AngelState
      reads this
    {
      AngelState(speed, destination, dest, playerActive, jumpscareActive, pendingKills)
    }

    /** The scene's start: the player active, the jumpscare camera off, the
        agent at rest where it stands. */
    constructor (aiSpeed: real, catchDistance: real, jumpscareTime: real, sceneAfterDeath: string, position: Vec3)
      ensures this.aiSpeed == aiSpeed && this.catchDistance == catchDistance
      ensures this.jumpscareTime == jumpscareTime && this.sceneAfterDeath == sceneAfterDeath
      ensures State() == AngelState(0.0, position, Zero3, true, false, 0) && Consistent(State())
    {
      this.aiSpeed := aiSpeed;
      this.catchDistance := catchDistance;
      this.jumpscareTime := jumpscareTime;
      this.sceneAfterDeath := sceneAfterDeath;
      speed := 0.0;
      destination := position;
      dest := Zero3;
      playerActive := true;
      jumpscareActive := false;
      pendingKills := 0;
    }

    method Update(inView: bool, position: Vec3, playerPosition: Vec3, distance: real)
      modifies this
      ensures State() == Step(old(State()), aiSpeed, catchDistance, inView, position, playerPosition, distance)
    {
      if inView {
        speed := 0.0;
        destination := position;
      }
      if !inView {
        speed := aiSpeed;
        dest := playerPosition;
        destination := dest;
        if distance <= catchDistance {
          playerActive := false;
          jumpscareActive := true;
          pendingKills := pendingKills + 1;
        }
      }
    }

    /** A `killPlayer` coroutine's wait of `jumpscareTime` is over: it requests
        `sceneAfterDeath`. */
    method KillTimerElapsed() returns (scene: string)
      requires pendingKills > 0
      modifies this
      ensures scene == sceneAfterDeath
      ensures State() == old(State()).(pendingKills := old(pendingKills) - 1)
    {
      pendingKills := pendingKills - 1;
      scene := sceneAfterDeath;
    }
  }
}
