/** `LookAtTarget` (looktrigger.cs): each frame decides whether the player's
    camera is looking at this object and fires `onStartLooking` or
    `onStopLooking` when that reading changes. The geometry (distance, view
    angle, raycast) arrives as inputs for the frame. */
module LookTrigger {
  import opened Engine

  /** What the ray from the camera toward the object hit first. */
  datatype RayResult = Missed | HitThis | HitOther

  datatype LookEvent = StartLooking | StopLooking

  /** `CheckIfPlayerIsLooking` once a camera is known: within range, within
      the view cone, and not hidden behind another collider. */
  function Looking(distance: real, angle: real, ray: RayResult, maxDistance: real, viewAngle: real): (r: bool)
    ensures distance > maxDistance ==> !r
    ensures angle > viewAngle ==> !r
    ensures ray != HitThis ==> !r
    ensures distance <= maxDistance && angle <= viewAngle && ray == HitThis ==> r
  {
    if distance > maxDistance then false
    else if angle > viewAngle then false
    else ray == HitThis
  }

  /** The event one `Update` fires, given the stored state and the new reading. */
  function Edge(wasLooked: bool, lookingNow: bool): (r: Option<LookEvent>)
    ensures r == Some(StartLooking) <==> lookingNow && !wasLooked
    ensures r == Some(StopLooking) <==> !lookingNow && wasLooked
    ensures r == None <==> lookingNow == wasLooked
  {
    if lookingNow && !wasLooked then Some(StartLooking)
    else if !lookingNow && wasLooked then Some(StopLooking)
    else None
  }

  /** The events fired over a run of readings, from stored state `wasLooked`. */
  function Emitted(wasLooked: bool, readings: seq<bool>): seq<LookEvent>
    decreases |readings|
  {
    if readings == [] then []
    else
      var e := Edge(wasLooked, readings[0]);
      (if e.Some? then [e.value] else []) + Emitted(readings[0], readings[1..])
  }

  /** The stored state after a run of readings: the latest one. */
  function Settled(wasLooked: bool, readings: seq<bool>): bool
  {
    if readings == [] then wasLooked else readings[|readings| - 1]
  }

  /** The fired events alternate: from a stored `false` they begin with a
      start event, from a stored `true` with a stop event. */
  lemma {:induction false} EventsAlternate(wasLooked: bool, readings: seq<bool>, i: nat)
    requires i < |Emitted(wasLooked, readings)|
    ensures Emitted(wasLooked, readings)[i] == (if (i % 2 == 0) != wasLooked then StartLooking else StopLooking)
    decreases |readings|
  {
    var e := Edge(wasLooked, readings[0]);
    var rest := Emitted(readings[0], readings[1..]);
    if e.Some? {
      assert readings[0] != wasLooked;
      if i > 0 {
        assert Emitted(wasLooked, readings)[i] == rest[i - 1];
        EventsAlternate(readings[0], readings[1..], i - 1);
      }
    } else {
      assert readings[0] == wasLooked;
      EventsAlternate(readings[0], readings[1..], i);
    }
  }

  /** An odd number of events has fired exactly when the latest reading
      differs from the stored state the run began with. */
  lemma {:induction false} EventCountParity(wasLooked: bool, readings: seq<bool>)
    ensures (|Emitted(wasLooked, readings)| % 2 == 1) <==> Settled(wasLooked, readings) != wasLooked
    decreases |readings|
  {
    if readings != [] {
      EventCountParity(readings[0], readings[1..]);
      assert Settled(readings[0], readings[1..]) == Settled(wasLooked, readings);
    }
  }

  /** `LookAtTarget`. `hasCamera` is whether the cached `playerCamera` is set. */
  class LookAtTarget {
    const viewAngle: real
    const maxDistance: real
    var hasCamera: bool
    var isBeingLookedAt: bool

    constructor (viewAngle: real, maxDistance: real, cameraAssigned: bool)
      ensures this.viewAngle == viewAngle && this.maxDistance == maxDistance
      ensures hasCamera == cameraAssigned && !isBeingLookedAt
    {
      this.viewAngle := viewAngle;
      this.maxDistance := maxDistance;
      hasCamera := cameraAssigned;
      isBeingLookedAt := false;
    }

    /** `CheckIfPlayerIsLooking`: a missing camera is looked up once
        (`mainCameraExists`) and cached; without one the answer is `false`. */
    method CheckIfPlayerIsLooking(mainCameraExists: bool, distance: real, angle: real, ray: RayResult)
      returns (looking: bool)
      modifies this
      ensures hasCamera == (old(hasCamera) || mainCameraExists)
      ensures isBeingLookedAt == old(isBeingLookedAt)
      ensures !hasCamera ==> !looking
      ensures hasCamera ==> looking == Looking(distance, angle, ray, maxDistance, viewAngle)
    {
      if !hasCamera {
        hasCamera := mainCameraExists;
        if !hasCamera {
          return false;
        }
      }
      looking := Looking(distance, angle, ray, maxDistance, viewAngle);
    }

    /** `Update`: the event fired this frame, if any. */
    method Update(mainCameraExists: bool, distance: real, angle: real, ray: RayResult)
      returns (fired: Option<LookEvent>)
      modifies this
      ensures hasCamera == (old(hasCamera) || mainCameraExists)
      ensures isBeingLookedAt == (hasCamera && Looking(distance, angle, ray, maxDistance, viewAngle))
      ensures fired == Edge(old(isBeingLookedAt), isBeingLookedAt)
    {
      var now := CheckIfPlayerIsLooking(mainCameraExists, distance, angle, ray);
      fired := Edge(isBeingLookedAt, now);
      isBeingLookedAt := now;
    }
  }
}
