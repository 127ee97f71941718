/** `LookAtStinger.cs`: the first time the forward ray hits the target layer
    while the audio source is quiet, the stinger clip plays, and never again.
    The raycast and `audioSource.isPlaying` are frame inputs. */
module Stinger {

  /** Whether the stinger plays this frame. */
  predicate Plays(hasTriggered: bool, rayHit: bool, sourcePlaying: bool)
  {
    rayHit && !hasTriggered && !sourcePlaying
  }

  /** `hasTriggered` after a frame: set exactly when the stinger plays. */
  function After(hasTriggered: bool, rayHit: bool, sourcePlaying: bool): (r: bool)
    ensures r <==> hasTriggered || Plays(hasTriggered, rayHit, sourcePlaying)
    ensures !hasTriggered ==> (r <==> Plays(hasTriggered, rayHit, sourcePlaying))
  {
    hasTriggered || Plays(hasTriggered, rayHit, sourcePlaying)
  }

  /** One frame's readings. */
  datatype Frame = Frame(rayHit: bool, sourcePlaying: bool)

  /** How many times the stinger plays over a run of frames. */
  function PlayCount(hasTriggered: bool, frames: seq<Frame>): nat
    decreases |frames|
  {
    if frames == [] then 0
    else
      var f := frames[0];
      (if Plays(hasTriggered, f.rayHit, f.sourcePlaying) then 1 else 0)
        + PlayCount(After(hasTriggered, f.rayHit, f.sourcePlaying), frames[1..])
  }

  lemma {:induction false} SpentStaysSilent(frames: seq<Frame>)
    ensures PlayCount(true, frames) == 0
    decreases |frames|
  {
    if frames != [] { SpentStaysSilent(frames[1..]); }
  }

  /** The stinger plays at most once in the component's lifetime. */
  lemma {:induction false} PlaysAtMostOnce(frames: seq<Frame>)
    ensures PlayCount(false, frames) <= 1
    decreases |frames|
  {
    if frames != [] {
      var f := frames[0];
      if Plays(false, f.rayHit, f.sourcePlaying) {
        SpentStaysSilent(frames[1..]);
      } else {
        PlaysAtMostOnce(frames[1..]);
      }
    }
  }

  /** A hit while the source is busy does not use the one shot up: a later
      hit on a quiet source still plays it. */
  lemma BusyHitKeepsShot(before: seq<Frame>, later: seq<Frame>)
    requires forall k :: 0 <= k < |before| ==> before[k].sourcePlaying || !before[k].rayHit
    requires |later| > 0 && later[0] == Frame(true, false)
    ensures PlayCount(false, before + later) == 1
  {
    ArmedAfterMisses(before, later);
    SpentStaysSilent(later[1..]);
  }

  /** Frames that cannot play leave the one shot armed. */
  lemma {:induction false} ArmedAfterMisses(before: seq<Frame>, rest: seq<Frame>)
    requires forall k :: 0 <= k < |before| ==> before[k].sourcePlaying || !before[k].rayHit
    ensures PlayCount(false, before + rest) == PlayCount(false, rest)
    decreases |before|
  {
    if before != [] {
      assert (before + rest)[0] == before[0];
      assert (before + rest)[1..] == before[1..] + rest;
      assert !After(false, before[0].rayHit, before[0].sourcePlaying);
      ArmedAfterMisses(before[1..], rest);
    } else {
      assert before + rest == rest;
    }
  }

  class LookAtStinger {
    var hasTriggered: bool

    constructor ()
      ensures !hasTriggered
    {
      hasTriggered := false;
    }

    /** `Update`; `plays` reports the `PlayOneShot` call. */
    method Update(rayHit: bool, sourcePlaying: bool) returns (plays: bool)
      modifies this
      ensures plays == Plays(old(hasTriggered), rayHit, sourcePlaying)
      ensures hasTriggered == After(old(hasTriggered), rayHit, sourcePlaying)
    {
      plays := false;
      if rayHit {
        if !hasTriggered && !sourcePlaying {
          plays := true;
          hasTriggered := true;
        }
      }
    }
  }
}
