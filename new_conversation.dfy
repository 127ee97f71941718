/** `NewConversation` (NewConversation.cs under the game scripts): an NPC's
    trigger volume that hands its conversation to the player's
    `PlayerMovement` while the player stands inside it. */
module Conversation {
  import opened Engine
  import opened Movement

  /** The NPC component; `dialogue` is its `DialogoNPC`. */
  class NewConversation {
    const dialogue: Option<ConversationId>

    constructor (dialogue: Option<ConversationId>)
      ensures this.dialogue == dialogue
    {
      this.dialogue := dialogue;
    }

    /** `OnTriggerEnter`: a collider tagged "Player" (which carries the
        `PlayerMovement` the source fetches) is handed this NPC. */
    method OnTriggerEnter(otherTag: string, player: PlayerMovement?)
      requires otherTag == "Player" ==> player != null
      modifies player
      ensures otherTag == "Player" ==> player.hasNPC && player.dialogue == dialogue
      ensures otherTag == "Player" ==> player.State() == old(player.State()).(hasNPC := true, dialogue := dialogue)
      ensures otherTag != "Player" && player != null ==> player.State() == old(player.State())
    {
      if otherTag == "Player" {
        player.hasNPC := true;
        player.dialogue := dialogue;
      }
    }

    /** `OnTriggerExit`: the player leaves and no NPC is at hand. */
    method OnTriggerExit(otherTag: string, player: PlayerMovement?)
      requires otherTag == "Player" ==> player != null
      modifies player
      ensures otherTag == "Player" ==> !player.hasNPC && player.dialogue == None
      ensures otherTag == "Player" ==> player.State() == old(player.State()).(hasNPC := false, dialogue := None)
      ensures otherTag != "Player" && player != null ==> player.State() == old(player.State())
    {
      if otherTag == "Player" {
        player.hasNPC := false;
        player.dialogue := None;
      }
    }
  }

  /** What reaches the player's `hasNPC` flag: the player walking into or
      out of an NPC's volume, or a frame with or without E pressed. */
  datatype Happening = Enters | Leaves | KeyFrame(eDown: bool)

  /** The flag after one happening. */
  function Next(hasNPC: bool, h: Happening): (r: bool)
    ensures h == Enters ==> r
    ensures h == Leaves ==> !r
    ensures h.KeyFrame? ==> r == DialogueGate(hasNPC, h.eDown).hasNPC
  {
    match h {
      case Enters => true
      case Leaves => false
      case KeyFrame(e) => DialogueGate(hasNPC, e).hasNPC
    }
  }

  /** How many conversations start over a run of happenings. */
  function Starts(hasNPC: bool, hs: seq<Happening>): nat
    decreases |hs|
  {
    if hs == [] then 0
    else
      (if hs[0].KeyFrame? && DialogueGate(hasNPC, hs[0].eDown).starts then 1 else 0)
        + Starts(Next(hasNPC, hs[0]), hs[1..])
  }

  /** Between two entries into the volume at most one conversation starts,
      and none starts without the player having entered. */
  lemma {:induction false} OneStartPerEntry(hasNPC: bool, hs: seq<Happening>)
    requires forall k :: 0 <= k < |hs| ==> hs[k] != Enters
    ensures Starts(hasNPC, hs) <= (if hasNPC then 1 else 0)
    decreases |hs|
  {
    if hs != [] {
      OneStartPerEntry(Next(hasNPC, hs[0]), hs[1..]);
    }
  }
}
