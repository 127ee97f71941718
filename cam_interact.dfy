/** `Caminteract.cs`: a forward ray from the camera shows "Talk to him" while
    it rests on the NPC tagged "Maneq", blanks the prompt on anything else,
    and a press of E while aiming at the NPC uses up the interaction for
    good. The raycast result is a frame input. */
module Interact {

  /** What the forward ray hit this frame. */
  datatype Aim = NoHit | HitManeq | HitOther

  const TalkPrompt := "Talk to him"
  const BlankPrompt := " "

  /** The component's state: `CanInteract` and the prompt's text. */
  datatype Prompt = Prompt(canInteract: bool, text: string)

  /** One `Update`, given the ray and whether E went down. */
  function Frame(p: Prompt, aim: Aim, eDown: bool): (r: Prompt)
    ensures !p.canInteract ==> r == p
    ensures p.canInteract && aim == HitManeq ==> r.text == TalkPrompt
    ensures p.canInteract && aim == HitOther ==> r.text == BlankPrompt && r.canInteract
    ensures aim == NoHit ==> r == p
    ensures !r.canInteract <==> !p.canInteract || (aim == HitManeq && eDown)
  {
    if !p.canInteract then p
    else match aim {
      case NoHit => p
      case HitManeq => Prompt(!eDown, TalkPrompt)
      case HitOther => p.(text := BlankPrompt)
    }
  }

  /** Whether this frame starts the talk coroutine. */
  predicate StartsTalk(p: Prompt, aim: Aim, eDown: bool)
  {
    p.canInteract && aim == HitManeq && eDown
  }

  datatype Reading = Reading(aim: Aim, eDown: bool)

  function Run(p: Prompt, frames: seq<Reading>): Prompt
    decreases |frames|
  {
    if frames == [] then p else Run(Frame(p, frames[0].aim, frames[0].eDown), frames[1..])
  }

  function TalkCount(p: Prompt, frames: seq<Reading>): nat
    decreases |frames|
  {
    if frames == [] then 0
    else
      (if StartsTalk(p, frames[0].aim, frames[0].eDown) then 1 else 0)
        + TalkCount(Frame(p, frames[0].aim, frames[0].eDown), frames[1..])
  }

  /** Once the interaction is used, nothing in this component reopens it:
      every later frame leaves flag and text as they are. */
  lemma {:induction false} UsedStaysUsed(p: Prompt, frames: seq<Reading>)
    requires !p.canInteract
    ensures Run(p, frames) == p
    ensures TalkCount(p, frames) == 0
    decreases |frames|
  {
    if frames != [] {
      UsedStaysUsed(Frame(p, frames[0].aim, frames[0].eDown), frames[1..]);
    }
  }

  /** The talk starts at most once over the component's lifetime. */
  lemma {:induction false} TalksAtMostOnce(p: Prompt, frames: seq<Reading>)
    ensures TalkCount(p, frames) <= 1
    decreases |frames|
  {
    if frames != [] {
      var next := Frame(p, frames[0].aim, frames[0].eDown);
      if StartsTalk(p, frames[0].aim, frames[0].eDown) {
        UsedStaysUsed(next, frames[1..]);
      } else {
        TalksAtMostOnce(next, frames[1..]);
      }
    }
  }

  class CamInteract {
    var canInteract: bool
    var interactionText: string

    constructor (text: string)
      ensures canInteract && interactionText == text
    {
      canInteract := true;
      interactionText := text;
    }

    function State(): Prompt
      reads this
    {
      Prompt(canInteract, interactionText)
    }

    /** `Update`; `talks` reports the `TalktoManeq` coroutine starting. */
    method Update(aim: Aim, eDown: bool) returns (talks: bool)
      modifies this
      ensures State() == Frame(old(State()), aim, eDown)
      ensures talks == StartsTalk(old(State()), aim, eDown)
    {
      talks := false;
      if canInteract {
        if aim != NoHit {
          if aim == HitManeq {
            interactionText := TalkPrompt;
            if eDown {
              canInteract := false;
              talks := true;
            }
          } else {
            interactionText := BlankPrompt;
          }
        }
      }
    }
  }
}
