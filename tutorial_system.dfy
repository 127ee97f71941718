/** The tutorial overlay of `TutorialSystem.cs`: a table of trigger records
    scanned in order on every trigger contact, with once-only flags kept in
    the table, and the panel whose show and hide run as coroutines.

    A coroutine's completion is an explicit event here: `ShowElapsed` is the
    end of the display wait, `HideFinished` the end of the fade-out. */
module Tutorials {
  import opened Engine

  /** One `TutorialTrigger` record of the Inspector table. */
  datatype Trigger = Trigger(
    triggerTag: string,
    tutorialText: string,
    displayDuration: real,
    showOnlyOnce: bool,
    hasBeenShown: bool)

  /** The field initialisers of a new record. */
  const DefaultTrigger := Trigger("TutorialTrigger", "Use WASD para andar", 3.0, true, false)

  /** The tag that makes the touched object disappear once it has shown its tutorial. */
  const DestroyTag := "DestroyAfterTrigger"

  /** How long `ShowTutorial` keeps a tutorial up when no duration is given. */
  const DefaultDuration := 3.0

  /** A tutorial put on screen: its text and how long it stays. */
  datatype Shown = Shown(text: string, duration: real)

  /** What one trigger contact does: the new table, the tutorial shown (if
      any) and whether the touched object is destroyed. */
  datatype CheckOutcome = CheckOutcome(table: seq<Trigger>, shown: Option<Shown>, destroy: bool)

  /** The record a trigger with this flag pair refuses to show again. */
  predicate Blocked(t: Trigger) { t.showOnlyOnce && t.hasBeenShown }

  /** The position of the first record whose tag is `tag`, scanning in table order. */
  function FirstMatch(ts: seq<Trigger>, tag: string): (r: Option<nat>)
    ensures r.Some? ==> r.value < |ts| && ts[r.value].triggerTag == tag
    ensures r.Some? ==> forall j :: 0 <= j < r.value ==> ts[j].triggerTag != tag
    ensures r.None? <==> forall j :: 0 <= j < |ts| ==> ts[j].triggerTag != tag
  {
    if |ts| == 0 then None
    else if ts[0].triggerTag == tag then Some(0)
    else match FirstMatch(ts[1..], tag) {
      case None => None
      case Some(k) => Some(k + 1)
    }
  }

  /** `CheckTutorialTrigger` on a table, for an object tagged `tag`. */
  function Check(ts: seq<Trigger>, tag: string): (r: CheckOutcome)
    ensures |r.table| == |ts|
    // only a `hasBeenShown` flag can change, and only to true
    ensures forall j :: 0 <= j < |ts| ==> r.table[j] == ts[j] || r.table[j] == ts[j].(hasBeenShown := true)
    ensures r.shown.None? ==> r.table == ts && !r.destroy
    ensures r.destroy <==> r.shown.Some? && tag == DestroyTag
    ensures (forall j :: 0 <= j < |ts| ==> ts[j].triggerTag != tag) ==> r.shown.None?
  {
    match FirstMatch(ts, tag) {
      case None => CheckOutcome(ts, None, false)
      case Some(i) =>
        if Blocked(ts[i]) then CheckOutcome(ts, None, false)
        else CheckOutcome(ts[i := ts[i].(hasBeenShown := true)],
                          Some(Shown(ts[i].tutorialText, ts[i].displayDuration)),
                          tag == DestroyTag)
    }
  }

  /** The outcome of a contact whose first matching record is at `i`: a blocked
      record stops the scan with nothing shown and nothing changed, even when
      a later record carries the same tag; otherwise record `i` is shown and
      marked, and every other record is left as it was. */
  lemma CheckAt(ts: seq<Trigger>, tag: string, i: nat)
    requires i < |ts| && ts[i].triggerTag == tag
    requires forall j :: 0 <= j < i ==> ts[j].triggerTag != tag
    ensures Blocked(ts[i]) ==> Check(ts, tag) == CheckOutcome(ts, None, false)
    ensures !Blocked(ts[i]) ==> Check(ts, tag).shown == Some(Shown(ts[i].tutorialText, ts[i].displayDuration))
    ensures !Blocked(ts[i]) ==> Check(ts, tag).table[i] == ts[i].(hasBeenShown := true)
    ensures forall j :: 0 <= j < |ts| && j != i ==> Check(ts, tag).table[j] == ts[j]
  {
    var k := FirstMatch(ts, tag);
    assert k.Some?;
    assert !(k.value < i);
    assert !(k.value > i);
  }

  /** Records after the first match are never looked at: appending records
      to the table changes nothing about a contact that already matches. */
  lemma {:induction false} LaterRecordsIgnored(ts: seq<Trigger>, extra: seq<Trigger>, tag: string)
    requires FirstMatch(ts, tag).Some?
    ensures FirstMatch(ts + extra, tag) == FirstMatch(ts, tag)
    ensures Check(ts + extra, tag).shown == Check(ts, tag).shown
    ensures Check(ts + extra, tag).table == Check(ts, tag).table + extra
  {
    var i := FirstMatch(ts, tag).value;
    var k := FirstMatch(ts + extra, tag);
    assert (ts + extra)[i] == ts[i];
    assert forall j :: 0 <= j < i ==> (ts + extra)[j] == ts[j];
    assert k.Some?;
    assert !(k.value < i);
    assert !(k.value > i);
    if !Blocked(ts[i]) {
      assert (ts + extra)[i := ts[i].(hasBeenShown := true)] == ts[i := ts[i].(hasBeenShown := true)] + extra;
    }
  }

  /** The scan looks at tags only: two tables with the same tags in the same
      order have their first match at the same place. */
  lemma {:induction false} FirstMatchByTags(ts: seq<Trigger>, us: seq<Trigger>, tag: string)
    requires |ts| == |us|
    requires forall j :: 0 <= j < |ts| ==> ts[j].triggerTag == us[j].triggerTag
    ensures FirstMatch(ts, tag) == FirstMatch(us, tag)
  {
    if |ts| > 0 && ts[0].triggerTag != tag {
      FirstMatchByTags(ts[1..], us[1..], tag);
    }
  }

  /** A once-only record shows its tutorial on the first matching contact and
      never again: the second contact shows nothing and changes nothing. */
  lemma OnceOnlyShowsOnce(ts: seq<Trigger>, tag: string)
    requires FirstMatch(ts, tag).Some? && ts[FirstMatch(ts, tag).value].showOnlyOnce
    ensures var second := Check(Check(ts, tag).table, tag);
            second.shown.None? && second.table == Check(ts, tag).table && !second.destroy
  {
    var first := Check(ts, tag);
    var i := FirstMatch(ts, tag).value;
    FirstMatchByTags(ts, first.table, tag);
    CheckAt(first.table, tag, i);
  }

  /** A record that is not once-only shows the same tutorial on every
      matching contact. */
  lemma RepeatableShowsAgain(ts: seq<Trigger>, tag: string)
    requires FirstMatch(ts, tag).Some? && !ts[FirstMatch(ts, tag).value].showOnlyOnce
    ensures Check(ts, tag).shown.Some?
    ensures Check(Check(ts, tag).table, tag).shown == Check(ts, tag).shown
  {
    var first := Check(ts, tag);
    var i := FirstMatch(ts, tag).value;
    FirstMatchByTags(ts, first.table, tag);
    CheckAt(ts, tag, i);
    CheckAt(first.table, tag, i);
  }

  /** `ResetAllTutorials` on one record: the shown flag is cleared. */
  function Rearmed(t: Trigger): (r: Trigger)
    ensures !r.hasBeenShown && !Blocked(r)
    ensures r.triggerTag == t.triggerTag && r.tutorialText == t.tutorialText
    ensures r.displayDuration == t.displayDuration && r.showOnlyOnce == t.showOnlyOnce
  {
    t.(hasBeenShown := false)
  }

  /** `ResetAllTutorials` on a table: every flag cleared, nothing else touched. */
  function RearmAll(ts: seq<Trigger>): (r: seq<Trigger>)
    ensures |r| == |ts|
    ensures forall j :: 0 <= j < |ts| ==> r[j] == Rearmed(ts[j])
  {
    if ts == [] then [] else [Rearmed(ts[0])] + RearmAll(ts[1..])
  }

  /** After a reset, every tag that matches a record shows its tutorial again. */
  lemma ResetRearms(ts: seq<Trigger>, tag: string)
    requires FirstMatch(ts, tag).Some?
    ensures FirstMatch(RearmAll(ts), tag) == FirstMatch(ts, tag)
    ensures Check(RearmAll(ts), tag).shown ==
            Some(Shown(ts[FirstMatch(ts, tag).value].tutorialText, ts[FirstMatch(ts, tag).value].displayDuration))
  {
    FirstMatchByTags(ts, RearmAll(ts), tag);
    CheckAt(RearmAll(ts), tag, FirstMatch(ts, tag).value);
  }

  /** `ShowTutorialByIndex`: the tutorial of record `index`, when there is one. */
  function ByIndex(ts: seq<Trigger>, index: int): (r: Option<Shown>)
    ensures r.Some? <==> 0 <= index < |ts|
    ensures r.Some? ==> r.value.text == ts[index].tutorialText && r.value.duration == ts[index].displayDuration
  {
    if 0 <= index < |ts| then Some(Shown(ts[index].tutorialText, ts[index].displayDuration)) else None
  }

  /** The overlay's state: `isShowingTutorial`, whether the panel is active,
      the text on it, the display wait of the tracked show coroutine (if one
      is waiting), and the number of hide coroutines still fading out. */
  datatype Display = Display(
    isShowing: bool,
    panelActive: bool,
    text: string,
    waiting: Option<real>,
    pendingHides: nat)

  /** The flag and the panel agree. */
  predicate Consistent(d: Display) { d.isShowing == d.panelActive }

  /** The state after `Start`: panel off, nothing showing. */
  const Hidden := Display(false, false, "", None, 0)

  /** `ShowTutorial`: the previous show coroutine is stopped and a new one sets
      the text, turns the panel on, and waits `duration`. Hide coroutines
      already fading out are not stopped. */
  function Show(d: Display, s: Shown): (r: Display)
    ensures r.isShowing && r.panelActive && r.text == s.text
    ensures r.waiting == Some(s.duration)
    ensures r.pendingHides == d.pendingHides
  {
    Display(true, true, s.text, Some(s.duration), d.pendingHides)
  }

  /** `HideTutorial`: the tracked show coroutine is stopped and one more hide
      coroutine starts; the panel stays on until that hide finishes. */
  function Hide(d: Display): (r: Display)
    ensures r.waiting.None? && r.pendingHides == d.pendingHides + 1
    ensures r.isShowing == d.isShowing && r.panelActive == d.panelActive && r.text == d.text
  {
    d.(waiting := None, pendingHides := d.pendingHides + 1)
  }

  /** A hide coroutine finishes: panel off, flag cleared. */
  function HideDone(d: Display): (r: Display)
    requires d.pendingHides > 0
    ensures !r.isShowing && !r.panelActive && Consistent(r)
    ensures r.pendingHides == d.pendingHides - 1
    ensures r.text == d.text && r.waiting == d.waiting
  {
    d.(isShowing := false, panelActive := false, pendingHides := d.pendingHides - 1)
  }

  /** One `Update`: the hide key hides the tutorial when manual hiding is
      allowed and a tutorial is showing. */
  function Frame(d: Display, canManuallyHide: bool, hideKeyDown: bool): (r: Display)
    ensures Consistent(d) ==> Consistent(r)
  {
    if canManuallyHide && d.isShowing && hideKeyDown then Hide(d) else d
  }

  /** A manual hide starts exactly when all three conditions hold. */
  lemma ManualHideExactly(d: Display, canManuallyHide: bool, hideKeyDown: bool)
    ensures Frame(d, canManuallyHide, hideKeyDown).pendingHides > d.pendingHides
            <==> canManuallyHide && d.isShowing && hideKeyDown
    ensures !(canManuallyHide && d.isShowing && hideKeyDown) ==> Frame(d, canManuallyHide, hideKeyDown) == d
  {}

  /** A hide that was already fading out when a new tutorial was shown ends
      that new tutorial early: the panel goes off while the new tutorial's
      display wait is still running. */
  lemma StaleHideEndsNewTutorial(d: Display, s: Shown)
    requires d.pendingHides > 0
    ensures var e := HideDone(Show(d, s));
            !e.isShowing && !e.panelActive && e.waiting == Some(s.duration)
  {}

  /** The overlay component. `triggers` is the Inspector table; its records
      are updated in place. */
  class TutorialSystem {
    const triggers: array<Trigger>
    const canManuallyHide: bool
    var isShowingTutorial: bool
    var panelActive: bool
    var text: string
    var waiting: Option<real>
    var pendingHides: nat

    function Screen(): Display
      reads this
    {
      Display(isShowingTutorial, panelActive, text, waiting, pendingHides)
    }

    predicate Valid()
      reads this
    {
      Consistent(Screen())
    }

    /** The component before `Start`; the panel is as the scene left it. */
    constructor (table: array<Trigger>, canManuallyHide: bool, panelInScene: bool)
      ensures triggers == table && this.canManuallyHide == canManuallyHide
      ensures Screen() == Display(false, panelInScene, "", None, 0)
    {
      triggers := table;
      this.canManuallyHide := canManuallyHide;
      isShowingTutorial := false;
      panelActive := panelInScene;
      text := "";
      waiting := None;
      pendingHides := 0;
    }

    /** `Start`: the panel starts hidden. The engine runs it before any
        tutorial is shown, and then the flag and the panel agree. */
    method Start()
      modifies this
      ensures !panelActive
      ensures Screen() == old(Screen()).(panelActive := false)
      ensures !old(isShowingTutorial) ==> Valid()
    {
      panelActive := false;
    }

    /** `ShowTutorial`, for `DefaultDuration` seconds unless another
        duration is given. */
    method ShowTutorial(message: string, duration: real := DefaultDuration)
      modifies this
      ensures Screen() == Show(old(Screen()), Shown(message, duration))
      ensures Valid()
    {
      waiting := Some(duration);
      isShowingTutorial := true;
      text := message;
      panelActive := true;
    }

    method HideTutorial()
      modifies this
      ensures Screen() == Hide(old(Screen())) && (old(Valid()) ==> Valid())
    {
      waiting := None;
      pendingHides := pendingHides + 1;
    }

    /** The tracked show coroutine's wait is over; it calls `HideTutorial`. */
    method ShowElapsed()
      requires waiting.Some?
      modifies this
      ensures Screen() == Hide(old(Screen())) && (old(Valid()) ==> Valid())
    {
      HideTutorial();
    }

    /** One hide coroutine has faded the panel out. */
    method HideFinished()
      requires pendingHides > 0
      modifies this
      ensures Screen() == HideDone(old(Screen())) && Valid()
    {
      panelActive := false;
      isShowingTutorial := false;
      pendingHides := pendingHides - 1;
    }

    /** `Update`, given whether the hide key went down this frame. */
    method Update(hideKeyDown: bool)
      modifies this
      ensures Screen() == Frame(old(Screen()), canManuallyHide, hideKeyDown) && (old(Valid()) ==> Valid())
    {
      if canManuallyHide && isShowingTutorial && hideKeyDown {
        HideTutorial();
      }
    }

    /** `CheckTutorialTrigger` (and so `OnTriggerEnter`/`OnTriggerEnter2D`)
        for an object tagged `tag`; `destroyed` reports the `Destroy` call. */
    method CheckTutorialTrigger(tag: string) returns (destroyed: bool)
      modifies this, triggers
      ensures old(Valid()) ==> Valid()
      ensures triggers[..] == Check(old(triggers[..]), tag).table
      ensures destroyed == Check(old(triggers[..]), tag).destroy
      ensures Check(old(triggers[..]), tag).shown.None? ==> Screen() == old(Screen())
      ensures Check(old(triggers[..]), tag).shown.Some? ==>
                Screen() == Show(old(Screen()), Check(old(triggers[..]), tag).shown.value) && Valid()
    {
      ghost var before := triggers[..];
      destroyed := false;
      var i := 0;
      while i < triggers.Length
        invariant 0 <= i <= triggers.Length
        invariant triggers[..] == before
        invariant forall j :: 0 <= j < i ==> triggers[j].triggerTag != tag
        invariant Screen() == old(Screen())
      {
        if triggers[i].triggerTag == tag {
          CheckAt(before, tag, i);
          if triggers[i].showOnlyOnce && triggers[i].hasBeenShown {
            return;
          }
          ShowTutorial(triggers[i].tutorialText, triggers[i].displayDuration);
          triggers[i] := triggers[i].(hasBeenShown := true);
          assert triggers[..] == before[i := before[i].(hasBeenShown := true)];
          if tag == DestroyTag {
            destroyed := true;
          }
          return;
        }
        i := i + 1;
      }
    }

    /** `ResetAllTutorials` */
    method ResetAllTutorials()
      modifies triggers
      ensures triggers[..] == RearmAll(old(triggers[..]))
    {
      for i := 0 to triggers.Length
        invariant forall j :: 0 <= j < i ==> triggers[j] == Rearmed(old(triggers[j]))
        invariant forall j :: i <= j < triggers.Length ==> triggers[j] == old(triggers[j])
      {
        triggers[i] := Rearmed(triggers[i]);
      }
    }

    /** `ShowTutorialByIndex`; the table is not changed. */
    method ShowTutorialByIndex(index: int)
      modifies this
      ensures ByIndex(triggers[..], index).None? ==> Screen() == old(Screen())
      ensures ByIndex(triggers[..], index).Some? ==> Screen() == Show(old(Screen()), ByIndex(triggers[..], index).value)
      ensures ByIndex(triggers[..], index).Some? ==> Valid()
      ensures old(Valid()) ==> Valid()
    {
      if 0 <= index < triggers.Length {
        ShowTutorial(triggers[index].tutorialText, triggers[index].displayDuration);
      }
    }
  }

  /** One contact with a `TutorialTriggerObject`: the collider's tag and
      whether a `TutorialSystem` was found (on the collider or in the scene). */
  datatype Contact = Contact(tag: string, systemFound: bool)

  /** Whether the object shows its message on this contact. */
  predicate Fires(hasBeenTriggered: bool, c: Contact)
  {
    c.tag == "Player" && !hasBeenTriggered && c.systemFound
  }

  /** How many times the object shows its message over a run of contacts. */
  function FireCount(hasBeenTriggered: bool, cs: seq<Contact>): nat
    decreases |cs|
  {
    if cs == [] then 0
    else if Fires(hasBeenTriggered, cs[0]) then 1 + FireCount(true, cs[1..])
    else FireCount(hasBeenTriggered, cs[1..])
  }

  /** Once triggered, the object never shows its message again. */
  lemma {:induction false} TriggeredStaysSilent(cs: seq<Contact>)
    ensures FireCount(true, cs) == 0
  {
    if cs != [] { TriggeredStaysSilent(cs[1..]); }
  }

  /** A trigger object shows its message at most once in its lifetime, and it
      does show it on the first contact with the player for which a system is found. */
  lemma {:induction false} FiresAtMostOnce(cs: seq<Contact>)
    ensures FireCount(false, cs) <= 1
    ensures (exists k :: 0 <= k < |cs| && cs[k] == Contact("Player", true)) ==> FireCount(false, cs) == 1
  {
    if cs != [] {
      if Fires(false, cs[0]) {
        TriggeredStaysSilent(cs[1..]);
      } else {
        FiresAtMostOnce(cs[1..]);
        if exists k :: 0 <= k < |cs| && cs[k] == Contact("Player", true) {
          var k :| 0 <= k < |cs| && cs[k] == Contact("Player", true);
          assert k > 0;
          assert cs[1..][k - 1] == Contact("Player", true);
        }
      }
    }
  }

  /** `TutorialTriggerObject`. `showOnlyOnce` is declared in the source but
      never read, so it is not a field here. */
  class TutorialTriggerObject {
    const tutorialMessage: string
    const displayDuration: real
    const destroyAfterTrigger: bool
    var hasBeenTriggered: bool
    var destroyed: bool

    constructor (message: string, duration: real, destroyAfterTrigger: bool)
      ensures tutorialMessage == message && displayDuration == duration
      ensures this.destroyAfterTrigger == destroyAfterTrigger
      ensures !hasBeenTriggered && !destroyed
    {
      tutorialMessage := message;
      displayDuration := duration;
      this.destroyAfterTrigger := destroyAfterTrigger;
      hasBeenTriggered := false;
      destroyed := false;
    }

    /** `OnTriggerEnter` (and `OnTriggerEnter2D`). `onCollider` is the
        collider's own `TutorialSystem`, `inScene` the one `FindObjectOfType`
        returns; the first that is present is used. */
    method OnTriggerEnter(otherTag: string, onCollider: TutorialSystem?, inScene: TutorialSystem?)
      modifies this, onCollider, inScene
      ensures var found := if onCollider != null then onCollider else inScene;
              var fires := Fires(old(hasBeenTriggered), Contact(otherTag, found != null));
              hasBeenTriggered == (old(hasBeenTriggered) || fires) &&
              destroyed == (old(destroyed) || (fires && destroyAfterTrigger)) &&
              (fires ==> found.Screen() == Show(old(found.Screen()), Shown(tutorialMessage, displayDuration))) &&
              (!fires ==> ((onCollider != null ==> onCollider.Screen() == old(onCollider.Screen())) &&
                           (inScene != null ==> inScene.Screen() == old(inScene.Screen()))))
      ensures onCollider != null && inScene != null && inScene != onCollider ==>
                inScene.Screen() == old(inScene.Screen())
    {
      if otherTag == "Player" && !hasBeenTriggered {
        var system := onCollider;
        if system == null {
          system := inScene;
        }
        if system != null {
          system.ShowTutorial(tutorialMessage, displayDuration);
          hasBeenTriggered := true;
          if destroyAfterTrigger {
            destroyed := true;
          }
        }
      }
    }
  }
}
