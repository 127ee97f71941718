/** `MouseLook` (Mouselook.cs): vertical camera pitch clamped to
    `verticalClamp`, the cursor lock/unlock controls, and the self-disable
    when no `CameraController` can be found. The body's horizontal turn is
    a rotation and is not modelled; the camera mode and the mouse axis are
    frame inputs. */
module MouseLookModel {
  import opened Engine

  /** `RotateCamera`'s pitch update. */
  function Pitch(verticalRotation: real, mouseY: real, sensitivity: real, verticalClamp: real): (r: real)
    ensures verticalClamp >= 0.0 ==> -verticalClamp <= r <= verticalClamp
    ensures -verticalClamp <= verticalRotation - mouseY * sensitivity <= verticalClamp ==>
              r == verticalRotation - mouseY * sensitivity
  {
    Clamp(verticalRotation - mouseY * sensitivity, -verticalClamp, verticalClamp)
  }

  /** The cursor after one `Update`'s two checks, Escape first, then the click. */
  datatype CursorState = CursorState(lockState: CursorLockMode, visible: bool)

  function CursorFrame(c: CursorState, escapeDown: bool, clickDown: bool): (r: CursorState)
    ensures escapeDown && !clickDown ==> r == CursorState(Unlocked, true)
    ensures clickDown && (escapeDown || c.lockState == Unlocked) ==> r == CursorState(Locked, false)
    ensures !escapeDown && !(clickDown && c.lockState == Unlocked) ==> r == c
  {
    var afterEscape := if escapeDown then CursorState(Unlocked, true) else c;
    if clickDown && afterEscape.lockState == Unlocked then CursorState(Locked, false) else afterEscape
  }

  /** A click never takes a confined or locked cursor anywhere: only an
      unlocked one is relocked. */
  lemma ClickOnlyRelocksFree(c: CursorState)
    requires c.lockState != Unlocked
    ensures CursorFrame(c, false, true) == c
  {}

  class MouseLook {
    var mouseSensitivity: real
    const verticalClamp: real
    var hasController: bool
    var enabled: bool
    var verticalRotation: real

    predicate Valid()
      reads this
    {
      verticalClamp >= 0.0 ==> -verticalClamp <= verticalRotation <= verticalClamp
    }

    constructor (mouseSensitivity: real, verticalClamp: real, controllerAssigned: bool)
      ensures this.mouseSensitivity == mouseSensitivity && this.verticalClamp == verticalClamp
      ensures hasController == controllerAssigned && enabled && verticalRotation == 0.0
      ensures Valid()
    {
      this.mouseSensitivity := mouseSensitivity;
      this.verticalClamp := verticalClamp;
      hasController := controllerAssigned;
      enabled := true;
      verticalRotation := 0.0;
    }

    /** `Start`: without an assigned controller one is looked for among the
        parents (`controllerInParent`); if none is found the component
        disables itself and leaves the cursor alone; otherwise the cursor is
        locked and hidden. */
    method Start(controllerInParent: bool, cursor: Cursor)
      modifies this, cursor
      ensures hasController == (old(hasController) || controllerInParent)
      ensures enabled == (old(enabled) && hasController)
      ensures verticalRotation == old(verticalRotation) && mouseSensitivity == old(mouseSensitivity)
      ensures hasController ==> cursor.lockState == Locked && !cursor.visible
      ensures !hasController ==> cursor.lockState == old(cursor.lockState) && cursor.visible == old(cursor.visible)
    {
      if !hasController {
        hasController := controllerInParent;
        if !hasController {
          enabled := false;
          return;
        }
      }
      cursor.Lock();
    }

    /** `Update`, which the engine runs only while the component is enabled. */
    method Update(firstPerson: bool, mouseY: real, escapeDown: bool, clickDown: bool, cursor: Cursor)
      requires Valid()
      modifies this, cursor
      ensures Valid()
      ensures enabled == old(enabled) && hasController == old(hasController) && mouseSensitivity == old(mouseSensitivity)
      ensures verticalRotation ==
                if old(enabled) && firstPerson then Pitch(old(verticalRotation), mouseY, mouseSensitivity, verticalClamp)
                else old(verticalRotation)
      ensures CursorState(cursor.lockState, cursor.visible) ==
                if old(enabled) then CursorFrame(old(CursorState(cursor.lockState, cursor.visible)), escapeDown, clickDown)
                else old(CursorState(cursor.lockState, cursor.visible))
    {
      if !enabled {
        return;
      }
      if firstPerson {
        RotateCamera(mouseY);
      }
      if escapeDown {
        cursor.Release();
      }
      if clickDown && cursor.lockState == Unlocked {
        cursor.Lock();
      }
    }

    method RotateCamera(mouseY: real)
      requires Valid()
      modifies this
      ensures Valid()
      ensures verticalRotation == Pitch(old(verticalRotation), mouseY, mouseSensitivity, verticalClamp)
      ensures enabled == old(enabled) && hasController == old(hasController) && mouseSensitivity == old(mouseSensitivity)
    {
      verticalRotation := verticalRotation - mouseY * mouseSensitivity;
      verticalRotation := Clamp(verticalRotation, -verticalClamp, verticalClamp);
    }

    /** `SetSensitivity` replaces the sensitivity and nothing else. */
    method SetSensitivity(newSensitivity: real)
      modifies this
      ensures mouseSensitivity == newSensitivity
      ensures verticalRotation == old(verticalRotation) && enabled == old(enabled) && hasController == old(hasController)
    {
      mouseSensitivity := newSensitivity;
    }
  }
}
