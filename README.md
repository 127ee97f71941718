# sugar2 gameplay scripts in Dafny

This project models the gameplay scripts of the Unity game *sugar2*.
Each `MonoBehaviour` becomes a Dafny class with the script's fields.
Each of its methods changes those fields as the C# does, once per engine
callback (`Start`, `Update`, `LateUpdate`, `OnTriggerEnter`, …).

Most class methods are proved against a pure function, usually over a
state datatype: their `ensures` says the new state is that function of
the old state and the frame's readings. The properties the scripts
promise are then proved about those functions as lemmas. The other
methods state their effects on the fields directly. These are:
- every method of `Death.DeathHandler`;
- the `Start` methods of `Camera.CameraController`,
  `Locomotion.PlayerController`, `MouseLookModel.MouseLook` and
  `Music.AudioController`;
- `MouseLookModel.MouseLook.SetSensitivity` and
  `Locomotion.PlayerController.SetMovementEnabled`;
- the trigger methods of `Conversation.NewConversation`;
- `Tutorials.TutorialTriggerObject.OnTriggerEnter`. Those properties include
once-only flags, edge-triggered events, clamps and bounds, fallbacks and
the order of effects.

What the engine answers becomes a parameter of the callback: key presses,
axis readings, raycast and frustum results, ground checks and
`Time.deltaTime`. What the engine is asked to do becomes a result or a
recorded field: the scene to load, the clip to play, the event fired,
whether a step sounds. A coroutine or `Invoke` completion is an explicit
method, such as `ResetTransition`, `ShowElapsed`, `HideFinished` or
`KillTimerElapsed`.

The modules, one per script:

- `Engine`: vectors, the `Mathf` routines the scripts use (`Clamp`,
  `Clamp01`, `Lerp`, `MoveTowards`), magnitude comparisons decided on
  squares, and Unity's global `Cursor`.
- `Scenes`: the scene-loading fallback shared by the main menu and the
  death handler.
- `Menu` (MenuController.cs), `Death` (DeathHandler.cs),
  `Tutorials` (TutorialSystem.cs), `LookTrigger` (looktrigger.cs),
  `Angel` (WeepingAngel.cs), `Camera` (CameraController.cs),
  `Locomotion` (CharacterController.cs), `Movement` (PlayerMovement.cs),
  `Conversation` (Jogo/Scripts/NewConversation.cs),
  `MouseLookModel` (Mouselook.cs), `Music` (Audiomanager.cs),
  `Stinger` (LookAtStinger.cs), `Interact` (Caminteract.cs).

`float` is modelled as `real`. A vector length that the C# takes with
`magnitude` is compared through its square. Where the C# divides by a
length, the length itself is a reading, constrained so that its square
is the squared length (`IsMagnitude`).

## Model

| member | source | states |
|---|---|---|
| Scenes.ChooseScene | sugar2/Assets/Jogo/Scripts/MenuController.cs:94-111 | a non-empty configured name is loaded by name; otherwise the next build index is loaded when it is below the scene count; otherwise nothing is loaded; each case holds exactly when its condition does |
| Menu.Transition | sugar2/Assets/Jogo/Scripts/MenuController.cs:62-80 | the press-any-key screen goes off, the main menu on, and a transition is in progress; exactly one screen is active |
| Menu.Frame | sugar2/Assets/Jogo/Scripts/MenuController.cs:36-43 | one `Update` keeps exactly one screen active |
| Menu.FrameChangesExactly | sugar2/Assets/Jogo/Scripts/MenuController.cs:39-41 | a frame changes the menu if and only if the press-any-key screen is on, no transition runs and a key went down |
| Menu.FramesFrozen | sugar2/Assets/Jogo/Scripts/MenuController.cs:39 | during a transition, or with the press-any-key screen off, no run of frames changes anything |
| Menu.FirstKeyMovesToMainMenu | sugar2/Assets/Jogo/Scripts/MenuController.cs:36-43 | from the initial screen, a run containing a key press ends on the main menu, mid-transition, whatever follows |
| Menu.MenuController.constructor | sugar2/Assets/Jogo/Scripts/MenuController.cs:17-21 | the scene name and delay are kept; no transition runs |
| Menu.MenuController.Start | sugar2/Assets/Jogo/Scripts/MenuController.cs:23-34 | press-any-key on, main menu off, the transition flag untouched |
| Menu.MenuController.Update | sugar2/Assets/Jogo/Scripts/MenuController.cs:36-43 | the new screens and flag are `Frame` of the old ones |
| Menu.MenuController.TransitionToMainMenu | sugar2/Assets/Jogo/Scripts/MenuController.cs:62-80 | the new state is `Transition` of the old |
| Menu.MenuController.ResetTransition | sugar2/Assets/Jogo/Scripts/MenuController.cs:82-85 | clears the transition flag and changes nothing else |
| Menu.MenuController.StartGame | sugar2/Assets/Jogo/Scripts/MenuController.cs:87-112 | no request during a transition; otherwise the request is the shared fallback on `gameSceneName` |
| Menu.MenuController.ExitGame | sugar2/Assets/Jogo/Scripts/MenuController.cs:114-125 | the game quits if and only if no transition is in progress |
| Menu.MenuController.ShowPressAnyKeyScreen | sugar2/Assets/Jogo/Scripts/MenuController.cs:128-132 | press-any-key on, main menu off, the flag unchanged, exactly one screen active |
| Menu.MenuController.ShowMainMenuScreen | sugar2/Assets/Jogo/Scripts/MenuController.cs:134-138 | main menu on, press-any-key off, the flag unchanged, exactly one screen active |
| Death.DeathSequence | sugar2/Assets/Jogo/Scripts/DeathHandler.cs:29-44 | controls are disabled first and only once; the cursor is released if and only if configured, straight after; a scene is requested if and only if the fallback finds one, and last |
| Death.Behaviour.constructor | sugar2/Assets/Jogo/Scripts/DeathHandler.cs:49-54 | a script on the player, with its `enabled` flag |
| Death.Rigidbody.constructor | sugar2/Assets/Jogo/Scripts/DeathHandler.cs:64-69 | a rigidbody with its velocity and kinematic flag |
| Death.Body.constructor | sugar2/Assets/Jogo/Scripts/DeathHandler.cs:13-27 | the touching object's tag, scripts and optional rigidbody |
| Death.DeathHandler.constructor | sugar2/Assets/Jogo/Scripts/DeathHandler.cs:6-11 | the Inspector settings are kept |
| Death.DeathHandler.DisablePlayerController | sugar2/Assets/Jogo/Scripts/DeathHandler.cs:46-72 | every script on the player except this handler ends disabled, the handler keeps its own flag, and a rigidbody present ends still and kinematic |
| Death.DeathHandler.UnlockCursor | sugar2/Assets/Jogo/Scripts/DeathHandler.cs:74-79 | the cursor ends free and visible |
| Death.DeathHandler.LoadGameOverScene | sugar2/Assets/Jogo/Scripts/DeathHandler.cs:81-97 | the request is the shared fallback on `gameOverScene`; it is by name if and only if that name is set |
| Death.DeathHandler.HandlePlayerDeath | sugar2/Assets/Jogo/Scripts/DeathHandler.cs:29-44 | the effects are `DeathSequence` in that order, the player's other scripts end disabled, the rigidbody is frozen, and the cursor is released exactly when configured and otherwise untouched |
| Death.DeathHandler.OnPlayerContact | sugar2/Assets/Jogo/Scripts/DeathHandler.cs:13-27 | only an object with the player tag dies, with the effects, disabled scripts, frozen rigidbody and cursor of `HandlePlayerDeath`; any other contact has no effect and changes nothing |
| LookTrigger.Looking | sugar2/Assets/Jogo/Scripts/looktrigger.cs:43-56 | the reading is false beyond `maxDistance`, outside `viewAngle` or when the ray does not hit this object first, and true otherwise |
| LookTrigger.Edge | sugar2/Assets/Jogo/Scripts/looktrigger.cs:23-30 | a start event exactly on false-to-true, a stop event exactly on true-to-false, none when the reading equals the stored state |
| LookTrigger.EventsAlternate | sugar2/Assets/Jogo/Scripts/looktrigger.cs:17-32 | the events fired over any run alternate, starting with a start event from a stored false and a stop event from a stored true |
| LookTrigger.EventCountParity | sugar2/Assets/Jogo/Scripts/looktrigger.cs:19-33 | an odd number of events fires exactly when the final reading differs from the initial stored state |
| LookTrigger.LookAtTarget.constructor | sugar2/Assets/Jogo/Scripts/looktrigger.cs:17 | not looked at to begin with |
| LookTrigger.LookAtTarget.CheckIfPlayerIsLooking | sugar2/Assets/Jogo/Scripts/looktrigger.cs:35-57 | a missing camera is looked up and cached; without one the answer is false, with one it is `Looking`; the stored state is untouched |
| LookTrigger.LookAtTarget.Update | sugar2/Assets/Jogo/Scripts/looktrigger.cs:19-33 | the stored state becomes the new reading and the fired event is `Edge` of the old and new states |
| Angel.Step | sugar2/Assets/Jogo/Scripts/WeepingAngel.cs:16-38 | seen: speed zero, destination its own position, nothing else changes; unseen: full speed toward the player; a kill timer starts exactly on an unseen frame within `catchDistance`, which deactivates the player and activates the jumpscare camera; unseen beyond `catchDistance` only the chase changes; the player is deactivated only by a catch; the one-camera invariant is kept |
| Angel.OnlyCatchDeactivates | sugar2/Assets/Jogo/Scripts/WeepingAngel.cs:25-36 | over any run, an active player ends inactive only if some frame had the angel unseen and within `catchDistance` |
| Angel.WatchedNeverCatches | sugar2/Assets/Jogo/Scripts/WeepingAngel.cs:20-24 | an angel in view on every frame never starts a kill and never deactivates the player |
| Angel.CaughtStaysCaught | sugar2/Assets/Jogo/Scripts/WeepingAngel.cs:31-36 | once the player is deactivated, no later frame reactivates it |
| Angel.WeepingAngel.constructor | sugar2/Assets/Jogo/Scripts/WeepingAngel.cs:16-24 | player active, jumpscare off, no kill pending, the agent at rest |
| Angel.WeepingAngel.Update | sugar2/Assets/Jogo/Scripts/WeepingAngel.cs:16-38 | the new state is `Step` of the old |
| Angel.WeepingAngel.KillTimerElapsed | sugar2/Assets/Jogo/Scripts/WeepingAngel.cs:40-44 | a pending kill ends by requesting `sceneAfterDeath` |
| Camera.ToggleMode | sugar2/Assets/Jogo/Scripts/CameraController.cs:100-107 | V flips the mode, and the bob base height becomes the first-person height or `cameraHeight` to match; without V nothing changes |
| Camera.ToggleTwice | sugar2/Assets/Jogo/Scripts/CameraController.cs:100-107 | two presses return to the starting mode |
| Camera.Pitch | sugar2/Assets/Jogo/Scripts/CameraController.cs:112-122 | the pitch always ends in [-80, 80], and equals the unclamped sum when that is in range |
| Camera.InvertFlipsSign | sugar2/Assets/Jogo/Scripts/CameraController.cs:112-119 | inverted look with a reading equals normal look with the opposite reading |
| Camera.MovingIsThreshold | sugar2/Assets/Jogo/Scripts/CameraController.cs:218-221 | the squared test is exactly `inputMagnitude > moveThreshold` |
| Camera.BobStep | sugar2/Assets/Jogo/Scripts/CameraController.cs:211-263 | moving: run or walk values, `wasMoving` set, the reset timer zero; just stopped: the timer runs and the amount fades toward zero; after 0.5 s `wasMoving` clears, the amount goes to zero, the speed to the walk speed and the wave phase to zero, while the reset timer keeps its value; at rest: zero amount and walk speed |
| Camera.AmountStaysBounded | sugar2/Assets/Jogo/Scripts/CameraController.cs:227-258 | over any run, the bob amount stays within zero and the larger configured amount |
| Camera.SettlesAfterStopping | sugar2/Assets/Jogo/Scripts/CameraController.cs:237-257 | standing still until the reset timer reaches 0.5 s leaves the bob at rest |
| Camera.TargetTilt | sugar2/Assets/Jogo/Scripts/CameraController.cs:319-333 | minus the input times `tiltAmount` above the 0.2 dead zone, zero within it |
| Camera.TiltSymmetric | sugar2/Assets/Jogo/Scripts/CameraController.cs:325-332 | opposite input gives the opposite tilt |
| Camera.LatePlan | sugar2/Assets/Jogo/Scripts/CameraController.cs:131-155 | nothing runs without a player; otherwise the follow routine matches the mode, and head bob and tilt run exactly in first person with their setting on |
| Camera.ThirdPersonStaysLevel | sugar2/Assets/Jogo/Scripts/CameraController.cs:145-154 | in third person neither bob nor tilt runs |
| Camera.Step | sugar2/Assets/Jogo/Scripts/CameraController.cs:97-129 | one `Update` is the toggle, the accumulated look, the bob step and the tilt target, with the pitch in range |
| Camera.CameraController.constructor | sugar2/Assets/Jogo/Scripts/CameraController.cs:35-55 | first person, all look, bob and tilt fields at their defaults |
| Camera.CameraController.Start | sugar2/Assets/Jogo/Scripts/CameraController.cs:58-95 | the cursor is locked and hidden, the tagged player is the fallback, the third-person offset and bob base height are set, and nothing else changes |
| Camera.CameraController.Update | sugar2/Assets/Jogo/Scripts/CameraController.cs:97-129 | the new view is `Step` of the old, and the pitch and bob bounds are kept |
| Camera.CameraController.ToggleCamera | sugar2/Assets/Jogo/Scripts/CameraController.cs:100-107 | the new mode is `ToggleMode` of the old |
| Camera.CameraController.Look | sugar2/Assets/Jogo/Scripts/CameraController.cs:110-122 | `mouseX` accumulates the Mouse X contribution, and `mouseY` becomes `Pitch` of the old one |
| Camera.CameraController.UpdateHeadBobParameters | sugar2/Assets/Jogo/Scripts/CameraController.cs:211-263 | the new bob fields are `BobStep` of the old, and the amount bound is kept |
| Camera.CameraController.UpdateCameraTilt | sugar2/Assets/Jogo/Scripts/CameraController.cs:319-333 | the tilt target becomes `TargetTilt` of the input |
| Camera.CameraController.LateUpdate | sugar2/Assets/Jogo/Scripts/CameraController.cs:131-155 | the routines run are `LatePlan` of the player and mode |
| Locomotion.ClampedAxis | sugar2/Assets/Jogo/Scripts/CharacterController.cs:110-114 | the axis never exceeds length one; a short axis is kept; a long one keeps its direction at length one |
| Locomotion.ReadInput | sugar2/Assets/Jogo/Scripts/CharacterController.cs:107-121 | the stored axis has length at most one, unchanged when it was short; the keys are stored; nothing else changes |
| Locomotion.Crouch | sugar2/Assets/Jogo/Scripts/CharacterController.cs:123-145 | the crouch key toggles crouching; the height moves between its old value and the crouch or standing target; the centre sits at half the height; the radius is 0.8 of the original while crouching and the original otherwise; nothing else changes |
| Locomotion.TargetSpeed | sugar2/Assets/Jogo/Scripts/CharacterController.cs:150-154 | zero below the 0.1 input dead zone; otherwise the crouch speed when crouching, else the run speed when run is held, else the walk speed |
| Locomotion.Movement | sugar2/Assets/Jogo/Scripts/CharacterController.cs:147-208 | the speed moves toward the target by at most ramp rate times frame time and never overshoots; it reaches the target when that is within reach; the planar velocity is direction times speed, cut by `airControl` in the air; nothing else changes |
| Locomotion.Jump | sugar2/Assets/Jogo/Scripts/CharacterController.cs:210-222 | only grounded, jump pressed and not crouching: the launch speed is set, and half the forward vector is added when already moving; otherwise nothing changes |
| Locomotion.Fall | sugar2/Assets/Jogo/Scripts/CharacterController.cs:226-238 | grounded and falling gives -2; otherwise one frame of gravity is added and the result is never below `terminalVelocity` |
| Locomotion.Gravity | sugar2/Assets/Jogo/Scripts/CharacterController.cs:224-242 | the vertical speed becomes `Fall`, and the velocity's height follows it |
| Locomotion.Settle | sugar2/Assets/Jogo/Scripts/CharacterController.cs:244-273 | the grounded flags shift, and a landing zeroes the vertical speed |
| Locomotion.Footsteps | sugar2/Assets/Jogo/Scripts/CharacterController.cs:275-295 | not stepping: the timer is zeroed and nothing sounds; a step sounds exactly when the timer runs out while stepping; the next interval times the current speed equals the chosen interval times the walk speed |
| Locomotion.MovementBounded | sugar2/Assets/Jogo/Scripts/CharacterController.cs:157-158 | with sane settings, the speed stays between zero and the fastest configured speed |
| Locomotion.JumpReachesJumpHeight | sugar2/Assets/Jogo/Scripts/CharacterController.cs:212-214 | when `jumpSpeed` is the square root of `jumpHeight * -2 * gravity` and gravity pulls down, the launch speed is non-negative and its apex height under that gravity is exactly `jumpHeight` |
| Locomotion.FrameKeepsBounded | sugar2/Assets/Jogo/Scripts/CharacterController.cs:92-105 | one frame keeps the speed, terminal-velocity and capsule-height bounds; the height bound spans the crouch height, the standing height and the height the capsule started with |
| Locomotion.FramesKeepBounded | sugar2/Assets/Jogo/Scripts/CharacterController.cs:92-105 | any run of frames keeps those bounds |
| Locomotion.RunningStepsAtWalkInterval | sugar2/Assets/Jogo/Scripts/CharacterController.cs:287-288 | since `isRunning` is never set, a step always schedules the walk interval scaled by walk over current speed |
| Locomotion.LandingStops | sugar2/Assets/Jogo/Scripts/CharacterController.cs:250-272 | a frame that lands ends grounded, with the previous-frame flag clear and no vertical speed |
| Locomotion.NoAirOrCrouchJump | sugar2/Assets/Jogo/Scripts/CharacterController.cs:212 | from the air or a crouch, the jump step changes nothing |
| Locomotion.ImpulsesAdd | sugar2/Assets/Jogo/Scripts/CharacterController.cs:383-388 | two impulses act as their sum, and a velocity change forgets what came before |
| Locomotion.PlayerController.constructor | sugar2/Assets/Jogo/Scripts/CharacterController.cs:43-61 | for any settings and any capsule: standing, airborne, `wasGrounded` set, at rest, on the given capsule, which is remembered as the initial height, with the bounds holding |
| Locomotion.PlayerController.Start | sugar2/Assets/Jogo/Scripts/CharacterController.cs:70-90 | the original radius is remembered, and velocity and move direction are cleared |
| Locomotion.PlayerController.Update | sugar2/Assets/Jogo/Scripts/CharacterController.cs:92-105 | the new state and footstep are the seven steps composed in source order, and the bounds are kept |
| Locomotion.PlayerController.SteerPhase | sugar2/Assets/Jogo/Scripts/CharacterController.cs:94-96 | input, crouch and movement composed |
| Locomotion.PlayerController.VerticalPhase | sugar2/Assets/Jogo/Scripts/CharacterController.cs:97-99 | jump, gravity and landing composed |
| Locomotion.PlayerController.GetInput | sugar2/Assets/Jogo/Scripts/CharacterController.cs:107-121 | the new state is `ReadInput` of the old |
| Locomotion.PlayerController.HandleCrouch | sugar2/Assets/Jogo/Scripts/CharacterController.cs:123-145 | the new state is `Crouch` of the old |
| Locomotion.PlayerController.CalculateMovement | sugar2/Assets/Jogo/Scripts/CharacterController.cs:147-208 | the new state is `Movement` of the old |
| Locomotion.PlayerController.HandleJump | sugar2/Assets/Jogo/Scripts/CharacterController.cs:210-222 | the new state is `Jump` of the old |
| Locomotion.PlayerController.ApplyGravity | sugar2/Assets/Jogo/Scripts/CharacterController.cs:224-242 | the new state is `Gravity` of the old |
| Locomotion.PlayerController.ApplyMovement | sugar2/Assets/Jogo/Scripts/CharacterController.cs:244-273 | the new state is `Settle` of the old |
| Locomotion.PlayerController.HandleFootsteps | sugar2/Assets/Jogo/Scripts/CharacterController.cs:275-295 | the new timer and the step are `Footsteps` of the old state |
| Locomotion.PlayerController.SetMovementEnabled | sugar2/Assets/Jogo/Scripts/CharacterController.cs:359-367 | sets `enabled`; disabling zeroes velocity and speed; enabling keeps them |
| Locomotion.PlayerController.AddForce | sugar2/Assets/Jogo/Scripts/CharacterController.cs:376-393 | the mode defaults to Impulse; Force adds a tenth of the force, Impulse adds the force, VelocityChange replaces the velocity, Acceleration adds the force times the frame time |
| Movement.DialogueGate | sugar2/Assets/Jogo/Scripts/PlayerMovement.cs:107-114 | a conversation starts if and only if E goes down with an NPC at hand, and that uses the NPC up; otherwise the flag is unchanged |
| Movement.GroundClamp | sugar2/Assets/Jogo/Scripts/PlayerMovement.cs:125-128 | grounded and falling pins the vertical speed to -2; otherwise it is unchanged |
| Movement.Moving | sugar2/Assets/Jogo/Scripts/PlayerMovement.cs:135 | moving if and only if grounded with either axis beyond 0.1 |
| Movement.Speed | sugar2/Assets/Jogo/Scripts/PlayerMovement.cs:170-177 | always the run or walk speed; run exactly with shift held and forward input |
| Movement.HorizontalMove | sugar2/Assets/Jogo/Scripts/PlayerMovement.cs:162-167 | the move vector is flat with length at most one; it is unchanged when short and has length one when it was long |
| Movement.Footsteps | sugar2/Assets/Jogo/Scripts/PlayerMovement.cs:302-321 | not moving: timer zero, silent; a step plays exactly when the countdown runs out while moving, and the timer resets to the run interval at run speed, else the walk interval |
| Movement.LandsExactlyOnTouchdown | sugar2/Assets/Jogo/Scripts/PlayerMovement.cs:117-123 | `OnLand` runs exactly on a grounded frame after an airborne one, and the previous-frame flag is the frame's ground check afterwards |
| Movement.AirborneOnlyGravity | sugar2/Assets/Jogo/Scripts/PlayerMovement.cs:189-199 | in the air there is no jump, and gravity is the only change to the vertical speed |
| Movement.JumpLaunches | sugar2/Assets/Jogo/Scripts/PlayerMovement.cs:189-199 | a grounded jump leaves at the launch speed plus one frame of gravity |
| Movement.GroundedSettles | sugar2/Assets/Jogo/Scripts/PlayerMovement.cs:125-199 | standing without jumping keeps the vertical speed at -2 plus one frame of gravity |
| Movement.StepTimerBounded | sugar2/Assets/Jogo/Scripts/PlayerMovement.cs:302-321 | the step timer stays within zero and the longer interval |
| Movement.Frame | sugar2/Assets/Jogo/Scripts/PlayerMovement.cs:162-180 | the horizontal displacement is a flat move vector of length at most one, scaled by the frame's speed and frame time |
| Movement.PlayerMovement.constructor | sugar2/Assets/Jogo/Scripts/PlayerMovement.cs:65-102 | walk speed, no NPC, `wasGrounded` set, the step timer zero |
| Movement.PlayerMovement.HandleFootstepSounds | sugar2/Assets/Jogo/Scripts/PlayerMovement.cs:302-321 | the new timer and the step are `Footsteps` of the old timer |
| Movement.PlayerMovement.DialogueKey | sugar2/Assets/Jogo/Scripts/PlayerMovement.cs:106-114 | follows `DialogueGate`; a started conversation carries `DialogoNPC` and frees the cursor; otherwise the cursor is untouched |
| Movement.PlayerMovement.JumpAndFall | sugar2/Assets/Jogo/Scripts/PlayerMovement.cs:188-200 | jumps exactly when jump is pressed on the ground; the vertical speed gains one frame of gravity after the launch or without one |
| Movement.PlayerMovement.Update | sugar2/Assets/Jogo/Scripts/PlayerMovement.cs:104-204 | the new state and outputs are `Frame` of the old; the cursor is freed exactly when a conversation starts |
| Conversation.NewConversation.constructor | sugar2/Assets/Jogo/Scripts/NewConversation.cs:10-18 | the NPC's conversation is kept |
| Conversation.NewConversation.OnTriggerEnter | sugar2/Assets/Jogo/Scripts/NewConversation.cs:10-18 | a player entering gets `hasNPC` and this NPC's conversation and nothing else changes; other colliders change nothing |
| Conversation.NewConversation.OnTriggerExit | sugar2/Assets/Jogo/Scripts/NewConversation.cs:20-28 | a player leaving loses `hasNPC` and the conversation and nothing else changes; other colliders change nothing |
| Conversation.Next | sugar2/Assets/Jogo/Scripts/NewConversation.cs:12-26 | entering sets the flag, leaving clears it, and a key frame follows the E-key gate |
| Conversation.OneStartPerEntry | sugar2/Assets/Jogo/Scripts/PlayerMovement.cs:107-110 | without a fresh entry, at most one conversation starts, and none without the flag set |
| MouseLookModel.Pitch | sugar2/Assets/Jogo/Scripts/Mouselook.cs:59-71 | the rotation ends within the clamp, and equals the raw update when that is in range |
| MouseLookModel.CursorFrame | sugar2/Assets/Jogo/Scripts/Mouselook.cs:44-56 | Escape alone frees the cursor; a click relocks it when Escape came first or it was free; otherwise nothing changes |
| MouseLookModel.ClickOnlyRelocksFree | sugar2/Assets/Jogo/Scripts/Mouselook.cs:52-56 | a click leaves a locked or confined cursor as it is |
| MouseLookModel.MouseLook.constructor | sugar2/Assets/Jogo/Scripts/Mouselook.cs:12 | enabled, pitch zero, within the clamp |
| MouseLookModel.MouseLook.Start | sugar2/Assets/Jogo/Scripts/Mouselook.cs:15-34 | without a controller on the object or its parents it disables itself and leaves the cursor alone; otherwise the cursor is locked and hidden |
| MouseLookModel.MouseLook.Update | sugar2/Assets/Jogo/Scripts/Mouselook.cs:36-57 | the pitch moves only in first person; the cursor follows `CursorFrame`; the clamp invariant is kept |
| MouseLookModel.MouseLook.RotateCamera | sugar2/Assets/Jogo/Scripts/Mouselook.cs:59-71 | the pitch becomes `Pitch` of the old one and stays within the clamp |
| MouseLookModel.MouseLook.SetSensitivity | sugar2/Assets/Jogo/Scripts/Mouselook.cs:74-77 | replaces the sensitivity and nothing else |
| Music.AudioSource.constructor | sugar2/Assets/Jogo/Scripts/Audiomanager.cs:13-18 | an added source: no clip, not looping, silent |
| Music.SwitchTo | sugar2/Assets/Jogo/Scripts/Audiomanager.cs:23-30 | plays exactly when the target is set and differs from the current clip; a set target is the clip afterwards; a null one changes nothing |
| Music.SwitchIdempotent | sugar2/Assets/Jogo/Scripts/Audiomanager.cs:25-29 | a second request for the same music changes nothing and does not play |
| Music.AudioController.constructor | sugar2/Assets/Jogo/Scripts/Audiomanager.cs:11-21 | the two clips are kept; no source yet |
| Music.AudioController.Start | sugar2/Assets/Jogo/Scripts/Audiomanager.cs:11-21 | an existing source is reused; otherwise a new looping source is added; normal music is then requested |
| Music.AudioController.PlayNormalMusic | sugar2/Assets/Jogo/Scripts/Audiomanager.cs:23-30 | the clip and play count follow `SwitchTo` with the normal music, and the loop flag is kept |
| Music.AudioController.PlaySpecialMusic | sugar2/Assets/Jogo/Scripts/Audiomanager.cs:32-39 | the clip and play count follow `SwitchTo` with the special music, and the loop flag is kept |
| Stinger.After | sugar2/Assets/Jogo/Scripts/LookAtStinger.cs:18-23 | the flag is set afterwards exactly when it was set or the stinger plays |
| Stinger.SpentStaysSilent | sugar2/Assets/Jogo/Scripts/LookAtStinger.cs:20 | once triggered, no run of frames plays it |
| Stinger.PlaysAtMostOnce | sugar2/Assets/Jogo/Scripts/LookAtStinger.cs:11-23 | over the component's lifetime the stinger plays at most once |
| Stinger.BusyHitKeepsShot | sugar2/Assets/Jogo/Scripts/LookAtStinger.cs:18-23 | hits on a busy source do not use the shot; a later hit on a quiet source plays it exactly once |
| Stinger.ArmedAfterMisses | sugar2/Assets/Jogo/Scripts/LookAtStinger.cs:18-20 | frames that cannot play leave the count of what follows unchanged |
| Stinger.LookAtStinger.constructor | sugar2/Assets/Jogo/Scripts/LookAtStinger.cs:11 | not yet triggered |
| Stinger.LookAtStinger.Update | sugar2/Assets/Jogo/Scripts/LookAtStinger.cs:13-26 | plays exactly on a hit with the flag clear and the source quiet, and the flag follows `After` |
| Interact.Frame | sugar2/Assets/Scripts/Caminteract.cs:24-55 | nothing changes once the interaction is used or when the ray hits nothing; aiming at Maneq shows "Talk to him"; anything else blanks the prompt; the interaction is used exactly by E while aiming at Maneq |
| Interact.UsedStaysUsed | sugar2/Assets/Scripts/Caminteract.cs:28 | once used, no later frame changes anything or starts a talk |
| Interact.TalksAtMostOnce | sugar2/Assets/Scripts/Caminteract.cs:39-43 | the talk starts at most once over the component's lifetime |
| Interact.CamInteract.constructor | sugar2/Assets/Scripts/Caminteract.cs:13 | interaction available |
| Interact.CamInteract.Update | sugar2/Assets/Scripts/Caminteract.cs:24-55 | the new state is `Frame` of the old, and the talk starts exactly on E while aiming at Maneq with the interaction available |
| Tutorials.FirstMatch | sugar2/Assets/Jogo/Scripts/TutorialSystem.cs:67-69 | the first record in table order whose tag matches; none if and only if no record matches |
| Tutorials.Check | sugar2/Assets/Jogo/Scripts/TutorialSystem.cs:65-84 | the table length is kept, and only a shown flag can change, and only to true; nothing shown means nothing changed or destroyed; destroyed exactly when something is shown for the destroy tag; no match shows nothing |
| Tutorials.CheckAt | sugar2/Assets/Jogo/Scripts/TutorialSystem.cs:69-81 | a blocked first match stops the scan with no effect; otherwise it is shown and marked; every other record is unchanged |
| Tutorials.LaterRecordsIgnored | sugar2/Assets/Jogo/Scripts/TutorialSystem.cs:81 | records after the first match never affect the outcome |
| Tutorials.FirstMatchByTags | sugar2/Assets/Jogo/Scripts/TutorialSystem.cs:67-69 | the scan depends on the tags only |
| Tutorials.OnceOnlyShowsOnce | sugar2/Assets/Jogo/Scripts/TutorialSystem.cs:71-75 | a once-only record shows on the first contact, and the second contact shows nothing and changes nothing |
| Tutorials.RepeatableShowsAgain | sugar2/Assets/Jogo/Scripts/TutorialSystem.cs:71-75 | a repeatable record shows the same tutorial on every contact |
| Tutorials.Rearmed | sugar2/Assets/Jogo/Scripts/TutorialSystem.cs:187 | the shown flag is cleared and every other field kept |
| Tutorials.RearmAll | sugar2/Assets/Jogo/Scripts/TutorialSystem.cs:183-189 | every record is rearmed, with the length kept |
| Tutorials.ResetRearms | sugar2/Assets/Jogo/Scripts/TutorialSystem.cs:183-189 | after a reset, every matching tag shows its tutorial again |
| Tutorials.ByIndex | sugar2/Assets/Jogo/Scripts/TutorialSystem.cs:174-180 | a tutorial exactly for an index within the table, with that record's text and duration |
| Tutorials.Show | sugar2/Assets/Jogo/Scripts/TutorialSystem.cs:86-127 | showing, the panel on with the text, its wait running, and fading hides untouched |
| Tutorials.Hide | sugar2/Assets/Jogo/Scripts/TutorialSystem.cs:129-137 | the tracked wait stops and one more hide starts; the panel stays as it is |
| Tutorials.HideDone | sugar2/Assets/Jogo/Scripts/TutorialSystem.cs:139-153 | a finished hide turns the panel off and clears the flag |
| Tutorials.Frame | sugar2/Assets/Jogo/Scripts/TutorialSystem.cs:46-53 | one `Update` keeps the flag and the panel in agreement |
| Tutorials.ManualHideExactly | sugar2/Assets/Jogo/Scripts/TutorialSystem.cs:49-52 | a manual hide starts exactly when manual hiding is allowed, a tutorial shows and the key goes down; otherwise nothing changes |
| Tutorials.StaleHideEndsNewTutorial | sugar2/Assets/Jogo/Scripts/TutorialSystem.cs:86-153 | a hide still fading when a new tutorial is shown turns the new one off while its wait still runs |
| Tutorials.TutorialSystem.constructor | sugar2/Assets/Jogo/Scripts/TutorialSystem.cs:24-33 | the table and the manual-hide setting are kept; nothing is showing |
| Tutorials.TutorialSystem.Start | sugar2/Assets/Jogo/Scripts/TutorialSystem.cs:35-44 | the panel is turned off and nothing else changes |
| Tutorials.TutorialSystem.ShowTutorial | sugar2/Assets/Jogo/Scripts/TutorialSystem.cs:86-127 | the display becomes `Show` of the old with the given text and duration, 3 seconds when none is given |
| Tutorials.TutorialSystem.HideTutorial | sugar2/Assets/Jogo/Scripts/TutorialSystem.cs:129-137 | the display becomes `Hide` of the old |
| Tutorials.TutorialSystem.ShowElapsed | sugar2/Assets/Jogo/Scripts/TutorialSystem.cs:122-126 | the end of the display wait hides the tutorial |
| Tutorials.TutorialSystem.HideFinished | sugar2/Assets/Jogo/Scripts/TutorialSystem.cs:139-153 | the display becomes `HideDone` of the old |
| Tutorials.TutorialSystem.Update | sugar2/Assets/Jogo/Scripts/TutorialSystem.cs:46-53 | the display becomes `Frame` of the old |
| Tutorials.TutorialSystem.CheckTutorialTrigger | sugar2/Assets/Jogo/Scripts/TutorialSystem.cs:65-84 | the array after the scan, the destroy call and the display are exactly those `Check` gives for the old array |
| Tutorials.TutorialSystem.ResetAllTutorials | sugar2/Assets/Jogo/Scripts/TutorialSystem.cs:183-189 | the array becomes `RearmAll` of the old |
| Tutorials.TutorialSystem.ShowTutorialByIndex | sugar2/Assets/Jogo/Scripts/TutorialSystem.cs:174-180 | shows `ByIndex` when it exists and otherwise changes nothing; the table is never changed |
| Tutorials.TriggeredStaysSilent | sugar2/Assets/Jogo/Scripts/TutorialSystem.cs:204 | a triggered object never fires again |
| Tutorials.FiresAtMostOnce | sugar2/Assets/Jogo/Scripts/TutorialSystem.cs:202-219 | an object fires at most once, and it fires if the player touches it at a time a system is found |
| Tutorials.TutorialTriggerObject.constructor | sugar2/Assets/Jogo/Scripts/TutorialSystem.cs:195-200 | not yet triggered, not destroyed |
| Tutorials.TutorialTriggerObject.OnTriggerEnter | sugar2/Assets/Jogo/Scripts/TutorialSystem.cs:202-219 | fires only for an untriggered object touched by the player with a system found on the collider or in the scene; that system shows the message; the object is destroyed when configured; otherwise no system changes |

## Left out

- Physics and geometry are readings rather than models. These are
  `Physics.Raycast`, `Physics.CheckSphere`, `CharacterController.Move`
  and its `CollisionFlags`, the `NavMeshAgent`, the frustum test and the
  camera-relative move directions. Each is a per-frame input of the
  method that reads it.
- Rotations and transform smoothing are not modelled: `Quaternion`
  rotations, `Slerp`, `RotateTowards`, `SmoothDamp`, `SmoothStep`, the
  sine and cosine waves, and the routines built on them. These routines
  are `HandleFirstPerson`, `HandleThirdPerson`, `ApplyHeadBob`,
  `ApplyCameraTilt` and `RotateTowardsCamera`. They set positions and
  angles and carry no decision the other scripts depend on. `LateUpdate`
  is modelled as which of them it runs.
- Camera.CameraController.LateUpdate: `ApplyHeadBob`'s writes to `timer`
  are not modelled. It advances `timer` by the bob speed times the frame
  time, wraps it at 2π, and resets it at rest when the player was not
  moving. The class's `timer` therefore records only the reset that
  `UpdateHeadBobParameters` makes.
- MouseLookModel.MouseLook.RotateCamera: the horizontal turn of the
  player's body (`playerBody.Rotate`) is a rotation and is left out.
- Camera.CameraController.Look: `mouseX` feeds only rotations, so it is
  accumulated and never read.
- Camera.CameraController.Start: the two tag and component lookups are
  readings; the component lookup, `lastPlayerPosition` and
  `initialCameraPosition` feed only positions.
- `IsFirstPerson` is read by CharacterController.cs, PlayerMovement.cs
  and Mouselook.cs, but CameraController.cs declares only a private
  `isFirstPerson` field. The camera mode is therefore a reading of each
  of those scripts, not a link to the `Camera` model.
- Animator parameters and their routines are left out: `UpdateAnimator`,
  `UpdateAnimations`, `UpdateFallingState`, `OnJump` and the helpers
  behind them. They only write animation state, and their debug
  displays (`OnGUI`, `DebugDisplay`, `DebugGUI`) only draw.
- `PlayFootstep` and `PlayFootstepSound` are the fact that a step
  sounds. The clip and pitch they pick with `Random.Range` are
  randomness.
- Sound volumes, `spatialBlend` and the `AudioSource` fetched by
  `PlayerMovement.Start` are output settings only.
- Locomotion.PlayerController: the capsule is a `Capsule` value on the
  class rather than the engine's `CharacterController` component.
  Setting `stepOffset` and `slopeLimit` in `Start` is engine
  configuration and is left out.
- Locomotion.Jump: the launch speed `Mathf.Sqrt(jumpHeight * -2 * gravity)`
  is the setting `jumpSpeed`. Movement.JumpLaunches does the same with
  `jumpVelocity`. Square roots are not modelled.
- Locomotion.PlayerController.Update requires `enabled`, because the
  engine calls `Update` only on an enabled component.
- `Teleport`, `GetMoveDirection` and `GetTargetSpeed` of
  CharacterController.cs are left out. The first moves the transform
  only; the others read a field.
- `crouchHeld` is left out, because it is written but never read.
- `OnLand`'s heavy-landing branch is left out, because it is empty.
- Movement: only the vertical component of `velocity` is modelled,
  because only that component is ever written. The second
  `controller.Move` (the vertical displacement) is not an output.
- Movement.PlayerMovement.constructor: the state after `Start`. The
  component lookups in `Start` are readings.
- Death.DeathHandler.DisablePlayerController: disabling the
  `UnityStandardAssets` `FirstPersonController` is left out, because
  that class is not part of this model. The scripts loop covers every
  other behaviour, including that one.
- `SceneManager.LoadScene`, `Application.Quit`,
  `ConversationManager.StartConversation` and `Destroy` are results of
  the methods that call them.
- Tutorials: `FadePanel`, the animator triggers and the fade durations
  only set transparency. A show's display wait and a hide's fade-out
  are the events `ShowElapsed` and `HideFinished`.
- Tutorials.TutorialSystem: the `TutorialTrigger` records are values in
  an array. Two array slots holding the same record object, which the
  source's class records would allow, is not modelled.
- `OnTriggerEnter2D`, in both classes of TutorialSystem.cs, is the same
  code as `OnTriggerEnter` and is covered by it.
- `TutorialTriggerObject.showOnlyOnce` is left out, because it is
  declared but never read.
- Menu: `SetupButtons` is left out, because wiring button listeners is
  engine glue.
- Menu: `StartGame`'s `Debug` messages are left out. A `NoLoad`
  request stands for the logged error.
- Menu: the null checks on the two screens in `Start` and
  `TransitionToMainMenu` are not modelled; the screens are taken as
  assigned.
- Other UI references (texts, panels) are taken as assigned, so the
  null-reference paths are not modelled.
- Music.AudioController.PlayNormalMusic and PlaySpecialMusic require
  the `AudioSource`, which `Start` always finds or adds. Called before
  `Start`, the source does nothing when the clip is unset and stops with
  a null reference otherwise; that path is not modelled.
- `NewConversation.OnTriggerEnter` and `OnTriggerExit` require a
  `PlayerMovement` on a collider tagged "Player". Without one, the
  source stops with a null reference.
- Interact: `InteractDistance` is never assigned, so it is always 0. The
  ray result is a reading. A raycast with a maximum distance of 0 never
  reports a hit, so in the source `Caminteract.Update` never changes the
  prompt or `CanInteract`. The model covers every aim, which includes
  more than the source can reach.
- Locomotion.PlayerController.Update: the camera controller is assumed
  present, and its mode is a frame reading. `CalculateMovement` guards
  the reference at CharacterController.cs:164 but reads
  `cameraController.IsFirstPerson` unguarded at CharacterController.cs:194.
  With no camera controller, every `Update` stops there with a null
  reference. By then `currentSpeed` and `moveDirection` are written, and
  nothing after them runs: not the planar velocity, and not
  `HandleJump`, `ApplyGravity`, `ApplyMovement` or `HandleFootsteps`.
  That aborted frame is not modelled.
- Interact: `TalktoManeq` only waits two seconds and sets nothing, so
  it is the `talks` result of `Update`.
- sugar2/Assets/Jogo/Scripts/PlayerPush.cs is not part of this model.
  It is a coroutine animation built on `Vector3.MoveTowards`.
- sugar2/Assets/Jogo/Scripts/EmpurrarInimigo.cs is not part of this
  model. It is a raycast and a push vector with no discrete state.
- sugar2/Assets/Jogo/Scripts/Passagem.cs and
  sugar2/Assets/Jogo/Scripts/Gameovercontrolbuttons.cs are not part of
  this model. They are scene-loading glue.
- sugar2/Assets/NewConversation.cs is not part of this model. It is a
  thin wrapper over the dialogue package's `ConversationManager`.
- sugar2/Assets/Jogo/Scripts/sound.cs is not part of this model. It is
  data only.
- `float` is modelled as `real`, without single-precision rounding.
- Frame times are non-negative wherever a bound is proved.
