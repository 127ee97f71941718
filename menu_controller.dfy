/** The title screen of `MenuController.cs`: a "press any key" screen that
    gives way to the main menu, an `isTransitioning` guard that lasts until
    the delayed `ResetTransition` call, and the Start/Exit buttons. */
module Menu {
  import opened Engine
  import opened Scenes

  /** Which screens are active, and whether a transition is in progress. */
  datatype MenuState = MenuState(pressAnyKey: bool, mainMenu: bool, transitioning: bool)

  /** Exactly one of the two screens is active. */
  predicate OneScreen(s: MenuState) { s.pressAnyKey != s.mainMenu }

  /** `TransitionToMainMenu`; the delayed `ResetTransition` is scheduled. */
  function Transition(s: MenuState): (r: MenuState)
    ensures !r.pressAnyKey && r.mainMenu && r.transitioning && OneScreen(r)
  {
    MenuState(false, true, true)
  }

  /** One `Update`: any key on the press-any-key screen, outside a transition,
      moves to the main menu. */
  function Frame(s: MenuState, anyKeyDown: bool): (r: MenuState)
    ensures OneScreen(s) ==> OneScreen(r)
  {
    if s.pressAnyKey && !s.transitioning && anyKeyDown then Transition(s) else s
  }

  /** A frame changes the screens exactly when the three conditions hold;
      otherwise it changes nothing. */
  lemma FrameChangesExactly(s: MenuState, anyKeyDown: bool)
    ensures Frame(s, anyKeyDown) != s <==> s.pressAnyKey && !s.transitioning && anyKeyDown
  {}

  /** Frames over a run of key readings. */
  function Frames(s: MenuState, keys: seq<bool>): MenuState
    decreases |keys|
  {
    if keys == [] then s else Frames(Frame(s, keys[0]), keys[1..])
  }

  /** While a transition is in progress, or once the press-any-key screen is
      off, no key changes anything, however many frames pass. */
  lemma {:induction false} FramesFrozen(s: MenuState, keys: seq<bool>)
    requires s.transitioning || !s.pressAnyKey
    ensures Frames(s, keys) == s
  {
    if keys != [] {
      FramesFrozen(Frame(s, keys[0]), keys[1..]);
    }
  }

  /** From the press-any-key screen, the first key press takes the menu to
      the main screen, and it stays there whatever keys follow. */
  lemma {:induction false} FirstKeyMovesToMainMenu(keys: seq<bool>)
    requires exists k :: 0 <= k < |keys| && keys[k]
    ensures Frames(MenuState(true, false, false), keys) == MenuState(false, true, true)
  {
    if keys[0] {
      FramesFrozen(MenuState(false, true, true), keys[1..]);
    } else {
      var k :| 0 <= k < |keys| && keys[k];
      assert keys[1..][k - 1];
      FirstKeyMovesToMainMenu(keys[1..]);
    }
  }

  /** `MenuController`. The two screens stand for the referenced panels,
      which are assumed to be assigned. */
  class MenuController {
    const gameSceneName: string
    const transitionDelay: real
    var pressAnyKeyActive: bool
    var mainMenuActive: bool
    var isTransitioning: bool

    function State(): MenuState
      reads this
    {
      MenuState(pressAnyKeyActive, mainMenuActive, isTransitioning)
    }

    /** The component as loaded: screens as the scene left them. */
    constructor (gameSceneName: string, transitionDelay: real, pressInScene: bool, mainInScene: bool)
      ensures this.gameSceneName == gameSceneName && this.transitionDelay == transitionDelay
      ensures State() == MenuState(pressInScene, mainInScene, false)
    {
      this.gameSceneName := gameSceneName;
      this.transitionDelay := transitionDelay;
      pressAnyKeyActive := pressInScene;
      mainMenuActive := mainInScene;
      isTransitioning := false;
    }

    /** `Start`: the press-any-key screen on, the main menu off. */
    method Start()
      modifies this
      ensures State() == MenuState(true, false, old(isTransitioning))
      ensures OneScreen(State())
    {
      pressAnyKeyActive := true;
      mainMenuActive := false;
    }

    method Update(anyKeyDown: bool)
      modifies this
      ensures State() == Frame(old(State()), anyKeyDown)
    {
      if pressAnyKeyActive && !isTransitioning && anyKeyDown {
        TransitionToMainMenu();
      }
    }

    method TransitionToMainMenu()
      modifies this
      ensures State() == Transition(old(State()))
    {
      isTransitioning := true;
      pressAnyKeyActive := false;
      mainMenuActive := true;
    }

    /** The `Invoke`d call, `transitionDelay` seconds after a transition. */
    method ResetTransition()
      modifies this
      ensures State() == old(State()).(transitioning := false)
    {
      isTransitioning := false;
    }

    /** The Start button: ignored (`None`) during a transition; otherwise the
        scene request of the shared fallback, `NoLoad` meaning an error is
        logged and nothing is loaded. */
    method StartGame(activeBuildIndex: int, sceneCount: int) returns (request: Option<SceneLoad>)
      ensures request.None? <==> isTransitioning
      ensures request.Some? ==> request.value == ChooseScene(gameSceneName, activeBuildIndex, sceneCount)
      ensures request.Some? && gameSceneName != "" ==> request.value == LoadByName(gameSceneName)
    {
      if isTransitioning {
        return None;
      }
      request := Some(ChooseScene(gameSceneName, activeBuildIndex, sceneCount));
    }

    /** The Exit button: the application quits unless a transition is in progress. */
    method ExitGame() returns (quits: bool)
      ensures quits <==> !isTransitioning
    {
      if isTransitioning {
        return false;
      }
      quits := true;
    }

    method ShowPressAnyKeyScreen()
      modifies this
      ensures State() == old(State()).(pressAnyKey := true, mainMenu := false)
      ensures OneScreen(State())
    {
      pressAnyKeyActive := true;
      mainMenuActive := false;
    }

    method ShowMainMenuScreen()
      modifies this
      ensures State() == old(State()).(pressAnyKey := false, mainMenu := true)
      ensures OneScreen(State())
    {
      pressAnyKeyActive := false;
      mainMenuActive := true;
    }
  }
}
