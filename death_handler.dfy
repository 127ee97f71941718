/** `DeathHandler.cs`: when the player touches the hazard, every other
    script on the player is switched off, its rigidbody is frozen, the cursor
    is optionally released, and the game-over scene is requested. */
module Death {
  import opened Engine
  import opened Scenes

  /** A `MonoBehaviour` on the player, seen only through its `enabled` flag. */
  class Behaviour {
    var enabled: bool

    constructor (enabled: bool)
      ensures this.enabled == enabled
    {
      this.enabled := enabled;
    }
  }

  class Rigidbody {
    var velocity: Vec3
    var isKinematic: bool

    constructor (velocity: Vec3, isKinematic: bool)
      ensures this.velocity == velocity && this.isKinematic == isKinematic
    {
      this.velocity := velocity;
      this.isKinematic := isKinematic;
    }
  }

  /** The object that touched the hazard: its tag, its scripts in
      `GetComponents` order, and its rigidbody if it has one. */
  class Body {
    const tag: string
    const scripts: seq<Behaviour>
    const rigidbody: Rigidbody?

    constructor (tag: string, scripts: seq<Behaviour>, rigidbody: Rigidbody?)
      ensures this.tag == tag && this.scripts == scripts && this.rigidbody == rigidbody
    {
      this.tag := tag;
      this.scripts := scripts;
      this.rigidbody := rigidbody;
    }
  }

  /** The engine calls a death makes, in the order it makes them. */
  datatype DeathEffect = ControlsDisabled | CursorReleased | SceneRequested(load: SceneLoad)

  /** The steps of `HandlePlayerDeath`: controls first, then the cursor when
      configured, then the scene request when the fallback finds a scene. */
  function DeathSequence(unlockCursorOnDeath: bool, load: SceneLoad): (r: seq<DeathEffect>)
    ensures |r| >= 1 && r[0] == ControlsDisabled
    ensures CursorReleased in r <==> unlockCursorOnDeath
    ensures unlockCursorOnDeath ==> r[1] == CursorReleased
    ensures SceneRequested(load) in r <==> !load.NoLoad?
    ensures !load.NoLoad? ==> r[|r| - 1] == SceneRequested(load)
    ensures forall k :: 1 <= k < |r| ==> r[k] != ControlsDisabled
  {
    [ControlsDisabled]
      + (if unlockCursorOnDeath then [CursorReleased] else [])
      + (if load.NoLoad? then [] else [SceneRequested(load)])
  }

  class DeathHandler {
    const gameOverScene: string
    const playerTag: string
    const unlockCursorOnDeath: bool
    /** This handler as a component, which the disabling loop skips. */
    const component: Behaviour

    constructor (gameOverScene: string, playerTag: string, unlockCursorOnDeath: bool, component: Behaviour)
      ensures this.gameOverScene == gameOverScene && this.playerTag == playerTag
      ensures this.unlockCursorOnDeath == unlockCursorOnDeath && this.component == component
    {
      this.gameOverScene := gameOverScene;
      this.playerTag := playerTag;
      this.unlockCursorOnDeath := unlockCursorOnDeath;
      this.component := component;
    }

    /** Every script on the player except this handler is disabled; a
        rigidbody is stopped and made kinematic. */
    method DisablePlayerController(player: Body)
      modifies player.scripts, player.rigidbody
      ensures forall b :: b in player.scripts && b != component ==> !b.enabled
      ensures component.enabled == old(component.enabled)
      ensures player.rigidbody != null ==> player.rigidbody.velocity == Zero3 && player.rigidbody.isKinematic
    {
      for i := 0 to |player.scripts|
        invariant forall j :: 0 <= j < i && player.scripts[j] != component ==> !player.scripts[j].enabled
        invariant component.enabled == old(component.enabled)
      {
        var script := player.scripts[i];
        if script != component {
          script.enabled := false;
        }
      }
      var rb := player.rigidbody;
      if rb != null {
        rb.velocity := Zero3;
        rb.isKinematic := true;
      }
    }

    method UnlockCursor(cursor: Cursor)
      modifies cursor
      ensures cursor.lockState == Unlocked && cursor.visible
    {
      cursor.Release();
    }

    /** `LoadGameOverScene`: the shared fallback on `gameOverScene`. */
    method LoadGameOverScene(activeBuildIndex: int, sceneCount: int) returns (load: SceneLoad)
      ensures load.LoadByName? <==> gameOverScene != ""
      ensures load == ChooseScene(gameOverScene, activeBuildIndex, sceneCount)
    {
      load := ChooseScene(gameOverScene, activeBuildIndex, sceneCount);
    }

    method HandlePlayerDeath(player: Body, cursor: Cursor, activeBuildIndex: int, sceneCount: int)
      returns (effects: seq<DeathEffect>)
      modifies player.scripts, player.rigidbody, cursor
      ensures effects == DeathSequence(unlockCursorOnDeath, ChooseScene(gameOverScene, activeBuildIndex, sceneCount))
      ensures forall b :: b in player.scripts && b != component ==> !b.enabled
      ensures component.enabled == old(component.enabled)
      ensures player.rigidbody != null ==> player.rigidbody.velocity == Zero3 && player.rigidbody.isKinematic
      ensures unlockCursorOnDeath ==> cursor.lockState == Unlocked && cursor.visible
      ensures !unlockCursorOnDeath ==> cursor.lockState == old(cursor.lockState) && cursor.visible == old(cursor.visible)
    {
      DisablePlayerController(player);
      effects := [ControlsDisabled];
      if unlockCursorOnDeath {
        UnlockCursor(cursor);
        effects := effects + [CursorReleased];
      }
      var load := LoadGameOverScene(activeBuildIndex, sceneCount);
      if !load.NoLoad? {
        effects := effects + [SceneRequested(load)];
      }
    }

    /** `OnTriggerEnter` and `OnCollisionEnter`, which act alike: only an
        object tagged `playerTag` dies; any other contact does nothing. */
    method OnPlayerContact(other: Body, cursor: Cursor, activeBuildIndex: int, sceneCount: int)
      returns (effects: seq<DeathEffect>)
      modifies other.scripts, other.rigidbody, cursor
      ensures other.tag != playerTag ==> effects == [] && unchanged(other.scripts) && unchanged(cursor)
      ensures other.tag != playerTag && other.rigidbody != null ==> unchanged(other.rigidbody)
      ensures other.tag == playerTag ==>
                effects == DeathSequence(unlockCursorOnDeath, ChooseScene(gameOverScene, activeBuildIndex, sceneCount))
      ensures other.tag == playerTag ==> forall b :: b in other.scripts && b != component ==> !b.enabled
      ensures other.tag == playerTag && other.rigidbody != null ==>
                other.rigidbody.velocity == Zero3 && other.rigidbody.isKinematic
      ensures other.tag == playerTag && unlockCursorOnDeath ==> cursor.lockState == Unlocked && cursor.visible
      ensures other.tag == playerTag && !unlockCursorOnDeath ==>
                cursor.lockState == old(cursor.lockState) && cursor.visible == old(cursor.visible)
      ensures component.enabled == old(component.enabled)
    {
      effects := [];
      if other.tag == playerTag {
        effects := HandlePlayerDeath(other, cursor, activeBuildIndex, sceneCount);
      }
    }
  }
}
