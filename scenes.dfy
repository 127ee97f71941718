/** The scene-loading fallback that the main menu (`StartGame`) and the death
    handler (`LoadGameOverScene`) both use: a configured scene name wins;
    without one, the next scene in the build settings is loaded when it
    exists; otherwise nothing is loaded. */
module Scenes {

  /** The `SceneManager.LoadScene` call a script makes, if any. */
  datatype SceneLoad = LoadByName(name: string) | LoadByIndex(index: int) | NoLoad

  /** `configured` is the scene name from the Inspector; a null name and the
      empty name are the same case (`string.IsNullOrEmpty`). */
  function ChooseScene(configured: string, activeBuildIndex: int, sceneCount: int): (r: SceneLoad)
    ensures r.LoadByName? <==> configured != ""
    ensures r.LoadByName? ==> r.name == configured
    ensures r.LoadByIndex? <==> configured == "" && activeBuildIndex + 1 < sceneCount
    ensures r.LoadByIndex? ==> r.index == activeBuildIndex + 1
    ensures r.NoLoad? <==> configured == "" && activeBuildIndex + 1 >= sceneCount
    // an index is requested only inside the build list, after the active scene
    ensures r.LoadByIndex? && activeBuildIndex >= 0 ==> 0 < r.index < sceneCount
  {
    if configured != "" then LoadByName(configured)
    else if activeBuildIndex + 1 < sceneCount then LoadByIndex(activeBuildIndex + 1)
    else NoLoad
  }
}
