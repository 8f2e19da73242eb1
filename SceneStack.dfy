/**
 * The stack of scenes a running game plays: only the top scene runs, the
 * scenes below it are paused, and scene changes requested by the running
 * scene push, pop, replace or clear the stack.
 *
 * A scene's loading, its objects, its rendering and its events are not
 * part of this model: a scene records the scene data it was loaded from,
 * its status, the external layout it created objects from and how many
 * times it was rendered. What `renderAndStep` returns is given as a
 * parameter of `Step`.
 */
module SceneStack {
  import opened Common

  /** What a paused, running or unloaded scene is doing. */
  datatype SceneStatus = Running | Paused | Unloaded

  /** The scene changes a scene can request (`gdjs.RuntimeScene` constants). */
  datatype Change =
    | Continue
    | PushScene
    | PopScene
    | ReplaceScene
    | ClearScenes
    | StopGame

  /** The game playing the stack; only what the stack uses of it is modelled. */
  class RuntimeGame {
    var stopped: bool
    /** The names of the external layouts the game holds. */
    var externalLayouts: set<string>

    constructor (externalLayouts: set<string>)
      ensures !stopped && this.externalLayouts == externalLayouts
    {
      stopped := false;
      this.externalLayouts := externalLayouts;
    }
  }

  class RuntimeScene {
    const sceneName: string
    var status: SceneStatus
    /** The external layout whose instances were created in the scene, if any. */
    var externalLayout: Option<string>
    var renders: nat
    var requestedChange: Change
    var requestedScene: string

    /** `new gdjs.RuntimeScene(game)` followed by `loadFromScene` of the named scene's data. */
    constructor (sceneName: string)
      ensures this.sceneName == sceneName && status == Running
      ensures externalLayout == None && renders == 0
      ensures requestedChange == Continue && requestedScene == ""
    {
      this.sceneName := sceneName;
      status := Running;
      externalLayout := None;
      renders := 0;
      requestedChange := Continue;
      requestedScene := "";
    }

    /** The scene's requested change and requested scene are unchanged. */
    twostate predicate SameRequests()
      reads this
    {
      requestedChange == old(requestedChange) && requestedScene == old(requestedScene)
    }

    /** Everything but the status is unchanged: the requests, the render count and the layout. */
    twostate predicate KeptApartFromStatus()
      reads this
    {
      SameRequests() && renders == old(renders) && externalLayout == old(externalLayout)
    }

    method OnPause()
      modifies this
      ensures status == Paused
      ensures SameRequests() && renders == old(renders) && externalLayout == old(externalLayout)
    {
      status := Paused;
    }

    method OnResume()
      modifies this
      ensures status == Running
      ensures SameRequests() && renders == old(renders) && externalLayout == old(externalLayout)
    {
      status := Running;
    }

    method UnloadScene()
      modifies this
      ensures status == Unloaded
      ensures SameRequests() && renders == old(renders) && externalLayout == old(externalLayout)
    {
      status := Unloaded;
    }

    method Render()
      modifies this
      ensures renders == old(renders) + 1
      ensures SameRequests() && status == old(status) && externalLayout == old(externalLayout)
    {
      renders := renders + 1;
    }

    method CreateObjectsFrom(layoutName: string)
      modifies this
      ensures externalLayout == Some(layoutName)
      ensures SameRequests() && status == old(status) && renders == old(renders)
    {
      externalLayout := Some(layoutName);
    }
  }

  class SceneStack {
    const game: RuntimeGame
    var stack: seq<RuntimeScene>
    var wasFirstSceneLoaded: bool

    /**
     * The scenes of the stack are distinct; the top one runs and every one
     * below it is paused.
     */
    ghost predicate Valid()
      reads this, stack
    {
      Stacked() && (|stack| > 0 ==> stack[|stack| - 1].status == Running)
    }

    /** The scenes are distinct and every scene below the top one is paused. */
    ghost predicate Stacked()
      reads this, stack
    {
      && (forall i, j :: 0 <= i < j < |stack| ==> stack[i] != stack[j])
      && (forall i :: 0 <= i < |stack| - 1 ==> stack[i].status == Paused)
    }

    constructor (game: RuntimeGame)
      ensures Valid()
      ensures this.game == game && stack == [] && !wasFirstSceneLoaded
    {
      this.game := game;
      stack := [];
      wasFirstSceneLoaded := false;
    }

    /** `wasFirstSceneLoaded`: whether a scene was ever pushed. */
    function WasFirstSceneLoaded(): (r: bool)
      reads this
      ensures r == wasFirstSceneLoaded
    {
      wasFirstSceneLoaded
    }

    /** `getCurrentScene`: the top of the stack, or null when it is empty. */
    function GetCurrentScene(): (r: RuntimeScene?)
      reads this
      ensures r == null <==> |stack| == 0
      ensures r != null ==> r == stack[|stack| - 1] && r in stack
    {
      if |stack| == 0 then null else stack[|stack| - 1]
    }

    /**
     * `pop`: on a stack of one scene or none, nothing happens and null is
     * returned; otherwise the top scene is removed and unloaded, the scene
     * below it resumes, and the removed scene is returned.
     */
    method Pop() returns (r: RuntimeScene?)
      requires Valid()
      modifies this, stack
      ensures Valid()
      ensures wasFirstSceneLoaded == old(wasFirstSceneLoaded)
      ensures forall s :: s in old(stack) ==> s.KeptApartFromStatus()
      ensures |old(stack)| <= 1 ==> r == null && stack == old(stack)
      ensures |old(stack)| <= 1 ==> forall s :: s in stack ==> s.status == old(s.status)
      ensures |old(stack)| > 1 ==>
        && r == old(stack)[|old(stack)| - 1]
        && stack == old(stack)[..|old(stack)| - 1]
        && r.status == Unloaded
        && stack[|stack| - 1].status == Running
        && forall i :: 0 <= i < |stack| - 1 ==> stack[i].status == old(stack[i].status)
    {
      if |stack| <= 1 {
        return null;
      }
      r := stack[|stack| - 1];
      stack := stack[..|stack| - 1];
      r.UnloadScene();
      var currentScene := stack[|stack| - 1];
      currentScene.OnResume();
    }

    /**
     * `push`: the current scene, if any, is paused; a new scene loaded from
     * the named scene is put on top and returned, and the first scene is now
     * loaded. With a non-empty external layout name that the game knows,
     * the layout's objects are created in the new scene.
     */
    method Push(newSceneName: string, externalLayoutName: Option<string>) returns (newScene: RuntimeScene)
      requires Stacked()
      modifies this, stack
      ensures Valid()
      ensures fresh(newScene)
      ensures wasFirstSceneLoaded
      ensures stack == old(stack) + [newScene]
      ensures newScene.sceneName == newSceneName && newScene.status == Running && newScene.renders == 0
      ensures newScene.requestedChange == Continue
      ensures externalLayoutName.Some? && externalLayoutName.value != "" && externalLayoutName.value in game.externalLayouts
          ==> newScene.externalLayout == externalLayoutName
      ensures !(externalLayoutName.Some? && externalLayoutName.value != "" && externalLayoutName.value in game.externalLayouts)
          ==> newScene.externalLayout == None
      ensures forall s :: s in old(stack) ==> s.status == Paused && s.KeptApartFromStatus()
    {
      if |stack| > 0 {
        var currentScene := stack[|stack| - 1];
        currentScene.OnPause();
      }
      newScene := new RuntimeScene(newSceneName);
      wasFirstSceneLoaded := true;
      if externalLayoutName.Some? && externalLayoutName.value != "" {
        if externalLayoutName.value in game.externalLayouts {
          newScene.CreateObjectsFrom(externalLayoutName.value);
        }
      }
      stack := stack + [newScene];
    }

    /** The clearing loop of `replace`: every scene is popped and unloaded, the top one first. */
    method UnloadAll()
      requires Valid()
      modifies this, stack
      ensures stack == [] && wasFirstSceneLoaded == old(wasFirstSceneLoaded)
      ensures forall s :: s in old(stack) ==> s.status == Unloaded && s.KeptApartFromStatus()
    {
      while |stack| != 0
        invariant |stack| <= |old(stack)| && stack == old(stack)[..|stack|]
        invariant forall i :: |stack| <= i < |old(stack)| ==> old(stack)[i].status == Unloaded
        invariant forall i :: 0 <= i < |stack| ==> stack[i].status == old(stack[i].status)
        invariant forall i :: 0 <= i < |old(stack)| ==> old(stack)[i].KeptApartFromStatus()
        invariant wasFirstSceneLoaded == old(wasFirstSceneLoaded)
        decreases |stack|
      {
        var scene := stack[|stack| - 1];
        stack := stack[..|stack| - 1];
        scene.UnloadScene();
      }
    }

    /**
     * `replace`: with `clear`, every scene is unloaded and the stack becomes
     * the new scene alone; without it, only the top scene (if any) is
     * removed and unloaded before the new scene is pushed.
     */
    method Replace(newSceneName: string, clear: bool) returns (newScene: RuntimeScene)
      requires Valid()
      modifies this, stack
      ensures Valid()
      ensures fresh(newScene)
      ensures wasFirstSceneLoaded
      ensures newScene.sceneName == newSceneName && newScene.status == Running && newScene.externalLayout == None
      ensures forall s :: s in old(stack) ==> s.KeptApartFromStatus()
      ensures clear ==> stack == [newScene]
      ensures clear ==> forall s :: s in old(stack) ==> s.status == Unloaded
      ensures !clear && |old(stack)| == 0 ==> stack == [newScene]
      ensures !clear && |old(stack)| > 0 ==>
        && stack == old(stack)[..|old(stack)| - 1] + [newScene]
        && old(stack)[|old(stack)| - 1].status == Unloaded
        && forall i :: 0 <= i < |old(stack)| - 1 ==> old(stack)[i].status == Paused
    {
      if clear {
        UnloadAll();
      } else if |stack| != 0 {
        var scene := stack[|stack| - 1];
        stack := stack[..|stack| - 1];
        scene.UnloadScene();
      }
      label Cleared:
      newScene := Push(newSceneName, None);
      assert forall s :: s in old(stack) ==> s.KeptApartFromStatus@Cleared();
    }

    /**
     * `renderWithoutStep`: false on an empty stack, else the current scene is
     * rendered and true is returned.
     */
    method RenderWithoutStep() returns (r: bool)
      requires Valid()
      modifies stack
      ensures Valid()
      ensures r <==> |stack| > 0
      ensures r ==>
        var top := stack[|stack| - 1];
        top.renders == old(top.renders) + 1 && top.SameRequests() && top.externalLayout == old(top.externalLayout)
      ensures forall i :: 0 <= i < |stack| - 1 ==> stack[i].KeptApartFromStatus()
      ensures forall s :: s in stack ==> s.status == old(s.status)
    {
      if |stack| == 0 {
        return false;
      }
      var currentScene := stack[|stack| - 1];
      currentScene.Render();
      return true;
    }

    /**
     * `step`: false on an empty stack. Otherwise the current scene is
     * rendered and stepped (`renderAndStep`); `changeRequested` is what
     * that returns, and `CarryOutRequest` does the rest.
     */
    method Step(changeRequested: bool) returns (r: bool)
      requires Valid()
      modifies this, stack, game
      ensures Valid()
      ensures forall i :: 0 <= i < |old(stack)| - 1 ==> old(stack)[i].KeptApartFromStatus()
      ensures |old(stack)| > 0 ==>
        var top := old(stack)[|old(stack)| - 1];
        top.renders == old(top.renders) + 1 && top.SameRequests() && top.externalLayout == old(top.externalLayout)
      ensures |old(stack)| == 0 ==> !r && stack == old(stack) && game.stopped == old(game.stopped)
      ensures |old(stack)| > 0 && !changeRequested ==>
        r && stack == old(stack) && game.stopped == old(game.stopped) && wasFirstSceneLoaded == old(wasFirstSceneLoaded)
      ensures |old(stack)| > 0 && changeRequested ==>
        var n := |old(stack)|;
        var top := old(stack)[n - 1];
        var request := old(top.requestedChange);
        var target := old(top.requestedScene);
        && (request != StopGame ==> game.stopped == old(game.stopped))
        && (request in {StopGame, PopScene, Continue} ==> wasFirstSceneLoaded == old(wasFirstSceneLoaded))
        && (request in {PushScene, ReplaceScene, ClearScenes} ==> WasFirstSceneLoaded())
        && (request == StopGame ==> r && game.stopped && stack == old(stack))
        && (request == PopScene ==> r && stack == if n <= 1 then old(stack) else old(stack)[..n - 1])
        && (request == PopScene && n > 1 ==> top.status == Unloaded)
        && (request == PushScene ==>
              r && |stack| == n + 1 && stack[..n] == old(stack) && stack[n].sceneName == target
              && top.status == Paused)
        && (request == ReplaceScene ==>
              r && |stack| == n && stack[..n - 1] == old(stack)[..n - 1] && stack[n - 1].sceneName == target
              && top.status == Unloaded)
        && (request == ClearScenes ==>
              r && |stack| == 1 && stack[0].sceneName == target
              && forall s :: s in old(stack) ==> s.status == Unloaded)
        && (request == Continue ==> !r && stack == old(stack))
    {
      if |stack| == 0 {
        return false;
      }
      var currentScene := stack[|stack| - 1];
      currentScene.Render();
      label Rendered:
      r := CarryOutRequest(changeRequested);
      assert forall i :: 0 <= i < |old(stack)| ==> old(stack)[i].KeptApartFromStatus@Rendered();
    }

    /**
     * The part of `step` after `renderAndStep`: when a change was
     * requested, the current scene's request is carried out: stop the
     * game, pop, push the requested scene, replace the top with it, or
     * clear the stack for it. An unrecognised request gives false.
     */
    method CarryOutRequest(changeRequested: bool) returns (r: bool)
      requires Valid() && |stack| > 0
      modifies this, stack, game
      ensures Valid()
      ensures forall s :: s in old(stack) ==> s.KeptApartFromStatus()
      ensures !changeRequested ==>
        r && stack == old(stack) && game.stopped == old(game.stopped) && wasFirstSceneLoaded == old(wasFirstSceneLoaded)
      ensures changeRequested ==>
        var n := |old(stack)|;
        var top := old(stack)[n - 1];
        var request := old(top.requestedChange);
        var target := old(top.requestedScene);
        && (request != StopGame ==> game.stopped == old(game.stopped))
        && (request in {StopGame, PopScene, Continue} ==> wasFirstSceneLoaded == old(wasFirstSceneLoaded))
        && (request in {PushScene, ReplaceScene, ClearScenes} ==> WasFirstSceneLoaded())
        && (request == StopGame ==> r && game.stopped && stack == old(stack))
        && (request == PopScene ==> r && stack == if n <= 1 then old(stack) else old(stack)[..n - 1])
        && (request == PopScene && n > 1 ==> top.status == Unloaded)
        && (request == PushScene ==>
              r && |stack| == n + 1 && stack[..n] == old(stack) && stack[n].sceneName == target
              && top.status == Paused)
        && (request == ReplaceScene ==>
              r && |stack| == n && stack[..n - 1] == old(stack)[..n - 1] && stack[n - 1].sceneName == target
              && top.status == Unloaded)
        && (request == ClearScenes ==>
              r && |stack| == 1 && stack[0].sceneName == target
              && forall s :: s in old(stack) ==> s.status == Unloaded)
        && (request == Continue ==> !r && stack == old(stack))
    {
      var currentScene := stack[|stack| - 1];
      if changeRequested {
        var request := currentScene.requestedChange;
        if request == StopGame {
          game.stopped := true;
          return true;
        } else if request == PopScene {
          var _ := Pop();
        } else if request == PushScene {
          var _ := Push(currentScene.requestedScene, None);
        } else if request == ReplaceScene {
          var _ := Replace(currentScene.requestedScene, false);
        } else if request == ClearScenes {
          var _ := Replace(currentScene.requestedScene, true);
        } else {
          return false;
        }
      }
      return true;
    }
  }

  /**
   * The constructor of `gdjs.SceneStack`: it throws without a runtime game,
   * which is modelled by returning null.
   */
  method NewSceneStack(game: RuntimeGame?) returns (s: SceneStack?)
    ensures game == null <==> s == null
    ensures s != null ==> fresh(s) && s.Valid() && s.game == game && s.stack == [] && !s.wasFirstSceneLoaded
  {
    if game == null {
      return null;
    }
    s := new SceneStack(game);
  }
}
