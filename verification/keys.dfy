/**
 * The keyboard of src/index.js: a table from key code to handler, and the
 * key-down listener that runs the handler, if any, and then saves the
 * config.
 */
module Keys {
  import opened Wrappers
  import opened Settings
  import opened Persistence
  import opened Camera

  const KeyB: int := 66
  const KeyF: int := 70
  const KeyI: int := 73
  const KeyU: int := 85
  const KeyO: int := 79
  const KeyP: int := 80
  const KeyY: int := 89
  const KeyZ: int := 90

  /** What a handler does. */
  datatype KeyAction = ToggleFlag(flag: Flag) | ZoomCamera | ToggleFullscreen

  /** `createKeyHandlingStrategies`: the handler of each key code. */
  const KeyHandlers: map<int, KeyAction> := map[
    KeyY := ToggleFlag(ForceLine),
    KeyU := ToggleFlag(RepelLine),
    KeyI := ToggleFlag(AttractLine),
    KeyO := ToggleFlag(FollowLine),
    KeyP := ToggleFlag(FriendLines),
    KeyB := ToggleFlag(Axis),
    KeyZ := ZoomCamera,
    KeyF := ToggleFullscreen]

  /** The table: Y, U, I, O, P and B toggle one `show*` flag each, Z zooms and F toggles fullscreen. */
  lemma KeyTable(code: int)
    ensures code in KeyHandlers <==> code in {KeyY, KeyU, KeyI, KeyO, KeyP, KeyB, KeyZ, KeyF}
    ensures code == KeyY ==> KeyHandlers[code] == ToggleFlag(ForceLine)
    ensures code == KeyU ==> KeyHandlers[code] == ToggleFlag(RepelLine)
    ensures code == KeyI ==> KeyHandlers[code] == ToggleFlag(AttractLine)
    ensures code == KeyO ==> KeyHandlers[code] == ToggleFlag(FollowLine)
    ensures code == KeyP ==> KeyHandlers[code] == ToggleFlag(FriendLines)
    ensures code == KeyB ==> KeyHandlers[code] == ToggleFlag(Axis)
    ensures code == KeyZ ==> KeyHandlers[code] == ZoomCamera
    ensures code == KeyF ==> KeyHandlers[code] == ToggleFullscreen
  { }

  /** Each flag has exactly one key. */
  lemma EachFlagOneKey(g: Flag)
    ensures exists code :: code in KeyHandlers && KeyHandlers[code] == ToggleFlag(g)
    ensures forall c1, c2 ::
      (c1 in KeyHandlers && c2 in KeyHandlers && KeyHandlers[c1] == ToggleFlag(g) && KeyHandlers[c2] == ToggleFlag(g)) ==> c1 == c2
  {
    match g {
      case ForceLine => assert KeyHandlers[KeyY] == ToggleFlag(g);
      case RepelLine => assert KeyHandlers[KeyU] == ToggleFlag(g);
      case AttractLine => assert KeyHandlers[KeyI] == ToggleFlag(g);
      case FollowLine => assert KeyHandlers[KeyO] == ToggleFlag(g);
      case FriendLines => assert KeyHandlers[KeyP] == ToggleFlag(g);
      case Axis => assert KeyHandlers[KeyB] == ToggleFlag(g);
    }
  }

  /** How the Z handler ends. */
  datatype ZOutcome = Threw | Skipped | ZoomedCamera

  /**
   * The Z handler as written, `cameraController || cameraController.zoom()`:
   * a controller short-circuits the `||`, so `zoom` is never called; without
   * one, `zoom` is called on null and throws.
   */
  function ZKeyAsWritten(cameraController: Option<CameraController>): ZOutcome {
    if cameraController.Some? then Skipped else Threw
  }

  /** The as-written handler never zooms, and throws for the null controller the program passes. */
  lemma ZKeyAsWrittenNeverZooms(cameraController: Option<CameraController>)
    ensures ZKeyAsWritten(cameraController) != ZoomedCamera
    ensures ZKeyAsWritten(None) == Threw
  { }

  /** The evident intent, `cameraController && cameraController.zoom()`. */
  function ZKeyIntended(cameraController: Option<CameraController>): (r: ZOutcome)
    ensures r == ZoomedCamera <==> cameraController.Some?
    ensures r != Threw
  {
    if cameraController.Some? then ZoomedCamera else Skipped
  }

  /** The Z handler with the intended test: zoom when there is a controller. */
  method ZKeyHandler(cameraController: Option<CameraController>) returns (outcome: ZOutcome)
    modifies if cameraController.Some? then {cameraController.value} else {}
    ensures outcome == ZKeyIntended(cameraController)
    ensures cameraController.Some? ==>
      cameraController.value.currentState == Zoomed(old(cameraController.value.currentState))
  {
    if cameraController.Some? {
      cameraController.value.Zoom();
      outcome := ZoomedCamera;
    } else {
      outcome := Skipped;
    }
  }

  /** Runs a `show*` toggle through the `Config` method of that flag. */
  method ToggleConfigFlag(config: Config, g: Flag)
    modifies config
    ensures config.Value() == Toggle(old(config.Value()), g)
  {
    match g {
      case ForceLine => config.ToggleForceLine();
      case RepelLine => config.ToggleRepelLines();
      case AttractLine => config.ToggleAttractLine();
      case FollowLine => config.ToggleFollowLine();
      case FriendLines => config.ToggleFriendLines();
      case Axis => config.ToggleAxis();
    }
  }

  /**
   * The listener of `_createDocumentKeyDownHandler`. A mapped key runs its
   * handler; an unmapped one changes nothing. Either way the config is
   * saved afterwards. The F handler asks for fullscreen when fullscreen is
   * now on and the page element offers the request (`canRequestFullscreen`).
   */
  method HandleKeyDown(context: Context, storage: LocalStorage, storageAvailable: bool, keyCode: int,
                       cameraController: Option<CameraController>, canRequestFullscreen: bool)
    returns (requestFullscreen: bool)
    modifies context.config, context`fullscreen, storage
    modifies if cameraController.Some? then {cameraController.value} else {}
    ensures context.config.Value() ==
      if keyCode in KeyHandlers && KeyHandlers[keyCode].ToggleFlag?
      then Toggle(old(context.config.Value()), KeyHandlers[keyCode].flag)
      else old(context.config.Value())
    ensures context.fullscreen == if keyCode == KeyF then Negated(old(context.fullscreen)) else old(context.fullscreen)
    ensures cameraController.Some? ==>
      (cameraController.value.currentState ==
        if keyCode == KeyZ then Zoomed(old(cameraController.value.currentState)) else old(cameraController.value.currentState))
    ensures storageAvailable ==> storage.items == Stored(old(storage.items), context.config.Value())
    ensures !storageAvailable ==> storage.items == old(storage.items)
    ensures requestFullscreen <==> keyCode == KeyF && context.fullscreen == Some(true) && canRequestFullscreen
  {
    requestFullscreen := false;
    if keyCode in KeyHandlers {
      match KeyHandlers[keyCode] {
        case ToggleFlag(g) =>
          ToggleConfigFlag(context.config, g);
        case ZoomCamera =>
          var _ := ZKeyHandler(cameraController);
        case ToggleFullscreen =>
          context.ToggleFullscreen();
          requestFullscreen := context.fullscreen == Some(true) && canRequestFullscreen;
      }
      StoreConfigChanges(context.config, storage, storageAvailable);
      return;
    }
    StoreConfigChanges(context.config, storage, storageAvailable);
  }
}
