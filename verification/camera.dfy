/**
 * The zoom machine of src/CameraController.js. Zooming only starts a
 * transition (`In` or `Out`); the next `update` finishes it by setting the
 * camera's field of view and the pointer-lock movement factor.
 */
module Camera {
  import opened Wrappers

  const OutFov: real := 75.0
  const InFov: real := 15.0
  /** Zoomed in, the camera moves at one eighth of its normal factor. */
  const InMovementDivisor: real := 8.0

  /** `ZoomedOutState`, `ZoomedInState`, `InState`, `OutState`. */
  datatype ZoomState = ZoomedOut | ZoomedIn | In | Out

  /** The next state after `zoom`: a settled state starts moving the other way; a moving one ignores it. */
  function Zoomed(s: ZoomState): ZoomState {
    match s
    case ZoomedOut => In
    case ZoomedIn => Out
    case _ => s
  }

  /** What the machine drives: its state, the camera's fov and the movement factor. */
  datatype Lens = Lens(state: ZoomState, fov: real, movementFactor: real)

  function ZoomLens(l: Lens): Lens {
    l.(state := Zoomed(l.state))
  }

  /** The effect of `update`: a moving state settles with its fov and factor; a settled one does nothing. */
  function UpdateLens(l: Lens, inMovement: real, outMovement: real): Lens {
    match l.state
    case In => Lens(ZoomedIn, InFov, inMovement)
    case Out => Lens(ZoomedOut, OutFov, outMovement)
    case _ => l
  }

  /** `zoom` never touches the fov or the factor, and is a no-op while moving. */
  lemma ZoomOnlyStarts(l: Lens)
    ensures ZoomLens(l).fov == l.fov && ZoomLens(l).movementFactor == l.movementFactor
    ensures l.state == In || l.state == Out ==> ZoomLens(l) == l
    ensures l.state == ZoomedOut ==> ZoomLens(l).state == In
    ensures l.state == ZoomedIn ==> ZoomLens(l).state == Out
  { }

  /** After an `update` the machine is settled, so a second `update` changes nothing. */
  lemma UpdateSettles(l: Lens, inMovement: real, outMovement: real)
    ensures var u := UpdateLens(l, inMovement, outMovement);
      (u.state == ZoomedIn || u.state == ZoomedOut) &&
      UpdateLens(u, inMovement, outMovement) == u
  { }

  /**
   * A settled machine flips after `zoom` then `update`, and lands on the
   * fov and factor of the side it reached; two rounds from zoomed out come
   * back to zoomed out with fov 75 and the normal factor.
   */
  lemma ZoomRounds(l: Lens, inMovement: real, outMovement: real)
    ensures l.state == ZoomedOut ==>
      UpdateLens(ZoomLens(l), inMovement, outMovement) == Lens(ZoomedIn, InFov, inMovement)
    ensures l.state == ZoomedIn ==>
      UpdateLens(ZoomLens(l), inMovement, outMovement) == Lens(ZoomedOut, OutFov, outMovement)
    ensures l.state == ZoomedOut ==>
      UpdateLens(ZoomLens(UpdateLens(ZoomLens(l), inMovement, outMovement)), inMovement, outMovement)
        == Lens(ZoomedOut, OutFov, outMovement)
  { }

  /** The three.js camera: only its field of view is modelled. */
  class PerspectiveCamera {
    var fov: real

    constructor(fov: real)
      ensures this.fov == fov
    {
      this.fov := fov;
    }
  }

  /** The pointer-lock controls: only their movement factor is modelled. */
  class PointerLockControls {
    var movementFactor: real

    constructor(movementFactor: real)
      ensures this.movementFactor == movementFactor
    {
      this.movementFactor := movementFactor;
    }
  }

  class CameraController {
    const camera: PerspectiveCamera
    var currentState: ZoomState
    /** `None` until `setPointerLockControls` is called. */
    var pointerLockControls: Option<PointerLockControls>
    /** Set together with `pointerLockControls`; read only once it is set. */
    var outMovement: real
    var inMovement: real

    /** A new controller starts zoomed out, without controls. */
    constructor(camera: PerspectiveCamera)
      ensures this.camera == camera && currentState == ZoomedOut && pointerLockControls == None
    {
      this.camera := camera;
      currentState := ZoomedOut;
      pointerLockControls := None;
      outMovement := 0.0;
      inMovement := 0.0;
    }

    /** The factors are taken from the controls now: the current one, and one eighth of it. */
    method SetPointerLockControls(controls: PointerLockControls)
      modifies this`pointerLockControls, this`outMovement, this`inMovement
      ensures pointerLockControls == Some(controls)
      ensures outMovement == controls.movementFactor
      ensures inMovement * InMovementDivisor == outMovement
    {
      pointerLockControls := Some(controls);
      outMovement := controls.movementFactor;
      inMovement := controls.movementFactor / InMovementDivisor;
    }

    /** `setFov(fov)`; the projection matrix update is outside this model. */
    method SetFov(fov: real)
      modifies camera`fov
      ensures camera.fov == fov
    {
      camera.fov := fov;
    }

    /** `setMovementFactor(factor)`: fails (`ok` is false) when no controls are set. */
    method SetMovementFactor(factor: real) returns (ok: bool)
      modifies if pointerLockControls.Some? then {pointerLockControls.value} else {}
      ensures ok <==> pointerLockControls.Some?
      ensures ok ==> pointerLockControls.value.movementFactor == factor
    {
      if pointerLockControls.None? {
        return false;
      }
      pointerLockControls.value.movementFactor := factor;
      ok := true;
    }

    method SetState(state: ZoomState)
      modifies this`currentState
      ensures currentState == state
    {
      currentState := state;
    }

    /**
     * `update()`. Settling needs the controls: without them the fov is
     * already set when setting the factor fails (`ok` is false), and the
     * state stays where it was.
     */
    method Update() returns (ok: bool)
      modifies camera`fov, this`currentState
      modifies if pointerLockControls.Some? then {pointerLockControls.value} else {}
      ensures ok <==> pointerLockControls.Some? || old(currentState) == ZoomedIn || old(currentState) == ZoomedOut
      ensures pointerLockControls.Some? ==>
        Lens(currentState, camera.fov, pointerLockControls.value.movementFactor)
          == UpdateLens(Lens(old(currentState), old(camera.fov), old(pointerLockControls.value.movementFactor)), inMovement, outMovement)
      ensures pointerLockControls.None? ==>
        currentState == old(currentState) &&
        camera.fov == UpdateLens(Lens(old(currentState), old(camera.fov), 0.0), inMovement, outMovement).fov
    {
      match currentState {
        case In =>
          SetFov(InFov);
          ok := SetMovementFactor(inMovement);
          if !ok {
            return;
          }
          SetState(ZoomedIn);
        case Out =>
          SetFov(OutFov);
          ok := SetMovementFactor(outMovement);
          if !ok {
            return;
          }
          SetState(ZoomedOut);
        case _ =>
          ok := true;
      }
    }

    /** `zoom()`: only the state changes. */
    method Zoom()
      modifies this`currentState
      ensures currentState == Zoomed(old(currentState))
    {
      match currentState {
        case ZoomedOut => SetState(In);
        case ZoomedIn => SetState(Out);
        case _ =>
      }
    }
  }
}
