/**
 * The camera, its GPU uniform and the keyboard/mouse camera controller
 * (src/engine/render/camera.rs).
 *
 * Trigonometry is not modelled: the heading of a direction (the `acos` of its
 * normalised x component, in degrees) and the sine and cosine of an angle in
 * degrees are supplied as a `Trig` value. The perspective/look-at matrix is a
 * parameter for the same reason.
 */
module Cameras {
  import opened Vec
  import opened Keys
  import opened Wrappers

  /** The world's up axis. */
  const UP: V3 := UnitZ

  /** The camera; `fovy` is kept in degrees (the source converts 80 degrees to radians). */
  datatype Camera = Camera(target: V3, eye: V3, aspect: real, fovy: real, zNear: real, zFar: real)

  /** `Camera::new`: looking along +x from `eye`. */
  function NewCamera(eye: V3): (c: Camera)
    ensures c.eye == eye && c.target == UnitX
    ensures c.aspect == 16.0 / 9.0 && c.zNear < c.zFar
  {
    Camera(UnitX, eye, 16.0 / 9.0, 80.0, 0.0001, 1000.0)
  }

  /** The trigonometry the controller relies on, supplied from outside the model. */
  datatype Trig = Trig(
    /** acos of the x component of the normalised (x, y) direction, in degrees */
    headingDeg: (real, real) -> real,
    /** (sin, cos) of an angle given in degrees */
    sinCosDeg: real -> (real, real))

  /**
   * The horizontal direction with the given sine and cosine of the yaw. The
   * source writes it as (cos, sin * (1 - UP.y), sin * (1 - UP.z)), which for
   * UP = z is this vector (see `FlatOfUp`).
   */
  function Flat(sin: real, cos: real): V3
  {
    V3(cos, sin, 0.0)
  }

  lemma FlatOfUp(sin: real, cos: real)
    ensures V3(cos, sin * (1.0 - UP.y), sin * (1.0 - UP.z)) == Flat(sin, cos)
  {
  }

  /** `Camera::calc_target`: the view direction for a yaw and a pitch, in degrees. */
  function CalcTarget(trig: Trig, yaw: real, pitch: real): V3
  {
    var (sin, cos) := trig.sinCosDeg(yaw);
    var flat := Flat(sin, cos);
    var (psin, pcos) := trig.sinCosDeg(pitch);
    Add(Scale(flat, pcos), Scale(UP, psin))
  }

  /** The target is the horizontal heading tilted by the pitch: its height is sin(pitch). */
  lemma CalcTargetShape(trig: Trig, yaw: real, pitch: real)
    ensures var (sin, cos) := trig.sinCosDeg(yaw);
      var (psin, pcos) := trig.sinCosDeg(pitch);
      CalcTarget(trig, yaw, pitch) == V3(cos * pcos, sin * pcos, psin)
  {
  }

  /** Truncating remainder of `f32`'s `%` (the result takes the sign of `a`). */
  function Trunc(x: real): int { if x >= 0.0 then x.Floor else -((-x).Floor) }
  function FRem(a: real, b: real): real
    requires b != 0.0
  {
    a - b * (Trunc(a / b) as real)
  }

  /** `x % 360.0` lies strictly between -360 and 360 and keeps the sign of `x`. */
  lemma FRemRange(a: real)
    ensures -360.0 < FRem(a, 360.0) < 360.0
    ensures a >= 0.0 ==> FRem(a, 360.0) >= 0.0
    ensures a <= 0.0 ==> FRem(a, 360.0) <= 0.0
  {
    var q := a / 360.0;
    assert a == q * 360.0;
    if a >= 0.0 {
      assert (Trunc(q) as real) <= q < (Trunc(q) as real) + 1.0;
    } else {
      assert (Trunc(q) as real) - 1.0 < q <= (Trunc(q) as real);
    }
  }

  /** `f32::clamp`. */
  function Clamp(x: real, lo: real, hi: real): real
    requires lo <= hi
  {
    if x < lo then lo else if x > hi then hi else x
  }

  /** The eight controls the keyboard drives. */
  datatype Control =
    | Ascend | Descend | RotateLeft | RotateRight
    | Forward | Backward | MoveLeft | MoveRight

  /** The key map of `process_events`: which control a key drives, if any. */
  function ControlOf(k: Key): (c: Option<Control>)
    ensures c == Some(Forward) <==> k == W || k == Up
    ensures c == Some(Backward) <==> k == S || k == Down
    ensures c == Some(MoveLeft) <==> k == A || k == Left
    ensures c == Some(MoveRight) <==> k == D || k == Right
    ensures c.Some? <==> k in {Space, LShift, Q, E, W, Up, A, Left, S, Down, D, Right}
  {
    match k
    case Space => Some(Ascend)
    case LShift => Some(Descend)
    case Q => Some(RotateLeft)
    case E => Some(RotateRight)
    case W | Up => Some(Forward)
    case A | Left => Some(MoveLeft)
    case S | Down => Some(Backward)
    case D | Right => Some(MoveRight)
    case _ => None
  }

  /**
   * The yaw `update_direction` derives from a view direction: the heading of
   * its horizontal part, in [0, 360) when the heading is in [0, 180].
   */
  function Heading(trig: Trig, target: V3): real
  {
    var h := trig.headingDeg(target.x, target.y);
    if target.y < 0.0 then 360.0 - h else h
  }

  /** The horizontal unit direction for the heading of `target`. */
  function HeadingDir(trig: Trig, target: V3): V3
  {
    var (sin, cos) := trig.sinCosDeg(Heading(trig, target));
    Flat(sin, cos)
  }

  /** The strafe axis UP x f, written out for UP = z: f turned a quarter left in the horizontal plane. */
  function Strafe(f: V3): V3
  {
    V3(-f.y, f.x, 0.0)
  }

  lemma StrafeIsCross(f: V3)
    ensures Strafe(f) == Cross(UP, f)
  {
  }

  /** A pair of opposite keys applied to one coordinate `x`: +x, -x, or 0 when both or neither are held. */
  function Signed(pos: bool, neg: bool, x: real): real
  {
    if pos == neg then 0.0 else if pos then x else -x
  }

  /**
   * The movement an update asks for, in closed form, one coordinate at a
   * time: forward keys along the heading, strafe keys along UP x heading,
   * Space/LShift along UP.
   */
  function Movement(f: bool, b: bool, l: bool, r: bool, up: bool, down: bool, forward: V3): V3
  {
    var s := Strafe(forward);
    V3(Signed(f, b, forward.x) + Signed(l, r, s.x) + Signed(up, down, UP.x),
       Signed(f, b, forward.y) + Signed(l, r, s.y) + Signed(up, down, UP.y),
       Signed(f, b, forward.z) + Signed(l, r, s.z) + Signed(up, down, UP.z))
  }

  /** Opposite keys cancel: holding both keys of a pair is the same as holding neither. */
  lemma MovementCancels(f: bool, b: bool, l: bool, r: bool, up: bool, down: bool, forward: V3)
    ensures Movement(true, true, l, r, up, down, forward) == Movement(false, false, l, r, up, down, forward)
    ensures Movement(f, b, true, true, up, down, forward) == Movement(f, b, false, false, up, down, forward)
    ensures Movement(f, b, l, r, true, true, forward) == Movement(f, b, l, r, false, false, forward)
  {
  }

  /**
   * For a horizontal heading the movement is horizontal unless exactly one of
   * Space and LShift is held, and then it is one unit up or down.
   */
  lemma MovementVertical(f: bool, b: bool, l: bool, r: bool, up: bool, down: bool, forward: V3)
    requires forward.z == 0.0
    ensures Movement(f, b, l, r, up, down, forward).z == if up == down then 0.0 else if up then 1.0 else -1.0
  {
  }

  /** `CameraUniform`: what the shaders see of the camera. */
  class CameraUniform {
    var viewPosition: V4
    var viewProj: M4

    constructor ()
      ensures viewPosition == V4(0.0, 0.0, 0.0, 0.0)
      ensures viewProj == M4(V4(1.0, 0.0, 0.0, 0.0), V4(0.0, 1.0, 0.0, 0.0),
                             V4(0.0, 0.0, 1.0, 0.0), V4(0.0, 0.0, 0.0, 1.0))
    {
      viewPosition := V4(0.0, 0.0, 0.0, 0.0);
      viewProj := M4(V4(1.0, 0.0, 0.0, 0.0), V4(0.0, 1.0, 0.0, 0.0),
                     V4(0.0, 0.0, 1.0, 0.0), V4(0.0, 0.0, 0.0, 1.0));
    }

    /** `update_view_proj`; `build` is the camera's view-projection matrix. */
    method UpdateViewProj(camera: Camera, build: Camera -> M4)
      modifies this
      ensures viewPosition == Point(camera.eye)
      ensures viewProj == build(camera)
    {
      viewPosition := Point(camera.eye);
      viewProj := build(camera);
    }
  }

  /** `CameraController`: key flags, right-mouse drag tracking and the view angles. */
  class CameraController {
    var isUpPressed: bool
    var isModifierShiftPressed: bool
    var isForwardPressed: bool
    var isBackwardPressed: bool
    var isLeftPressed: bool
    var isRightPressed: bool
    var isRotateLeftPressed: bool
    var isRotateRightPressed: bool
    var isMouseRightPressed: bool
    var isMouseRightTracked: bool
    var mouseInitialPosition: (real, real)
    var mouseDiffPosition: (real, real)
    var roll: real
    var pitch: real
    var yaw: real

    /** The pitch never leaves [-89, 89] degrees. */
    ghost predicate Valid()
      reads this
    {
      -89.0 <= pitch <= 89.0
    }

    /** Whether the key for a control is currently held. */
    function Held(c: Control): bool
      reads this
    {
      match c
      case Ascend => isUpPressed
      case Descend => isModifierShiftPressed
      case RotateLeft => isRotateLeftPressed
      case RotateRight => isRotateRightPressed
      case Forward => isForwardPressed
      case Backward => isBackwardPressed
      case MoveLeft => isLeftPressed
      case MoveRight => isRightPressed
    }

    /** All eight key flags at once. */
    function KeyFlags(): seq<bool>
      reads this
    {
      [isUpPressed, isModifierShiftPressed, isRotateLeftPressed, isRotateRightPressed,
       isForwardPressed, isBackwardPressed, isLeftPressed, isRightPressed]
    }

    constructor ()
      ensures Valid()
      ensures forall c :: !Held(c)
      ensures !isMouseRightPressed && !isMouseRightTracked
      ensures mouseInitialPosition == (0.0, 0.0) && mouseDiffPosition == (0.0, 0.0)
      ensures roll == 0.0 && pitch == 0.0 && yaw == 0.0
    {
      isUpPressed, isModifierShiftPressed := false, false;
      isForwardPressed, isBackwardPressed := false, false;
      isLeftPressed, isRightPressed := false, false;
      isRotateLeftPressed, isRotateRightPressed := false, false;
      isMouseRightPressed, isMouseRightTracked := false, false;
      mouseInitialPosition, mouseDiffPosition := (0.0, 0.0), (0.0, 0.0);
      roll, pitch, yaw := 0.0, 0.0, 0.0;
    }

    /**
     * `process_events`: a mapped key sets its control's flag to whether it is
     * pressed and reports the event as handled; any other key changes nothing.
     */
    method ProcessEvents(pressed: bool, key: Key) returns (handled: bool)
      requires Valid()
      modifies this
      ensures Valid()
      ensures handled == ControlOf(key).Some?
      ensures forall c :: Held(c) == if ControlOf(key) == Some(c) then pressed else old(Held(c))
      ensures isMouseRightPressed == old(isMouseRightPressed) && isMouseRightTracked == old(isMouseRightTracked)
      ensures mouseInitialPosition == old(mouseInitialPosition) && mouseDiffPosition == old(mouseDiffPosition)
      ensures roll == old(roll) && pitch == old(pitch) && yaw == old(yaw)
    {
      match key {
        case Space => isUpPressed := pressed; handled := true;
        case LShift => isModifierShiftPressed := pressed; handled := true;
        case Q => isRotateLeftPressed := pressed; handled := true;
        case E => isRotateRightPressed := pressed; handled := true;
        case W | Up => isForwardPressed := pressed; handled := true;
        case A | Left => isLeftPressed := pressed; handled := true;
        case S | Down => isBackwardPressed := pressed; handled := true;
        case D | Right => isRightPressed := pressed; handled := true;
        case _ => handled := false;
      }
    }

    /**
     * `process_mouse_moved`: the cursor position as a fraction of the window.
     * A press starts tracking from the current position, tracking records the
     * offset from there, and a release stops tracking.
     */
    method ProcessMouseMoved(px: real, py: real, width: nat, height: nat)
      requires Valid() && width > 0 && height > 0
      modifies this
      ensures Valid()
      ensures var cur := (px / width as real, py / height as real);
        && isMouseRightTracked == isMouseRightPressed
        && mouseInitialPosition == (if isMouseRightPressed && !old(isMouseRightTracked) then cur else old(mouseInitialPosition))
        && mouseDiffPosition == (if isMouseRightPressed
                                 then (cur.0 - mouseInitialPosition.0, cur.1 - mouseInitialPosition.1)
                                 else old(mouseDiffPosition))
      ensures KeyFlags() == old(KeyFlags())
      ensures isMouseRightPressed == old(isMouseRightPressed)
      ensures roll == old(roll) && pitch == old(pitch) && yaw == old(yaw)
    {
      var currentX := px / width as real;
      var currentY := py / height as real;
      if isMouseRightPressed && !isMouseRightTracked {
        mouseInitialPosition := (currentX, currentY);
        isMouseRightTracked := true;
      }
      if isMouseRightPressed && isMouseRightTracked {
        mouseDiffPosition := (currentX - mouseInitialPosition.0, currentY - mouseInitialPosition.1);
      }
      if !isMouseRightPressed && isMouseRightTracked {
        isMouseRightTracked := false;
      }
    }

    /** `process_mouse_input`: only the right button matters. */
    method ProcessMouseInput(pressed: bool, button: MouseButton)
      requires Valid()
      modifies this
      ensures Valid()
      ensures isMouseRightPressed == if button == RightButton then pressed else old(isMouseRightPressed)
      ensures KeyFlags() == old(KeyFlags())
      ensures isMouseRightTracked == old(isMouseRightTracked)
      ensures mouseInitialPosition == old(mouseInitialPosition) && mouseDiffPosition == old(mouseDiffPosition)
      ensures roll == old(roll) && pitch == old(pitch) && yaw == old(yaw)
    {
      if button == RightButton {
        isMouseRightPressed := pressed;
      }
    }

    /**
     * One pair of opposite keys of `update_direction`: adds `v` when the
     * first is held and subtracts it when the second is. (For the strafe and
     * vertical pairs the source subtracts before it adds, which over the
     * reals gives the same sum.)
     */
    static method Nudge(acc: V3, v: V3, pos: bool, neg: bool) returns (r: V3)
      ensures r == V3(acc.x + Signed(pos, neg, v.x), acc.y + Signed(pos, neg, v.y), acc.z + Signed(pos, neg, v.z))
    {
      r := acc;
      if pos { r := Add(r, v); }
      if neg { r := Sub(r, v); }
    }

    /**
     * The movement part of `update_direction`: each held key adds or removes
     * the heading, the strafe axis UP x heading, or UP.
     */
    static method EyeDelta(forward: V3, f: bool, b: bool, l: bool, r: bool, up: bool, down: bool)
      returns (eyeDelta: V3)
      ensures eyeDelta == Movement(f, b, l, r, up, down, forward)
    {
      eyeDelta := Nudge(Zero, forward, f, b);
      var right := Cross(UP, forward);
      StrafeIsCross(forward);
      eyeDelta := Nudge(eyeDelta, right, l, r);
      eyeDelta := Nudge(eyeDelta, UP, up, down);
    }

    /**
     * `update_direction`: re-derives the yaw from the camera's target, works
     * out the requested movement, applies a tracked mouse drag to yaw and
     * pitch (pitch clamped to [-89, 89]) and points the camera accordingly.
     */
    method UpdateDirection(camera: Camera, trig: Trig) returns (moved: Camera, eyeDelta: V3)
      requires Valid()
      modifies this
      ensures Valid()
      ensures eyeDelta == Movement(isForwardPressed, isBackwardPressed, isLeftPressed, isRightPressed,
                                   isUpPressed, isModifierShiftPressed, HeadingDir(trig, camera.target))
      ensures yaw == if old(isMouseRightTracked)
                     then FRem(Heading(trig, camera.target) - old(mouseDiffPosition).0 * 180.0, 360.0)
                     else Heading(trig, camera.target)
      ensures pitch == if old(isMouseRightTracked)
                       then Clamp(old(pitch) - old(mouseDiffPosition).1 * 180.0, -89.0, 89.0)
                       else old(pitch)
      ensures mouseDiffPosition == if old(isMouseRightTracked) then (0.0, 0.0) else old(mouseDiffPosition)
      ensures moved == camera.(target := CalcTarget(trig, yaw, pitch))
      ensures KeyFlags() == old(KeyFlags())
      ensures isMouseRightPressed == old(isMouseRightPressed) && isMouseRightTracked == old(isMouseRightTracked)
      ensures mouseInitialPosition == old(mouseInitialPosition) && roll == old(roll)
    {
      var heading := trig.headingDeg(camera.target.x, camera.target.y);
      if camera.target.y < 0.0 {
        heading := 360.0 - heading;
      }
      yaw := heading;
      var (sin, cos) := trig.sinCosDeg(yaw);
      var forward := V3(cos, sin * (1.0 - UP.y), sin * (1.0 - UP.z));
      FlatOfUp(sin, cos);
      assert heading == Heading(trig, camera.target);
      assert forward == HeadingDir(trig, camera.target);
      eyeDelta := EyeDelta(forward, isForwardPressed, isBackwardPressed, isLeftPressed, isRightPressed,
                           isUpPressed, isModifierShiftPressed);
      ApplyDrag();
      moved := camera.(target := CalcTarget(trig, yaw, pitch));
    }

    /**
     * The mouse part of `update_direction`: a tracked drag turns the yaw
     * (modulo 360) and the pitch (clamped to [-89, 89]) and is used up.
     */
    method ApplyDrag()
      requires Valid()
      modifies this
      ensures Valid()
      ensures yaw == if old(isMouseRightTracked) then FRem(old(yaw) - old(mouseDiffPosition).0 * 180.0, 360.0) else old(yaw)
      ensures pitch == if old(isMouseRightTracked)
                       then Clamp(old(pitch) - old(mouseDiffPosition).1 * 180.0, -89.0, 89.0)
                       else old(pitch)
      ensures mouseDiffPosition == if old(isMouseRightTracked) then (0.0, 0.0) else old(mouseDiffPosition)
      ensures KeyFlags() == old(KeyFlags())
      ensures isForwardPressed == old(isForwardPressed) && isBackwardPressed == old(isBackwardPressed)
      ensures isLeftPressed == old(isLeftPressed) && isRightPressed == old(isRightPressed)
      ensures isUpPressed == old(isUpPressed) && isModifierShiftPressed == old(isModifierShiftPressed)
      ensures isMouseRightPressed == old(isMouseRightPressed) && isMouseRightTracked == old(isMouseRightTracked)
      ensures mouseInitialPosition == old(mouseInitialPosition) && roll == old(roll)
    {
      if isMouseRightTracked {
        yaw := yaw - mouseDiffPosition.0 * 180.0;
        yaw := FRem(yaw, 360.0);
        pitch := pitch - mouseDiffPosition.1 * 180.0;
        pitch := Clamp(pitch, -89.0, 89.0);
        mouseDiffPosition := (0.0, 0.0);
      }
    }
  }
}
