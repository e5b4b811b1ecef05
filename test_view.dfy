/**
 * `Test3DState` (`src/state/real_view/test_view.rs`): the game state that
 * shows a `MagicLevel`. Each update picks the movement speed from the held
 * numpad keys, works out the frame time, turns the camera by the mouse and
 * lets the level move the player; window events feed the camera controller.
 *
 * Time is a number of seconds supplied by the caller, the held keys are a
 * set, and what the physics step does is the level's own input.
 */
module TestView {
  import opened Vec
  import opened Keys
  import opened Wrappers
  import opened Cameras
  import opened Crossing
  import opened Magic
  import Window

  /** The speed a numpad key selects, if any. */
  function SpeedOf(k: Key): Option<real> {
    match k
    case Numpad0 => Some(100.0)
    case Numpad9 => Some(90.0)
    case Numpad8 => Some(80.0)
    case Numpad7 => Some(70.0)
    case Numpad6 => Some(60.0)
    case Numpad5 => Some(50.0)
    case Numpad4 => Some(40.0)
    case Numpad3 => Some(30.0)
    case Numpad2 => Some(20.0)
    case Numpad1 => Some(1.0)
    case _ => None
  }

  /**
   * The speed after an update with the keys `held`: the keys are checked
   * from Numpad0 to Numpad1 and each match overwrites the last, so the
   * held key checked last decides, Numpad1 above all.
   */
  function ChosenSpeed(held: set<Key>, speed: real): (r: real)
    ensures Numpad1 in held ==> r == 1.0
    ensures (forall k :: k in held ==> SpeedOf(k).None?) ==> r == speed
    ensures (exists k :: k in held && SpeedOf(k).Some?) ==> exists k :: k in held && SpeedOf(k) == Some(r)
  {
    if Numpad1 in held then 1.0
    else if Numpad2 in held then 20.0
    else if Numpad3 in held then 30.0
    else if Numpad4 in held then 40.0
    else if Numpad5 in held then 50.0
    else if Numpad6 in held then 60.0
    else if Numpad7 in held then 70.0
    else if Numpad8 in held then 80.0
    else if Numpad9 in held then 90.0
    else if Numpad0 in held then 100.0
    else speed
  }

  /** The frame time of the first update, when there is no earlier one. */
  const FirstDt: real := 0.001

  /** The longest frame time an update passes on. */
  const MaxDt: real := 0.05

  /**
   * The frame time: the seconds since the last update (none when the clock
   * reads earlier, as `Instant::duration_since` saturates), `FirstDt` on
   * the first update, and at most `MaxDt`.
   */
  function Dt(last: Option<real>, now: real): (dt: real)
    ensures 0.0 <= dt <= MaxDt
    ensures last.None? ==> dt == FirstDt
    ensures last.Some? && last.value <= now && now - last.value <= MaxDt ==> dt == now - last.value
    ensures last.Some? && now - last.value >= MaxDt ==> dt == MaxDt
  {
    var elapsed := match last
      case None => FirstDt
      case Some(t) => if now >= t then now - t else 0.0;
    if elapsed < MaxDt then elapsed else MaxDt
  }

  /** `Test3DState`; the portal renderer and the window position and size are GPU and windowing state, not kept here. */
  class TestState {
    var lastUpdate: Option<real>
    var camera: Camera
    const controller: CameraController
    var level: MagicLevel?
    var speed: real

    /** The controller keeps its pitch range and a loaded level is well formed. */
    ghost predicate Valid()
      reads this, controller, level
    {
      controller.Valid() && (level != null ==> level.Valid())
    }

    /** `Test3DState::default`: no update yet, the camera at (-3, 0, 1), a fresh controller, no level, speed 1. */
    constructor ()
      ensures Valid() && fresh(controller)
      ensures lastUpdate == None && camera == NewCamera(V3(-3.0, 0.0, 1.0)) && level == null && speed == 1.0
      ensures !controller.isMouseRightPressed && !controller.isMouseRightTracked
      ensures controller.roll == 0.0 && controller.pitch == 0.0 && controller.yaw == 0.0
    {
      lastUpdate := None;
      camera := NewCamera(V3(-3.0, 0.0, 1.0));
      controller := new CameraController();
      level := null;
      speed := 1.0;
    }

    /** The speed checks of `update`, one after the other. */
    method SelectSpeed(held: set<Key>)
      modifies this
      ensures speed == ChosenSpeed(held, old(speed))
      ensures lastUpdate == old(lastUpdate) && camera == old(camera) && level == old(level)
    {
      var s := speed;
      if Numpad0 in held { s := 100.0; }
      if Numpad9 in held { s := 90.0; }
      if Numpad8 in held { s := 80.0; }
      if Numpad7 in held { s := 70.0; }
      if Numpad6 in held { s := 60.0; }
      if Numpad5 in held { s := 50.0; }
      if Numpad4 in held { s := 40.0; }
      if Numpad3 in held { s := 30.0; }
      if Numpad2 in held { s := 20.0; }
      if Numpad1 in held { s := 1.0; }
      speed := s;
    }

    /**
     * `update` at time `now` with the keys `held`: the speed, the frame
     * time, the camera turned by the controller (its yaw taken from the
     * camera's target and turned by a tracked drag) and, with a level
     * loaded, carried through the portals the player crossed in the level's
     * tick and put on the player (`events` and `stepped` are what the
     * physics step reports); then the time is recorded. With Numpad6 held
     * it then opens the overlay window and starts its `OverlayView`, whose
     * `start` is `todo!()`: `ok` is false exactly then, after every other
     * effect has happened. Otherwise it asks for no transition and for
     * `LoopState::POLL`, which is `poll` here.
     */
    method Update(now: real, held: set<Key>, trig: Trig, events: seq<CollisionEvent>, stepped: V3, poll: Window.LoopState)
      returns (ok: bool, tran: Window.Trans, ls: Window.LoopState, dt: real)
      requires Valid()
      modifies this, controller, level
      ensures Valid()
      ensures ok <==> Numpad6 !in held
      ensures ok ==> tran == Window.Stay && ls == poll
      ensures speed == ChosenSpeed(held, old(speed))
      ensures dt == Dt(old(lastUpdate), now) && lastUpdate == Some(now)
      ensures level == old(level)
      ensures controller.yaw == if old(controller.isMouseRightTracked)
        then FRem(Heading(trig, old(camera).target) - old(controller.mouseDiffPosition).0 * 180.0, 360.0)
        else Heading(trig, old(camera).target)
      ensures controller.pitch == if old(controller.isMouseRightTracked)
        then Clamp(old(controller.pitch) - old(controller.mouseDiffPosition).1 * 180.0, -89.0, 89.0)
        else old(controller.pitch)
      ensures controller.KeyFlags() == old(controller.KeyFlags())
      ensures level == null ==> camera == old(camera).(target := CalcTarget(trig, controller.yaw, controller.pitch))
      ensures level != null ==>
        var turned := old(camera).(target := CalcTarget(trig, controller.yaw, controller.pitch));
        var st := Drain(old(level.levels), old(level.portalsMap), old(level.me), CrossedCamera,
                        Tick(turned, old(level.meWorld), old(level.p).(body := stepped), {}), events);
        && level.levels == old(level.levels) && level.portalsMap == old(level.portalsMap)
        && level.p == st.p && level.meWorld == st.meWorld && camera == st.camera.(eye := st.p.body)
    {
      SelectSpeed(held);
      dt := Dt(lastUpdate, now);
      var moved, eyeDelta := controller.UpdateDirection(camera, trig);
      camera := moved;
      if level != null {
        camera := level.Update(events, stepped, camera);
      }
      lastUpdate := Some(now);
      ok := true;
      if Numpad6 in held {
        ok := false;
      }
      tran, ls := Window.Stay, poll;
    }

    /** `on_event` for `Resized`: the aspect ratio follows the window only when both sides exceed 1 and a GPU is present. */
    method OnResized(width: nat, height: nat, gpu: bool)
      modifies this
      ensures width > 1 && height > 1 && gpu ==> camera == old(camera).(aspect := width as real / height as real)
      ensures !(width > 1 && height > 1 && gpu) ==> camera == old(camera)
      ensures lastUpdate == old(lastUpdate) && level == old(level) && speed == old(speed)
    {
      if width > 1 && height > 1 && gpu {
        camera := camera.(aspect := width as real / height as real);
      }
    }

    /** `on_event` for `Focused(false)`: the right mouse button counts as released and untracked. */
    method OnFocusLost()
      requires Valid()
      modifies controller
      ensures Valid()
      ensures !controller.isMouseRightPressed && !controller.isMouseRightTracked
      ensures controller.KeyFlags() == old(controller.KeyFlags()) && controller.pitch == old(controller.pitch)
    {
      controller.isMouseRightPressed := false;
      controller.isMouseRightTracked := false;
    }

    /** `on_event` for a keyboard event: a key with a virtual key code goes to the controller. */
    method OnKey(pressed: bool, key: Option<Key>)
      requires Valid()
      modifies controller
      ensures Valid()
      ensures key.None? ==> controller.KeyFlags() == old(controller.KeyFlags())
      ensures key.Some? ==> forall c :: (controller.Held(c) ==
        if ControlOf(key.value) == Some(c) then pressed else old(controller.Held(c)))
    {
      if key.Some? {
        var _ := controller.ProcessEvents(pressed, key.value);
      }
    }
  }
}
