/** The keyboard keys the engine reacts to (a subset of winit's `VirtualKeyCode`). */
module Keys {

  datatype Key =
    | Space | LShift | Q | E
    | W | Up | A | Left | S | Down | D | Right
    | Numpad0 | Numpad1 | Numpad2 | Numpad3 | Numpad4
    | Numpad5 | Numpad6 | Numpad7 | Numpad8 | Numpad9
    | Other(code: nat)

  /** The mouse buttons; only the right one steers the camera. */
  datatype MouseButton = LeftButton | RightButton | MiddleButton | OtherButton(code: nat)
}
