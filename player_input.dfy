/** One frame of a player controller as seen from outside: what the engine
    reports (input devices, the clock, the player's height, the shot's
    raycast) and what the frame asks the engine to do. */
module PlayerInput {

  import opened Wrappers
  import opened Gun
  import opened FireGate

  /** numberKeysDown[i] says that the number key named i + 1 went down this
      frame; scroll is the mouse wheel's axis; ray is what the camera ray
      would hit if the equipped gun fires. */
  datatype TickInput = TickInput(
    mouseY: real,
    spaceDown: bool,
    numberKeysDown: seq<bool>,
    scroll: real,
    fireHeld: bool,
    reloadKeyDown: bool,
    time: real,
    positionY: real,
    ray: RayHit)

  /** jumpRequested stands for the upward force added to the rigidbody; died
      for the call to the player manager's Die. */
  datatype TickEvents = TickEvents(
    jumpRequested: bool,
    action: GateAction,
    shot: Option<ShotEffects>,
    died: bool)

  /** A frame that does nothing, as on a remote player's copy. */
  const Quiet: TickEvents := TickEvents(false, Idle, None, false)
}
