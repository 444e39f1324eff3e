/**
 * Value types shared by the local-player input model: vectors, bounding
 * boxes, bindable inputs, button states, movement modes, and the events and
 * simulated key strokes the local player system issues.
 */
module PlayerInputTypes {

  datatype Option<+T> = None | Some(value: T)

  /** A three-component vector (Vector3f); exact reals stand for floats. */
  datatype Vec3 = Vec3(x: real, y: real, z: real)

  /** The axis-aligned box the overlay renderer draws around the target. */
  datatype Aabb = Aabb(min: Vec3, max: Vec3)

  /** A key or button that can be bound to an action (an `Input`). */
  datatype Key = Key(id: nat)

  /** The state a button event reports. */
  datatype ButtonState = Down | Up | Repeat

  /** `ButtonEvent.isDown`: a held (DOWN) or auto-repeating button counts as down. */
  predicate IsDown(state: ButtonState) {
    state != Up
  }

  /** The movement modes of a character that the handlers tell apart. */
  datatype MovementMode = Walking | Crouching | Climbing | Ghosting

  /** The two entities the system sends events to. */
  datatype Target = ClientEntity | CharacterEntity

  /** The events the system sends. */
  datatype OutEvent =
    | CharacterMoveInput(sequenceNumber: int, pitch: real, yaw: real, movement: Vec3,
                         running: bool, jumpRequested: bool, deltaMs: int)
    | SetMovementMode(mode: MovementMode)
    | Notification(message: string, sender: Target)

  /** One event sent to one entity. */
  datatype Sent = Sent(to: Target, event: OutEvent)

  /** The requests the system makes of the input system's keyboard queue. */
  datatype KeyStroke =
    | SimulateSingle(key: Key)
    | SimulateRepeated(key: Key)
    | CancelSimulated(key: Key)
}
