# Local player input state machine

This project models `LocalPlayerSystem`, the client-side system of a voxel game
engine that turns the local player's input events into movement intent. It
keeps a few input fields: the relative movement on three axes, the run and
default-run flags, auto-move, the jump request, the look pitch and yaw with
their pending deltas, the move-input sequence number, and the highlighted
target box. It also drives the character between WALKING and CROUCHING.
Every handler is a short rule that says:

- which fields change;
- whether the event is consumed;
- what goes out: a `CharacterMoveInputEvent` or a `SetMovementModeEvent` to the
  character, a "Cannot stand up here!" notification to the client, or a
  simulated, repeated or cancelled key stroke of the forward key.

The project is in four modules:

- `PlayerInputTypes` (`player_input_types.dfy`) holds the value types: vectors,
  boxes, inputs, button states, movement modes, and the events and key
  strokes that go out.
- `PlayerInputModel` (`player_input_model.dfy`) holds the system's state as a
  value, `PlayerState`. The character's mode, height and eye height are part
  of it, and so are the history of sent events and the history of key strokes.
  Each handler and helper is a function from the old state to the new one. It
  also holds the dispatcher `Handle`, which sends each event to its handler;
  `Run`, which applies a sequence of events; and the invariant `Valid`.
  `Valid` says:
  - the pitch lies in [-89, 89];
  - the yaw lies in (-360, 360);
  - the move inputs are numbered 1, 2, … without gaps, and the next sequence
    number follows them;
  - auto-move is on exactly when some simulated key is held (a repeated
    stroke not yet cancelled); then exactly one key is held, and it is the
    first forward key of the binds the last start of auto-move cached.
- `PlayerInputProperties` (`player_input_properties.dfy`) holds the lemmas:
  what each handler promises, round trips (crouch then stand, auto-move on then
  off, the speed toggles), and the fact that every handler keeps `Valid`. The
  last case covers every state reachable from a new system.
- `Players` (`local_player_system.dfy`) holds the classes `Character` and
  `LocalPlayerSystem`. Their fields are updated in place. Each method is proved
  to produce the state its model function gives, and each handler keeps
  `Valid()`. Sent events and key strokes are logged in ghost sequences.

Collaborators are parameters:

- The upward physics sweep is the flag `sweepHit`.
- The binds of `engine:forwards` are a `seq<Option<Key>>`. A start of
  auto-move receives what the configuration holds at that moment and caches
  it in the field `bindsConfig`, and a stop reads the cached binds, as the
  source does with its `bindsConfig` field (lines 115, 240, 255).
- The view rotation is a function `rotate(yawDegrees, pitchDegrees, v)`.
- The game time delta is `deltaMs`.
- The block or mesh box of an existing target is `bounds`.

Assumptions about code that is not part of this model:

- `ButtonEvent.isDown` is taken to be true for DOWN and REPEAT and false for
  UP. This is how the engine's `ButtonState` defines it. `onJump` alone tests
  `== DOWN` directly, so for it a REPEAT clears the jump request and is not
  consumed.
- A `SetMovementModeEvent` sent to the character is taken to change the
  character's mode at once. The height commands of the movement debug
  commands are taken to set the height and eye height at once. The model both
  logs the event and applies the change.

## Model

| member | source | states |
|---|---|---|
| PlayerInputModel.ClampPitch | engine/src/main/java/org/terasology/logic/players/LocalPlayerSystem.java:161 | the clamped pitch lies in [-89, 89], equals the input when it is already in range, and is the nearer bound otherwise |
| PlayerInputModel.YawRemainder | engine/src/main/java/org/terasology/logic/players/LocalPlayerSystem.java:159 | Java's `% 360`: the result lies in [0, 360) for non-negative input and in (-360, 0] for non-positive input, is the input itself inside (-360, 360), and differs from the input by a whole number of turns |
| PlayerInputModel.FirstKey | engine/src/main/java/org/terasology/logic/players/LocalPlayerSystem.java:226-233 | gives none exactly when every slot is empty; otherwise it gives a bound slot all of whose predecessors are empty |
| Players.LocalPlayerSystem.GetValidKey | engine/src/main/java/org/terasology/logic/players/LocalPlayerSystem.java:226-233 | the for-loop returns exactly `FirstKey` of the inputs, the first non-null input |
| PlayerInputProperties.ProcessInputContract | engine/src/main/java/org/terasology/logic/players/LocalPlayerSystem.java:158-185 | afterwards the jump request is false and both look deltas are 0; the pitch is the old pitch plus its delta, clamped to [-89, 89]; the yaw is the old yaw minus its delta, reduced by Java's `% 360` into (-360, 360); the sequence number is one higher; exactly one event was sent, a move input to the character carrying the old sequence number, the new angles, the movement for the character's mode, and run and jump as they were before; nothing else changes |
| PlayerInputProperties.ProcessInputKeepsStillView | engine/src/main/java/org/terasology/logic/players/LocalPlayerSystem.java:159-162 | with zero look deltas, an in-range pitch and yaw are left exactly as they were |
| PlayerInputProperties.UpdateInvalidPlayerIsNoop | engine/src/main/java/org/terasology/logic/players/LocalPlayerSystem.java:146-156 | `update` changes nothing while the local player is invalid, and always changes the state when it is valid |
| PlayerInputProperties.WalkingIgnoresVerticalIntent | engine/src/main/java/org/terasology/logic/players/LocalPlayerSystem.java:164-172 | in WALKING mode the vertical intent has no effect on what is sent |
| PlayerInputProperties.ClimbingMovementIsUnrotated | engine/src/main/java/org/terasology/logic/players/LocalPlayerSystem.java:173-176 | in CLIMBING mode the move input carries the relative movement as it is, unrotated, vertical part included |
| PlayerInputProperties.OtherModesTurnByYawAndPitch | engine/src/main/java/org/terasology/logic/players/LocalPlayerSystem.java:164-182 | in GHOSTING, and any mode but WALKING and CLIMBING, the forward and strafe intent is turned by both the new yaw and pitch, and the vertical intent is added after the turn |
| PlayerInputProperties.LookDeltaLastWriteWins | engine/src/main/java/org/terasology/logic/players/LocalPlayerSystem.java:287-309 | the yaw handlers assign the event's value to the yaw delta and the pitch handlers to the pitch delta, change nothing else (the other delta included) and consume; so the second of two events wins |
| PlayerInputProperties.UpdateForwardsMovementContract | engine/src/main/java/org/terasology/logic/players/LocalPlayerSystem.java:339-346 | the forward axis is set to the value and the event is consumed; a zero value while auto-moving, with a forward key bound in the cached binds, turns auto-move off and cancels that key's stroke; otherwise auto-move and the strokes are unchanged; nothing else changes |
| PlayerInputProperties.AxisHandlersSetOneAxis | engine/src/main/java/org/terasology/logic/players/LocalPlayerSystem.java:348-376 | each of the other axis handlers sets exactly its own axis, changes nothing else, and consumes |
| PlayerInputProperties.AxisLastWriteWins | engine/src/main/java/org/terasology/logic/players/LocalPlayerSystem.java:348-376 | a second event on the same axis overrides the first |
| PlayerInputProperties.OnJumpContract | engine/src/main/java/org/terasology/logic/players/LocalPlayerSystem.java:311-319 | the event is consumed, and the jump request set, exactly when the state is DOWN; otherwise the request is cleared; nothing else changes |
| PlayerInputProperties.JumpIsSentOnce | engine/src/main/java/org/terasology/logic/players/LocalPlayerSystem.java:183-184 | after a DOWN jump, the next move input carries the jump request and the one after it does not |
| PlayerInputProperties.OnToggleSpeedTemporarilyContract | engine/src/main/java/org/terasology/logic/players/LocalPlayerSystem.java:378-383 | `run` becomes `runPerDefault` XOR down, `runPerDefault` and everything else are unchanged, and the event is always consumed |
| PlayerInputProperties.TemporaryToggleReleaseRestoresDefault | engine/src/main/java/org/terasology/logic/players/LocalPlayerSystem.java:378-383 | a press followed by a release of the temporary toggle leaves `run == runPerDefault` and nothing else changed |
| PlayerInputProperties.OnToggleSpeedPermanentlyContract | engine/src/main/java/org/terasology/logic/players/LocalPlayerSystem.java:424-431 | a press negates both `runPerDefault` and `run`, so whether they agree is preserved (both directions); a release changes nothing; it always consumes |
| PlayerInputProperties.ToggleSpeedPermanentlyTwice | engine/src/main/java/org/terasology/logic/players/LocalPlayerSystem.java:424-431 | two presses restore the state exactly |
| PlayerInputProperties.StartAutoMoveContract | engine/src/main/java/org/terasology/logic/players/LocalPlayerSystem.java:253-263 | the current binds are cached; auto-move is on exactly when some forward slot is bound; then one single and one repeated stroke of the first bound key (`getValidKey`'s result) are simulated, in that order; otherwise nothing is simulated; nothing else changes |
| PlayerInputProperties.StopAutoMoveContract | engine/src/main/java/org/terasology/logic/players/LocalPlayerSystem.java:239-247 | with no forward key bound in the cached binds nothing changes; otherwise auto-move is off and exactly the stroke of the first key of the cached binds is cancelled; nothing else changes |
| PlayerInputProperties.StopAutoMoveReleasesHeldKey | engine/src/main/java/org/terasology/logic/players/LocalPlayerSystem.java:235-247 | in a valid state auto-move is on exactly while a simulated key is held, binds are cached, and a stop cancels exactly the held key, leaving no key held and auto-move off |
| PlayerInputProperties.OnAutoMoveModeContract | engine/src/main/java/org/terasology/logic/players/LocalPlayerSystem.java:412-422 | a release changes nothing; a press starts auto-move when it is off, which turns it on exactly when a forward key is bound now, and stops it when it is on, which turns it off whenever the cached binds hold a forward key; it always consumes |
| PlayerInputProperties.AutoMoveRoundTrip | engine/src/main/java/org/terasology/logic/players/LocalPlayerSystem.java:412-422 | two presses, with key k first bound at the first press and any binds at the second, end with auto-move off and the strokes single k, repeated k, cancel k appended; the binds of the first press stay cached; nothing else changes |
| PlayerInputProperties.CrouchPlayerContract | engine/src/main/java/org/terasology/logic/players/LocalPlayerSystem.java:190-198 | the character is CROUCHING with height and eye height multiplied by the crouch fraction, and exactly one CROUCHING mode event went to it |
| PlayerInputProperties.StandPlayerContract | engine/src/main/java/org/terasology/logic/players/LocalPlayerSystem.java:205-223 | if the sweep hits, exactly one "Cannot stand up here!" notification goes to the client and the character is unchanged; otherwise the character is WALKING at height and eye height divided by the crouch fraction, with exactly one WALKING event sent |
| PlayerInputProperties.OnCrouchModeContract | engine/src/main/java/org/terasology/logic/players/LocalPlayerSystem.java:398-410 | always consumes; a press crouches a WALKING character and tries to stand a CROUCHING one; a release, or any other mode, changes nothing |
| PlayerInputProperties.OnCrouchTemporarilyContract | engine/src/main/java/org/terasology/logic/players/LocalPlayerSystem.java:386-396 | always consumes; a press crouches a WALKING character and a release tries to stand a CROUCHING one; every other combination changes nothing |
| PlayerInputProperties.CrouchModeRoundTrip | engine/src/main/java/org/terasology/logic/players/LocalPlayerSystem.java:398-410 | two presses with room to stand return a walking character to its exact mode, height and eye height, after one CROUCHING and one WALKING event |
| PlayerInputProperties.CrouchTemporarilyRoundTrip | engine/src/main/java/org/terasology/logic/players/LocalPlayerSystem.java:386-396 | a press and a release with room to stand return the character as it was |
| PlayerInputProperties.BlockedStandLeavesCrouching | engine/src/main/java/org/terasology/logic/players/LocalPlayerSystem.java:216-219 | any number of presses under an obstruction leave the character unchanged, one notification per press |
| PlayerInputProperties.UpdateChatOpenContract | engine/src/main/java/org/terasology/logic/players/LocalPlayerSystem.java:322-336 | never consumes; a release changes nothing; a press zeroes the strafe axis, zeroes the forward axis unless auto-moving, resets `run` to `runPerDefault`, tries to stand a crouching character, and changes nothing else |
| PlayerInputProperties.TargetLostClearsAabb | engine/src/main/java/org/terasology/logic/players/LocalPlayerSystem.java:433-456 | a target that does not exist clears the box; an existing target that yields no box leaves it; the event is not consumed |
| PlayerInputProperties.InitialValid | engine/src/main/java/org/terasology/logic/players/LocalPlayerSystem.java:119-138 | the field initialisers satisfy the invariant |
| PlayerInputProperties.HandlePreservesValid | engine/src/main/java/org/terasology/logic/players/LocalPlayerSystem.java:287-456 | every handler, and the per-frame update, keeps the invariant: pitch in [-89, 89], yaw in (-360, 360), gapless numbering of move inputs, and auto-move on exactly while one simulated key is held, that key being the first forward key of the cached binds |
| PlayerInputProperties.RunPreservesValid | engine/src/main/java/org/terasology/logic/players/LocalPlayerSystem.java:287-456 | any sequence of events keeps the invariant |
| PlayerInputProperties.ReachableStatesAreValid | engine/src/main/java/org/terasology/logic/players/LocalPlayerSystem.java:119-456 | every state reachable from a new system satisfies the invariant |
| Players.LocalPlayerSystem.constructor | engine/src/main/java/org/terasology/logic/players/LocalPlayerSystem.java:119-138 | the fields take the source's initial values, and the invariant holds |
| Players.LocalPlayerSystem.Update | engine/src/main/java/org/terasology/logic/players/LocalPlayerSystem.java:146-156 | the new state is `Update` of the old one, and the invariant is kept |
| Players.LocalPlayerSystem.ProcessInput | engine/src/main/java/org/terasology/logic/players/LocalPlayerSystem.java:158-185 | the new state is `ProcessInput` of the old one |
| Players.LocalPlayerSystem.CrouchPlayer | engine/src/main/java/org/terasology/logic/players/LocalPlayerSystem.java:190-198 | the new state is `CrouchPlayer` of the old one |
| Players.LocalPlayerSystem.StandPlayer | engine/src/main/java/org/terasology/logic/players/LocalPlayerSystem.java:205-223 | the new state is `StandPlayer` of the old one |
| Players.LocalPlayerSystem.StopAutoMove | engine/src/main/java/org/terasology/logic/players/LocalPlayerSystem.java:239-247 | the new state is `StopAutoMove` of the old one |
| Players.LocalPlayerSystem.StartAutoMove | engine/src/main/java/org/terasology/logic/players/LocalPlayerSystem.java:253-263 | the new state is `StartAutoMove` of the old one |
| Players.LocalPlayerSystem.OnMouseX | engine/src/main/java/org/terasology/logic/players/LocalPlayerSystem.java:287-291 | sets the yaw delta and consumes; keeps the invariant |
| Players.LocalPlayerSystem.OnMouseY | engine/src/main/java/org/terasology/logic/players/LocalPlayerSystem.java:293-297 | sets the pitch delta and consumes; keeps the invariant |
| Players.LocalPlayerSystem.UpdateRotationYaw | engine/src/main/java/org/terasology/logic/players/LocalPlayerSystem.java:299-303 | sets the yaw delta and consumes; keeps the invariant |
| Players.LocalPlayerSystem.UpdateRotationPitch | engine/src/main/java/org/terasology/logic/players/LocalPlayerSystem.java:305-309 | sets the pitch delta and consumes; keeps the invariant |
| Players.LocalPlayerSystem.OnJump | engine/src/main/java/org/terasology/logic/players/LocalPlayerSystem.java:311-319 | new state and consumption are those of `OnJump`; keeps the invariant |
| Players.LocalPlayerSystem.UpdateChatOpen | engine/src/main/java/org/terasology/logic/players/LocalPlayerSystem.java:322-336 | new state and consumption are those of `UpdateChatOpen`; keeps the invariant |
| Players.LocalPlayerSystem.UpdateForwardsMovement | engine/src/main/java/org/terasology/logic/players/LocalPlayerSystem.java:339-346 | new state and consumption are those of `UpdateForwardsMovement`; keeps the invariant |
| Players.LocalPlayerSystem.UpdateStrafeMovement | engine/src/main/java/org/terasology/logic/players/LocalPlayerSystem.java:348-352 | sets the strafe axis and consumes; keeps the invariant |
| Players.LocalPlayerSystem.UpdateVerticalMovement | engine/src/main/java/org/terasology/logic/players/LocalPlayerSystem.java:354-358 | sets the vertical axis and consumes; keeps the invariant |
| Players.LocalPlayerSystem.UpdateForwardsRealMovement | engine/src/main/java/org/terasology/logic/players/LocalPlayerSystem.java:360-364 | sets the forward axis and consumes, without touching auto-move; keeps the invariant |
| Players.LocalPlayerSystem.UpdateStrafeRealMovement | engine/src/main/java/org/terasology/logic/players/LocalPlayerSystem.java:366-370 | sets the strafe axis and consumes; keeps the invariant |
| Players.LocalPlayerSystem.UpdateVerticalRealMovement | engine/src/main/java/org/terasology/logic/players/LocalPlayerSystem.java:372-376 | sets the vertical axis and consumes; keeps the invariant |
| Players.LocalPlayerSystem.OnToggleSpeedTemporarily | engine/src/main/java/org/terasology/logic/players/LocalPlayerSystem.java:378-383 | new state and consumption are those of `OnToggleSpeedTemporarily`; keeps the invariant |
| Players.LocalPlayerSystem.OnCrouchTemporarily | engine/src/main/java/org/terasology/logic/players/LocalPlayerSystem.java:386-396 | new state and consumption are those of `OnCrouchTemporarily`; keeps the invariant |
| Players.LocalPlayerSystem.OnCrouchMode | engine/src/main/java/org/terasology/logic/players/LocalPlayerSystem.java:398-410 | new state and consumption are those of `OnCrouchMode`; keeps the invariant |
| Players.LocalPlayerSystem.OnAutoMoveMode | engine/src/main/java/org/terasology/logic/players/LocalPlayerSystem.java:412-422 | new state and consumption are those of `OnAutoMoveMode`; keeps the invariant |
| Players.LocalPlayerSystem.OnToggleSpeedPermanently | engine/src/main/java/org/terasology/logic/players/LocalPlayerSystem.java:424-431 | new state and consumption are those of `OnToggleSpeedPermanently`; keeps the invariant |
| Players.LocalPlayerSystem.OnTargetChanged | engine/src/main/java/org/terasology/logic/players/LocalPlayerSystem.java:433-456 | new state and consumption are those of `OnTargetChanged`; keeps the invariant |

## Left out

- Floating point: every `float` is an exact real. Float rounding, NaN and infinities are not modelled.
- The quaternion rotation of the movement vector (lines 167-182, WALKING and default branches) is the oracle `rotate`. Its arguments are the yaw and pitch in degrees. The multiplication by `DEG_TO_RAD` is part of the oracle.
- PlayerInputModel.YawRemainder: it is exact real remainder and does not model float rounding.
- PlayerInputProperties.ProcessInputContract and Players.LocalPlayerSystem.ProcessInput: `inputSequenceNumber` is an unbounded integer. The Java `int` would wrap after 2^31 - 1 frames, and then the gapless numbering in `Valid` would no longer hold.
- Camera work in `update` (`updateCamera`, bobbing, FOV, the camera downcast, lines 477-504 and 551-553) is floating-point rendering state and is left out.
- Render callbacks, the AABB renderer and its getter and setter (lines 458-475, 555-571) are rendering and are left out.
- The block and mesh box computation of `onTargetChanged` (lines 437-452) calls into the world provider and the mesh. Its result is the parameter `bounds`.
- The physics sweep (lines 210-215) is the flag `sweepHit`. The sweep target that is computed from the crouch fraction is part of the sweep and is not modelled.
- The configuration's binds at a start of auto-move are the parameter `forwardBinds`; the cached `BindsConfig` is modelled as a snapshot of its forward binds, so an edit of that same object in place between a start and a stop is not modelled. The movement debug commands are modelled by the heights they set. The delay manager is not used by the modelled handlers.
- `onPlayerSpawn`, `onFrobButton` and `onUseItemButton` (lines 266-285, 507-549) depend on network authority, interaction screens and local-player activation. These are calls into code that is not part of this model.
- The event dispatcher is not modelled: handler priority, component filters, and stopping propagation once an event is consumed. The handlers here only report `consumed`. `Handle` just says which handler an event reaches.
- The lookup of the character through `ClientComponent.character` is a fixed `character` field of the system.
- `setPlayerCamera` only stores the camera for the left-out camera update.
- `KeyUpEvent.create` (input/events/KeyUpEvent.java:32-36) only calls `reset` and `setKey` of `KeyEvent`, and `KeyEvent` is not part of this model.
- The movement modes are the four the source names: WALKING (lines 169, 403), CROUCHING (lines 331, 405), CLIMBING (line 173) and GHOSTING (line 499). Any other mode of the engine behaves like GHOSTING here, since it takes the default branch of `processInput` and none of the crouch branches.
- The component lookups that the source does not check for null are taken to succeed: the character's `CharacterMovementComponent` and `GazeMountPointComponent`, the client's `LocationComponent` and the physics collider, in `update` (line 152, dereferenced by `processInput` at line 168), `updateChatOpen` (lines 329-331), `onCrouchTemporarily` (lines 388-390), `onCrouchMode` (lines 400-403), `crouchPlayer` (lines 191-194) and `standPlayer` (lines 206-212). The handlers only require `ClientComponent` (lines 322, 386, 398), so a missing component would throw part-way through, for `update` after the look deltas were folded into the yaw and pitch and cleared (lines 159-162) but before the move input is sent, the sequence number advanced and `jump` cleared, and for `updateChatOpen` after the movement axes were zeroed and before `run` is reset; the model has no such failure path.
- A stop of auto-move with no binds cached would dereference a null `bindsConfig` in the source; in the model it changes nothing. No reachable state gets there: stop runs only while auto-moving, and `Valid` shows binds are then cached.
