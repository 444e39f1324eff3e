/**
 * The input state of the local player system as a value, and each event
 * handler and helper of that system as a function from the old value to the
 * new one. The class in module Players runs the same rules on fields; its
 * methods are proved equal to these functions.
 */
module PlayerInputModel {
  import opened PlayerInputTypes

  /** The factor crouching scales the character's height and eye height by. */
  const CrouchFraction: real := 0.5

  /** The bound on the absolute look pitch, in degrees. */
  const MaxPitch: real := 89.0

  const CannotStandMessage: string := "Cannot stand up here!"

  /** The components of the character entity the handlers read and change. */
  datatype CharacterState = CharacterState(mode: MovementMode, height: real, eyeHeight: real)

  /**
   * The system's input fields, the character's state, and everything the
   * system has sent so far (`sent`) and asked the input system to simulate
   * (`strokes`). `bindsConfig` is the forward binds of the binds
   * configuration that the last start of auto-move cached; none before the
   * first start.
   */
  datatype PlayerState = PlayerState(
    relativeMovement: Vec3,
    isAutoMove: bool,
    runPerDefault: bool,
    run: bool,
    jump: bool,
    lookPitch: real,
    lookPitchDelta: real,
    lookYaw: real,
    lookYawDelta: real,
    inputSequenceNumber: int,
    aabb: Option<Aabb>,
    bindsConfig: Option<seq<Option<Key>>>,
    character: CharacterState,
    sent: seq<Sent>,
    strokes: seq<KeyStroke>)

  /** The state after a handler ran, and whether it consumed the event. */
  datatype Handled = Handled(next: PlayerState, consumed: bool)

  /** The field initialisers of a new system, beside a given character. */
  function Initial(character: CharacterState): PlayerState {
    PlayerState(Vec3(0.0, 0.0, 0.0), false, true, true, false,
                0.0, 0.0, 0.0, 0.0, 1, None, None, character, [], [])
  }

  // ---------------------------------------------------------------------
  // Numeric helpers
  // ---------------------------------------------------------------------

  /** `TeraMath.clamp(value, -89, 89)`. */
  function ClampPitch(value: real): (r: real)
    ensures -MaxPitch <= r <= MaxPitch
    ensures -MaxPitch <= value <= MaxPitch ==> r == value
    ensures value > MaxPitch ==> r == MaxPitch
    ensures value < -MaxPitch ==> r == -MaxPitch
  {
    if value > MaxPitch then MaxPitch
    else if value < -MaxPitch then -MaxPitch
    else value
  }

  /**
   * Java's float remainder `x % 360` on exact reals: the quotient is
   * truncated toward zero, so the result carries the sign of `x`.
   */
  function YawRemainder(x: real): (r: real)
    ensures 0.0 <= x ==> 0.0 <= r < 360.0
    ensures x <= 0.0 ==> -360.0 < r <= 0.0
    ensures -360.0 < x < 360.0 ==> r == x
    ensures ((x - r) / 360.0).Floor as real == (x - r) / 360.0
  {
    var turns := if x >= 0.0 then (x / 360.0).Floor else -((-x / 360.0).Floor);
    var r := x - 360.0 * (turns as real);
    assert (x - r) / 360.0 == turns as real;
    assert -360.0 < x < 360.0 ==> turns == 0;
    r
  }

  // ---------------------------------------------------------------------
  // Helpers of the handlers
  // ---------------------------------------------------------------------

  /** `getValidKey`: the first bound input, or none when every slot is empty. */
  function FirstKey(inputs: seq<Option<Key>>): (r: Option<Key>)
    ensures r.None? <==> forall i :: 0 <= i < |inputs| ==> inputs[i].None?
    ensures r.Some? ==> exists i :: 0 <= i < |inputs| && inputs[i] == r &&
                                   forall j :: 0 <= j < i ==> inputs[j].None?
  {
    if inputs == [] then None
    else if inputs[0].Some? then inputs[0]
    else
      var r := FirstKey(inputs[1..]);
      assert r.Some? ==> exists i :: 0 <= i < |inputs[1..]| && inputs[1..][i] == r &&
                                    forall j :: 0 <= j < i ==> inputs[1..][j].None?;
      assert r.Some? ==> exists i :: 1 <= i < |inputs| && inputs[i] == r &&
                                    forall j :: 0 <= j < i ==> inputs[j].None? by {
        if r.Some? {
          var i :| 0 <= i < |inputs[1..]| && inputs[1..][i] == r &&
                   forall j :: 0 <= j < i ==> inputs[1..][j].None?;
          assert forall j :: 0 <= j < i + 1 ==> inputs[j].None? by {
            forall j | 0 <= j < i + 1 ensures inputs[j].None? {
              if j > 0 { assert inputs[j] == inputs[1..][j - 1]; }
            }
          }
        }
      }
      assert r.None? ==> forall i :: 0 <= i < |inputs| ==> inputs[i].None? by {
        if r.None? {
          forall i | 0 <= i < |inputs| ensures inputs[i].None? {
            if i > 0 { assert inputs[i] == inputs[1..][i - 1]; }
          }
        }
      }
      r
  }

  /** `crouchPlayer`: scale height and eye height down, switch to CROUCHING. */
  function CrouchPlayer(s: PlayerState): PlayerState {
    var c := s.character;
    s.(character := CharacterState(Crouching, c.height * CrouchFraction, c.eyeHeight * CrouchFraction),
       sent := s.sent + [Sent(CharacterEntity, SetMovementMode(Crouching))])
  }

  /**
   * `standPlayer`: when the upward sweep hits, only notify the client;
   * otherwise scale height and eye height back up and switch to WALKING.
   */
  function StandPlayer(s: PlayerState, sweepHit: bool): PlayerState {
    if sweepHit then
      s.(sent := s.sent + [Sent(ClientEntity, Notification(CannotStandMessage, ClientEntity))])
    else
      var c := s.character;
      s.(character := CharacterState(Walking, c.height / CrouchFraction, c.eyeHeight / CrouchFraction),
         sent := s.sent + [Sent(CharacterEntity, SetMovementMode(Walking))])
  }

  /**
   * `startAutoMove`: cache the forward binds the configuration holds now
   * (`forwardBinds`), then simulate pressing and holding their first key.
   */
  function StartAutoMove(s: PlayerState, forwardBinds: seq<Option<Key>>): PlayerState {
    var s1 := s.(isAutoMove := false, bindsConfig := Some(forwardBinds));
    match FirstKey(forwardBinds)
    case None => s1
    case Some(k) =>
      s1.(isAutoMove := true, strokes := s1.strokes + [SimulateSingle(k), SimulateRepeated(k)])
  }

  /** The first forward key of the cached binds, if any. */
  function CachedForwardKey(s: PlayerState): Option<Key> {
    match s.bindsConfig
    case None => None
    case Some(binds) => FirstKey(binds)
  }

  /**
   * `stopAutoMove`: cancel the first forward key of the cached binds; with
   * no key bound there nothing changes. Stop runs only while auto-moving,
   * which `Valid` shows implies binds were cached; the source would
   * dereference the missing configuration in the `None` case.
   */
  function StopAutoMove(s: PlayerState): PlayerState {
    match CachedForwardKey(s)
    case None => s
    case Some(k) => s.(isAutoMove := false, strokes := s.strokes + [CancelSimulated(k)])
  }

  /**
   * The movement vector a move-input event carries: the forward and strafe
   * intent, turned by the view rotation (`rotate`, given the yaw and pitch in
   * degrees) outside CLIMBING, plus the vertical intent outside WALKING.
   */
  function Movement(mode: MovementMode, relative: Vec3, yaw: real, pitch: real,
                    rotate: (real, real, Vec3) -> Vec3): Vec3
  {
    var flat := Vec3(relative.x, 0.0, relative.z);
    match mode
    case Walking => rotate(yaw, 0.0, flat)
    case Climbing => Vec3(flat.x, flat.y + relative.y, flat.z)
    case _ =>
      var turned := rotate(yaw, pitch, flat);
      Vec3(turned.x, turned.y + relative.y, turned.z)
  }

  /**
   * `processInput`: fold the look deltas into the view angles, send one
   * move-input event numbered with the current sequence number, then clear
   * the jump request.
   */
  function ProcessInput(s: PlayerState, deltaMs: int, rotate: (real, real, Vec3) -> Vec3): PlayerState {
    var yaw := YawRemainder(s.lookYaw - s.lookYawDelta);
    var pitch := ClampPitch(s.lookPitch + s.lookPitchDelta);
    var move := Movement(s.character.mode, s.relativeMovement, yaw, pitch, rotate);
    var event := CharacterMoveInput(s.inputSequenceNumber, pitch, yaw, move, s.run, s.jump, deltaMs);
    s.(lookYaw := yaw, lookYawDelta := 0.0, lookPitch := pitch, lookPitchDelta := 0.0,
       inputSequenceNumber := s.inputSequenceNumber + 1,
       sent := s.sent + [Sent(CharacterEntity, event)],
       jump := false)
  }

  /** `update`: nothing happens while the local player is not valid. */
  function Update(s: PlayerState, playerValid: bool, deltaMs: int,
                  rotate: (real, real, Vec3) -> Vec3): PlayerState
  {
    if playerValid then ProcessInput(s, deltaMs, rotate) else s
  }

  // ---------------------------------------------------------------------
  // Event handlers
  // ---------------------------------------------------------------------

  /** `onMouseX` and `updateRotationYaw`. */
  function SetLookYawDelta(s: PlayerState, value: real): Handled {
    Handled(s.(lookYawDelta := value), true)
  }

  /** `onMouseY` and `updateRotationPitch`. */
  function SetLookPitchDelta(s: PlayerState, value: real): Handled {
    Handled(s.(lookPitchDelta := value), true)
  }

  /** `onJump`: only a DOWN state requests a jump, and only it is consumed. */
  function OnJump(s: PlayerState, state: ButtonState): Handled {
    if state == Down then Handled(s.(jump := true), true)
    else Handled(s.(jump := false), false)
  }

  /** `updateChatOpen`: opening chat stops walking (unless auto-moving) and crouching. */
  function UpdateChatOpen(s: PlayerState, state: ButtonState, sweepHit: bool): Handled {
    if IsDown(state) then
      var m := s.relativeMovement;
      var s1 := s.(relativeMovement := Vec3(0.0, m.y, if s.isAutoMove then m.z else 0.0));
      var s2 := if s1.character.mode == Crouching then StandPlayer(s1, sweepHit) else s1;
      Handled(s2.(run := s2.runPerDefault), false)
    else
      Handled(s, false)
  }

  /** `updateForwardsMovement(ForwardsMovementAxis)`: releasing forward ends auto-move. */
  function UpdateForwardsMovement(s: PlayerState, value: real): Handled {
    var m := s.relativeMovement;
    var s1 := s.(relativeMovement := Vec3(m.x, m.y, value));
    Handled(if value == 0.0 && s1.isAutoMove then StopAutoMove(s1) else s1, true)
  }

  /** `updateForwardsMovement(ForwardsRealMovementAxis)`. */
  function UpdateForwardsRealMovement(s: PlayerState, value: real): Handled {
    var m := s.relativeMovement;
    Handled(s.(relativeMovement := Vec3(m.x, m.y, value)), true)
  }

  /** Both `updateStrafeMovement` handlers. */
  function UpdateStrafeMovement(s: PlayerState, value: real): Handled {
    var m := s.relativeMovement;
    Handled(s.(relativeMovement := Vec3(value, m.y, m.z)), true)
  }

  /** Both `updateVerticalMovement` handlers. */
  function UpdateVerticalMovement(s: PlayerState, value: real): Handled {
    var m := s.relativeMovement;
    Handled(s.(relativeMovement := Vec3(m.x, value, m.z)), true)
  }

  /** `onToggleSpeedTemporarily`: holding the button inverts the default speed. */
  function OnToggleSpeedTemporarily(s: PlayerState, state: ButtonState): Handled {
    Handled(s.(run := s.runPerDefault != IsDown(state)), true)
  }

  /** `onCrouchTemporarily`: crouch while held, stand on release. */
  function OnCrouchTemporarily(s: PlayerState, state: ButtonState, sweepHit: bool): Handled {
    var mode := s.character.mode;
    if IsDown(state) && mode == Walking then Handled(CrouchPlayer(s), true)
    else if !IsDown(state) && mode == Crouching then Handled(StandPlayer(s, sweepHit), true)
    else Handled(s, true)
  }

  /** `onCrouchMode`: each press toggles between walking and crouching. */
  function OnCrouchMode(s: PlayerState, state: ButtonState, sweepHit: bool): Handled {
    var mode := s.character.mode;
    if IsDown(state) && mode == Walking then Handled(CrouchPlayer(s), true)
    else if IsDown(state) && mode == Crouching then Handled(StandPlayer(s, sweepHit), true)
    else Handled(s, true)
  }

  /**
   * `onAutoMoveMode`: each press toggles auto-move; `forwardBinds` is what
   * the configuration holds at this press, which only a start reads.
   */
  function OnAutoMoveMode(s: PlayerState, state: ButtonState, forwardBinds: seq<Option<Key>>): Handled {
    if !IsDown(state) then Handled(s, true)
    else if !s.isAutoMove then Handled(StartAutoMove(s, forwardBinds), true)
    else Handled(StopAutoMove(s), true)
  }

  /** `onToggleSpeedPermanently`: each press inverts the default speed and the current one. */
  function OnToggleSpeedPermanently(s: PlayerState, state: ButtonState): Handled {
    if IsDown(state) then Handled(s.(runPerDefault := !s.runPerDefault, run := !s.run), true)
    else Handled(s, true)
  }

  /**
   * `onTargetChanged`: a target that does not exist clears the box; for one
   * that exists, `bounds` is what the block or mesh lookup yields (none when
   * the target has no location, or neither a block nor a mesh).
   */
  function OnTargetChanged(s: PlayerState, targetExists: bool, bounds: Option<Aabb>): Handled {
    if !targetExists then Handled(s.(aabb := None), false)
    else if bounds.Some? then Handled(s.(aabb := bounds), false)
    else Handled(s, false)
  }

  // ---------------------------------------------------------------------
  // Dispatch
  // ---------------------------------------------------------------------

  /**
   * What reaches the system: the input events it subscribes to, each with
   * the answers of the collaborators its handler consults, and the
   * per-frame `update` call.
   */
  datatype PlayerEvent =
    | MouseXAxis(value: real)
    | MouseYAxis(value: real)
    | RotationYawAxis(value: real)
    | RotationPitchAxis(value: real)
    | JumpButton(state: ButtonState)
    | ChatButton(state: ButtonState, sweepHit: bool)
    | ForwardsMovementAxis(value: real)
    | StrafeMovementAxis(value: real)
    | VerticalMovementAxis(value: real)
    | ForwardsRealMovementAxis(value: real)
    | StrafeRealMovementAxis(value: real)
    | VerticalRealMovementAxis(value: real)
    | ToggleSpeedTemporarilyButton(state: ButtonState)
    | CrouchButton(state: ButtonState, sweepHit: bool)
    | CrouchModeButton(state: ButtonState, sweepHit: bool)
    | AutoMoveButton(state: ButtonState, forwardBinds: seq<Option<Key>>)
    | ToggleSpeedPermanentlyButton(state: ButtonState)
    | PlayerTargetChanged(targetExists: bool, bounds: Option<Aabb>)
    | Tick(playerValid: bool, deltaMs: int, rotate: (real, real, Vec3) -> Vec3)

  /** The handler each event reaches. */
  function Handle(s: PlayerState, e: PlayerEvent): Handled {
    match e
    case MouseXAxis(v) => SetLookYawDelta(s, v)
    case MouseYAxis(v) => SetLookPitchDelta(s, v)
    case RotationYawAxis(v) => SetLookYawDelta(s, v)
    case RotationPitchAxis(v) => SetLookPitchDelta(s, v)
    case JumpButton(st) => OnJump(s, st)
    case ChatButton(st, hit) => UpdateChatOpen(s, st, hit)
    case ForwardsMovementAxis(v) => UpdateForwardsMovement(s, v)
    case StrafeMovementAxis(v) => UpdateStrafeMovement(s, v)
    case VerticalMovementAxis(v) => UpdateVerticalMovement(s, v)
    case ForwardsRealMovementAxis(v) => UpdateForwardsRealMovement(s, v)
    case StrafeRealMovementAxis(v) => UpdateStrafeMovement(s, v)
    case VerticalRealMovementAxis(v) => UpdateVerticalMovement(s, v)
    case ToggleSpeedTemporarilyButton(st) => OnToggleSpeedTemporarily(s, st)
    case CrouchButton(st, hit) => OnCrouchTemporarily(s, st, hit)
    case CrouchModeButton(st, hit) => OnCrouchMode(s, st, hit)
    case AutoMoveButton(st, binds) => OnAutoMoveMode(s, st, binds)
    case ToggleSpeedPermanentlyButton(st) => OnToggleSpeedPermanently(s, st)
    case PlayerTargetChanged(present, bounds) => OnTargetChanged(s, present, bounds)
    case Tick(valid, deltaMs, rotate) => Handled(Update(s, valid, deltaMs, rotate), false)
  }

  /** The state after a sequence of events. */
  function Run(s: PlayerState, events: seq<PlayerEvent>): PlayerState
    decreases |events|
  {
    if events == [] then s else Run(Handle(s, events[0]).next, events[1..])
  }

  // ---------------------------------------------------------------------
  // Invariant
  // ---------------------------------------------------------------------

  /** The move-input events among the sent events, in order. */
  function MoveInputs(sent: seq<Sent>): seq<OutEvent> {
    if sent == [] then []
    else (if sent[0].event.CharacterMoveInput? then [sent[0].event] else []) + MoveInputs(sent[1..])
  }

  /** The move-input events sent so far are numbered 1, 2, ... and the next number follows them. */
  predicate SequenceNumbered(s: PlayerState) {
    var moves := MoveInputs(s.sent);
    && s.inputSequenceNumber == |moves| + 1
    && forall i :: 0 <= i < |moves| ==> moves[i].CharacterMoveInput? && moves[i].sequenceNumber == i + 1
  }

  /**
   * The keys the requested strokes leave held: a repeated stroke holds its
   * key until a cancel of that key; a single stroke holds nothing.
   */
  function HeldKeys(strokes: seq<KeyStroke>): set<Key>
    decreases |strokes|
  {
    if strokes == [] then {}
    else
      var held := HeldKeys(strokes[..|strokes| - 1]);
      match strokes[|strokes| - 1]
      case SimulateSingle(_) => held
      case SimulateRepeated(k) => held + {k}
      case CancelSimulated(k) => held - {k}
  }

  /**
   * While auto-moving, exactly one key is held and it is the first forward
   * key of the cached binds, so a stop cancels it; otherwise no key is held.
   */
  predicate AutoMoveTracked(s: PlayerState) {
    if s.isAutoMove then
      CachedForwardKey(s).Some? && HeldKeys(s.strokes) == {CachedForwardKey(s).value}
    else
      HeldKeys(s.strokes) == {}
  }

  /** What holds of every state the system reaches. */
  predicate Valid(s: PlayerState) {
    && -MaxPitch <= s.lookPitch <= MaxPitch
    && -360.0 < s.lookYaw < 360.0
    && SequenceNumbered(s)
    && AutoMoveTracked(s)
  }
}
