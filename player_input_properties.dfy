/**
 * Properties of the local-player input model: what each handler promises,
 * the invariant every reachable state keeps, and what sequences of events do.
 */
module PlayerInputProperties {
  import opened PlayerInputTypes
  import opened PlayerInputModel

  // ---------------------------------------------------------------------
  // Sent events
  // ---------------------------------------------------------------------

  lemma {:induction false} MoveInputsAppend(a: seq<Sent>, b: seq<Sent>)
    ensures MoveInputs(a + b) == MoveInputs(a) + MoveInputs(b)
  {
    if a == [] {
      assert a + b == b;
    } else {
      assert (a + b)[0] == a[0];
      assert (a + b)[1..] == a[1..] + b;
      MoveInputsAppend(a[1..], b);
    }
  }

  /** Sending anything but a move-input event leaves the move-input history as it was. */
  lemma MoveInputsAppendOther(a: seq<Sent>, x: Sent)
    requires !x.event.CharacterMoveInput?
    ensures MoveInputs(a + [x]) == MoveInputs(a)
  {
    MoveInputsAppend(a, [x]);
    assert [x][1..] == [];
  }

  /** Sending a move-input event extends the move-input history by that event. */
  lemma MoveInputsAppendMove(a: seq<Sent>, x: Sent)
    requires x.event.CharacterMoveInput?
    ensures MoveInputs(a + [x]) == MoveInputs(a) + [x.event]
  {
    MoveInputsAppend(a, [x]);
    assert [x][1..] == [];
  }

  // ---------------------------------------------------------------------
  // processInput and update
  // ---------------------------------------------------------------------

  /**
   * After `processInput` the jump request and both look deltas are cleared,
   * the pitch is the old pitch plus its delta clamped to [-89, 89], the yaw
   * is the old yaw minus its delta reduced modulo 360, so within (-360, 360), the sequence
   * number has gone up by one, and exactly one event was sent: a move input
   * to the character that carries the old sequence number, the new view
   * angles and the speed and jump request as they were before the reset.
   * Nothing else changes.
   */
  lemma ProcessInputContract(s: PlayerState, deltaMs: int, rotate: (real, real, Vec3) -> Vec3)
    ensures var t := ProcessInput(s, deltaMs, rotate);
      && !t.jump
      && t.lookYawDelta == 0.0 && t.lookPitchDelta == 0.0
      && t.lookPitch == ClampPitch(s.lookPitch + s.lookPitchDelta)
      && t.lookYaw == YawRemainder(s.lookYaw - s.lookYawDelta)
      && -MaxPitch <= t.lookPitch <= MaxPitch
      && -360.0 < t.lookYaw < 360.0
      && t.inputSequenceNumber == s.inputSequenceNumber + 1
      && t.sent == s.sent + [Sent(CharacterEntity, CharacterMoveInput(
           s.inputSequenceNumber, t.lookPitch, t.lookYaw,
           Movement(s.character.mode, s.relativeMovement, t.lookYaw, t.lookPitch, rotate),
           s.run, s.jump, deltaMs))]
      && MoveInputs(t.sent) == MoveInputs(s.sent) + [t.sent[|s.sent|].event]
      && t.(jump := s.jump, lookYawDelta := s.lookYawDelta, lookPitchDelta := s.lookPitchDelta,
            lookPitch := s.lookPitch, lookYaw := s.lookYaw,
            inputSequenceNumber := s.inputSequenceNumber, sent := s.sent) == s
  {
    var t := ProcessInput(s, deltaMs, rotate);
    MoveInputsAppendMove(s.sent, t.sent[|s.sent|]);
    assert t.sent == s.sent + [t.sent[|s.sent|]];
  }

  /** The view angles do not drift: a look delta of zero leaves an in-range pitch and yaw as they are. */
  lemma ProcessInputKeepsStillView(s: PlayerState, deltaMs: int, rotate: (real, real, Vec3) -> Vec3)
    requires s.lookYawDelta == 0.0 && s.lookPitchDelta == 0.0
    requires -MaxPitch <= s.lookPitch <= MaxPitch && -360.0 < s.lookYaw < 360.0
    ensures ProcessInput(s, deltaMs, rotate).lookPitch == s.lookPitch
    ensures ProcessInput(s, deltaMs, rotate).lookYaw == s.lookYaw
  {
  }

  /** `update` does nothing while the local player is not valid. */
  lemma UpdateInvalidPlayerIsNoop(s: PlayerState, deltaMs: int, rotate: (real, real, Vec3) -> Vec3)
    ensures Update(s, false, deltaMs, rotate) == s
    ensures Update(s, true, deltaMs, rotate) != s
  {
    ProcessInputContract(s, deltaMs, rotate);
    assert |Update(s, true, deltaMs, rotate).sent| == |s.sent| + 1;
  }

  /** When walking, the vertical intent does not reach the move input at all. */
  lemma WalkingIgnoresVerticalIntent(s: PlayerState, y: real, deltaMs: int, rotate: (real, real, Vec3) -> Vec3)
    requires s.character.mode == Walking
    ensures var m := s.relativeMovement;
      ProcessInput(s, deltaMs, rotate).sent == ProcessInput(s.(relativeMovement := Vec3(m.x, y, m.z)), deltaMs, rotate).sent
  {
  }

  /** When climbing, the move input carries the relative movement unrotated. */
  lemma ClimbingMovementIsUnrotated(s: PlayerState, deltaMs: int, rotate: (real, real, Vec3) -> Vec3)
    requires s.character.mode == Climbing
    ensures ProcessInput(s, deltaMs, rotate).sent[|s.sent|].event.movement == s.relativeMovement
  {
  }

  /**
   * In GHOSTING, and any other mode but WALKING and CLIMBING, the forward and
   * strafe intent is turned by both yaw and pitch, and the vertical intent is
   * added unturned after the turn.
   */
  lemma OtherModesTurnByYawAndPitch(s: PlayerState, deltaMs: int, rotate: (real, real, Vec3) -> Vec3)
    requires s.character.mode != Walking && s.character.mode != Climbing
    ensures var t := ProcessInput(s, deltaMs, rotate);
            var m := s.relativeMovement;
            var turned := rotate(t.lookYaw, t.lookPitch, Vec3(m.x, 0.0, m.z));
      t.sent[|s.sent|].event.movement == Vec3(turned.x, turned.y + m.y, turned.z)
  {
    ProcessInputContract(s, deltaMs, rotate);
  }

  // ---------------------------------------------------------------------
  // Look deltas and movement axes
  // ---------------------------------------------------------------------

  /**
   * The mouse and rotation handlers assign their delta, leave everything else
   * alone and consume; they do not add to the delta, so the last event wins.
   */
  lemma LookDeltaLastWriteWins(s: PlayerState, a: real, b: real)
    ensures SetLookYawDelta(s, a) == Handled(s.(lookYawDelta := a), true)
    ensures SetLookPitchDelta(s, a) == Handled(s.(lookPitchDelta := a), true)
    ensures SetLookYawDelta(SetLookYawDelta(s, a).next, b) == SetLookYawDelta(s, b)
    ensures SetLookPitchDelta(SetLookPitchDelta(s, a).next, b) == SetLookPitchDelta(s, b)
    ensures SetLookYawDelta(s, a).consumed && SetLookPitchDelta(s, a).consumed
    ensures SetLookYawDelta(s, a).next.lookPitchDelta == s.lookPitchDelta
    ensures SetLookPitchDelta(s, a).next.lookYawDelta == s.lookYawDelta
  {
  }

  /**
   * `updateForwardsMovement(ForwardsMovementAxis)` sets the forward intent and
   * always consumes; a zero value while auto-moving stops auto-move, which
   * cancels the stroke of the first forward key of the cached binds.
   */
  lemma UpdateForwardsMovementContract(s: PlayerState, value: real)
    ensures var h := UpdateForwardsMovement(s, value);
      && h.consumed
      && h.next.relativeMovement == Vec3(s.relativeMovement.x, s.relativeMovement.y, value)
      && (value == 0.0 && s.isAutoMove && CachedForwardKey(s).Some? ==>
            !h.next.isAutoMove && h.next.strokes == s.strokes + [CancelSimulated(CachedForwardKey(s).value)])
      && (value != 0.0 || !s.isAutoMove || CachedForwardKey(s).None? ==>
            h.next.isAutoMove == s.isAutoMove && h.next.strokes == s.strokes)
      && h.next.(relativeMovement := s.relativeMovement, isAutoMove := s.isAutoMove, strokes := s.strokes) == s
  {
  }

  /** Every other axis handler sets exactly its own axis and consumes. */
  lemma AxisHandlersSetOneAxis(s: PlayerState, value: real)
    ensures var m := s.relativeMovement;
      && UpdateStrafeMovement(s, value) == Handled(s.(relativeMovement := Vec3(value, m.y, m.z)), true)
      && UpdateVerticalMovement(s, value) == Handled(s.(relativeMovement := Vec3(m.x, value, m.z)), true)
      && UpdateForwardsRealMovement(s, value) == Handled(s.(relativeMovement := Vec3(m.x, m.y, value)), true)
  {
  }

  /** Axis handlers assign their value: a second event on an axis overrides the first. */
  lemma AxisLastWriteWins(s: PlayerState, a: real, b: real)
    ensures UpdateStrafeMovement(UpdateStrafeMovement(s, a).next, b) == UpdateStrafeMovement(s, b)
    ensures UpdateVerticalMovement(UpdateVerticalMovement(s, a).next, b) == UpdateVerticalMovement(s, b)
    ensures UpdateForwardsRealMovement(UpdateForwardsRealMovement(s, a).next, b) == UpdateForwardsRealMovement(s, b)
  {
  }

  // ---------------------------------------------------------------------
  // Jump
  // ---------------------------------------------------------------------

  /** `onJump`: DOWN requests a jump and consumes; UP and REPEAT clear it and let the event pass on. */
  lemma OnJumpContract(s: PlayerState, state: ButtonState)
    ensures OnJump(s, state).consumed <==> state == Down
    ensures OnJump(s, state).next.jump <==> state == Down
    ensures OnJump(s, state).next.(jump := s.jump) == s
  {
  }

  /**
   * A pressed jump reaches exactly one move input: the next `processInput`
   * sends it, and the one after that no longer does.
   */
  lemma JumpIsSentOnce(s: PlayerState, d1: int, d2: int, rotate: (real, real, Vec3) -> Vec3)
    ensures var t1 := ProcessInput(OnJump(s, Down).next, d1, rotate);
            var t2 := ProcessInput(t1, d2, rotate);
      && t1.sent[|s.sent|].event.jumpRequested
      && !t2.sent[|s.sent| + 1].event.jumpRequested
      && |t2.sent| == |s.sent| + 2
  {
    var s1 := OnJump(s, Down).next;
    ProcessInputContract(s1, d1, rotate);
    var t1 := ProcessInput(s1, d1, rotate);
    ProcessInputContract(t1, d2, rotate);
  }

  // ---------------------------------------------------------------------
  // Speed
  // ---------------------------------------------------------------------

  /** `onToggleSpeedTemporarily`: running is the default inverted while the button is down. */
  lemma OnToggleSpeedTemporarilyContract(s: PlayerState, state: ButtonState)
    ensures var h := OnToggleSpeedTemporarily(s, state);
      && h.consumed
      && (h.next.run <==> (s.runPerDefault != IsDown(state)))
      && h.next.runPerDefault == s.runPerDefault
      && h.next.(run := s.run) == s
  {
  }

  /** Pressing and then releasing the temporary toggle returns to the default speed. */
  lemma TemporaryToggleReleaseRestoresDefault(s: PlayerState)
    ensures var t := OnToggleSpeedTemporarily(OnToggleSpeedTemporarily(s, Down).next, Up).next;
      t.run == s.runPerDefault && t.(run := s.run) == s
  {
  }

  /**
   * `onToggleSpeedPermanently`: a press inverts both the default and the
   * current speed, so whether they agree is unchanged; a release changes
   * nothing; the event is always consumed.
   */
  lemma OnToggleSpeedPermanentlyContract(s: PlayerState, state: ButtonState)
    ensures var h := OnToggleSpeedPermanently(s, state);
      && h.consumed
      && (IsDown(state) ==> h.next.runPerDefault == !s.runPerDefault && h.next.run == !s.run)
      && (!IsDown(state) ==> h.next == s)
      && ((h.next.run == h.next.runPerDefault) <==> (s.run == s.runPerDefault))
      && h.next.(run := s.run, runPerDefault := s.runPerDefault) == s
  {
  }

  /** Two presses of the permanent toggle restore the state. */
  lemma ToggleSpeedPermanentlyTwice(s: PlayerState, first: ButtonState, second: ButtonState)
    requires IsDown(first) && IsDown(second)
    ensures OnToggleSpeedPermanently(OnToggleSpeedPermanently(s, first).next, second).next == s
  {
  }

  // ---------------------------------------------------------------------
  // Auto-move
  // ---------------------------------------------------------------------

  /**
   * `startAutoMove` caches the binds the configuration holds, turns auto-move
   * on exactly when a forward key is bound there, and then simulates one
   * stroke of the first bound key followed by a repeated stroke of it;
   * otherwise auto-move is off and nothing is simulated.
   */
  lemma StartAutoMoveContract(s: PlayerState, forwardBinds: seq<Option<Key>>)
    ensures var t := StartAutoMove(s, forwardBinds);
      && t.bindsConfig == Some(forwardBinds)
      && (t.isAutoMove <==> exists i :: 0 <= i < |forwardBinds| && forwardBinds[i].Some?)
      && (t.isAutoMove ==>
            t.strokes == s.strokes + [SimulateSingle(FirstKey(forwardBinds).value),
                                      SimulateRepeated(FirstKey(forwardBinds).value)])
      && (!t.isAutoMove ==> t.strokes == s.strokes)
      && t.(isAutoMove := s.isAutoMove, strokes := s.strokes, bindsConfig := s.bindsConfig) == s
  {
  }

  /**
   * `stopAutoMove` turns auto-move off and cancels the stroke of the first
   * forward key of the binds the last start cached; with no forward key bound
   * there it changes nothing.
   */
  lemma StopAutoMoveContract(s: PlayerState)
    ensures var t := StopAutoMove(s);
      && (CachedForwardKey(s).None? ==> t == s)
      && (s.bindsConfig.Some? && (forall i :: 0 <= i < |s.bindsConfig.value| ==> s.bindsConfig.value[i].None?) ==> t == s)
      && (CachedForwardKey(s).Some? ==>
            !t.isAutoMove && t.strokes == s.strokes + [CancelSimulated(CachedForwardKey(s).value)])
      && t.(isAutoMove := s.isAutoMove, strokes := s.strokes) == s
  {
  }

  /** What the requested strokes hold after one more stroke. */
  lemma HeldKeysStep(a: seq<KeyStroke>, x: KeyStroke)
    ensures x.SimulateSingle? ==> HeldKeys(a + [x]) == HeldKeys(a)
    ensures x.SimulateRepeated? ==> HeldKeys(a + [x]) == HeldKeys(a) + {x.key}
    ensures x.CancelSimulated? ==> HeldKeys(a + [x]) == HeldKeys(a) - {x.key}
  {
    assert (a + [x])[..|a + [x]| - 1] == a;
  }

  /**
   * In a valid state, auto-move is on exactly while some simulated key is
   * held, and stopping it releases that key: nothing is held afterwards.
   */
  lemma StopAutoMoveReleasesHeldKey(s: PlayerState)
    requires Valid(s)
    ensures s.isAutoMove <==> HeldKeys(s.strokes) != {}
    ensures s.isAutoMove ==> s.bindsConfig.Some?
    ensures s.isAutoMove ==>
      var t := StopAutoMove(s);
      && !t.isAutoMove
      && HeldKeys(t.strokes) == {}
      && t.strokes == s.strokes + [CancelSimulated(CachedForwardKey(s).value)]
      && HeldKeys(s.strokes) == {CachedForwardKey(s).value}
  {
    if s.isAutoMove {
      HeldKeysStep(s.strokes, CancelSimulated(CachedForwardKey(s).value));
    }
  }

  /** `onAutoMoveMode` toggles auto-move on a press only, and always consumes. */
  lemma OnAutoMoveModeContract(s: PlayerState, state: ButtonState, forwardBinds: seq<Option<Key>>)
    ensures var h := OnAutoMoveMode(s, state, forwardBinds);
      && h.consumed
      && (!IsDown(state) ==> h.next == s)
      && (IsDown(state) && !s.isAutoMove ==> h.next == StartAutoMove(s, forwardBinds))
      && (IsDown(state) && s.isAutoMove ==> h.next == StopAutoMove(s))
      && (IsDown(state) && !s.isAutoMove ==> (h.next.isAutoMove <==> FirstKey(forwardBinds).Some?))
      && (IsDown(state) && s.isAutoMove && CachedForwardKey(s).Some? ==> !h.next.isAutoMove)
  {
  }

  /**
   * Two presses of the auto-move button with a forward key k bound at the
   * first start auto-move and then stop it: k is pressed, held, and released
   * again, whatever the configuration holds at the second press.
   */
  lemma AutoMoveRoundTrip(s: PlayerState, forwardBinds: seq<Option<Key>>, laterBinds: seq<Option<Key>>, k: Key)
    requires !s.isAutoMove
    requires FirstKey(forwardBinds) == Some(k)
    ensures var t := OnAutoMoveMode(OnAutoMoveMode(s, Down, forwardBinds).next, Down, laterBinds).next;
      && !t.isAutoMove
      && t.strokes == s.strokes + [SimulateSingle(k), SimulateRepeated(k), CancelSimulated(k)]
      && t.bindsConfig == Some(forwardBinds)
      && t.(strokes := s.strokes, bindsConfig := s.bindsConfig) == s
  {
  }

  // ---------------------------------------------------------------------
  // Crouching
  // ---------------------------------------------------------------------

  /**
   * Standing up is a guarded transition: when the sweep hits, exactly one
   * "Cannot stand up here!" notification goes to the client and the
   * character is unchanged; otherwise the character is WALKING at height and
   * eye height divided by the crouch fraction, and exactly one mode event
   * went to the character.
   */
  lemma StandPlayerContract(s: PlayerState, sweepHit: bool)
    ensures var t := StandPlayer(s, sweepHit);
      && (sweepHit ==>
            t.character == s.character &&
            t.sent == s.sent + [Sent(ClientEntity, Notification("Cannot stand up here!", ClientEntity))])
      && (!sweepHit ==>
            t.character.mode == Walking &&
            t.character.height * CrouchFraction == s.character.height &&
            t.character.eyeHeight * CrouchFraction == s.character.eyeHeight &&
            t.sent == s.sent + [Sent(CharacterEntity, SetMovementMode(Walking))])
      && t.(character := s.character, sent := s.sent) == s
  {
  }

  /**
   * `crouchPlayer`: the character is CROUCHING at height and eye height
   * multiplied by the crouch fraction, and one mode event went to it.
   */
  lemma CrouchPlayerContract(s: PlayerState)
    ensures var t := CrouchPlayer(s);
      && t.character == CharacterState(Crouching, s.character.height * CrouchFraction,
                                       s.character.eyeHeight * CrouchFraction)
      && t.sent == s.sent + [Sent(CharacterEntity, SetMovementMode(Crouching))]
      && t.(character := s.character, sent := s.sent) == s
  {
  }

  /**
   * `onCrouchMode` always consumes; a press crouches a walking character and
   * tries to stand a crouching one; any other mode or a release changes nothing.
   */
  lemma OnCrouchModeContract(s: PlayerState, state: ButtonState, sweepHit: bool)
    ensures var h := OnCrouchMode(s, state, sweepHit);
      && h.consumed
      && (IsDown(state) && s.character.mode == Walking ==> h.next == CrouchPlayer(s))
      && (IsDown(state) && s.character.mode == Crouching ==> h.next == StandPlayer(s, sweepHit))
      && (!IsDown(state) || s.character.mode !in {Walking, Crouching} ==> h.next == s)
  {
  }

  /**
   * `onCrouchTemporarily` always consumes; a press crouches a walking
   * character, a release tries to stand a crouching one, anything else
   * changes nothing.
   */
  lemma OnCrouchTemporarilyContract(s: PlayerState, state: ButtonState, sweepHit: bool)
    ensures var h := OnCrouchTemporarily(s, state, sweepHit);
      && h.consumed
      && (IsDown(state) && s.character.mode == Walking ==> h.next == CrouchPlayer(s))
      && (!IsDown(state) && s.character.mode == Crouching ==> h.next == StandPlayer(s, sweepHit))
      && (IsDown(state) && s.character.mode != Walking ==> h.next == s)
      && (!IsDown(state) && s.character.mode != Crouching ==> h.next == s)
  {
  }

  /**
   * Toggling crouch mode twice with room to stand returns a walking
   * character to its height, eye height and mode, after one CROUCHING and
   * one WALKING mode event.
   */
  lemma CrouchModeRoundTrip(s: PlayerState)
    requires s.character.mode == Walking
    ensures var t := OnCrouchMode(OnCrouchMode(s, Down, false).next, Down, false).next;
      && t.character == s.character
      && t.sent == s.sent + [Sent(CharacterEntity, SetMovementMode(Crouching)),
                             Sent(CharacterEntity, SetMovementMode(Walking))]
      && t.(sent := s.sent) == s
  {
  }

  /** Holding and releasing the crouch button, with room to stand, also returns the character as it was. */
  lemma CrouchTemporarilyRoundTrip(s: PlayerState)
    requires s.character.mode == Walking
    ensures var t := OnCrouchTemporarily(OnCrouchTemporarily(s, Down, false).next, Up, false).next;
      t.character == s.character && t.(sent := s.sent) == s
  {
  }

  /** A crouching character under an obstruction stays crouched however often crouch mode is pressed. */
  lemma {:induction false} BlockedStandLeavesCrouching(s: PlayerState, presses: nat)
    requires s.character.mode == Crouching
    ensures var t := RepeatBlockedStand(s, presses);
      t.character == s.character &&
      |t.sent| == |s.sent| + presses &&
      forall i :: |s.sent| <= i < |t.sent| ==> t.sent[i] == Sent(ClientEntity, Notification(CannotStandMessage, ClientEntity))
    decreases presses
  {
    if presses > 0 {
      BlockedStandLeavesCrouching(s, presses - 1);
    }
  }

  /** `presses` presses of crouch mode, each finding the way up blocked. */
  function RepeatBlockedStand(s: PlayerState, presses: nat): PlayerState
    decreases presses
  {
    if presses == 0 then s else OnCrouchMode(RepeatBlockedStand(s, presses - 1), Down, true).next
  }

  // ---------------------------------------------------------------------
  // Chat and target
  // ---------------------------------------------------------------------

  /**
   * `updateChatOpen`: opening chat stops strafing, stops forward movement
   * unless auto-moving, returns to the default speed and tries to stand a
   * crouching character; a release changes nothing. It never consumes.
   */
  lemma UpdateChatOpenContract(s: PlayerState, state: ButtonState, sweepHit: bool)
    ensures var h := UpdateChatOpen(s, state, sweepHit);
      && !h.consumed
      && (!IsDown(state) ==> h.next == s)
      && (IsDown(state) ==>
            && h.next.relativeMovement.x == 0.0
            && h.next.relativeMovement.y == s.relativeMovement.y
            && h.next.relativeMovement.z == (if s.isAutoMove then s.relativeMovement.z else 0.0)
            && h.next.run == s.runPerDefault
            && (s.character.mode == Crouching ==>
                  h.next.character == StandPlayer(s, sweepHit).character &&
                  h.next.sent == StandPlayer(s, sweepHit).sent)
            && (s.character.mode != Crouching ==> h.next.character == s.character && h.next.sent == s.sent)
            && h.next.(relativeMovement := s.relativeMovement, run := s.run,
                       character := s.character, sent := s.sent) == s)
  {
  }

  /** `onTargetChanged` with a target that does not exist clears the highlighted box. */
  lemma TargetLostClearsAabb(s: PlayerState, bounds: Option<Aabb>)
    ensures OnTargetChanged(s, false, bounds) == Handled(s.(aabb := None), false)
    ensures OnTargetChanged(s, true, None) == Handled(s, false)
  {
  }

  // ---------------------------------------------------------------------
  // The invariant
  // ---------------------------------------------------------------------

  lemma InitialValid(c: CharacterState)
    ensures Valid(Initial(c))
  {
  }

  /** A change to a state that leaves the view angles, numbering, auto-move and strokes alone keeps it valid. */
  lemma BookkeepingKept(s: PlayerState, t: PlayerState)
    requires Valid(s)
    requires t.lookPitch == s.lookPitch && t.lookYaw == s.lookYaw
    requires t.inputSequenceNumber == s.inputSequenceNumber && MoveInputs(t.sent) == MoveInputs(s.sent)
    requires t.isAutoMove == s.isAutoMove && t.strokes == s.strokes && t.bindsConfig == s.bindsConfig
    ensures Valid(t)
  {
  }

  lemma StandKeepsValid(s: PlayerState, sweepHit: bool)
    requires Valid(s)
    ensures Valid(StandPlayer(s, sweepHit))
  {
    var t := StandPlayer(s, sweepHit);
    MoveInputsAppendOther(s.sent, t.sent[|s.sent|]);
    assert t.sent == s.sent + [t.sent[|s.sent|]];
    BookkeepingKept(s, t);
  }

  lemma CrouchKeepsValid(s: PlayerState)
    requires Valid(s)
    ensures Valid(CrouchPlayer(s))
  {
    var t := CrouchPlayer(s);
    MoveInputsAppendOther(s.sent, t.sent[|s.sent|]);
    assert t.sent == s.sent + [t.sent[|s.sent|]];
    BookkeepingKept(s, t);
  }

  lemma ProcessInputKeepsValid(s: PlayerState, deltaMs: int, rotate: (real, real, Vec3) -> Vec3)
    requires Valid(s)
    ensures Valid(ProcessInput(s, deltaMs, rotate))
  {
    var t := ProcessInput(s, deltaMs, rotate);
    ProcessInputContract(s, deltaMs, rotate);
    var moves := MoveInputs(t.sent);
    assert moves == MoveInputs(s.sent) + [t.sent[|s.sent|].event];
    assert forall i :: 0 <= i < |moves| ==> moves[i].CharacterMoveInput? && moves[i].sequenceNumber == i + 1 by {
      forall i | 0 <= i < |moves|
        ensures moves[i].CharacterMoveInput? && moves[i].sequenceNumber == i + 1
      {
        if i < |MoveInputs(s.sent)| {
          assert moves[i] == MoveInputs(s.sent)[i];
        }
      }
    }
  }

  /** Every handler keeps the invariant. */
  lemma HandlePreservesValid(s: PlayerState, e: PlayerEvent)
    requires Valid(s)
    ensures Valid(Handle(s, e).next)
  {
    match e
    case ChatButton(st, hit) =>
      ChatOpenKeepsValid(s, st, hit);
    case CrouchButton(st, hit) =>
      CrouchTemporarilyKeepsValid(s, st, hit);
    case CrouchModeButton(st, hit) =>
      CrouchModeKeepsValid(s, st, hit);
    case Tick(valid, deltaMs, rotate) =>
      if valid {
        ProcessInputKeepsValid(s, deltaMs, rotate);
      }
    case ForwardsMovementAxis(v) =>
      ForwardsMovementKeepsValid(s, v);
    case AutoMoveButton(st, binds) =>
      AutoMoveModeKeepsValid(s, st, binds);
    case _ =>
      SettersKeepValid(s, e);
  }

  /** The handlers that only assign input fields keep the invariant. */
  lemma SettersKeepValid(s: PlayerState, e: PlayerEvent)
    requires Valid(s)
    requires !(e.ChatButton? || e.CrouchButton? || e.CrouchModeButton? || e.Tick? ||
               e.ForwardsMovementAxis? || e.AutoMoveButton?)
    ensures Valid(Handle(s, e).next)
  {
    BookkeepingKept(s, Handle(s, e).next);
  }

  lemma StartAutoMoveKeepsValid(s: PlayerState, forwardBinds: seq<Option<Key>>)
    requires Valid(s) && !s.isAutoMove
    ensures Valid(StartAutoMove(s, forwardBinds))
  {
    match FirstKey(forwardBinds)
    case None =>
    case Some(k) =>
      HeldKeysStep(s.strokes, SimulateSingle(k));
      HeldKeysStep(s.strokes + [SimulateSingle(k)], SimulateRepeated(k));
      assert s.strokes + [SimulateSingle(k), SimulateRepeated(k)] ==
             s.strokes + [SimulateSingle(k)] + [SimulateRepeated(k)];
  }

  lemma StopAutoMoveKeepsValid(s: PlayerState)
    requires Valid(s)
    ensures Valid(StopAutoMove(s))
  {
    match CachedForwardKey(s)
    case None =>
    case Some(k) =>
      HeldKeysStep(s.strokes, CancelSimulated(k));
  }

  lemma ChatOpenKeepsValid(s: PlayerState, state: ButtonState, sweepHit: bool)
    requires Valid(s)
    ensures Valid(UpdateChatOpen(s, state, sweepHit).next)
  {
    if IsDown(state) {
      var m := s.relativeMovement;
      var s1 := s.(relativeMovement := Vec3(0.0, m.y, if s.isAutoMove then m.z else 0.0));
      BookkeepingKept(s, s1);
      var s2 := if s1.character.mode == Crouching then StandPlayer(s1, sweepHit) else s1;
      if s1.character.mode == Crouching {
        StandKeepsValid(s1, sweepHit);
      }
      BookkeepingKept(s2, s2.(run := s2.runPerDefault));
    }
  }

  lemma CrouchTemporarilyKeepsValid(s: PlayerState, state: ButtonState, sweepHit: bool)
    requires Valid(s)
    ensures Valid(OnCrouchTemporarily(s, state, sweepHit).next)
  {
    if IsDown(state) && s.character.mode == Walking {
      CrouchKeepsValid(s);
    } else if !IsDown(state) && s.character.mode == Crouching {
      StandKeepsValid(s, sweepHit);
    }
  }

  lemma CrouchModeKeepsValid(s: PlayerState, state: ButtonState, sweepHit: bool)
    requires Valid(s)
    ensures Valid(OnCrouchMode(s, state, sweepHit).next)
  {
    if IsDown(state) && s.character.mode == Walking {
      CrouchKeepsValid(s);
    } else if IsDown(state) && s.character.mode == Crouching {
      StandKeepsValid(s, sweepHit);
    }
  }

  lemma ForwardsMovementKeepsValid(s: PlayerState, value: real)
    requires Valid(s)
    ensures Valid(UpdateForwardsMovement(s, value).next)
  {
    var m := s.relativeMovement;
    var s1 := s.(relativeMovement := Vec3(m.x, m.y, value));
    BookkeepingKept(s, s1);
    if value == 0.0 && s1.isAutoMove {
      StopAutoMoveKeepsValid(s1);
    }
  }

  lemma AutoMoveModeKeepsValid(s: PlayerState, state: ButtonState, forwardBinds: seq<Option<Key>>)
    requires Valid(s)
    ensures Valid(OnAutoMoveMode(s, state, forwardBinds).next)
  {
    if IsDown(state) {
      if !s.isAutoMove {
        StartAutoMoveKeepsValid(s, forwardBinds);
      } else {
        StopAutoMoveKeepsValid(s);
      }
    }
  }

  /** Every state reached from a valid one by any sequence of events is valid. */
  lemma {:induction false} RunPreservesValid(s: PlayerState, events: seq<PlayerEvent>)
    requires Valid(s)
    ensures Valid(Run(s, events))
    decreases |events|
  {
    if events != [] {
      HandlePreservesValid(s, events[0]);
      RunPreservesValid(Handle(s, events[0]).next, events[1..]);
    }
  }

  /**
   * From a fresh system, whatever events arrive, the pitch stays within
   * [-89, 89], the move inputs are numbered 1, 2, ... without gaps, and
   * auto-move is on exactly while a simulated key is held, that key being
   * the first forward key of the cached binds, which a stop cancels.
   */
  lemma ReachableStatesAreValid(c: CharacterState, events: seq<PlayerEvent>)
    ensures Valid(Run(Initial(c), events))
  {
    InitialValid(c);
    RunPreservesValid(Initial(c), events);
  }
}
