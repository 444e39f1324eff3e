/**
 * The local player system as the object it is: input fields that its event
 * handlers update in place, beside the character entity whose movement mode,
 * height and eye height it changes. Every method is proved to compute the
 * same new state as the matching function of PlayerInputModel, so what
 * PlayerInputProperties proves of those functions holds of these methods;
 * and every handler keeps the invariant `Valid()`.
 */
module Players {
  import opened PlayerInputTypes
  import M = PlayerInputModel
  import P = PlayerInputProperties

  /** The components of the character entity that the system reads and changes. */
  class Character {
    var mode: MovementMode
    var height: real
    var eyeHeight: real

    constructor (mode: MovementMode, height: real, eyeHeight: real)
      ensures State() == M.CharacterState(mode, height, eyeHeight)
    {
      this.mode := mode;
      this.height := height;
      this.eyeHeight := eyeHeight;
    }

    function State(): M.CharacterState
      reads this
    {
      M.CharacterState(mode, height, eyeHeight)
    }
  }

  class LocalPlayerSystem {
    var relativeMovement: Vec3
    var isAutoMove: bool
    var runPerDefault: bool
    var run: bool
    var jump: bool
    var lookPitch: real
    var lookPitchDelta: real
    var lookYaw: real
    var lookYawDelta: real
    var inputSequenceNumber: int
    var aabb: Option<Aabb>
    /** The forward binds of the binds configuration cached by the last start of auto-move. */
    var bindsConfig: Option<seq<Option<Key>>>

    /** The local player's character entity. */
    const character: Character

    /** Every event sent so far, in order. */
    ghost var sent: seq<Sent>
    /** Every key stroke asked of the input system so far, in order. */
    ghost var strokes: seq<KeyStroke>

    ghost function State(): M.PlayerState
      reads this, character
    {
      M.PlayerState(relativeMovement, isAutoMove, runPerDefault, run, jump,
                    lookPitch, lookPitchDelta, lookYaw, lookYawDelta,
                    inputSequenceNumber, aabb, bindsConfig, character.State(), sent, strokes)
    }

    ghost predicate Valid()
      reads this, character
    {
      M.Valid(State())
    }

    /** A new system with the field initialisers of the source. */
    constructor (character: Character)
      ensures this.character == character
      ensures State() == M.Initial(character.State())
      ensures Valid()
    {
      relativeMovement := Vec3(0.0, 0.0, 0.0);
      isAutoMove := false;
      runPerDefault := true;
      run := true;
      jump := false;
      lookPitch, lookPitchDelta, lookYaw, lookYawDelta := 0.0, 0.0, 0.0, 0.0;
      inputSequenceNumber := 1;
      aabb := None;
      bindsConfig := None;
      this.character := character;
      sent, strokes := [], [];
      new;
      P.InitialValid(character.State());
    }

    // -------------------------------------------------------------------
    // Per-frame update
    // -------------------------------------------------------------------

    /** `update`: process the input of this frame when the local player is valid; the camera is not modelled. */
    method Update(playerValid: bool, deltaMs: int, rotate: (real, real, Vec3) -> Vec3)
      requires Valid()
      modifies this
      ensures Valid()
      ensures State() == M.Update(old(State()), playerValid, deltaMs, rotate)
    {
      ghost var s0 := State();
      if !playerValid {
        return;
      }
      ProcessInput(deltaMs, rotate);
      P.HandlePreservesValid(s0, M.Tick(playerValid, deltaMs, rotate));
    }

    method ProcessInput(deltaMs: int, rotate: (real, real, Vec3) -> Vec3)
      modifies this
      ensures State() == M.ProcessInput(old(State()), deltaMs, rotate)
    {
      lookYaw := M.YawRemainder(lookYaw - lookYawDelta);
      lookYawDelta := 0.0;
      lookPitch := M.ClampPitch(lookPitch + lookPitchDelta);
      lookPitchDelta := 0.0;
      var relMove := M.Movement(character.mode, relativeMovement, lookYaw, lookPitch, rotate);
      sent := sent + [Sent(CharacterEntity, CharacterMoveInput(inputSequenceNumber, lookPitch, lookYaw,
                                                               relMove, run, jump, deltaMs))];
      inputSequenceNumber := inputSequenceNumber + 1;
      jump := false;
    }

    // -------------------------------------------------------------------
    // Helpers
    // -------------------------------------------------------------------

    method CrouchPlayer()
      modifies this, character
      ensures State() == M.CrouchPlayer(old(State()))
    {
      var height := character.height;
      var eyeHeight := character.eyeHeight;
      character.height := height * M.CrouchFraction;
      character.eyeHeight := eyeHeight * M.CrouchFraction;
      character.mode := Crouching;
      sent := sent + [Sent(CharacterEntity, SetMovementMode(Crouching))];
    }

    method StandPlayer(sweepHit: bool)
      modifies this, character
      ensures State() == M.StandPlayer(old(State()), sweepHit)
    {
      var height := character.height;
      var eyeHeight := character.eyeHeight;
      if sweepHit {
        sent := sent + [Sent(ClientEntity, Notification(M.CannotStandMessage, ClientEntity))];
        return;
      }
      character.height := height / M.CrouchFraction;
      character.eyeHeight := eyeHeight / M.CrouchFraction;
      character.mode := Walking;
      sent := sent + [Sent(CharacterEntity, SetMovementMode(Walking))];
    }

    /** `getValidKey`: the first bound input of `inputs`. */
    method GetValidKey(inputs: seq<Option<Key>>) returns (key: Option<Key>)
      ensures key == M.FirstKey(inputs)
    {
      for i := 0 to |inputs|
        invariant M.FirstKey(inputs[i..]) == M.FirstKey(inputs)
      {
        assert inputs[i..][1..] == inputs[i + 1..];
        if inputs[i].Some? {
          return inputs[i];
        }
      }
      assert inputs[|inputs|..] == [];
      return None;
    }

    /** `stopAutoMove`: looks the forward key up in the cached binds. */
    method StopAutoMove()
      modifies this
      ensures State() == M.StopAutoMove(old(State()))
    {
      match bindsConfig
      case None =>
      case Some(inputs) =>
        var forwardKey := GetValidKey(inputs);
        if forwardKey.Some? {
          strokes := strokes + [CancelSimulated(forwardKey.value)];
          isAutoMove := false;
        }
    }

    /** `startAutoMove`: `forwardBinds` is what the configuration holds now. */
    method StartAutoMove(forwardBinds: seq<Option<Key>>)
      modifies this
      ensures State() == M.StartAutoMove(old(State()), forwardBinds)
    {
      isAutoMove := false;
      bindsConfig := Some(forwardBinds);
      var forwardKey := GetValidKey(forwardBinds);
      if forwardKey.Some? {
        isAutoMove := true;
        strokes := strokes + [SimulateSingle(forwardKey.value), SimulateRepeated(forwardKey.value)];
      }
    }

    // -------------------------------------------------------------------
    // Event handlers; `consumed` is whether the handler consumed the event
    // -------------------------------------------------------------------

    method OnMouseX(value: real) returns (consumed: bool)
      requires Valid()
      modifies this
      ensures Valid()
      ensures M.Handled(State(), consumed) == M.SetLookYawDelta(old(State()), value)
    {
      ghost var s0 := State();
      lookYawDelta := value;
      consumed := true;
      P.HandlePreservesValid(s0, M.MouseXAxis(value));
    }

    method OnMouseY(value: real) returns (consumed: bool)
      requires Valid()
      modifies this
      ensures Valid()
      ensures M.Handled(State(), consumed) == M.SetLookPitchDelta(old(State()), value)
    {
      ghost var s0 := State();
      lookPitchDelta := value;
      consumed := true;
      P.HandlePreservesValid(s0, M.MouseYAxis(value));
    }

    method UpdateRotationYaw(value: real) returns (consumed: bool)
      requires Valid()
      modifies this
      ensures Valid()
      ensures M.Handled(State(), consumed) == M.SetLookYawDelta(old(State()), value)
    {
      ghost var s0 := State();
      lookYawDelta := value;
      consumed := true;
      P.HandlePreservesValid(s0, M.RotationYawAxis(value));
    }

    method UpdateRotationPitch(value: real) returns (consumed: bool)
      requires Valid()
      modifies this
      ensures Valid()
      ensures M.Handled(State(), consumed) == M.SetLookPitchDelta(old(State()), value)
    {
      ghost var s0 := State();
      lookPitchDelta := value;
      consumed := true;
      P.HandlePreservesValid(s0, M.RotationPitchAxis(value));
    }

    method OnJump(state: ButtonState) returns (consumed: bool)
      requires Valid()
      modifies this
      ensures Valid()
      ensures M.Handled(State(), consumed) == M.OnJump(old(State()), state)
    {
      ghost var s0 := State();
      if state == Down {
        jump := true;
        consumed := true;
      } else {
        jump := false;
        consumed := false;
      }
      P.HandlePreservesValid(s0, M.JumpButton(state));
    }

    method UpdateChatOpen(state: ButtonState, sweepHit: bool) returns (consumed: bool)
      requires Valid()
      modifies this, character
      ensures Valid()
      ensures M.Handled(State(), consumed) == M.UpdateChatOpen(old(State()), state, sweepHit)
    {
      ghost var s0 := State();
      if IsDown(state) {
        relativeMovement := relativeMovement.(x := 0.0);
        if !isAutoMove {
          relativeMovement := relativeMovement.(z := 0.0);
        }
        ghost var s1 := State();
        assert s1 == s0.(relativeMovement := Vec3(0.0, s0.relativeMovement.y,
                                                  if s0.isAutoMove then s0.relativeMovement.z else 0.0));
        if character.mode == Crouching {
          StandPlayer(sweepHit);
        }
        assert State() == if s1.character.mode == Crouching then M.StandPlayer(s1, sweepHit) else s1;
        run := runPerDefault;
      }
      consumed := false;
      P.ChatOpenKeepsValid(s0, state, sweepHit);
    }

    /** `updateForwardsMovement(ForwardsMovementAxis)`. */
    method UpdateForwardsMovement(value: real) returns (consumed: bool)
      requires Valid()
      modifies this
      ensures Valid()
      ensures M.Handled(State(), consumed) == M.UpdateForwardsMovement(old(State()), value)
    {
      ghost var s0 := State();
      relativeMovement := relativeMovement.(z := value);
      if relativeMovement.z == 0.0 && isAutoMove {
        StopAutoMove();
      }
      consumed := true;
      P.HandlePreservesValid(s0, M.ForwardsMovementAxis(value));
    }

    /** `updateStrafeMovement(StrafeMovementAxis)`. */
    method UpdateStrafeMovement(value: real) returns (consumed: bool)
      requires Valid()
      modifies this
      ensures Valid()
      ensures M.Handled(State(), consumed) == M.UpdateStrafeMovement(old(State()), value)
    {
      ghost var s0 := State();
      relativeMovement := relativeMovement.(x := value);
      consumed := true;
      P.HandlePreservesValid(s0, M.StrafeMovementAxis(value));
    }

    /** `updateVerticalMovement(VerticalMovementAxis)`. */
    method UpdateVerticalMovement(value: real) returns (consumed: bool)
      requires Valid()
      modifies this
      ensures Valid()
      ensures M.Handled(State(), consumed) == M.UpdateVerticalMovement(old(State()), value)
    {
      ghost var s0 := State();
      relativeMovement := relativeMovement.(y := value);
      consumed := true;
      P.HandlePreservesValid(s0, M.VerticalMovementAxis(value));
    }

    /** `updateForwardsMovement(ForwardsRealMovementAxis)`. */
    method UpdateForwardsRealMovement(value: real) returns (consumed: bool)
      requires Valid()
      modifies this
      ensures Valid()
      ensures M.Handled(State(), consumed) == M.UpdateForwardsRealMovement(old(State()), value)
    {
      ghost var s0 := State();
      relativeMovement := relativeMovement.(z := value);
      consumed := true;
      P.HandlePreservesValid(s0, M.ForwardsRealMovementAxis(value));
    }

    /** `updateStrafeMovement(StrafeRealMovementAxis)`. */
    method UpdateStrafeRealMovement(value: real) returns (consumed: bool)
      requires Valid()
      modifies this
      ensures Valid()
      ensures M.Handled(State(), consumed) == M.UpdateStrafeMovement(old(State()), value)
    {
      ghost var s0 := State();
      relativeMovement := relativeMovement.(x := value);
      consumed := true;
      P.HandlePreservesValid(s0, M.StrafeRealMovementAxis(value));
    }

    /** `updateVerticalMovement(VerticalRealMovementAxis)`. */
    method UpdateVerticalRealMovement(value: real) returns (consumed: bool)
      requires Valid()
      modifies this
      ensures Valid()
      ensures M.Handled(State(), consumed) == M.UpdateVerticalMovement(old(State()), value)
    {
      ghost var s0 := State();
      relativeMovement := relativeMovement.(y := value);
      consumed := true;
      P.HandlePreservesValid(s0, M.VerticalRealMovementAxis(value));
    }

    method OnToggleSpeedTemporarily(state: ButtonState) returns (consumed: bool)
      requires Valid()
      modifies this
      ensures Valid()
      ensures M.Handled(State(), consumed) == M.OnToggleSpeedTemporarily(old(State()), state)
    {
      ghost var s0 := State();
      var toggle := IsDown(state);
      run := runPerDefault != toggle;
      consumed := true;
      P.HandlePreservesValid(s0, M.ToggleSpeedTemporarilyButton(state));
    }

    method OnCrouchTemporarily(state: ButtonState, sweepHit: bool) returns (consumed: bool)
      requires Valid()
      modifies this, character
      ensures Valid()
      ensures M.Handled(State(), consumed) == M.OnCrouchTemporarily(old(State()), state, sweepHit)
    {
      ghost var s0 := State();
      if IsDown(state) && character.mode == Walking {
        CrouchPlayer();
      } else if !IsDown(state) && character.mode == Crouching {
        StandPlayer(sweepHit);
      }
      consumed := true;
      P.HandlePreservesValid(s0, M.CrouchButton(state, sweepHit));
    }

    method OnCrouchMode(state: ButtonState, sweepHit: bool) returns (consumed: bool)
      requires Valid()
      modifies this, character
      ensures Valid()
      ensures M.Handled(State(), consumed) == M.OnCrouchMode(old(State()), state, sweepHit)
    {
      ghost var s0 := State();
      if IsDown(state) {
        if character.mode == Walking {
          CrouchPlayer();
        } else if character.mode == Crouching {
          StandPlayer(sweepHit);
        }
      }
      consumed := true;
      P.HandlePreservesValid(s0, M.CrouchModeButton(state, sweepHit));
    }

    method OnAutoMoveMode(state: ButtonState, forwardBinds: seq<Option<Key>>) returns (consumed: bool)
      requires Valid()
      modifies this
      ensures Valid()
      ensures M.Handled(State(), consumed) == M.OnAutoMoveMode(old(State()), state, forwardBinds)
    {
      ghost var s0 := State();
      if IsDown(state) {
        if !isAutoMove {
          StartAutoMove(forwardBinds);
        } else {
          StopAutoMove();
        }
      }
      consumed := true;
      P.HandlePreservesValid(s0, M.AutoMoveButton(state, forwardBinds));
    }

    method OnToggleSpeedPermanently(state: ButtonState) returns (consumed: bool)
      requires Valid()
      modifies this
      ensures Valid()
      ensures M.Handled(State(), consumed) == M.OnToggleSpeedPermanently(old(State()), state)
    {
      ghost var s0 := State();
      if IsDown(state) {
        runPerDefault := !runPerDefault;
        run := !run;
      }
      consumed := true;
      P.HandlePreservesValid(s0, M.ToggleSpeedPermanentlyButton(state));
    }

    /**
     * `onTargetChanged`; `bounds` is the box the block or mesh lookup yields
     * for an existing target, none when it yields nothing.
     */
    method OnTargetChanged(targetExists: bool, bounds: Option<Aabb>) returns (consumed: bool)
      requires Valid()
      modifies this
      ensures Valid()
      ensures M.Handled(State(), consumed) == M.OnTargetChanged(old(State()), targetExists, bounds)
    {
      ghost var s0 := State();
      if targetExists {
        if bounds.Some? {
          aabb := bounds;
        }
      } else {
        aabb := None;
      }
      consumed := false;
      P.HandlePreservesValid(s0, M.PlayerTargetChanged(targetExists, bounds));
    }
  }
}
