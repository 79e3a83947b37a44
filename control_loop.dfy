/** One iteration of the excavator's main loop: read the pad, negate a trigger whose bumper is
    held, apply the A/B track toggles and forward the six-element input vector to the PWM
    controller. */
module ControlLoop {
  import opened Common
  import opened PwmSpec
  import opened PwmProperties
  import opened PwmController
  import opened Joystick

  /** The snapshot entries forwarded, in the order of the input vector. */
  const VectorKeys: seq<string> :=
    ["RightJoystickX", "LeftJoystickY", "LeftJoystickX", "RightJoystickY", "RightTrigger", "LeftTrigger"]

  /** Python truthiness of a pad value. */
  predicate Pressed(v: real) { v != 0.0 }

  /** `joy_values` after the two bumper flips. */
  function Flipped(joy: map<string, real>): (r: map<string, real>)
    requires SnapshotKeys <= joy.Keys
    ensures r.Keys == joy.Keys
  {
    var left := if Pressed(joy["LeftBumper"]) then joy["LeftTrigger" := -joy["LeftTrigger"]] else joy;
    if Pressed(left["RightBumper"]) then left["RightTrigger" := -left["RightTrigger"]] else left
  }

  /** A trigger is negated exactly when its bumper is held; every other entry is unchanged. */
  lemma FlipOnlyTriggers(joy: map<string, real>)
    requires SnapshotKeys <= joy.Keys
    ensures Flipped(joy)["LeftTrigger"] == if Pressed(joy["LeftBumper"]) then -joy["LeftTrigger"] else joy["LeftTrigger"]
    ensures Flipped(joy)["RightTrigger"] == if Pressed(joy["RightBumper"]) then -joy["RightTrigger"] else joy["RightTrigger"]
    ensures forall k :: k in joy && k != "LeftTrigger" && k != "RightTrigger" ==> Flipped(joy)[k] == joy[k]
  {
  }

  /** `tracks_disabled` after `set_tracks(True)` on A and then `set_tracks(False)` on B. */
  function TracksAfter(tracksDisabled: bool, joy: map<string, real>): bool
    requires SnapshotKeys <= joy.Keys
  {
    var afterA := if Pressed(joy["A"]) then true else tracksDisabled;
    if Pressed(joy["B"]) then false else afterA
  }

  /** B wins over A; A alone disables the tracks; neither leaves the setting. */
  lemma TrackToggles(tracksDisabled: bool, joy: map<string, real>)
    requires SnapshotKeys <= joy.Keys
    ensures Pressed(joy["B"]) ==> !TracksAfter(tracksDisabled, joy)
    ensures Pressed(joy["A"]) && !Pressed(joy["B"]) ==> TracksAfter(tracksDisabled, joy)
    ensures !Pressed(joy["A"]) && !Pressed(joy["B"]) ==> TracksAfter(tracksDisabled, joy) == tracksDisabled
  {
  }

  /** `controller_list` */
  function ControllerList(joy: map<string, real>): (v: seq<real>)
    requires SnapshotKeys <= joy.Keys
    ensures |v| == |VectorKeys| == 6
    ensures forall i :: 0 <= i < 6 ==> v[i] == joy[VectorKeys[i]]
  {
    [joy["RightJoystickX"], joy["LeftJoystickY"], joy["LeftJoystickX"], joy["RightJoystickY"],
     joy["RightTrigger"], joy["LeftTrigger"]]
  }

  /** A trigger value as forwarded: negated while its bumper is held. */
  function Signed(bumper: real, trigger: real): real
  {
    if Pressed(bumper) then -trigger else trigger
  }

  /** The vector forwarded for pad state `pad`. */
  function InputVector(pad: PadState): seq<real>
  {
    ControllerList(Flipped(Snapshot(pad)))
  }

  /** The snapshot entries the vector and the flips use. */
  lemma SnapshotVectorEntries(pad: PadState)
    ensures var m := Snapshot(pad);
      && m["RightJoystickX"] == pad.rightJoystickX && m["LeftJoystickY"] == pad.leftJoystickY
      && m["LeftJoystickX"] == pad.leftJoystickX && m["RightJoystickY"] == pad.rightJoystickY
      && m["RightTrigger"] == pad.rightTrigger && m["LeftTrigger"] == pad.leftTrigger
      && m["RightBumper"] == pad.rightBumper && m["LeftBumper"] == pad.leftBumper
  {
  }

  /** The vector of a flipped dictionary: the four sticks as they are, each trigger signed by
      its bumper. */
  lemma FlippedVector(joy: map<string, real>)
    requires SnapshotKeys <= joy.Keys
    ensures ControllerList(Flipped(joy)) ==
      [joy["RightJoystickX"], joy["LeftJoystickY"], joy["LeftJoystickX"], joy["RightJoystickY"],
       Signed(joy["RightBumper"], joy["RightTrigger"]), Signed(joy["LeftBumper"], joy["LeftTrigger"])]
  {
    FlipOnlyTriggers(joy);
  }

  /** The forwarded vector in terms of the pad's own fields. */
  lemma InputVectorOfPad(pad: PadState)
    ensures InputVector(pad) ==
      [pad.rightJoystickX, pad.leftJoystickY, pad.leftJoystickX, pad.rightJoystickY,
       Signed(pad.rightBumper, pad.rightTrigger), Signed(pad.leftBumper, pad.leftTrigger)]
  {
    SnapshotVectorEntries(pad);
    FlippedVector(Snapshot(pad));
  }

  /** Sticks in [-1, 1] and triggers in [0, 1] give a vector inside the default caps. */
  lemma InputVectorWithinCaps(pad: PadState)
    requires -1.0 <= pad.rightJoystickX <= 1.0 && -1.0 <= pad.leftJoystickY <= 1.0
    requires -1.0 <= pad.leftJoystickX <= 1.0 && -1.0 <= pad.rightJoystickY <= 1.0
    requires 0.0 <= pad.rightTrigger <= 1.0 && 0.0 <= pad.leftTrigger <= 1.0
    ensures forall i :: 0 <= i < |InputVector(pad)| ==> -1.0 <= InputVector(pad)[i] <= 1.0
  {
    InputVectorOfPad(pad);
  }

  /** What one iteration does: the new controller state, the vector forwarded and the outcome
      of `update_values`, both None when the pad is not connected. */
  function IterationSpec(cfg: Config, h: Hat, pad: PadState, connected: bool)
    : (r: (Hat, Option<seq<real>>, Option<UpdateOutcome>))
    requires Fits(cfg.channels) && Shaped(h)
    ensures Shaped(r.0)
  {
    if !connected then (h, None, None)
    else
      var joy := Flipped(Snapshot(pad));
      var h1 := h.(tracksDisabled := TracksAfter(h.tracksDisabled, joy));
      var u := UpdateSpec(cfg, h1, RawList(ControllerList(joy)), -1.0, 1.0);
      (u.0, Some(ControllerList(joy)), Some(u.1))
  }

  /** A disconnected iteration does nothing; a connected one forwards the vector exactly once. */
  lemma IterationForwards(cfg: Config, h: Hat, pad: PadState, connected: bool)
    requires Fits(cfg.channels) && Shaped(h)
    ensures var r := IterationSpec(cfg, h, pad, connected);
      && (!connected ==> r == (h, None, None))
      && (connected ==> r.1 == Some(InputVector(pad)) && |r.1.value| == 6 && r.2.Some?)
  {
  }

  /** A connected iteration while the controller is inactive only toggles the tracks, clears the
      readouts and signals the watchdog: no angle or throttle changes. */
  lemma IterationWhileInactive(cfg: Config, h: Hat, pad: PadState)
    requires Fits(cfg.channels) && Shaped(h) && !cfg.skipRateChecking && !h.isSafeState
    ensures var r := IterationSpec(cfg, h, pad, true);
      r.2 == Some(Ignored) && r.0.angles == h.angles && r.0.throttles == h.throttles && r.0.inputEvent
  {
    var joy := Flipped(Snapshot(pad));
    UpdateWhileInactive(cfg, h.(tracksDisabled := TracksAfter(h.tracksDisabled, joy)),
                        RawList(ControllerList(joy)), -1.0, 1.0);
  }

  /** An iteration keeps the controller's invariant. */
  lemma IterationInv(cfg: Config, h: Hat, pad: PadState, connected: bool)
    requires Inv(cfg, h)
    ensures Inv(cfg, IterationSpec(cfg, h, pad, connected).0)
  {
    if connected {
      var joy := Flipped(Snapshot(pad));
      var h1 := h.(tracksDisabled := TracksAfter(h.tracksDisabled, joy));
      assert Inv(cfg, h1);
      UpdateInv(cfg, h1, RawList(ControllerList(joy)), -1.0, 1.0);
    }
  }

  /** The track toggles of one iteration, on the flipped snapshot. */
  method ApplyToggles(pwm: PwmHat, joy: map<string, real>)
    requires SnapshotKeys <= joy.Keys
    modifies pwm`tracksDisabled
    ensures pwm.View() == old(pwm.View()).(tracksDisabled := TracksAfter(old(pwm.tracksDisabled), joy))
  {
    if Pressed(joy["A"]) {
      pwm.SetTracks(true);
    }
    if Pressed(joy["B"]) {
      pwm.SetTracks(false);
    }
  }

  /** The two bumper flips, on the dictionary in place. */
  method FlipTriggers(joy: map<string, real>) returns (flipped: map<string, real>)
    requires SnapshotKeys <= joy.Keys
    ensures flipped == Flipped(joy)
  {
    flipped := joy;
    if Pressed(flipped["LeftBumper"]) {
      flipped := flipped["LeftTrigger" := -flipped["LeftTrigger"]];
    }
    if Pressed(flipped["RightBumper"]) {
      flipped := flipped["RightTrigger" := -flipped["RightTrigger"]];
    }
  }

  /** The toggles and the forward of a connected iteration. */
  method Forward(pwm: PwmHat, joy: map<string, real>) returns (controllerList: seq<real>, result: UpdateOutcome)
    requires pwm.Valid() && SnapshotKeys <= joy.Keys
    modifies pwm, pwm.values, pwm.kit.angles, pwm.kit.throttles
    ensures pwm.Valid()
    ensures controllerList == ControllerList(joy)
    ensures (pwm.View(), result) ==
            UpdateSpec(pwm.cfg, old(pwm.View()).(tracksDisabled := TracksAfter(old(pwm.tracksDisabled), joy)),
                       RawList(controllerList), -1.0, 1.0)
  {
    ApplyToggles(pwm, joy);
    controllerList := [joy["RightJoystickX"], joy["LeftJoystickY"], joy["LeftJoystickX"],
                       joy["RightJoystickY"], joy["RightTrigger"], joy["LeftTrigger"]];
    result := pwm.UpdateValues(RawList(controllerList), -1.0, 1.0);
  }

  /** The body of `main`'s `while True` loop. */
  method ControlIteration(controller: XboxController, pwm: PwmHat)
    returns (sent: Option<seq<real>>, outcome: Option<UpdateOutcome>)
    requires pwm.Valid()
    modifies controller, pwm, pwm.values, pwm.kit.angles, pwm.kit.throttles
    ensures pwm.Valid()
    ensures controller.State() == old(controller.State())
    ensures controller.LinkState() == old(controller.LinkState())
    ensures (pwm.View(), sent, outcome) ==
            IterationSpec(pwm.cfg, old(pwm.View()), old(controller.State()), old(controller.connected))
  {
    var connected := controller.IsConnected();
    if !connected {
      return None, None;
    }
    var joy := controller.Read();
    joy := FlipTriggers(joy);
    var controllerList, result := Forward(pwm, joy);
    sent, outcome := Some(controllerList), Some(result);
  }
}
