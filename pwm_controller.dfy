/** `PWM_hat` as a class: the fields the source updates in place, each method proved to
    move the state exactly as the matching function of PwmSpec says. The hardware is the
    simulated `ServoKitStub`. */
module PwmController {
  import opened Common
  import opened ChannelConfig
  import opened ServoKit
  import opened PwmSpec

  /** `pwm_channels` */
  const PwmChannels: nat := 16

  class PwmHat {
    const cfg: Config
    /** `defined_channel_types`, computed once by `__init__` */
    const definedChannelTypes: set<ChannelType>
    /** `values`: the shaped value of each output slot */
    const values: array<real>
    /** `kit` */
    const kit: ServoKitStub

    var servoAngles: map<string, Option<real>>
    /** True while input is accepted (active control), despite the name. */
    var isSafeState: bool
    var inputCount: int
    var lastInputTime: real
    var inputTimestamps: seq<real>
    /** `input_event`: set by `update_values`, consumed by the watchdog */
    var inputEvent: bool
    var pumpVariableSum: real
    var manualPumpLoad: real
    var pumpEnabled: bool
    var pumpVariable: bool
    var tracksDisabled: bool
    var inputRateThreshold: real
    var deadzone: real

    ghost predicate Valid()
      reads this, kit
    {
      && values.Length == NumOutputs
      && kit.Valid() && kit.channels == NumOutputs
      && values != kit.angles && values != kit.throttles
      && Fits(cfg.channels)
      && definedChannelTypes == DefinedChannelTypes(cfg.channels)
    }

    /** The whole state, as PwmSpec sees it. */
    ghost function View(): (h: Hat)
      reads this, values, kit.angles, kit.throttles
    {
      Hat(values[..], servoAngles, isSafeState, inputCount, lastInputTime, inputTimestamps, inputEvent,
          pumpVariableSum, manualPumpLoad, pumpEnabled, pumpVariable, tracksDisabled, inputRateThreshold,
          deadzone, kit.angles[..], kit.throttles[..])
    }

    /** `__init__` after the configuration has been read and validated: the stub hardware,
        all readouts None, then `reset()`. `now` is `time.time()` at construction. */
    constructor (channels: seq<Channel>, numInputs: nat, pow: (real, real) -> real, pumpVariable: bool,
                 tracksDisabled: bool, threshold: real, deadzone: real, now: real)
      requires Fits(channels)
      ensures Valid()
      ensures cfg.channels == channels && cfg.numInputs == numInputs && cfg.pow == pow
      ensures cfg.skipRateChecking == (threshold == 0.0)
      ensures fresh(values) && fresh(kit) && fresh(kit.angles) && fresh(kit.throttles)
      ensures View() == InitialHat(cfg, pumpVariable, tracksDisabled, threshold, deadzone, now)
    {
      cfg := Config(channels, numInputs, threshold == 0.0, pow);
      definedChannelTypes := DefinedChannelTypes(channels);
      values := new real[PwmChannels](_ => 0.0);
      kit := new ServoKitStub(PwmChannels);
      servoAngles := map k | k in ReadoutKeys(channels) :: None;
      isSafeState := true;
      inputCount := 0;
      lastInputTime := now;
      inputTimestamps := [];
      inputEvent := false;
      pumpVariableSum := 0.0;
      manualPumpLoad := 0.0;
      pumpEnabled := true;
      this.pumpVariable := pumpVariable;
      this.tracksDisabled := tracksDisabled;
      inputRateThreshold := threshold;
      this.deadzone := deadzone;
      new;
      assert values[..] == seq(NumOutputs, _ => 0.0);
      assert kit.angles[..] == seq(NumOutputs, _ => InitialAngle);
      assert kit.throttles[..] == seq(NumOutputs, _ => InitialThrottle);
      Reset(true, DefaultPumpResetPoint);
    }

    /** `reset(reset_pump, pump_reset_point)` */
    method Reset(resetPump: bool, pumpResetPoint: real)
      requires Valid()
      modifies this`isSafeState, this`inputCount, kit.angles, kit.throttles
      ensures Valid()
      ensures View() == ResetSpec(cfg, old(View()), resetPump, pumpResetPoint)
    {
      var chs := cfg.channels;
      var i := 0;
      while i < |chs|
        invariant 0 <= i <= |chs|
        invariant kit.angles[..] == ResetAngles(chs[..i], old(kit.angles[..]))
        invariant kit.throttles[..] == old(kit.throttles[..])
      {
        var c := chs[i];
        assert c in chs;
        if c.kind.Angle? {
          kit.SetAngle(c.output, CenterValServo + c.offset);
        }
        assert chs[..i + 1][..i] == chs[..i];
        i := i + 1;
      }
      assert chs[..i] == chs;
      var p := NamedPump(chs);
      if resetPump && p.Some? {
        kit.SetThrottle(p.value.output, pumpResetPoint);
      }
      isSafeState := false;
      inputCount := 0;
    }

    /** The first loop of `update_values`: every readout back to None. */
    method ClearReadouts()
      modifies this`servoAngles
      ensures servoAngles == AllUnknown(old(servoAngles))
    {
      var pending := servoAngles.Keys;
      while pending != {}
        invariant servoAngles.Keys == old(servoAngles).Keys
        invariant forall k :: k in servoAngles ==> servoAngles[k] == if k in pending then old(servoAngles)[k] else None
        decreases pending
      {
        var k :| k in pending;
        servoAngles := servoAngles[k := None];
        pending := pending - {k};
      }
      assert servoAngles == AllUnknown(old(servoAngles));
    }

    /** The shaping loop of `update_values` over an input vector of the right length. */
    method ShapeInputs(xs: seq<real>, minCap: real, maxCap: real)
      requires Valid()
      modifies values, this`pumpVariableSum
      ensures Valid()
      ensures View() == StoreSpec(cfg, old(View()), xs, minCap, maxCap)
    {
      var chs := cfg.channels;
      var deadzoneThreshold := DeadzoneThreshold(deadzone, minCap, maxCap);
      pumpVariableSum := 0.0;
      var i := 0;
      while i < |chs|
        invariant 0 <= i <= |chs|
        invariant values[..] == StoreInputs(chs[..i], xs, minCap, maxCap, deadzone, old(values[..]))
        invariant pumpVariableSum == PumpSum(chs[..i], xs, minCap, maxCap, deadzone)
      {
        var c := chs[i];
        assert c in chs;
        assert chs[..i + 1][..i] == chs[..i];
        if c.input.Mapped? && c.input.index < |xs| {
          var capped := Clamp(minCap, maxCap, xs[c.input.index]);
          if Abs(capped) < deadzoneThreshold {
            capped := 0.0;
          }
          values[c.output] := capped;
          if c.affectsPump {
            pumpVariableSum := pumpVariableSum + Abs(capped);
          }
        }
        i := i + 1;
      }
      assert chs[..i] == chs;
    }

    /** The throttle `handle_pump` computes for pump channel `pump`, already clamped. */
    method ComputePumpThrottle(pump: Channel) returns (throttle: real)
      requires Valid() && pump.kind.Pump?
      ensures throttle == PumpThrottle(pump, View())
    {
      throttle := ComputePumpDemand(pump);
      throttle := Clamp(-1.0, 1.0, throttle);
    }

    /** The throttle `handle_pump` computes for pump channel `pump` before clamping. */
    method ComputePumpDemand(pump: Channel) returns (throttle: real)
      requires Valid() && pump.kind.Pump?
      ensures throttle == PumpDemand(pump, View())
    {
      var idle := pump.kind.idle;
      var multiplier := pump.kind.multiplier;
      if !pumpEnabled {
        throttle := -1.0;
      } else if pump.input.Unmapped? {
        if pumpVariable {
          throttle := idle + multiplier * pumpVariableSum;
        } else {
          throttle := idle + multiplier / 10.0;
        }
        throttle := throttle + manualPumpLoad;
      } else if pump.input.index < values.Length {
        throttle := values[pump.input.index];
      } else {
        throttle := idle;
      }
    }

    /** `handle_pump(values)`: `found` is false where the source raises KeyError on
        `channel_configs['pump']`; otherwise `throttle` is the value written. */
    method HandlePump() returns (found: bool, throttle: real)
      requires Valid()
      modifies kit.throttles
      ensures Valid()
      ensures (View(), found) == HandlePumpSpec(cfg, old(View()))
      ensures found ==> throttle == PumpThrottle(NamedPump(cfg.channels).value, old(View()))
    {
      var p := NamedPump(cfg.channels);
      if p.None? || !p.value.kind.Pump? {
        return false, 0.0;
      }
      throttle := ComputePumpThrottle(p.value);
      assert p.value in cfg.channels;
      kit.SetThrottle(p.value.output, throttle);
      found := true;
    }

    /** `handle_angles(values)` */
    method HandleAngles()
      requires Valid()
      modifies kit.angles, this`servoAngles
      ensures Valid()
      ensures View() == HandleAnglesSpec(cfg, old(View()))
    {
      var chs := cfg.channels;
      var i := 0;
      while i < |chs|
        invariant 0 <= i <= |chs|
        invariant kit.angles[..] == WriteAngles(chs[..i], values[..], tracksDisabled, cfg.pow, old(kit.angles[..]))
        invariant servoAngles == RecordAngles(chs[..i], values[..], tracksDisabled, cfg.pow, old(servoAngles))
      {
        assert chs[i] in chs;
        assert chs[..i + 1][..i] == chs[..i];
        DriveChannel(chs[i]);
        i := i + 1;
      }
      assert chs[..i] == chs;
    }

    /** One iteration of `handle_angles`' loop: an angle channel that is not a disabled track
        gets its servo angle, and the readout records it rounded. */
    method DriveChannel(c: Channel)
      requires Valid() && c in cfg.channels
      modifies kit.angles, this`servoAngles
      ensures Valid()
      ensures kit.angles[..] == if Drives(c, tracksDisabled)
        then old(kit.angles[..])[c.output := ClampAngle(AngleFor(c, values[c.output], cfg.pow))]
        else old(kit.angles[..])
      ensures servoAngles == if Drives(c, tracksDisabled)
        then old(servoAngles)[AngleKey(c.name) := Some(Round1(AngleFor(c, values[c.output], cfg.pow)))]
        else old(servoAngles)
    {
      if c.kind.Angle? && !(tracksDisabled && (c.name == TrackLeft || c.name == TrackRight)) {
        var angle := AngleFor(c, values[c.output], cfg.pow);
        kit.SetAngle(c.output, angle);
        servoAngles := servoAngles[AngleKey(c.name) := Some(Round1(angle))];
      }
    }

    /** `update_values(raw_values, min_cap, max_cap)`: `Raised` where the source raises after
        resetting, `Ignored` where it drops the call. */
    method UpdateValues(raw: Raw, minCap: real, maxCap: real) returns (outcome: UpdateOutcome)
      requires Valid()
      modifies this, values, kit.angles, kit.throttles
      ensures Valid()
      ensures (View(), outcome) == UpdateSpec(cfg, old(View()), raw, minCap, maxCap)
    {
      ClearReadouts();
      if !cfg.skipRateChecking {
        inputEvent := true;
      }
      assert View() == EnterSpec(cfg, old(View()));
      if !cfg.skipRateChecking && !isSafeState {
        return Ignored;
      }
      outcome := ApplyInputs(raw, minCap, maxCap);
    }

    /** `update_values` once the controller is known to be active: check the vector, shape it,
        then drive the pump and the angles. */
    method ApplyInputs(raw: Raw, minCap: real, maxCap: real) returns (outcome: UpdateOutcome)
      requires Valid()
      modifies this`servoAngles, this`isSafeState, this`inputCount, this`pumpVariableSum, values,
               kit.angles, kit.throttles
      ensures Valid()
      ensures (View(), outcome) == ApplySpec(cfg, old(View()), raw, minCap, maxCap)
    {
      if raw.RawNone? {
        Reset(true, DefaultPumpResetPoint);
        return Raised(InputsNone);
      }
      var xs := if raw.RawScalar? then [raw.x] else raw.xs;
      if |xs| != cfg.numInputs {
        Reset(true, DefaultPumpResetPoint);
        return Raised(WrongInputCount(cfg.numInputs, |xs|));
      }
      ShapeInputs(xs, minCap, maxCap);
      outcome := Drive();
    }

    /** The pump, then the angles, on the stored inputs. */
    method Drive() returns (outcome: UpdateOutcome)
      requires Valid()
      modifies this`servoAngles, kit.angles, kit.throttles
      ensures Valid()
      ensures (View(), outcome) == DriveSpec(cfg, old(View()))
    {
      if PumpType in definedChannelTypes {
        var found, _ := HandlePump();
        if !found {
          return Raised(NoPumpEntry);
        }
      }
      if AngleType in definedChannelTypes {
        HandleAngles();
      }
      outcome := Applied;
    }

    /** One pass of `monitor_input_rate`'s loop, at time `now`. */
    method MonitorStep(now: real)
      requires Valid() && !cfg.skipRateChecking
      modifies this, kit.angles, kit.throttles
      ensures Valid()
      ensures View() == MonitorStepSpec(cfg, old(View()), now)
    {
      if inputEvent {
        RecordInput(now);
      } else {
        TimeOut();
      }
    }

    /** The pass whose wait saw the input event: rate, count, activation and timestamps. */
    method RecordInput(now: real)
      requires Valid()
      modifies this`inputEvent, this`lastInputTime, this`inputCount, this`isSafeState, this`inputTimestamps
      ensures Valid()
      ensures View() == InputSeenSpec(old(View()), now)
    {
      var timeDiff := now - lastInputTime;
      var count, active := CountRate(timeDiff);
      var stamps := if timeDiff > 0.0 then Recent(inputTimestamps + [now], now) else inputTimestamps;
      inputEvent, lastInputTime, inputCount, isSafeState, inputTimestamps := false, now, count, active, stamps;
    }

    /** The rate test of a pass that saw an input `timeDiff` seconds after the previous one:
        the new input count and activity. */
    method CountRate(timeDiff: real) returns (count: int, active: bool)
      ensures (count, active) == CountInput(inputCount, isSafeState, inputRateThreshold, timeDiff)
    {
      count, active := inputCount, isSafeState;
      if timeDiff > 0.0 {
        var currentRate := 1.0 / timeDiff;
        if currentRate >= inputRateThreshold {
          count := count + 1;
          if count >= ActivationCount(inputRateThreshold) {
            active := true;
            count := 0;
          }
        } else {
          count := 0;
        }
      }
    }

    /** The pass whose wait timed out: an active controller enters the safe state. */
    method TimeOut()
      requires Valid()
      modifies this`isSafeState, this`inputCount, kit.angles, kit.throttles
      ensures Valid()
      ensures View() == TimeoutSpec(cfg, old(View()))
    {
      if isSafeState {
        Reset(false, DefaultPumpResetPoint);
        isSafeState := false;
        inputCount := 0;
      }
    }

    /** `get_average_input_rate()` at time `now` */
    method GetAverageInputRate(now: real) returns (rate: real)
      ensures rate == AverageInputRate(inputTimestamps, now)
    {
      rate := AverageInputRate(inputTimestamps, now);
    }

    /** `set_threshold` */
    method SetThreshold(threshold: real)
      modifies this`inputRateThreshold
      ensures View() == SetThresholdSpec(old(View()), threshold)
    {
      if threshold <= 0.0 {
        return;
      }
      inputRateThreshold := threshold;
    }

    /** `set_deadzone`: the source accepts only an int. */
    method SetDeadzone(percent: int)
      modifies this`deadzone
      ensures View() == old(View()).(deadzone := percent as real)
    {
      deadzone := percent as real;
    }

    /** `set_tracks` */
    method SetTracks(disabled: bool)
      modifies this`tracksDisabled
      ensures View() == old(View()).(tracksDisabled := disabled)
    {
      tracksDisabled := disabled;
    }

    /** `set_pump` */
    method SetPump(enabled: bool)
      modifies this`pumpEnabled
      ensures View() == old(View()).(pumpEnabled := enabled)
    {
      pumpEnabled := enabled;
    }

    /** `toggle_pump_variable` */
    method TogglePumpVariable(variable: bool)
      modifies this`pumpVariable
      ensures View() == old(View()).(pumpVariable := variable)
    {
      pumpVariable := variable;
    }

    /** `update_pump(adjustment)` */
    method UpdatePump(adjustment: real) returns (found: bool, throttle: real)
      requires Valid()
      modifies this`manualPumpLoad, kit.throttles
      ensures Valid()
      ensures (View(), found) == UpdatePumpSpec(cfg, old(View()), adjustment)
    {
      manualPumpLoad := Clamp(-1.0, 1.0, manualPumpLoad + adjustment);
      found, throttle := HandlePump();
    }

    /** `reset_pump_load()` */
    method ResetPumpLoad() returns (found: bool, throttle: real)
      requires Valid()
      modifies this`manualPumpLoad, kit.throttles
      ensures Valid()
      ensures (View(), found) == ResetPumpLoadSpec(cfg, old(View()))
    {
      manualPumpLoad := 0.0;
      found, throttle := HandlePump();
    }
  }

  /** What constructing a `PWM_hat` from a configuration document gives. */
  datatype Opened = Opened(hat: PwmHat) | Rejected(error: ConfigError)

  /** `PWM_hat(...)` from an already-parsed `CHANNEL_CONFIGS`: count the inputs, validate
      (a failure is the ValueError of the constructor), then build the controller. */
  method Open(raw: RawConfig, pow: (real, real) -> real, pumpVariable: bool, tracksDisabled: bool,
              threshold: real, deadzone: real, now: real) returns (r: Opened)
    ensures r.Rejected? <==> Validate(raw, |InputChannelSet(raw)|).Fail?
    ensures r.Rejected? ==> r.error == Validate(raw, |InputChannelSet(raw)|).error
    ensures r.Opened? ==> && fresh(r.hat) && r.hat.Valid()
                          && Validate(raw, |InputChannelSet(raw)|) == Pass
                          && r.hat.cfg.channels == Parse(raw, |InputChannelSet(raw)|)
                          && r.hat.cfg.numInputs == |InputChannelSet(raw)|
                          && ConfigValid(r.hat.cfg)
                          && r.hat.View() == InitialHat(r.hat.cfg, pumpVariable, tracksDisabled, threshold,
                                                        deadzone, now)
  {
    var numInputs := CalculateNumInputs(raw);
    var check := Validate(raw, numInputs);
    if check.Fail? {
      return Rejected(check.error);
    }
    var channels := Parse(raw, numInputs);
    assert forall c :: c in channels ==> ChannelValid(c, numInputs);
    var hat := new PwmHat(channels, numInputs, pow, pumpVariable, tracksDisabled, threshold, deadzone, now);
    r := Opened(hat);
  }
}
