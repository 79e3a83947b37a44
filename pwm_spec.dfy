/** The behaviour of the `PWM_hat` controller as functions on its state: the per-cycle
    shaping of `update_values`, pump blending (`handle_pump`), angle shaping
    (`handle_angles`), `reset`, one step of the input-rate watchdog, the manual pump
    load and the average input rate. The class in PwmController is proved against
    these functions; the lemmas in PwmProperties state what they guarantee. */
module PwmSpec {
  import opened Common
  import opened ChannelConfig
  import opened ServoKit

  /** `center_val_servo` */
  const CenterValServo: real := 90.0
  /** The timestamp window of the watchdog, in seconds. */
  const TimestampWindow: real := 30.0
  /** `reset`'s default `pump_reset_point` */
  const DefaultPumpResetPoint: real := -1.0
  /** Names of the track channels that `tracks_disabled` switches off. */
  const TrackLeft: string := "trackL"
  const TrackRight: string := "trackR"
  /** The channel `handle_pump` and `reset` look the pump up by. */
  const PumpName: string := "pump"

  /** The part of the controller fixed at construction. `pow` is Python's `x ** g`. */
  datatype Config = Config(
    channels: seq<Channel>,
    numInputs: nat,
    skipRateChecking: bool,
    pow: (real, real) -> real)

  /** The laws of the real power function the shaping relies on. */
  ghost predicate PowLaws(pow: (real, real) -> real)
  {
    && (forall g :: g >= 0.1 ==> pow(0.0, g) == 0.0)
    && (forall x, g :: x >= 0.0 ==> pow(x, g) >= 0.0)
    && (forall x :: x >= 0.0 ==> pow(x, 1.0) == x)
  }

  /** Every output slot of the channels exists on the hat. */
  predicate Fits(chs: seq<Channel>)
  {
    forall c :: c in chs ==> c.output < NumOutputs
  }

  /** The configuration passed validation. */
  predicate ConfigValid(cfg: Config)
  {
    forall c :: c in cfg.channels ==> ChannelValid(c, cfg.numInputs)
  }

  lemma ValidFits(cfg: Config)
    requires ConfigValid(cfg)
    ensures Fits(cfg.channels)
  {
  }

  /** The mutable state of `PWM_hat`, together with the stub hardware's angles and throttles. */
  datatype Hat = Hat(
    values: seq<real>,
    servoAngles: map<string, Option<real>>,
    isSafeState: bool,
    inputCount: int,
    lastInputTime: real,
    inputTimestamps: seq<real>,
    inputEvent: bool,
    pumpVariableSum: real,
    manualPumpLoad: real,
    pumpEnabled: bool,
    pumpVariable: bool,
    tracksDisabled: bool,
    inputRateThreshold: real,
    deadzone: real,
    angles: seq<real>,
    throttles: seq<real>)

  predicate Shaped(h: Hat)
  {
    |h.values| == NumOutputs && |h.angles| == NumOutputs && |h.throttles| == NumOutputs
  }

  // ---------------------------------------------------------------------------------------
  // update_values: clamp, deadzone, store, pump sum

  function DeadzoneThreshold(deadzone: real, minCap: real, maxCap: real): real
  {
    deadzone / 100.0 * (maxCap - minCap)
  }

  /** One input after the cap clamp and the deadzone snap. */
  function ShapeValue(x: real, minCap: real, maxCap: real, deadzone: real): (r: real)
    ensures minCap <= 0.0 <= maxCap ==> minCap <= r <= maxCap
    ensures Abs(r) < DeadzoneThreshold(deadzone, minCap, maxCap) ==> r == 0.0
    ensures r != 0.0 ==> r == Clamp(minCap, maxCap, x)
    ensures Abs(Clamp(minCap, maxCap, x)) < DeadzoneThreshold(deadzone, minCap, maxCap) ==> r == 0.0
    ensures Abs(Clamp(minCap, maxCap, x)) >= DeadzoneThreshold(deadzone, minCap, maxCap) ==> r == Clamp(minCap, maxCap, x)
  {
    var capped := Clamp(minCap, maxCap, x);
    if Abs(capped) < DeadzoneThreshold(deadzone, minCap, maxCap) then 0.0 else capped
  }

  /** The channel takes a raw input this cycle: its `input_channel` is an int inside the vector. */
  predicate Reads(c: Channel, raw: seq<real>)
  {
    c.input.Mapped? && c.input.index < |raw|
  }

  /** `values` after the shaping loop has run over `chs` in order. */
  function StoreInputs(chs: seq<Channel>, raw: seq<real>, minCap: real, maxCap: real, deadzone: real,
                       values: seq<real>): (r: seq<real>)
    requires Fits(chs) && |values| == NumOutputs
    ensures |r| == NumOutputs
    decreases |chs|
  {
    if chs == [] then values
    else
      var c := chs[|chs| - 1];
      var prev := StoreInputs(chs[..|chs| - 1], raw, minCap, maxCap, deadzone, values);
      if Reads(c, raw) then prev[c.output := ShapeValue(raw[c.input.index], minCap, maxCap, deadzone)]
      else prev
  }

  /** `pump_variable_sum` after the shaping loop: the magnitudes of the pump-affecting inputs. */
  function PumpSum(chs: seq<Channel>, raw: seq<real>, minCap: real, maxCap: real, deadzone: real): (s: real)
    ensures s >= 0.0
    decreases |chs|
  {
    if chs == [] then 0.0
    else
      var c := chs[|chs| - 1];
      PumpSum(chs[..|chs| - 1], raw, minCap, maxCap, deadzone) +
        (if Reads(c, raw) && c.affectsPump then Abs(ShapeValue(raw[c.input.index], minCap, maxCap, deadzone))
         else 0.0)
  }

  // ---------------------------------------------------------------------------------------
  // handle_pump

  /** `channel_configs['pump']`: the channel named "pump", whatever its type. */
  function NamedPump(chs: seq<Channel>): (r: Option<Channel>)
    ensures r.Some? ==> r.value in chs && r.value.name == PumpName
    ensures r.None? <==> forall c :: c in chs ==> c.name != PumpName
  {
    if chs == [] then None
    else if chs[0].name == PumpName then Some(chs[0])
    else NamedPump(chs[1..])
  }

  /** The throttle `handle_pump` computes for pump channel `p`, already clamped. */
  function PumpThrottle(p: Channel, h: Hat): (t: real)
    requires p.kind.Pump?
    ensures -1.0 <= t <= 1.0
    ensures !h.pumpEnabled ==> t == -1.0
  {
    Clamp(-1.0, 1.0, PumpDemand(p, h))
  }

  /** The throttle `handle_pump` asks for before clamping. */
  function PumpDemand(p: Channel, h: Hat): real
    requires p.kind.Pump?
  {
    var idle := p.kind.idle;
    var multiplier := p.kind.multiplier;
    if !h.pumpEnabled then -1.0
    else if p.input.Unmapped? then
      (if h.pumpVariable then idle + multiplier * h.pumpVariableSum else idle + multiplier / 10.0)
      + h.manualPumpLoad
    else if p.input.index < |h.values| then h.values[p.input.index]
    else idle
  }

  /** `handle_pump`: writes the pump throttle; `false` when `channel_configs['pump']` is not a pump
      channel (the KeyError of the source). */
  function HandlePumpSpec(cfg: Config, h: Hat): (r: (Hat, bool))
    requires Fits(cfg.channels) && Shaped(h)
    ensures Shaped(r.0)
  {
    var p := NamedPump(cfg.channels);
    if p.None? || !p.value.kind.Pump? then (h, false)
    else (h.(throttles := h.throttles[p.value.output := ClampThrottle(PumpThrottle(p.value, h))]), true)
  }

  // ---------------------------------------------------------------------------------------
  // handle_angles

  /** The angle `handle_angles` computes for angle channel `c` from its slot value `v`. */
  function AngleFor(c: Channel, v: real, pow: (real, real) -> real): (a: real)
    requires c.kind.Angle?
    ensures 0.0 <= a <= 180.0
  {
    var center := CenterValServo + c.offset;
    var gamma := if v >= 0.0 then c.kind.gammaPositive else c.kind.gammaNegative;
    var multiplier := if v >= 0.0 then c.kind.multiplierPositive else c.kind.multiplierNegative;
    var normalized := if v >= 0.0 then v else -v;
    var adjusted := pow(normalized, gamma);
    var corrected := if v >= 0.0 then adjusted else -adjusted;
    Clamp(0.0, 180.0, center + corrected * multiplier * c.direction)
  }

  predicate IsTrack(c: Channel) { c.name == TrackLeft || c.name == TrackRight }

  /** `handle_angles` drives this channel: an angle channel that is not a disabled track. */
  predicate Drives(c: Channel, tracksDisabled: bool)
  {
    c.kind.Angle? && !(tracksDisabled && IsTrack(c))
  }

  /** The key of a channel's readout in `servo_angles`. */
  function AngleKey(name: string): string { name + " angle" }

  lemma AngleKeyInjective(a: string, b: string)
    requires AngleKey(a) == AngleKey(b)
    ensures a == b
  {
    assert |a| == |b|;
    assert a == AngleKey(a)[..|a|];
  }

  /** The hardware angles after `handle_angles` has run over `chs` in order. */
  function WriteAngles(chs: seq<Channel>, values: seq<real>, tracksDisabled: bool, pow: (real, real) -> real,
                       angles: seq<real>): (r: seq<real>)
    requires Fits(chs) && |values| == NumOutputs && |angles| == NumOutputs
    ensures |r| == NumOutputs
    decreases |chs|
  {
    if chs == [] then angles
    else
      var c := chs[|chs| - 1];
      var prev := WriteAngles(chs[..|chs| - 1], values, tracksDisabled, pow, angles);
      if Drives(c, tracksDisabled) then prev[c.output := ClampAngle(AngleFor(c, values[c.output], pow))]
      else prev
  }

  /** `servo_angles` after `handle_angles` has run over `chs` in order. */
  function RecordAngles(chs: seq<Channel>, values: seq<real>, tracksDisabled: bool, pow: (real, real) -> real,
                        rec: map<string, Option<real>>): map<string, Option<real>>
    requires Fits(chs) && |values| == NumOutputs
    decreases |chs|
  {
    if chs == [] then rec
    else
      var c := chs[|chs| - 1];
      var prev := RecordAngles(chs[..|chs| - 1], values, tracksDisabled, pow, rec);
      if Drives(c, tracksDisabled) then prev[AngleKey(c.name) := Some(Round1(AngleFor(c, values[c.output], pow)))]
      else prev
  }

  function HandleAnglesSpec(cfg: Config, h: Hat): (r: Hat)
    requires Fits(cfg.channels) && Shaped(h)
    ensures Shaped(r)
  {
    h.(angles := WriteAngles(cfg.channels, h.values, h.tracksDisabled, cfg.pow, h.angles),
       servoAngles := RecordAngles(cfg.channels, h.values, h.tracksDisabled, cfg.pow, h.servoAngles))
  }

  // ---------------------------------------------------------------------------------------
  // reset

  /** The hardware angles after `reset` has centred the angle channels in `chs`, in order. */
  function ResetAngles(chs: seq<Channel>, angles: seq<real>): (r: seq<real>)
    requires Fits(chs) && |angles| == NumOutputs
    ensures |r| == NumOutputs
    decreases |chs|
  {
    if chs == [] then angles
    else
      var c := chs[|chs| - 1];
      var prev := ResetAngles(chs[..|chs| - 1], angles);
      if c.kind.Angle? then prev[c.output := ClampAngle(CenterValServo + c.offset)] else prev
  }

  function ResetSpec(cfg: Config, h: Hat, resetPump: bool, pumpResetPoint: real): (r: Hat)
    requires Fits(cfg.channels) && Shaped(h)
    ensures Shaped(r)
  {
    var p := NamedPump(cfg.channels);
    h.(angles := ResetAngles(cfg.channels, h.angles),
       throttles := if resetPump && p.Some? then h.throttles[p.value.output := ClampThrottle(pumpResetPoint)]
                    else h.throttles,
       isSafeState := false,
       inputCount := 0)
  }

  // ---------------------------------------------------------------------------------------
  // update_values as a whole

  /** What `update_values` is given: `None`, a single number, or a list. */
  datatype Raw = RawNone | RawScalar(x: real) | RawList(xs: seq<real>)

  datatype InputError =
    | InputsNone
    | WrongInputCount(expected: nat, received: nat)
    /** `channel_configs['pump']` is missing or has no pump keys: a KeyError */
    | NoPumpEntry

  datatype UpdateOutcome = Applied | Ignored | Raised(error: InputError)

  /** Every readout set to None. */
  function AllUnknown(m: map<string, Option<real>>): (r: map<string, Option<real>>)
    ensures r.Keys == m.Keys
    ensures forall k :: k in r ==> r[k] == None
  {
    map k | k in m :: None
  }

  /** Steps 1 and 2 of `update_values`: readouts cleared, the watchdog signalled. */
  function EnterSpec(cfg: Config, h: Hat): (r: Hat)
    requires Shaped(h)
    ensures Shaped(r)
  {
    h.(servoAngles := AllUnknown(h.servoAngles),
       inputEvent := if cfg.skipRateChecking then h.inputEvent else true)
  }

  /** The shaping loop: `values` and `pump_variable_sum` from an input vector of the right length. */
  function StoreSpec(cfg: Config, h: Hat, xs: seq<real>, minCap: real, maxCap: real): (r: Hat)
    requires Fits(cfg.channels) && Shaped(h)
    ensures Shaped(r)
  {
    h.(values := StoreInputs(cfg.channels, xs, minCap, maxCap, h.deadzone, h.values),
       pumpVariableSum := PumpSum(cfg.channels, xs, minCap, maxCap, h.deadzone))
  }

  /** The pump, then the angles, as far as the channel types occur. */
  function DriveSpec(cfg: Config, h: Hat): (r: (Hat, UpdateOutcome))
    requires Fits(cfg.channels) && Shaped(h)
    ensures Shaped(r.0)
  {
    var types := DefinedChannelTypes(cfg.channels);
    var pumped := if PumpType in types then HandlePumpSpec(cfg, h) else (h, true);
    if !pumped.1 then (pumped.0, Raised(NoPumpEntry))
    else ((if AngleType in types then HandleAnglesSpec(cfg, pumped.0) else pumped.0), Applied)
  }

  /** The input vector `update_values` works on: a single number becomes a one-element list. */
  function AsVector(raw: Raw): seq<real>
    requires !raw.RawNone?
  {
    if raw.RawScalar? then [raw.x] else raw.xs
  }

  /** `update_values(raw, min_cap, max_cap)`: the new state and how the call ended. */
  function UpdateSpec(cfg: Config, h: Hat, raw: Raw, minCap: real, maxCap: real): (r: (Hat, UpdateOutcome))
    requires Fits(cfg.channels) && Shaped(h)
    ensures Shaped(r.0)
  {
    var h1 := EnterSpec(cfg, h);
    if !cfg.skipRateChecking && !h1.isSafeState then (h1, Ignored)
    else ApplySpec(cfg, h1, raw, minCap, maxCap)
  }

  /** The part of `update_values` after the activity test: reject a bad vector, or store it
      and drive the outputs. */
  function ApplySpec(cfg: Config, h: Hat, raw: Raw, minCap: real, maxCap: real): (r: (Hat, UpdateOutcome))
    requires Fits(cfg.channels) && Shaped(h)
    ensures Shaped(r.0)
  {
    if raw.RawNone? then (ResetSpec(cfg, h, true, DefaultPumpResetPoint), Raised(InputsNone))
    else if |AsVector(raw)| != cfg.numInputs then
      (ResetSpec(cfg, h, true, DefaultPumpResetPoint), Raised(WrongInputCount(cfg.numInputs, |AsVector(raw)|)))
    else DriveSpec(cfg, StoreSpec(cfg, h, AsVector(raw), minCap, maxCap))
  }

  // ---------------------------------------------------------------------------------------
  // The input-rate watchdog

  /** The timestamps no older than the window, in order. */
  function Recent(ts: seq<real>, now: real): (r: seq<real>)
    ensures |r| <= |ts|
    ensures forall t :: t in r <==> t in ts && now - t <= TimestampWindow
  {
    if ts == [] then []
    else (if now - ts[0] <= TimestampWindow then [ts[0]] else []) + Recent(ts[1..], now)
  }

  /** Consecutive good inputs needed before activation: `int(threshold * 0.25)`. */
  function ActivationCount(threshold: real): int
  {
    Trunc(threshold * 0.25)
  }

  /** The input count and the activity after an input that came `diff` seconds after the
      previous one: an on-time input extends the run and may complete it, a late one ends it,
      and one with no time elapsed changes neither. */
  function CountInput(count: int, active: bool, threshold: real, diff: real): (r: (int, bool))
    ensures r.1 != active ==> r.1 && r.0 == 0
    ensures r.0 == count || r.0 == 0 || r.0 == count + 1
    ensures diff <= 0.0 ==> r == (count, active)
  {
    if diff <= 0.0 then (count, active)
    else
      var good := 1.0 / diff >= threshold;
      var next := if good then count + 1 else 0;
      if good && next >= ActivationCount(threshold) then (0, true) else (next, active)
  }

  /** The timestamps kept after an input at time `now`, `diff` seconds after the previous one. */
  function StampInput(ts: seq<real>, diff: real, now: real): (r: seq<real>)
    ensures diff > 0.0 ==> forall t :: t in r <==> t in ts + [now] && now - t <= TimestampWindow
  {
    if diff > 0.0 then Recent(ts + [now], now) else ts
  }

  /** A watchdog pass whose wait saw the input event at time `now`: the rate of this input
      decides the count and the activation, and the timestamp is recorded. */
  function InputSeenSpec(h: Hat, now: real): (r: Hat)
    ensures r.values == h.values && r.angles == h.angles && r.throttles == h.throttles
  {
    var diff := now - h.lastInputTime;
    var c := CountInput(h.inputCount, h.isSafeState, h.inputRateThreshold, diff);
    h.(inputEvent := false, lastInputTime := now, inputCount := c.0, isSafeState := c.1,
       inputTimestamps := StampInput(h.inputTimestamps, diff, now))
  }

  /** A watchdog pass whose wait timed out: an active controller centres the servos, keeps the
      pump throttle, and becomes inactive. */
  function TimeoutSpec(cfg: Config, h: Hat): (r: Hat)
    requires Fits(cfg.channels) && Shaped(h)
    ensures Shaped(r)
  {
    if h.isSafeState then ResetSpec(cfg, h, false, DefaultPumpResetPoint).(isSafeState := false, inputCount := 0)
    else h
  }

  /** One pass of the loop of `monitor_input_rate` at time `now`: the wait either saw the
      input event or timed out. */
  function MonitorStepSpec(cfg: Config, h: Hat, now: real): (r: Hat)
    requires Fits(cfg.channels) && Shaped(h)
    ensures Shaped(r)
  {
    if h.inputEvent then InputSeenSpec(h, now) else TimeoutSpec(cfg, h)
  }

  /** `get_average_input_rate` at time `now`. */
  function AverageInputRate(ts: seq<real>, now: real): (r: real)
    ensures r >= 0.0
    ensures |Recent(ts, now)| < 2 ==> r == 0.0
    ensures |Recent(ts, now)| >= 2 ==>
              var rc := Recent(ts, now);
              var span := rc[|rc| - 1] - rc[0];
              (span <= 0.0 ==> r == 0.0) && (span > 0.0 ==> r * span == (|rc| - 1) as real)
  {
    var recent := Recent(ts, now);
    if |recent| < 2 then 0.0
    else
      var span := recent[|recent| - 1] - recent[0];
      if span > 0.0 then (|recent| - 1) as real / span else 0.0
  }

  // ---------------------------------------------------------------------------------------
  // Manual pump load and setters

  /** `update_pump`: clamp the accumulated manual load, then re-apply `handle_pump`. */
  function UpdatePumpSpec(cfg: Config, h: Hat, adjustment: real): (r: (Hat, bool))
    requires Fits(cfg.channels) && Shaped(h)
  {
    HandlePumpSpec(cfg, h.(manualPumpLoad := Clamp(-1.0, 1.0, h.manualPumpLoad + adjustment)))
  }

  /** `reset_pump_load`: zero the manual load, then re-apply `handle_pump`. */
  function ResetPumpLoadSpec(cfg: Config, h: Hat): (r: (Hat, bool))
    requires Fits(cfg.channels) && Shaped(h)
  {
    HandlePumpSpec(cfg, h.(manualPumpLoad := 0.0))
  }

  /** `set_threshold`: a threshold that is not positive is refused. */
  function SetThresholdSpec(h: Hat, threshold: real): Hat
  {
    if threshold <= 0.0 then h else h.(inputRateThreshold := threshold)
  }

  // ---------------------------------------------------------------------------------------
  // Construction

  /** The keys of `servo_angles`: one per angle channel. */
  function ReadoutKeys(chs: seq<Channel>): set<string>
  {
    set c | c in chs && c.kind.Angle? :: AngleKey(c.name)
  }

  /** The state `__init__` leaves: fresh stub hardware, readouts None, then `reset()`. */
  function InitialHat(cfg: Config, pumpVariable: bool, tracksDisabled: bool, threshold: real, deadzone: real,
                      now: real): Hat
    requires Fits(cfg.channels)
  {
    var h0 := Hat(
      values := seq(NumOutputs, _ => 0.0),
      servoAngles := map k | k in ReadoutKeys(cfg.channels) :: None,
      isSafeState := true,
      inputCount := 0,
      lastInputTime := now,
      inputTimestamps := [],
      inputEvent := false,
      pumpVariableSum := 0.0,
      manualPumpLoad := 0.0,
      pumpEnabled := true,
      pumpVariable := pumpVariable,
      tracksDisabled := tracksDisabled,
      inputRateThreshold := threshold,
      deadzone := deadzone,
      angles := seq(NumOutputs, _ => InitialAngle),
      throttles := seq(NumOutputs, _ => InitialThrottle));
    ResetSpec(cfg, h0, true, DefaultPumpResetPoint)
  }
}
