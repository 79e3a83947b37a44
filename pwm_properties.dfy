/** What the controller guarantees, stated and proved over the functions of PwmSpec:
    where each shaping step writes, the ranges of everything that reaches the hardware,
    the reset being idempotent, the watchdog's transitions, and an invariant that every
    operation keeps. */
module PwmProperties {
  import opened Common
  import opened ChannelConfig
  import opened ServoKit
  import opened PwmSpec

  // ---------------------------------------------------------------------------------------
  // The shaping loop

  /** Channel `c` stores into slot `k` this cycle. */
  predicate StoresInto(c: Channel, raw: seq<real>, k: nat)
  {
    Reads(c, raw) && c.output == k
  }

  /** Channel `i` is the last one of `chs` to store into slot `k`. */
  predicate LastStore(chs: seq<Channel>, raw: seq<real>, k: nat, i: int)
  {
    0 <= i < |chs| && StoresInto(chs[i], raw, k) && forall j :: i < j < |chs| ==> !StoresInto(chs[j], raw, k)
  }

  /** A slot no channel reads into keeps its value; otherwise it holds the shaped input of the
      last channel that stores into it. */
  lemma {:induction false} StoredSlot(chs: seq<Channel>, raw: seq<real>, minCap: real, maxCap: real,
                                      deadzone: real, values: seq<real>, k: nat)
    requires Fits(chs) && |values| == NumOutputs && k < NumOutputs
    ensures (forall i :: 0 <= i < |chs| ==> !StoresInto(chs[i], raw, k)) ==>
              StoreInputs(chs, raw, minCap, maxCap, deadzone, values)[k] == values[k]
    ensures forall i :: LastStore(chs, raw, k, i) ==>
              StoreInputs(chs, raw, minCap, maxCap, deadzone, values)[k] ==
                ShapeValue(raw[chs[i].input.index], minCap, maxCap, deadzone)
  {
    if chs != [] {
      var n := |chs| - 1;
      var init := chs[..n];
      var c := chs[n];
      assert forall i :: 0 <= i < n ==> init[i] == chs[i];
      StoredSlot(init, raw, minCap, maxCap, deadzone, values, k);
      var r := StoreInputs(chs, raw, minCap, maxCap, deadzone, values);
      var prev := StoreInputs(init, raw, minCap, maxCap, deadzone, values);
      if StoresInto(c, raw, k) {
        assert r[k] == ShapeValue(raw[c.input.index], minCap, maxCap, deadzone);
        forall i | LastStore(chs, raw, k, i) ensures i == n {
        }
      } else {
        assert r[k] == prev[k];
        forall i | LastStore(chs, raw, k, i) ensures LastStore(init, raw, k, i) {
        }
      }
    }
  }

  /** Every stored value lies within the caps when the caps straddle zero and the old values did. */
  lemma {:induction false} StoredWithinCaps(chs: seq<Channel>, raw: seq<real>, minCap: real, maxCap: real,
                                            deadzone: real, values: seq<real>)
    requires Fits(chs) && |values| == NumOutputs && minCap <= 0.0 <= maxCap
    requires forall k :: 0 <= k < NumOutputs ==> minCap <= values[k] <= maxCap
    ensures forall k :: 0 <= k < NumOutputs ==>
              minCap <= StoreInputs(chs, raw, minCap, maxCap, deadzone, values)[k] <= maxCap
  {
    if chs != [] {
      StoredWithinCaps(chs[..|chs| - 1], raw, minCap, maxCap, deadzone, values);
    }
  }

  /** `pump_variable_sum` is the sum of the magnitudes of the pump-affecting inputs: it grows by
      exactly one term per such channel. */
  lemma PumpSumStep(chs: seq<Channel>, c: Channel, raw: seq<real>, minCap: real, maxCap: real, deadzone: real)
    ensures PumpSum(chs + [c], raw, minCap, maxCap, deadzone) ==
      PumpSum(chs, raw, minCap, maxCap, deadzone) +
      (if Reads(c, raw) && c.affectsPump then Abs(ShapeValue(raw[c.input.index], minCap, maxCap, deadzone)) else 0.0)
  {
    assert (chs + [c])[..|chs|] == chs;
  }

  /** No channel affects the pump: the sum is zero. */
  lemma {:induction false} PumpSumZero(chs: seq<Channel>, raw: seq<real>, minCap: real, maxCap: real, deadzone: real)
    requires forall c :: c in chs ==> !c.affectsPump
    ensures PumpSum(chs, raw, minCap, maxCap, deadzone) == 0.0
  {
    if chs != [] {
      assert chs[|chs| - 1] in chs;
      PumpSumZero(chs[..|chs| - 1], raw, minCap, maxCap, deadzone);
    }
  }

  // ---------------------------------------------------------------------------------------
  // The pump

  /** A disabled pump gets -1.0 written, whatever the idle, multiplier or manual load. */
  lemma PumpDisabledOverride(cfg: Config, h: Hat)
    requires Fits(cfg.channels) && Shaped(h) && !h.pumpEnabled
    ensures var r := HandlePumpSpec(cfg, h);
      r.1 ==> r.0.throttles == h.throttles[NamedPump(cfg.channels).value.output := -1.0]
  {
  }

  /** With no direct input, the pump runs at idle plus the blended sum (or a tenth of the
      multiplier) plus the manual load, clamped. */
  lemma PumpWithoutInput(p: Channel, h: Hat)
    requires p.kind.Pump? && p.input.Unmapped? && h.pumpEnabled
    ensures PumpThrottle(p, h) == Clamp(-1.0, 1.0, PumpDemand(p, h))
    ensures PumpDemand(p, h) ==
      (if h.pumpVariable then p.kind.idle + p.kind.multiplier * h.pumpVariableSum
       else p.kind.idle + p.kind.multiplier / 10.0) + h.manualPumpLoad
  {
  }

  /** A pump with a direct input uses `values[input_channel]`: the slot of its input index,
      although `values` is indexed by output channel. */
  lemma PumpWithInput(p: Channel, h: Hat)
    requires p.kind.Pump? && p.input.Mapped? && h.pumpEnabled && Shaped(h) && p.input.index < NumOutputs
    ensures PumpThrottle(p, h) == Clamp(-1.0, 1.0, h.values[p.input.index])
  {
  }

  /** idle -0.2, multiplier 0.5, variable mode, sum 0.4, no manual load: throttle 0.0. */
  lemma PumpBlendExample(p: Channel, h: Hat)
    requires p.kind == Pump(-0.2, 0.5) && p.input.Unmapped?
    requires h.pumpEnabled && h.pumpVariable && h.pumpVariableSum == 0.4 && h.manualPumpLoad == 0.0
    ensures PumpThrottle(p, h) == 0.0
  {
  }

  // ---------------------------------------------------------------------------------------
  // The angles

  /** A zero slot value puts a validated angle channel at its centre, whatever its gamma and
      multiplier: `0 ** gamma == 0`. */
  lemma AngleAtZero(c: Channel, numInputs: nat, pow: (real, real) -> real)
    requires c.kind.Angle? && ChannelValid(c, numInputs) && PowLaws(pow)
    ensures AngleFor(c, 0.0, pow) == CenterValServo + c.offset
  {
    assert pow(0.0, c.kind.gammaPositive) == 0.0;
  }

  /** offset 0, direction 1, multiplier 45, gamma 1: 0.5 gives 112.5. */
  lemma AngleExample(c: Channel, pow: (real, real) -> real)
    requires c.kind.Angle? && c.kind.gammaPositive == 1.0 && c.kind.multiplierPositive == 45.0
    requires c.offset == 0.0 && c.direction == 1.0 && PowLaws(pow)
    ensures AngleFor(c, 0.5, pow) == 112.5
  {
    assert pow(0.5, 1.0) == 0.5;
  }

  /** deadzone 20 % and caps [-1, 1]: 0.5 passes unchanged, 0.1 is snapped to 0. */
  lemma DeadzoneExample()
    ensures ShapeValue(0.5, -1.0, 1.0, 20.0) == 0.5
    ensures ShapeValue(0.1, -1.0, 1.0, 20.0) == 0.0
    ensures ShapeValue(-0.1, -1.0, 1.0, 20.0) == 0.0
  {
  }

  /** Channel `c` drives slot `k`. */
  predicate DrivesSlot(c: Channel, tracksDisabled: bool, k: nat)
  {
    Drives(c, tracksDisabled) && c.output == k
  }

  /** Channel `i` is the last one of `chs` to drive slot `k`. */
  predicate LastDrive(chs: seq<Channel>, tracksDisabled: bool, k: nat, i: int)
  {
    0 <= i < |chs| && DrivesSlot(chs[i], tracksDisabled, k) &&
    forall j :: i < j < |chs| ==> !DrivesSlot(chs[j], tracksDisabled, k)
  }

  /** A slot no driven channel writes keeps its angle; otherwise it holds the angle of the
      last channel that drives it. */
  lemma {:induction false} WrittenSlot(chs: seq<Channel>, values: seq<real>, tracksDisabled: bool,
                                       pow: (real, real) -> real, angles: seq<real>, k: nat)
    requires Fits(chs) && |values| == NumOutputs && |angles| == NumOutputs && k < NumOutputs
    ensures (forall i :: 0 <= i < |chs| ==> !DrivesSlot(chs[i], tracksDisabled, k)) ==>
              WriteAngles(chs, values, tracksDisabled, pow, angles)[k] == angles[k]
    ensures forall i :: LastDrive(chs, tracksDisabled, k, i) ==>
              WriteAngles(chs, values, tracksDisabled, pow, angles)[k] == AngleFor(chs[i], values[k], pow)
  {
    if chs != [] {
      var n := |chs| - 1;
      var init := chs[..n];
      var c := chs[n];
      assert forall i :: 0 <= i < n ==> init[i] == chs[i];
      WrittenSlot(init, values, tracksDisabled, pow, angles, k);
      var r := WriteAngles(chs, values, tracksDisabled, pow, angles);
      var prev := WriteAngles(init, values, tracksDisabled, pow, angles);
      if DrivesSlot(c, tracksDisabled, k) {
        assert r[k] == AngleFor(c, values[k], pow);
        forall i | LastDrive(chs, tracksDisabled, k, i) ensures i == n {
        }
      } else {
        assert r[k] == prev[k];
        forall i | LastDrive(chs, tracksDisabled, k, i) ensures LastDrive(init, tracksDisabled, k, i) {
        }
      }
    }
  }

  /** Every angle that reaches the hardware is in [0, 180]. */
  lemma {:induction false} WrittenAnglesInRange(chs: seq<Channel>, values: seq<real>, tracksDisabled: bool,
                                                pow: (real, real) -> real, angles: seq<real>)
    requires Fits(chs) && |values| == NumOutputs && |angles| == NumOutputs
    requires forall k :: 0 <= k < NumOutputs ==> 0.0 <= angles[k] <= 180.0
    ensures forall k :: 0 <= k < NumOutputs ==> 0.0 <= WriteAngles(chs, values, tracksDisabled, pow, angles)[k] <= 180.0
  {
    if chs != [] {
      WrittenAnglesInRange(chs[..|chs| - 1], values, tracksDisabled, pow, angles);
    }
  }

  /** The readout keys a run of `handle_angles` can set. */
  predicate KeysCovered(chs: seq<Channel>, keys: set<string>)
  {
    forall c :: c in chs && c.kind.Angle? ==> AngleKey(c.name) in keys
  }

  /** Recording keeps the key set and keeps every recorded angle in [0, 180]. */
  lemma {:induction false} RecordedKeysAndRange(chs: seq<Channel>, values: seq<real>, tracksDisabled: bool,
                                                pow: (real, real) -> real, rec: map<string, Option<real>>)
    requires Fits(chs) && |values| == NumOutputs && KeysCovered(chs, rec.Keys)
    requires forall k :: k in rec && rec[k].Some? ==> 0.0 <= rec[k].value <= 180.0
    ensures RecordAngles(chs, values, tracksDisabled, pow, rec).Keys == rec.Keys
    ensures var r := RecordAngles(chs, values, tracksDisabled, pow, rec);
      forall k :: k in r && r[k].Some? ==> 0.0 <= r[k].value <= 180.0
  {
    if chs != [] {
      var c := chs[|chs| - 1];
      assert c in chs;
      RecordedKeysAndRange(chs[..|chs| - 1], values, tracksDisabled, pow, rec);
    }
  }

  /** A readout whose key belongs to no driven channel is neither set nor removed. */
  lemma {:induction false} UndrivenReadoutKept(chs: seq<Channel>, values: seq<real>, tracksDisabled: bool,
                                               pow: (real, real) -> real, rec: map<string, Option<real>>,
                                               key: string)
    requires Fits(chs) && |values| == NumOutputs
    requires forall c :: c in chs && Drives(c, tracksDisabled) ==> AngleKey(c.name) != key
    ensures var r := RecordAngles(chs, values, tracksDisabled, pow, rec);
      (key in r <==> key in rec) && (key in rec ==> r[key] == rec[key])
  {
    if chs != [] {
      assert chs[|chs| - 1] in chs;
      UndrivenReadoutKept(chs[..|chs| - 1], values, tracksDisabled, pow, rec, key);
    }
  }

  /** With tracks disabled, the readouts of `trackL` and `trackR` are left as they were. */
  lemma TrackReadoutsKept(chs: seq<Channel>, values: seq<real>, pow: (real, real) -> real,
                          rec: map<string, Option<real>>, track: string)
    requires Fits(chs) && |values| == NumOutputs && (track == TrackLeft || track == TrackRight)
    ensures var r := RecordAngles(chs, values, true, pow, rec);
      (AngleKey(track) in r <==> AngleKey(track) in rec) && (AngleKey(track) in rec ==> r[AngleKey(track)] == rec[AngleKey(track)])
  {
    forall c | c in chs && Drives(c, true) ensures AngleKey(c.name) != AngleKey(track) {
      if AngleKey(c.name) == AngleKey(track) {
        AngleKeyInjective(c.name, track);
      }
    }
    UndrivenReadoutKept(chs, values, true, pow, rec, AngleKey(track));
  }

  /** A driven channel whose name no later driven channel shares records `round(angle, 1)`. */
  lemma {:induction false} RecordedReadout(chs: seq<Channel>, values: seq<real>, tracksDisabled: bool,
                                           pow: (real, real) -> real, rec: map<string, Option<real>>, i: nat)
    requires Fits(chs) && |values| == NumOutputs && i < |chs| && Drives(chs[i], tracksDisabled)
    requires forall j :: i < j < |chs| && Drives(chs[j], tracksDisabled) ==> chs[j].name != chs[i].name
    ensures var r := RecordAngles(chs, values, tracksDisabled, pow, rec);
      AngleKey(chs[i].name) in r && r[AngleKey(chs[i].name)] == Some(Round1(AngleFor(chs[i], values[chs[i].output], pow)))
  {
    var n := |chs| - 1;
    if i < n {
      var init := chs[..n];
      assert init[i] == chs[i];
      assert forall j :: i < j < n ==> init[j] == chs[j];
      RecordedReadout(init, values, tracksDisabled, pow, rec, i);
      if Drives(chs[n], tracksDisabled) {
        if AngleKey(chs[n].name) == AngleKey(chs[i].name) {
          AngleKeyInjective(chs[n].name, chs[i].name);
        }
      }
    }
  }

  // ---------------------------------------------------------------------------------------
  // reset

  /** An angle channel's neutral position. */
  function NeutralAngle(c: Channel): real { ClampAngle(CenterValServo + c.offset) }

  /** `reset` leaves a slot no angle channel uses alone, and puts every other slot at the neutral
      position of the last angle channel on it. */
  lemma ResetSlot(chs: seq<Channel>, angles: seq<real>, k: nat)
    requires Fits(chs) && |angles| == NumOutputs && k < NumOutputs
    ensures (forall i :: 0 <= i < |chs| ==> !(chs[i].kind.Angle? && chs[i].output == k)) ==>
              ResetAngles(chs, angles)[k] == angles[k]
    ensures forall i :: 0 <= i < |chs| && chs[i].kind.Angle? && chs[i].output == k &&
                        (forall j :: i < j < |chs| ==> !(chs[j].kind.Angle? && chs[j].output == k)) ==>
              ResetAngles(chs, angles)[k] == NeutralAngle(chs[i])
  {
    if forall i :: 0 <= i < |chs| ==> !(chs[i].kind.Angle? && chs[i].output == k) {
      ResetSlotUntouched(chs, angles, k);
    }
    forall i | 0 <= i < |chs| && chs[i].kind.Angle? && chs[i].output == k &&
               (forall j :: i < j < |chs| ==> !(chs[j].kind.Angle? && chs[j].output == k))
      ensures ResetAngles(chs, angles)[k] == NeutralAngle(chs[i])
    {
      ResetSlotLast(chs, angles, k, i);
    }
  }

  /** A slot no angle channel uses keeps its angle. */
  lemma {:induction false} ResetSlotUntouched(chs: seq<Channel>, angles: seq<real>, k: nat)
    requires Fits(chs) && |angles| == NumOutputs && k < NumOutputs
    requires forall i :: 0 <= i < |chs| ==> !(chs[i].kind.Angle? && chs[i].output == k)
    ensures ResetAngles(chs, angles)[k] == angles[k]
  {
    if chs != [] {
      var init := chs[..|chs| - 1];
      assert forall i :: 0 <= i < |init| ==> init[i] == chs[i];
      ResetSlotUntouched(init, angles, k);
    }
  }

  /** A slot ends at the neutral position of the last angle channel `chs[i]` on it. */
  lemma {:induction false} ResetSlotLast(chs: seq<Channel>, angles: seq<real>, k: nat, i: nat)
    requires Fits(chs) && |angles| == NumOutputs && k < NumOutputs
    requires i < |chs| && chs[i].kind.Angle? && chs[i].output == k
    requires forall j :: i < j < |chs| ==> !(chs[j].kind.Angle? && chs[j].output == k)
    ensures ResetAngles(chs, angles)[k] == NeutralAngle(chs[i])
  {
    var n := |chs| - 1;
    if i < n {
      var init := chs[..n];
      assert init[i] == chs[i];
      assert forall j :: i < j < n ==> init[j] == chs[j];
      ResetSlotLast(init, angles, k, i);
    }
  }

  /** The slots `reset` writes do not depend on what was there before. */
  lemma {:induction false} ResetAnglesOverwrite(chs: seq<Channel>, a: seq<real>, b: seq<real>, k: nat)
    requires Fits(chs) && |a| == NumOutputs && |b| == NumOutputs && k < NumOutputs
    requires exists i :: 0 <= i < |chs| && chs[i].kind.Angle? && chs[i].output == k
    ensures ResetAngles(chs, a)[k] == ResetAngles(chs, b)[k]
  {
    var n := |chs| - 1;
    var c := chs[n];
    if !(c.kind.Angle? && c.output == k) {
      var i :| 0 <= i < |chs| && chs[i].kind.Angle? && chs[i].output == k;
      assert chs[..n][i] == chs[i];
      ResetAnglesOverwrite(chs[..n], a, b, k);
    }
  }

  lemma ResetAnglesIdempotent(chs: seq<Channel>, angles: seq<real>)
    requires Fits(chs) && |angles| == NumOutputs
    ensures ResetAngles(chs, ResetAngles(chs, angles)) == ResetAngles(chs, angles)
  {
    var once := ResetAngles(chs, angles);
    forall k | 0 <= k < NumOutputs ensures ResetAngles(chs, once)[k] == once[k] {
      if exists i :: 0 <= i < |chs| && chs[i].kind.Angle? && chs[i].output == k {
        ResetAnglesOverwrite(chs, once, angles, k);
      } else {
        ResetSlot(chs, once, k);
      }
    }
  }

  /** `reset` is idempotent: a second call changes nothing. */
  lemma ResetIdempotent(cfg: Config, h: Hat, resetPump: bool, pumpResetPoint: real)
    requires Fits(cfg.channels) && Shaped(h)
    ensures ResetSpec(cfg, ResetSpec(cfg, h, resetPump, pumpResetPoint), resetPump, pumpResetPoint)
         == ResetSpec(cfg, h, resetPump, pumpResetPoint)
  {
    ResetAnglesIdempotent(cfg.channels, h.angles);
  }

  /** After `reset` every angle channel of a configuration with distinct output slots is at
      `90 + offset`; the controller is inactive with a zero count. */
  lemma ResetCentres(cfg: Config, h: Hat, resetPump: bool, pumpResetPoint: real, i: nat)
    requires ConfigValid(cfg) && Shaped(h) && i < |cfg.channels| && cfg.channels[i].kind.Angle?
    requires forall j :: 0 <= j < |cfg.channels| && j != i && cfg.channels[j].kind.Angle? ==>
               cfg.channels[j].output != cfg.channels[i].output
    ensures var r := ResetSpec(cfg, h, resetPump, pumpResetPoint);
      && r.angles[cfg.channels[i].output] == CenterValServo + cfg.channels[i].offset
      && !r.isSafeState && r.inputCount == 0
  {
    var c := cfg.channels[i];
    assert c in cfg.channels;
    ResetSlot(cfg.channels, h.angles, c.output);
  }

  /** `reset` moves at most one throttle: the one of the channel named "pump", to the clamped
      reset point, and only when `reset_pump` is set and that channel exists. */
  lemma ResetPumpThrottle(cfg: Config, h: Hat, resetPump: bool, pumpResetPoint: real)
    requires Fits(cfg.channels) && Shaped(h)
    ensures var r := ResetSpec(cfg, h, resetPump, pumpResetPoint);
      var p := NamedPump(cfg.channels);
      forall k :: 0 <= k < NumOutputs ==>
        r.throttles[k] == (if resetPump && p.Some? && k == p.value.output then ClampThrottle(pumpResetPoint)
                           else h.throttles[k])
  {
  }

  lemma {:induction false} ResetAnglesInRange(chs: seq<Channel>, angles: seq<real>)
    requires Fits(chs) && |angles| == NumOutputs
    requires forall k :: 0 <= k < NumOutputs ==> 0.0 <= angles[k] <= 180.0
    ensures forall k :: 0 <= k < NumOutputs ==> 0.0 <= ResetAngles(chs, angles)[k] <= 180.0
  {
    if chs != [] {
      ResetAnglesInRange(chs[..|chs| - 1], angles);
    }
  }

  // ---------------------------------------------------------------------------------------
  // update_values

  /** While inactive (and rate checking is on) a call is dropped after clearing the readouts and
      signalling the watchdog: no value, angle or throttle changes. */
  lemma UpdateWhileInactive(cfg: Config, h: Hat, raw: Raw, minCap: real, maxCap: real)
    requires Fits(cfg.channels) && Shaped(h) && !cfg.skipRateChecking && !h.isSafeState
    ensures UpdateSpec(cfg, h, raw, minCap, maxCap) ==
      (h.(servoAngles := AllUnknown(h.servoAngles), inputEvent := true), Ignored)
  {
  }

  /** With rate checking off a call is never dropped and never signals the watchdog. */
  lemma UpdateWithoutRateChecking(cfg: Config, h: Hat, raw: Raw, minCap: real, maxCap: real)
    requires Fits(cfg.channels) && Shaped(h) && cfg.skipRateChecking
    ensures var r := UpdateSpec(cfg, h, raw, minCap, maxCap);
      r.1 != Ignored && r.0.inputEvent == h.inputEvent
  {
    var h1 := EnterSpec(cfg, h);
    if !raw.RawNone? && |AsVector(raw)| == cfg.numInputs {
      DriveKeepsInputs(cfg, StoreSpec(cfg, h1, AsVector(raw), minCap, maxCap));
    }
  }

  /** A missing vector or one of the wrong length resets the hat (angles centred, pump to -1)
      before raising; so does nothing else. */
  lemma UpdateRejectsBadInput(cfg: Config, h: Hat, raw: Raw, minCap: real, maxCap: real)
    requires Fits(cfg.channels) && Shaped(h) && (cfg.skipRateChecking || h.isSafeState)
    ensures var r := UpdateSpec(cfg, h, raw, minCap, maxCap);
      && (raw.RawNone? <==> r.1 == Raised(InputsNone))
      && (!raw.RawNone? && |AsVector(raw)| != cfg.numInputs <==>
            r.1 == Raised(WrongInputCount(cfg.numInputs, if raw.RawNone? then 0 else |AsVector(raw)|)))
      && (r.1 == Raised(InputsNone) || (r.1.Raised? && r.1.error.WrongInputCount?) ==>
            r.0 == ResetSpec(cfg, EnterSpec(cfg, h), true, DefaultPumpResetPoint) && !r.0.isSafeState)
  {
  }

  /** A call that is applied had a vector of the right length, stored the shaped inputs and
      the pump sum, and left the activity alone. */
  lemma UpdateApplied(cfg: Config, h: Hat, raw: Raw, minCap: real, maxCap: real)
    requires Fits(cfg.channels) && Shaped(h)
    ensures var r := UpdateSpec(cfg, h, raw, minCap, maxCap);
      r.1 == Applied ==>
        && !raw.RawNone? && |AsVector(raw)| == cfg.numInputs
        && r.0.values == StoreInputs(cfg.channels, AsVector(raw), minCap, maxCap, h.deadzone, h.values)
        && r.0.pumpVariableSum == PumpSum(cfg.channels, AsVector(raw), minCap, maxCap, h.deadzone)
        && r.0.isSafeState == h.isSafeState
  {
    var h1 := EnterSpec(cfg, h);
    if (cfg.skipRateChecking || h1.isSafeState) && !raw.RawNone? && |AsVector(raw)| == cfg.numInputs {
      DriveKeepsInputs(cfg, StoreSpec(cfg, h1, AsVector(raw), minCap, maxCap));
    }
  }

  /** Driving the pump and the angles leaves the stored inputs, the activity and the watchdog
      flag alone. */
  lemma DriveKeepsInputs(cfg: Config, h: Hat)
    requires Fits(cfg.channels) && Shaped(h)
    ensures var r := DriveSpec(cfg, h).0;
      && r.values == h.values && r.pumpVariableSum == h.pumpVariableSum && r.isSafeState == h.isSafeState
      && r.inputEvent == h.inputEvent
  {
    if PumpType in DefinedChannelTypes(cfg.channels) {
      HandlePumpWritesThrottles(cfg, h);
    }
  }

  /** The pump entry is looked up only when a pump-typed channel exists; without one named
      "pump" the call raises after the inputs were stored and before any angle is written. */
  lemma UpdateMissingPump(cfg: Config, h: Hat, raw: Raw, minCap: real, maxCap: real)
    requires Fits(cfg.channels) && Shaped(h) && (cfg.skipRateChecking || h.isSafeState)
    requires !raw.RawNone? && |AsVector(raw)| == cfg.numInputs
    requires PumpType in DefinedChannelTypes(cfg.channels)
    requires forall c :: c in cfg.channels ==> c.name != PumpName
    ensures var r := UpdateSpec(cfg, h, raw, minCap, maxCap);
      r.1 == Raised(NoPumpEntry) && r.0.angles == h.angles && r.0.throttles == h.throttles
  {
  }

  // ---------------------------------------------------------------------------------------
  // The watchdog

  /** An on-time input that completes the run of good inputs activates control. */
  lemma WatchdogActivates(cfg: Config, h: Hat, now: real)
    requires Fits(cfg.channels) && Shaped(h) && h.inputEvent && now > h.lastInputTime
    requires 1.0 / (now - h.lastInputTime) >= h.inputRateThreshold
    requires h.inputCount + 1 >= ActivationCount(h.inputRateThreshold)
    ensures var r := MonitorStepSpec(cfg, h, now);
      r.isSafeState && r.inputCount == 0 && !r.inputEvent && r.lastInputTime == now
      && r.angles == h.angles && r.throttles == h.throttles
  {
  }

  /** An on-time input short of the run counts one more and leaves the activity alone. */
  lemma WatchdogCounts(cfg: Config, h: Hat, now: real)
    requires Fits(cfg.channels) && Shaped(h) && h.inputEvent && now > h.lastInputTime
    requires 1.0 / (now - h.lastInputTime) >= h.inputRateThreshold
    requires h.inputCount + 1 < ActivationCount(h.inputRateThreshold)
    ensures var r := MonitorStepSpec(cfg, h, now);
      r.inputCount == h.inputCount + 1 && r.isSafeState == h.isSafeState && !r.inputEvent
  {
  }

  /** A late input restarts the run without deactivating. */
  lemma WatchdogSlowInput(cfg: Config, h: Hat, now: real)
    requires Fits(cfg.channels) && Shaped(h) && h.inputEvent && now > h.lastInputTime
    requires 1.0 / (now - h.lastInputTime) < h.inputRateThreshold
    ensures var r := MonitorStepSpec(cfg, h, now);
      r.inputCount == 0 && r.isSafeState == h.isSafeState && !r.inputEvent && r.lastInputTime == now
  {
  }

  /** An input seen with no time elapsed since the previous one only lowers the flag and
      moves the last input time: no rate is taken and no timestamp recorded. */
  lemma WatchdogNoTimeElapsed(cfg: Config, h: Hat, now: real)
    requires Fits(cfg.channels) && Shaped(h) && h.inputEvent && now <= h.lastInputTime
    ensures MonitorStepSpec(cfg, h, now) == h.(inputEvent := false, lastInputTime := now)
  {
  }

  /** A timed-out wait while active resets the angles (the pump throttle is left alone) and
      deactivates; while inactive it changes nothing. */
  lemma WatchdogTimeout(cfg: Config, h: Hat, now: real)
    requires Fits(cfg.channels) && Shaped(h) && !h.inputEvent
    ensures var r := MonitorStepSpec(cfg, h, now);
      && (h.isSafeState ==> !r.isSafeState && r.inputCount == 0
                            && r.angles == ResetAngles(cfg.channels, h.angles) && r.throttles == h.throttles
                            && r.values == h.values)
      && (!h.isSafeState ==> r == h)
  {
  }

  // ---------------------------------------------------------------------------------------
  // get_average_input_rate

  /** Samples inside the window, spaced `d > 0` seconds apart, give a rate of `1 / d` per second. */
  lemma SteadyInputRate(ts: seq<real>, now: real, d: real)
    requires |ts| >= 2 && d > 0.0
    requires forall i :: 0 <= i < |ts| ==> now - ts[i] <= TimestampWindow
    requires forall i :: 0 < i < |ts| ==> ts[i] == ts[i - 1] + d
    ensures AverageInputRate(ts, now) == 1.0 / d
  {
    SteadySpan(ts, d, |ts| - 1);
    var n := (|ts| - 1) as real;
    CancelCount(n, d);
    RateOfAllRecent(ts, now);
  }

  /** When every sample is recent, the rate is the sample count less one over the span. */
  lemma RateOfAllRecent(ts: seq<real>, now: real)
    requires |ts| >= 2
    requires forall i :: 0 <= i < |ts| ==> now - ts[i] <= TimestampWindow
    ensures ts[|ts| - 1] - ts[0] > 0.0 ==>
              AverageInputRate(ts, now) == (|ts| - 1) as real / (ts[|ts| - 1] - ts[0])
  {
    RecentKeepsAll(ts, now);
  }

  /** `n` samples over `n * d` seconds are `1 / d` per second. */
  lemma CancelCount(n: real, d: real)
    requires n > 0.0 && d > 0.0
    ensures n * d > 0.0 && n / (n * d) == 1.0 / d
  {
    var m := n * d;
    assert m > 0.0;
    var q := n / m;
    assert q * m == n;
    assert (q * d - 1.0) * n == 0.0;
    assert q * d == 1.0;
  }

  /** Samples inside the window that all carry the same time give a rate of 0. */
  lemma BurstInputRate(ts: seq<real>, now: real)
    requires |ts| >= 2
    requires forall i :: 0 <= i < |ts| ==> now - ts[i] <= TimestampWindow && ts[i] == ts[0]
    ensures AverageInputRate(ts, now) == 0.0
  {
    RecentKeepsAll(ts, now);
  }

  /** The window filter keeps samples that are all recent. */
  lemma {:induction false} RecentKeepsAll(ts: seq<real>, now: real)
    requires forall i :: 0 <= i < |ts| ==> now - ts[i] <= TimestampWindow
    ensures Recent(ts, now) == ts
  {
    if ts != [] {
      assert forall i :: 0 <= i < |ts[1..]| ==> ts[1..][i] == ts[i + 1];
      RecentKeepsAll(ts[1..], now);
      assert [ts[0]] + ts[1..] == ts;
    }
  }

  /** Evenly spaced samples: the `k`-th is `k * d` after the first. */
  lemma {:induction false} SteadySpan(ts: seq<real>, d: real, k: nat)
    requires k < |ts|
    requires forall i :: 0 < i < |ts| ==> ts[i] == ts[i - 1] + d
    ensures ts[k] == ts[0] + k as real * d
  {
    if k > 0 {
      SteadySpan(ts, d, k - 1);
    }
  }

  /** Below a threshold of 4 inputs per second `int(threshold * 0.25)` is 0: one on-time input
      activates. */
  lemma LowThresholdActivatesAtOnce(threshold: real)
    requires 0.0 <= threshold < 4.0
    ensures ActivationCount(threshold) == 0
  {
    var n := ActivationCount(threshold);
    assert 0 <= n && n as real <= threshold * 0.25 < 1.0;
  }

  /** After a step that saw an input more recent than the last one, the count stays below the
      number of good inputs activation needs. */
  lemma WatchdogCountBound(cfg: Config, h: Hat, now: real)
    requires Fits(cfg.channels) && Shaped(h) && h.inputEvent && now > h.lastInputTime && h.inputCount >= 0
    ensures var r := MonitorStepSpec(cfg, h, now);
      0 <= r.inputCount && (r.inputCount == 0 || r.inputCount < ActivationCount(h.inputRateThreshold))
  {
  }

  /** Threshold 10: activation needs `int(2.5) == 2` good inputs. From inactive, a call to
      `update_values` that is dropped, an input at 20 per second (count 1), another dropped
      call and another input at 20 per second activate control, and the next call is served. */
  lemma ActivationScenario(cfg: Config, h: Hat, raw: Raw, minCap: real, maxCap: real, t0: real)
    requires Fits(cfg.channels) && Shaped(h) && !cfg.skipRateChecking
    requires !h.isSafeState && h.inputCount == 0 && h.lastInputTime == t0 && h.inputRateThreshold == 10.0
    ensures var u1 := UpdateSpec(cfg, h, raw, minCap, maxCap);
            var m1 := MonitorStepSpec(cfg, u1.0, t0 + 0.05);
            var u2 := UpdateSpec(cfg, m1, raw, minCap, maxCap);
            var m2 := MonitorStepSpec(cfg, u2.0, t0 + 0.1);
      && u1.1 == Ignored && !m1.isSafeState && m1.inputCount == 1
      && u2.1 == Ignored && m2.isSafeState && m2.inputCount == 0
      && UpdateSpec(cfg, m2, raw, minCap, maxCap).1 != Ignored
  {
    assert ActivationCount(10.0) == 2 by {
      assert Trunc(2.5) == 2;
    }
    var u1 := UpdateSpec(cfg, h, raw, minCap, maxCap);
    var m1 := MonitorStepSpec(cfg, u1.0, t0 + 0.05);
    assert 1.0 / (t0 + 0.05 - t0) == 20.0;
    var u2 := UpdateSpec(cfg, m1, raw, minCap, maxCap);
    assert u2.0.lastInputTime == t0 + 0.05;
    assert 1.0 / (t0 + 0.1 - (t0 + 0.05)) == 20.0;
  }

  // ---------------------------------------------------------------------------------------
  // The invariant

  /** What holds of the controller between any two calls: hardware values in range, the manual
      load clamped, one readout key per angle channel with readouts in [0, 180], and the
      timestamps within the window of the last input. */
  predicate Inv(cfg: Config, h: Hat)
  {
    && Fits(cfg.channels) && Shaped(h)
    && (forall k :: 0 <= k < NumOutputs ==> 0.0 <= h.angles[k] <= 180.0)
    && (forall k :: 0 <= k < NumOutputs ==> -1.0 <= h.throttles[k] <= 1.0)
    && -1.0 <= h.manualPumpLoad <= 1.0
    && h.pumpVariableSum >= 0.0
    && h.inputCount >= 0
    && h.servoAngles.Keys == ReadoutKeys(cfg.channels)
    && (forall key :: key in h.servoAngles && h.servoAngles[key].Some? ==> 0.0 <= h.servoAngles[key].value <= 180.0)
    && (forall t :: t in h.inputTimestamps ==> h.lastInputTime - t <= TimestampWindow)
  }

  /** The constructor establishes the invariant, with control inactive. */
  lemma InitialInv(cfg: Config, pumpVariable: bool, tracksDisabled: bool, threshold: real, deadzone: real, now: real)
    requires Fits(cfg.channels)
    ensures var h := InitialHat(cfg, pumpVariable, tracksDisabled, threshold, deadzone, now);
      Inv(cfg, h) && !h.isSafeState && h.inputCount == 0 && h.pumpEnabled && h.manualPumpLoad == 0.0
      && forall key :: key in h.servoAngles ==> h.servoAngles[key] == None
  {
    var angles: seq<real> := seq(NumOutputs, _ => InitialAngle);
    ResetAnglesInRange(cfg.channels, angles);
  }

  lemma ResetInv(cfg: Config, h: Hat, resetPump: bool, pumpResetPoint: real)
    requires Inv(cfg, h)
    ensures Inv(cfg, ResetSpec(cfg, h, resetPump, pumpResetPoint))
  {
    ResetAnglesInRange(cfg.channels, h.angles);
  }

  lemma HandleAnglesInv(cfg: Config, h: Hat)
    requires Inv(cfg, h)
    ensures Inv(cfg, HandleAnglesSpec(cfg, h))
  {
    WrittenAnglesInRange(cfg.channels, h.values, h.tracksDisabled, cfg.pow, h.angles);
    forall c | c in cfg.channels && c.kind.Angle? ensures AngleKey(c.name) in h.servoAngles.Keys {
      assert AngleKey(c.name) in ReadoutKeys(cfg.channels);
    }
    RecordedKeysAndRange(cfg.channels, h.values, h.tracksDisabled, cfg.pow, h.servoAngles);
  }

  /** `update_values` keeps the invariant, whatever its input and its caps. */
  lemma UpdateInv(cfg: Config, h: Hat, raw: Raw, minCap: real, maxCap: real)
    requires Inv(cfg, h)
    ensures Inv(cfg, UpdateSpec(cfg, h, raw, minCap, maxCap).0)
  {
    var h1 := EnterSpec(cfg, h);
    assert Inv(cfg, h1);
    if !cfg.skipRateChecking && !h1.isSafeState {
    } else if raw.RawNone? || |AsVector(raw)| != cfg.numInputs {
      ResetInv(cfg, h1, true, DefaultPumpResetPoint);
    } else {
      var h2 := StoreSpec(cfg, h1, AsVector(raw), minCap, maxCap);
      assert Inv(cfg, h2);
      DriveInv(cfg, h2);
    }
  }

  lemma DriveInv(cfg: Config, h: Hat)
    requires Inv(cfg, h)
    ensures Inv(cfg, DriveSpec(cfg, h).0)
  {
    var types := DefinedChannelTypes(cfg.channels);
    var pumped := if PumpType in types then HandlePumpSpec(cfg, h) else (h, true);
    if PumpType in types {
      HandlePumpWritesThrottles(cfg, h);
    }
    assert Inv(cfg, pumped.0);
    if pumped.1 && AngleType in types {
      HandleAnglesInv(cfg, pumped.0);
    }
  }

  /** One watchdog step keeps the invariant. */
  lemma MonitorInv(cfg: Config, h: Hat, now: real)
    requires Inv(cfg, h)
    ensures Inv(cfg, MonitorStepSpec(cfg, h, now))
  {
    if !h.inputEvent && h.isSafeState {
      ResetInv(cfg, h, false, DefaultPumpResetPoint);
    }
  }

  /** `handle_pump` changes nothing but the throttles and keeps each of them in [-1, 1]. */
  lemma HandlePumpWritesThrottles(cfg: Config, h: Hat)
    requires Fits(cfg.channels) && Shaped(h)
    ensures var r := HandlePumpSpec(cfg, h).0;
      && r == h.(throttles := r.throttles)
      && r.values == h.values && r.pumpVariableSum == h.pumpVariableSum
      && r.isSafeState == h.isSafeState && r.inputEvent == h.inputEvent
      && forall k :: 0 <= k < NumOutputs && -1.0 <= h.throttles[k] <= 1.0 ==> -1.0 <= r.throttles[k] <= 1.0
  {
  }

  /** `update_pump` keeps the manual load in [-1, 1] and the invariant. */
  lemma UpdatePumpInv(cfg: Config, h: Hat, adjustment: real)
    requires Inv(cfg, h)
    ensures var r := UpdatePumpSpec(cfg, h, adjustment);
      Inv(cfg, r.0) && r.0.manualPumpLoad == Clamp(-1.0, 1.0, h.manualPumpLoad + adjustment)
  {
    var h1 := h.(manualPumpLoad := Clamp(-1.0, 1.0, h.manualPumpLoad + adjustment));
    assert Inv(cfg, h1);
    HandlePumpWritesThrottles(cfg, h1);
  }

  /** `reset_pump_load` zeroes the manual load and keeps the invariant. */
  lemma ResetPumpLoadInv(cfg: Config, h: Hat)
    requires Inv(cfg, h)
    ensures var r := ResetPumpLoadSpec(cfg, h);
      Inv(cfg, r.0) && r.0.manualPumpLoad == 0.0
  {
    var h1 := h.(manualPumpLoad := 0.0);
    assert Inv(cfg, h1);
    HandlePumpWritesThrottles(cfg, h1);
  }
}
