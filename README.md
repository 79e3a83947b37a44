# Excavator control core, modelled in Dafny

This project models the control core of a small hydraulic excavator driven from a Raspberry Pi.
An Xbox pad is read through evdev (`XboxController`). Its sticks and triggers become a
six-element input vector. `PWM_hat` turns that vector into servo angles and a hydraulic-pump
throttle on a 16-channel PWM hat, here the simulated `ServoKitStub`. An input-rate watchdog
holds the machine still until inputs arrive fast enough, and it centres the servos when they
stop.

Modules, following the program's structure:

- **Common**: Python's `max(lo, min(x, hi))`, `abs`, `int()` on a float and `round(x, 1)`,
  on exact reals.
- **ChannelConfig**: the parsed `CHANNEL_CONFIGS` document, `calculate_num_inputs` (a loop),
  `validate_configuration` as an ordered rule chain, and beside it an unordered statement of a
  valid entry proved equivalent to it. It also holds the typed channel descriptors built from a
  validated document, and `get_defined_channel_types`.
- **ServoKit**: `ServoKitStub` as a class over two arrays (servo angles, continuous-servo
  throttles). Their setters clamp as the stubs' property setters do.
- **PwmSpec**: every operation of `PWM_hat` as a function on a `Hat` value. These are
  `update_values` (readout clearing, watchdog signal, error paths, the shaping loop, pump sum,
  dispatch), `handle_pump`, `handle_angles`, `reset`, and one pass of `monitor_input_rate`.
  Also here are `get_average_input_rate`, `update_pump`, `reset_pump_load`, `set_threshold`,
  and the state `__init__` leaves.
- **PwmController**: `PWM_hat` as a class with the source's fields. Each method is proved to
  move the state exactly as the matching PwmSpec function says. `Open` is the constructor's
  count, validate, build sequence, and is rejected exactly when validation fails.
- **PwmProperties**: what the controller guarantees.
  - Where each shaping step writes.
  - Angles stay in [0, 180] and throttles in [-1, 1].
  - `reset` is idempotent and centres the servos.
  - The error paths of `update_values`.
  - The watchdog's transitions and a worked activation at 10 Hz.
  - An invariant that every operation keeps.
- **Joystick**: `XboxController`.
  - Stick and trigger normalisation.
  - `_process_event` as a function, with its one-value-per-event characterisation.
  - The snapshot `read()` returns.
  - The connect, disconnect and reconnect bookkeeping of the monitoring thread: functions, and
    a class whose methods are proved against them.
- **ControlLoop**: one iteration of `main`'s loop, as a method proved against a function, with
  lemmas about what an iteration forwards and keeps.

Modelling choices:

- Python's `x ** g` is a parameter `pow` of the controller's configuration. The angle lemmas
  assume only three of its laws: `0 ** g == 0` for `g >= 0.1`, non-negative results for
  non-negative bases, and `x ** 1 == x`.
- Floats are exact reals. `round(x, 1)` is rounding half to even at one decimal.
- The clock is a `now` parameter. The watchdog's `Event.wait` is the `inputEvent` flag: set means
  the wait returned True, clear means it timed out.
- evdev is replaced by oracles. A `Pass` gives the find result, the events read before the device
  fails, and the finds made while reconnecting.

The model follows what the code does, also where its names and comments suggest otherwise:

- After `__init__` control is **inactive**. `is_safe_state` is assigned at
  `PWM_controller.py:68` and again, as True, at line 74, but the `reset()` at line 105 clears
  it. So nothing moves until the watchdog has counted enough on-time inputs.
  `is_safe_state` being True means input is accepted.
- Button A calls `set_tracks(True)`, which *disables* the tracks, although the comment at
  `main.py:40` says it enables them.
  Pressing A and B together leaves them enabled.
- A pump with a direct input reads `values[input_channel]`, although `values` is indexed by
  output channel (`PwmProperties.PumpWithInput`).
- `handle_pump` and `reset` find the pump by the channel name `"pump"`, not by type. A
  pump-typed channel under another name makes `update_values` raise KeyError after the inputs
  are stored and before any servo moves (`PwmProperties.UpdateMissingPump`).
- Validation treats a bool as an int (Python's `bool` is a subclass of `int`). Only the string
  `'None'` marks an unmapped input channel; a YAML null fails validation.

## Model

| member | source | states |
|---|---|---|
| Common.Clamp | Pwd_servo_motor/control_modules/PWM_controller.py:280 | `max(lo, min(x, hi))` lies in [lo, hi] when lo <= hi, is x itself when x is already in range, and is never below lo |
| Common.ClampIdempotent | Pwd_servo_motor/control_modules/PWM_controller.py:335 | clamping a clamped value again changes nothing |
| Common.Trunc | Pwd_servo_motor/control_modules/PWM_controller.py:220 | Python's `int()` on a float truncates toward zero: the floor for non-negative values, the ceiling for negative ones |
| Common.RoundHalfEven | Pwd_servo_motor/control_modules/PWM_controller.py:373 | the integer `round` picks lies within 0.5 of its argument |
| Common.Round1 | Pwd_servo_motor/control_modules/PWM_controller.py:373 | `round(angle, 1)` lies within 0.05 of the angle, and an angle in [0, 180] stays in [0, 180] |
| ChannelConfig.Numeric | Pwd_servo_motor/control_modules/PWM_controller.py:145-178 | an int or a bool compares as its integer value (True as 1); a string or None cannot be ordered |
| ChannelConfig.CalculateNumInputs | Pwd_servo_motor/control_modules/PWM_controller.py:110-117 | the loop returns the number of distinct integer `input_channel` values, bools included |
| ChannelConfig.FirstMissing | Pwd_servo_motor/control_modules/PWM_controller.py:127-129 | no key is reported exactly when every required key is present; a reported key is required and absent |
| ChannelConfig.AngleKeyViolationIff | Pwd_servo_motor/control_modules/PWM_controller.py:154-163 | the per-key loop finds nothing exactly when each key is present and passes its gamma or multiplier range check |
| ChannelConfig.AngleKeysOk | Pwd_servo_motor/control_modules/PWM_controller.py:153-163 | the four angle keys pass exactly when both gammas lie in [0.1, 3] and both multipliers have magnitude in [1, 50] |
| ChannelConfig.EntryViolationIffOk | Pwd_servo_motor/control_modules/PWM_controller.py:125-180 | the ordered checks accept an entry exactly when it meets every rule at once |
| ChannelConfig.CommonViolation | Pwd_servo_motor/control_modules/PWM_controller.py:126-150 | an entry that passes the checks every channel goes through has all five required keys |
| ChannelConfig.CommonViolationIffOk | Pwd_servo_motor/control_modules/PWM_controller.py:126-150 | those checks pass exactly when the entry has the required keys, a known type, valid input and output channels, a direction of -1 or 1 and an offset in [-30, 30] |
| ChannelConfig.TypeViolationIffOk | Pwd_servo_motor/control_modules/PWM_controller.py:152-180 | for an angle or pump entry the checks of its own keys pass exactly when those keys are present and in range (and an angle channel has a boolean `affects_pump`) |
| ChannelConfig.ValidateIffAllOk | Pwd_servo_motor/control_modules/PWM_controller.py:119-180 | validation passes exactly when every channel meets every rule |
| ChannelConfig.ValidateReportsFirstViolation | Pwd_servo_motor/control_modules/PWM_controller.py:125-180 | a failure names a channel whose first broken rule is the reported one, and every earlier channel is valid |
| ChannelConfig.Range | Pwd_servo_motor/control_modules/PWM_controller.py:137 | the set 0 .. n-1 has exactly those members and n elements |
| ChannelConfig.SubsetOfSameSize | Pwd_servo_motor/control_modules/PWM_controller.py:137 | a subset with as many elements as the set is the whole set |
| ChannelConfig.ValidatedInputsAreDense | Pwd_servo_motor/control_modules/PWM_controller.py:110-117 | after validation the integer input channels are exactly 0 .. num_inputs-1, since each must be below num_inputs and there are num_inputs distinct ones |
| ChannelConfig.ParseEntry | Pwd_servo_motor/control_modules/PWM_controller.py:121-180 | a valid entry becomes a channel meeting every range rule, with the entry's type, its input ('None' meaning unmapped), its output slot, direction, offset, affects_pump truth value and parameters |
| ChannelConfig.ParseKind | Pwd_servo_motor/control_modules/PWM_controller.py:152-180 | the parameters read from a validated entry meet the angle or pump range rules, the kind matches the entry's type, and the gammas, multipliers and idle equal the entry's values |
| ChannelConfig.Parse | Pwd_servo_motor/control_modules/PWM_controller.py:55-97 | a validated document becomes one valid typed channel per entry, in document order and under the same names; channel i is entry i parsed |
| ChannelConfig.DefinedChannelTypes | Pwd_servo_motor/control_modules/PWM_controller.py:482-483 | 'angle' or 'pump' is among the defined types exactly when some channel has that type |
| ServoKit.ClampAngle | Pwd_servo_motor/control_modules/PWM_controller.py:551-553 | the stored servo angle lies in [0, 180] and equals the value written when that is in range |
| ServoKit.ClampThrottle | Pwd_servo_motor/control_modules/PWM_controller.py:564-566 | the stored throttle lies in [-1, 1] and equals the value written when that is in range |
| ServoKit.ServoKitStub.constructor | Pwd_servo_motor/control_modules/PWM_controller.py:537-558 | every servo starts at 90 degrees and every continuous servo at throttle 0 |
| ServoKit.ServoKitStub.SetAngle | Pwd_servo_motor/control_modules/PWM_controller.py:551-553 | only servo `slot` changes, and it holds the clamped angle |
| ServoKit.ServoKitStub.SetThrottle | Pwd_servo_motor/control_modules/PWM_controller.py:564-566 | only continuous servo `slot` changes, and it holds the clamped throttle |
| PwmSpec.ValidFits | Pwd_servo_motor/control_modules/PWM_controller.py:141-142 | every output slot of a validated channel exists on the 16-channel hat |
| PwmSpec.ShapeValue | Pwd_servo_motor/control_modules/PWM_controller.py:271-284 | with caps around 0 the shaped input stays within the caps; it is 0 whenever the capped value is inside the deadzone; any other result is the capped value, and a capped value outside the deadzone is stored as it is |
| PwmSpec.StoreInputs | Pwd_servo_motor/control_modules/PWM_controller.py:274-286 | the shaping loop keeps `values` at 16 slots (where it writes: PwmProperties.StoredSlot) |
| PwmSpec.PumpSum | Pwd_servo_motor/control_modules/PWM_controller.py:273-289 | `pump_variable_sum` is never negative (its step: PwmProperties.PumpSumStep) |
| PwmSpec.NamedPump | Pwd_servo_motor/control_modules/PWM_controller.py:300 | `channel_configs['pump']` exists exactly when some channel is named "pump", and is a channel of that name |
| PwmSpec.PumpThrottle | Pwd_servo_motor/control_modules/PWM_controller.py:312-335 | the pump throttle lies in [-1, 1], and is -1 whenever the pump is disabled |
| PwmSpec.HandlePumpSpec | Pwd_servo_motor/control_modules/PWM_controller.py:299-340 | `handle_pump` keeps the 16 slots (what it writes: PwmProperties.PumpDisabledOverride, PumpWithoutInput, PumpWithInput) |
| PwmSpec.AngleFor | Pwd_servo_motor/control_modules/PWM_controller.py:354-370 | the angle computed for an angle channel lies in [0, 180], whatever the input and the power function |
| PwmSpec.AngleKeyInjective | Pwd_servo_motor/control_modules/PWM_controller.py:373 | distinct channel names give distinct `"<name> angle"` readout keys |
| PwmSpec.WriteAngles | Pwd_servo_motor/control_modules/PWM_controller.py:343-372 | `handle_angles` keeps the 16 servo slots (where it writes: PwmProperties.WrittenSlot) |
| PwmSpec.HandleAnglesSpec | Pwd_servo_motor/control_modules/PWM_controller.py:342-373 | `handle_angles` keeps the 16 slots (its guarantees: PwmProperties.WrittenAnglesInRange, RecordedReadout, TrackReadoutsKept) |
| PwmSpec.ResetAngles | Pwd_servo_motor/control_modules/PWM_controller.py:383-385 | `reset`'s centring loop keeps the 16 servo slots (where it writes: PwmProperties.ResetSlot) |
| PwmSpec.ResetSpec | Pwd_servo_motor/control_modules/PWM_controller.py:375-391 | `reset` keeps the 16 slots (its guarantees: PwmProperties.ResetCentres, ResetSlot, ResetPumpThrottle, ResetIdempotent) |
| PwmSpec.AllUnknown | Pwd_servo_motor/control_modules/PWM_controller.py:241-242 | every readout key is kept and set to None |
| PwmSpec.EnterSpec | Pwd_servo_motor/control_modules/PWM_controller.py:240-246 | clearing the readouts and signalling the watchdog keeps the 16 slots |
| PwmSpec.StoreSpec | Pwd_servo_motor/control_modules/PWM_controller.py:271-289 | the shaping step keeps the 16 slots |
| PwmSpec.DriveSpec | Pwd_servo_motor/control_modules/PWM_controller.py:291-297 | the pump-then-angles dispatch keeps the 16 slots (PwmProperties.DriveKeepsInputs says what it leaves alone) |
| PwmSpec.UpdateSpec | Pwd_servo_motor/control_modules/PWM_controller.py:239-297 | `update_values` keeps the 16 slots for every input (its outcomes: PwmProperties.UpdateWhileInactive, UpdateRejectsBadInput, UpdateApplied, UpdateMissingPump) |
| PwmSpec.ApplySpec | Pwd_servo_motor/control_modules/PWM_controller.py:259-297 | the part after the activity test keeps the 16 slots (its outcomes: PwmProperties.UpdateRejectsBadInput, UpdateApplied, UpdateMissingPump) |
| PwmSpec.Recent | Pwd_servo_motor/control_modules/PWM_controller.py:494 | a timestamp survives the filter exactly when it is at most 30 s old, and the list never grows |
| PwmSpec.MonitorStepSpec | Pwd_servo_motor/control_modules/PWM_controller.py:209-237 | one watchdog pass keeps the 16 slots (its transitions: the PwmProperties.Watchdog lemmas) |
| PwmSpec.CountInput | Pwd_servo_motor/control_modules/PWM_controller.py:215-224 | the controller only becomes active with the count reset; the count otherwise grows by one, restarts at 0, or stays put when no time has elapsed, and then nothing changes |
| PwmSpec.StampInput | Pwd_servo_motor/control_modules/PWM_controller.py:226-230 | after an input with time elapsed, the list holds exactly the old timestamps and the new one that are at most 30 s old |
| PwmSpec.InputSeenSpec | Pwd_servo_motor/control_modules/PWM_controller.py:209-230 | a pass that saw the input leaves the values, the angles and the throttles alone |
| PwmSpec.TimeoutSpec | Pwd_servo_motor/control_modules/PWM_controller.py:232-237 | a pass that timed out keeps the 16 slots (its transitions: PwmProperties.WatchdogTimeout) |
| PwmSpec.AverageInputRate | Pwd_servo_motor/control_modules/PWM_controller.py:485-504 | the average rate is never negative; it is 0 with fewer than two recent timestamps or a span of 0, and otherwise times the span gives the recent count less one |
| PwmController.PwmHat.constructor | Pwd_servo_motor/control_modules/PWM_controller.py:47-108 | the new controller holds the initial state: values 0, readouts None, servos centred, the pump output at -1, control inactive; rate checking is skipped exactly when the threshold is 0 |
| PwmController.PwmHat.Reset | Pwd_servo_motor/control_modules/PWM_controller.py:375-391 | the loop over the channels leaves exactly the state `ResetSpec` describes |
| PwmController.PwmHat.ClearReadouts | Pwd_servo_motor/control_modules/PWM_controller.py:241-242 | every readout ends as None and the key set is kept |
| PwmController.PwmHat.ShapeInputs | Pwd_servo_motor/control_modules/PWM_controller.py:271-289 | the loop leaves the values and the pump sum `StoreSpec` describes |
| PwmController.PwmHat.HandlePump | Pwd_servo_motor/control_modules/PWM_controller.py:299-340 | writes and returns the `PumpThrottle` value, or reports the KeyError of a missing pump entry |
| PwmController.PwmHat.ComputePumpThrottle | Pwd_servo_motor/control_modules/PWM_controller.py:312-335 | the throttle computed is `PumpThrottle` of the current state |
| PwmController.PwmHat.ComputePumpDemand | Pwd_servo_motor/control_modules/PWM_controller.py:312-333 | the throttle computed before the clamp is `PumpDemand` of the current state |
| PwmController.PwmHat.HandleAngles | Pwd_servo_motor/control_modules/PWM_controller.py:342-373 | the loop leaves the hardware angles and readouts `HandleAnglesSpec` describes |
| PwmController.PwmHat.DriveChannel | Pwd_servo_motor/control_modules/PWM_controller.py:343-373 | a channel that is driven gets its clamped angle in its slot and its rounded readout; any other channel changes nothing |
| PwmController.PwmHat.UpdateValues | Pwd_servo_motor/control_modules/PWM_controller.py:239-297 | the new state and the way the call ends (applied, ignored, or raised with its error) are those of `UpdateSpec` |
| PwmController.PwmHat.ApplyInputs | Pwd_servo_motor/control_modules/PWM_controller.py:259-297 | once the controller is active, the new state and the outcome are those of `ApplySpec` |
| PwmController.PwmHat.Drive | Pwd_servo_motor/control_modules/PWM_controller.py:291-297 | the pump and then the angles leave the state and the outcome `DriveSpec` gives |
| PwmController.PwmHat.MonitorStep | Pwd_servo_motor/control_modules/PWM_controller.py:209-237 | one pass of the watchdog loop moves the state as `MonitorStepSpec` says |
| PwmController.PwmHat.RecordInput | Pwd_servo_motor/control_modules/PWM_controller.py:209-230 | a pass that saw the input event moves the state as `InputSeenSpec` says |
| PwmController.PwmHat.CountRate | Pwd_servo_motor/control_modules/PWM_controller.py:215-224 | the new count and activity are those of `CountInput` |
| PwmController.PwmHat.TimeOut | Pwd_servo_motor/control_modules/PWM_controller.py:232-237 | a pass that timed out moves the state as `TimeoutSpec` says |
| PwmController.PwmHat.GetAverageInputRate | Pwd_servo_motor/control_modules/PWM_controller.py:485-504 | returns the average rate over the recent timestamps |
| PwmController.PwmHat.SetThreshold | Pwd_servo_motor/control_modules/PWM_controller.py:393-399 | a threshold that is not positive is refused; any other replaces the old one, and nothing else changes |
| PwmController.PwmHat.SetDeadzone | Pwd_servo_motor/control_modules/PWM_controller.py:401-407 | only the deadzone changes |
| PwmController.PwmHat.SetTracks | Pwd_servo_motor/control_modules/PWM_controller.py:409-415 | only `tracks_disabled` changes |
| PwmController.PwmHat.SetPump | Pwd_servo_motor/control_modules/PWM_controller.py:417-423 | only `pump_enabled` changes; no throttle is written until the next update |
| PwmController.PwmHat.TogglePumpVariable | Pwd_servo_motor/control_modules/PWM_controller.py:427-433 | only `pump_variable` changes |
| PwmController.PwmHat.UpdatePump | Pwd_servo_motor/control_modules/PWM_controller.py:506-516 | the manual load becomes the clamp of load plus adjustment, then the pump throttle is re-applied |
| PwmController.PwmHat.ResetPumpLoad | Pwd_servo_motor/control_modules/PWM_controller.py:523-532 | the manual load becomes 0, then the pump throttle is re-applied |
| PwmController.Open | Pwd_servo_motor/control_modules/PWM_controller.py:55-105 | construction is rejected exactly when validation fails, with its error; otherwise the controller has the parsed valid channels, `num_inputs` inputs and the initial state |
| PwmProperties.StoredSlot | Pwd_servo_motor/control_modules/PWM_controller.py:274-286 | a slot no channel reads into keeps its value; any other holds the shaped input of the last channel storing into it |
| PwmProperties.StoredWithinCaps | Pwd_servo_motor/control_modules/PWM_controller.py:280-286 | with caps around 0 and values already within them, every stored value stays within the caps |
| PwmProperties.PumpSumStep | Pwd_servo_motor/control_modules/PWM_controller.py:288-289 | each further pump-affecting channel adds exactly the magnitude of its shaped input |
| PwmProperties.PumpSumZero | Pwd_servo_motor/control_modules/PWM_controller.py:273-289 | without a pump-affecting channel the sum is 0 |
| PwmProperties.PumpDisabledOverride | Pwd_servo_motor/control_modules/PWM_controller.py:312-313 | a disabled pump gets -1 on its output, whatever its idle, multiplier or load |
| PwmProperties.PumpWithoutInput | Pwd_servo_motor/control_modules/PWM_controller.py:315-326 | without a direct input the throttle is the clamp of idle, plus the blended sum (or a tenth of the multiplier), plus the manual load |
| PwmProperties.PumpWithInput | Pwd_servo_motor/control_modules/PWM_controller.py:328-329 | a pump with a direct input follows `values[input_channel]`, clamped |
| PwmProperties.PumpBlendExample | Pwd_servo_motor/control_modules/PWM_controller.py:318-319 | idle -0.2, multiplier 0.5 and sum 0.4 give throttle 0 |
| PwmProperties.AngleAtZero | Pwd_servo_motor/control_modules/PWM_controller.py:355-369 | a zero input puts a validated angle channel at 90 + offset |
| PwmProperties.AngleExample | Pwd_servo_motor/control_modules/PWM_controller.py:355-370 | gamma 1, multiplier 45, direction 1, offset 0: input 0.5 gives 112.5 degrees |
| PwmProperties.DeadzoneExample | Pwd_servo_motor/control_modules/PWM_controller.py:271-284 | with deadzone 20 % and caps [-1, 1], 0.5 passes and 0.1 and -0.1 become 0 |
| PwmProperties.WrittenSlot | Pwd_servo_motor/control_modules/PWM_controller.py:343-372 | a servo slot no driven channel uses keeps its angle; any other holds the angle of the last channel driving it |
| PwmProperties.WrittenAnglesInRange | Pwd_servo_motor/control_modules/PWM_controller.py:370-372 | every angle reaching the hardware lies in [0, 180] |
| PwmProperties.RecordedKeysAndRange | Pwd_servo_motor/control_modules/PWM_controller.py:373 | recording keeps the readout key set, and every readout lies in [0, 180] |
| PwmProperties.UndrivenReadoutKept | Pwd_servo_motor/control_modules/PWM_controller.py:343-373 | a readout that no driven channel owns is neither set nor removed |
| PwmProperties.TrackReadoutsKept | Pwd_servo_motor/control_modules/PWM_controller.py:345-346 | with the tracks disabled the trackL and trackR readouts are left as they were |
| PwmProperties.RecordedReadout | Pwd_servo_motor/control_modules/PWM_controller.py:354-373 | a driven channel not overwritten by a later one of the same name records `round(angle, 1)` under its key |
| PwmProperties.ResetSlot | Pwd_servo_motor/control_modules/PWM_controller.py:383-385 | reset leaves a slot without an angle channel alone, and puts any other at the last angle channel's 90 + offset |
| PwmProperties.ResetSlotUntouched | Pwd_servo_motor/control_modules/PWM_controller.py:383-385 | a slot no angle channel uses keeps its angle |
| PwmProperties.ResetSlotLast | Pwd_servo_motor/control_modules/PWM_controller.py:383-385 | a slot ends at the neutral position of the last angle channel on it |
| PwmProperties.ResetAnglesOverwrite | Pwd_servo_motor/control_modules/PWM_controller.py:383-385 | the slots reset writes do not depend on their old angles |
| PwmProperties.ResetAnglesIdempotent | Pwd_servo_motor/control_modules/PWM_controller.py:383-385 | centring twice is centring once |
| PwmProperties.ResetIdempotent | Pwd_servo_motor/control_modules/PWM_controller.py:375-391 | a second `reset` with the same arguments changes nothing |
| PwmProperties.ResetPumpThrottle | Pwd_servo_motor/control_modules/PWM_controller.py:387-388 | reset sets the throttle of the channel named "pump" to the clamped reset point only when reset_pump is set and that channel exists; every other throttle is unchanged |
| PwmProperties.ResetCentres | Pwd_servo_motor/control_modules/PWM_controller.py:383-391 | after reset an angle channel whose slot no other angle channel shares sits at 90 + offset, and the controller is inactive with a zero count |
| PwmProperties.ResetAnglesInRange | Pwd_servo_motor/control_modules/PWM_controller.py:383-385 | reset keeps every servo angle in [0, 180] |
| PwmProperties.UpdateWhileInactive | Pwd_servo_motor/control_modules/PWM_controller.py:240-257 | while control is inactive a call only clears the readouts and signals the watchdog, and is ignored |
| PwmProperties.UpdateWithoutRateChecking | Pwd_servo_motor/control_modules/PWM_controller.py:245-255 | with rate checking off a call is never ignored and never signals |
| PwmProperties.UpdateRejectsBadInput | Pwd_servo_motor/control_modules/PWM_controller.py:259-269 | a missing vector, and only that, raises for None; a wrong length, and only that, raises with the expected and received counts; both first reset the hat |
| PwmProperties.UpdateApplied | Pwd_servo_motor/control_modules/PWM_controller.py:267-297 | an applied call had the right length, stored the shaped inputs and the pump sum, and left the activity alone |
| PwmProperties.DriveKeepsInputs | Pwd_servo_motor/control_modules/PWM_controller.py:291-297 | handling the pump and the angles leaves the values, the sum and the activity alone |
| PwmProperties.HandlePumpWritesThrottles | Pwd_servo_motor/control_modules/PWM_controller.py:299-340 | `handle_pump` changes nothing but the throttles, and keeps each throttle in [-1, 1] |
| PwmProperties.UpdateMissingPump | Pwd_servo_motor/control_modules/PWM_controller.py:292-300 | with a pump-typed channel but none named "pump" the call raises before any angle or throttle is written |
| PwmProperties.WatchdogActivates | Pwd_servo_motor/control_modules/PWM_controller.py:209-222 | an on-time input completing the run activates control, zeroes the count, records the time and moves no servo |
| PwmProperties.WatchdogCounts | Pwd_servo_motor/control_modules/PWM_controller.py:215-220 | an on-time input short of the run adds one to the count and leaves the activity alone |
| PwmProperties.WatchdogSlowInput | Pwd_servo_motor/control_modules/PWM_controller.py:223-224 | a late input zeroes the count without deactivating |
| PwmProperties.WatchdogNoTimeElapsed | Pwd_servo_motor/control_modules/PWM_controller.py:209-215 | an input seen with no time elapsed since the previous one only clears the event and moves the last input time |
| PwmProperties.WatchdogTimeout | Pwd_servo_motor/control_modules/PWM_controller.py:232-237 | a timeout while active centres the servos, leaves the pump, and deactivates; while inactive it changes nothing |
| PwmProperties.SteadyInputRate | Pwd_servo_motor/control_modules/PWM_controller.py:494-502 | recent timestamps d > 0 seconds apart give an average rate of 1/d |
| PwmProperties.BurstInputRate | Pwd_servo_motor/control_modules/PWM_controller.py:500-504 | two or more recent timestamps at the same time give a rate of 0 |
| PwmProperties.RateOfAllRecent | Pwd_servo_motor/control_modules/PWM_controller.py:494-502 | with every timestamp recent and a positive span, the rate is the count less one over the span |
| PwmProperties.RecentKeepsAll | Pwd_servo_motor/control_modules/PWM_controller.py:494 | the 30 s filter keeps timestamps that are all recent |
| PwmProperties.LowThresholdActivatesAtOnce | Pwd_servo_motor/control_modules/PWM_controller.py:220 | below 4 inputs per second `int(threshold * 0.25)` is 0 |
| PwmProperties.WatchdogCountBound | Pwd_servo_motor/control_modules/PWM_controller.py:215-224 | after a fresh input the count is 0 or below the activation count |
| PwmProperties.ActivationScenario | Pwd_servo_motor/control_modules/PWM_controller.py:206-257 | at 10 Hz two inputs 50 ms apart, each after an ignored call, activate control, and the next call is served |
| PwmProperties.InitialInv | Pwd_servo_motor/control_modules/PWM_controller.py:57-105 | construction establishes the invariant, with control inactive, the pump enabled, no manual load and every readout None |
| PwmProperties.ResetInv | Pwd_servo_motor/control_modules/PWM_controller.py:375-391 | reset keeps the invariant |
| PwmProperties.HandleAnglesInv | Pwd_servo_motor/control_modules/PWM_controller.py:342-373 | handle_angles keeps the invariant |
| PwmProperties.UpdateInv | Pwd_servo_motor/control_modules/PWM_controller.py:239-297 | update_values keeps the invariant, whatever its input and caps |
| PwmProperties.DriveInv | Pwd_servo_motor/control_modules/PWM_controller.py:291-297 | the pump and angle handling keeps the invariant |
| PwmProperties.MonitorInv | Pwd_servo_motor/control_modules/PWM_controller.py:209-237 | a watchdog pass keeps the invariant, including the 30 s window of the timestamps |
| PwmProperties.UpdatePumpInv | Pwd_servo_motor/control_modules/PWM_controller.py:506-516 | update_pump keeps the invariant and leaves the clamped sum of load and adjustment |
| PwmProperties.ResetPumpLoadInv | Pwd_servo_motor/control_modules/PWM_controller.py:523-532 | reset_pump_load keeps the invariant with zero manual load |
| Joystick.StickNormalize | Pwd_servo_motor/control_modules/joystick_evdev.py:148-155 | a reading in [0, STICK_MAX] maps into [-1, 1], and a result is either 0 or at least the deadzone in magnitude |
| Joystick.StickDeadband | Pwd_servo_motor/control_modules/joystick_evdev.py:148-155 | a reading becomes 0 exactly when it lies within CENTER_TOLERANCE of the centre; outside that band it is the linear map |
| Joystick.StickMonotone | Pwd_servo_motor/control_modules/joystick_evdev.py:148-155 | pushing a stick further never lowers its value |
| Joystick.StickSymmetric | Pwd_servo_motor/control_modules/joystick_evdev.py:148-155 | readings mirrored about the centre give opposite values |
| Joystick.TriggerNormalize | Pwd_servo_motor/control_modules/joystick_evdev.py:162-164 | a reading in [0, TRIGGER_MAX] maps into [0, 1], and 0 stays 0 |
| Joystick.TriggerMonotone | Pwd_servo_motor/control_modules/joystick_evdev.py:162-164 | pressing a trigger further never lowers its value |
| Joystick.NeutralIsZero | Pwd_servo_motor/control_modules/joystick_evdev.py:55-81 | `reset_values` leaves all eighteen values at 0 |
| Joystick.EventWritesOneField | Pwd_servo_motor/control_modules/joystick_evdev.py:108-167 | an event changes at most the one value the button table or `axis_map` gives it, and sets it to the normalised event value |
| Joystick.KeyWritesOneField | Pwd_servo_motor/control_modules/joystick_evdev.py:109-133 | a button event rewrites only the field the button table maps its code to, with 1 for a press and 0 for a release |
| Joystick.AbsWritesOneField | Pwd_servo_motor/control_modules/joystick_evdev.py:134-167 | an axis event rewrites only the field `axis_map` gives its code, with the normalised value |
| Joystick.UnmappedEventIgnored | Pwd_servo_motor/control_modules/joystick_evdev.py:134-137 | an event of an unmapped code or type changes nothing |
| Joystick.KeyEventIsBinary | Pwd_servo_motor/control_modules/joystick_evdev.py:111 | after a key event the button is 0 or 1 |
| Joystick.EventsWriteMappedFields | Pwd_servo_motor/control_modules/joystick_evdev.py:181-183 | a run of events changes only values that one of its events is mapped to |
| Joystick.Snapshot | Pwd_servo_motor/control_modules/joystick_evdev.py:227-246 | the dictionary `read()` returns has exactly the eighteen documented keys |
| Joystick.NeutralSnapshot | Pwd_servo_motor/control_modules/joystick_evdev.py:223-246 | a read while disconnected is all zeros |
| Joystick.SwappedFaceButtons | Pwd_servo_motor/control_modules/joystick_evdev.py:237-238 | the north button shows up under "X" and the west button under "Y" |
| Joystick.SnapshotSwapsXY | Pwd_servo_motor/control_modules/joystick_evdev.py:237-238 | the "X" entry of the dictionary holds the north button's field and "Y" the west button's |
| Joystick.ReconnectSpec | Pwd_servo_motor/control_modules/joystick_evdev.py:197-216 | reconnecting never clears the stop flag and never lowers the attempt counter |
| Joystick.ReconnectBounded | Pwd_servo_motor/control_modules/joystick_evdev.py:200-210 | the attempt counter never passes MAX_RECONNECT_ATTEMPTS |
| Joystick.ReconnectOutcome | Pwd_servo_motor/control_modules/joystick_evdev.py:197-216 | success leaves the controller connected with a device; on failure `_connected` is unchanged, and without the stop flag every attempt has been used |
| Joystick.ReconnectIff | Pwd_servo_motor/control_modules/joystick_evdev.py:197-216 | reconnecting succeeds exactly when the stop flag is clear and one of the attempts left finds a controller |
| Joystick.ConnectMarksConnected | Pwd_servo_motor/control_modules/joystick_evdev.py:172-183 | a pass connects exactly when a device is held or found; it then sets `_connected`, zeroes the counter and applies the events; otherwise nothing changes |
| Joystick.DisconnectResets | Pwd_servo_motor/control_modules/joystick_evdev.py:187-195 | losing a connection resets the values; the stop flag ends up set exactly when it was set or reconnecting failed; otherwise the controller is connected again |
| Joystick.PassInv | Pwd_servo_motor/control_modules/joystick_evdev.py:171-195 | a pass keeps the values neutral while disconnected and the counter within its bound |
| Joystick.RunInv | Pwd_servo_motor/control_modules/joystick_evdev.py:169-195 | the whole monitoring loop keeps that invariant |
| Joystick.XboxController.constructor | Pwd_servo_motor/control_modules/joystick_evdev.py:29-38 | a new controller has all values 0, is not connected, has no device, a zero counter and no stop request |
| Joystick.XboxController.ResetValues | Pwd_servo_motor/control_modules/joystick_evdev.py:55-81 | every value becomes 0 and the connection state is untouched |
| Joystick.XboxController.ResetSticks | Pwd_servo_motor/control_modules/joystick_evdev.py:57-61 | the four stick values become 0 |
| Joystick.XboxController.ResetTriggers | Pwd_servo_motor/control_modules/joystick_evdev.py:63-65 | the two trigger values become 0 |
| Joystick.XboxController.ResetButtons | Pwd_servo_motor/control_modules/joystick_evdev.py:67-77 | the ten button values become 0 |
| Joystick.XboxController.ResetDPad | Pwd_servo_motor/control_modules/joystick_evdev.py:79-81 | the two d-pad values become 0 |
| Joystick.XboxController.ProcessEvent | Pwd_servo_motor/control_modules/joystick_evdev.py:108-167 | the values change as `ApplyEvent` says and the connection state is untouched |
| Joystick.XboxController.ProcessKey | Pwd_servo_motor/control_modules/joystick_evdev.py:109-133 | a button event changes the values as `ApplyEvent` says |
| Joystick.XboxController.ProcessAbs | Pwd_servo_motor/control_modules/joystick_evdev.py:134-167 | an axis event changes the values as `ApplyEvent` says |
| Joystick.XboxController.Read | Pwd_servo_motor/control_modules/joystick_evdev.py:218-246 | while disconnected the values are reset first; the returned dictionary is the snapshot of the values, X and Y swapped |
| Joystick.XboxController.IsConnected | Pwd_servo_motor/control_modules/joystick_evdev.py:248-250 | returns `_connected` |
| Joystick.XboxController.AttemptReconnect | Pwd_servo_motor/control_modules/joystick_evdev.py:197-216 | the loop leaves the link, result and number of finds `ReconnectSpec` describes |
| Joystick.XboxController.ProcessEvents | Pwd_servo_motor/control_modules/joystick_evdev.py:181-183 | every event but EV_SYN is processed, in order |
| Joystick.XboxController.MonitorPass | Pwd_servo_motor/control_modules/joystick_evdev.py:171-195 | one pass of the monitoring loop moves the controller as `MonitorPassSpec` says |
| Joystick.XboxController.Connect | Pwd_servo_motor/control_modules/joystick_evdev.py:172-185 | the `try` part leaves the controller as `ConnectSpec` says |
| Joystick.XboxController.Disconnect | Pwd_servo_motor/control_modules/joystick_evdev.py:187-195 | the `except` part leaves the controller as `DisconnectSpec` says: dropped, then reconnected or stopped |
| Joystick.XboxController.MonitorController | Pwd_servo_motor/control_modules/joystick_evdev.py:169-195 | the loop moves the controller as `MonitorRun` says, and stops early only on the stop flag |
| ControlLoop.Flipped | Pwd_servo_motor/main.py:30-35 | the bumper flips keep the dictionary's keys |
| ControlLoop.FlipOnlyTriggers | Pwd_servo_motor/main.py:30-35 | a trigger is negated exactly when its bumper is held, and every other entry is unchanged |
| ControlLoop.TrackToggles | Pwd_servo_motor/main.py:38-46 | B re-enables the tracks even with A held; A alone disables them; neither leaves the setting |
| ControlLoop.ControllerList | Pwd_servo_motor/main.py:57-64 | six values, in the documented order: right X, left Y, left X, right Y, right trigger, left trigger |
| ControlLoop.InputVectorOfPad | Pwd_servo_motor/main.py:23-64 | the vector forwarded is the pad's four stick values and the two triggers, each negated while its bumper is held |
| ControlLoop.SnapshotVectorEntries | Pwd_servo_motor/control_modules/joystick_evdev.py:228-235 | the dictionary's stick, trigger and bumper entries hold the pad's own fields |
| ControlLoop.FlippedVector | Pwd_servo_motor/main.py:29-64 | after the bumper flips the vector holds the four sticks unchanged and each trigger negated while its bumper is held |
| ControlLoop.InputVectorWithinCaps | Pwd_servo_motor/main.py:57-69 | sticks in [-1, 1] and triggers in [0, 1] give a vector within update_values' default caps |
| ControlLoop.IterationSpec | Pwd_servo_motor/main.py:16-69 | an iteration keeps the controller's 16 slots |
| ControlLoop.IterationForwards | Pwd_servo_motor/main.py:18-69 | a disconnected iteration changes nothing; a connected one forwards the six-element vector once and reports the outcome |
| ControlLoop.IterationWhileInactive | Pwd_servo_motor/main.py:38-69 | a connected iteration while inactive is ignored and moves no servo or pump, but signals the watchdog |
| ControlLoop.IterationInv | Pwd_servo_motor/main.py:16-69 | an iteration keeps the controller's invariant |
| ControlLoop.ApplyToggles | Pwd_servo_motor/main.py:38-46 | only `tracks_disabled` changes, as the toggles say |
| ControlLoop.FlipTriggers | Pwd_servo_motor/main.py:30-35 | the dictionary after the flips is `Flipped` of the one read |
| ControlLoop.Forward | Pwd_servo_motor/main.py:38-69 | the toggles and `update_values` on the controller list leave what `UpdateSpec` describes |
| ControlLoop.ControlIteration | Pwd_servo_motor/main.py:16-69 | one pass of the loop leaves the controller, sends the vector and ends as `IterationSpec` says; the pad is untouched |
## Left out

- Reading the YAML file: the model starts from the parsed `CHANNEL_CONFIGS` mapping, as a sequence of (name, entry) pairs. Python dictionaries have unique names; the model does not require it.
- `reload_config`: it re-reads a file and restarts the thread. It is file I/O and threading around `reset` and validation, both of which are modelled.
- Threads: `start_monitoring` and `stop_monitoring` in both classes, `Thread`, `join` and `__del__`. Each monitoring loop is modelled one pass at a time, interleaving is not modelled, and `_stop_event` is a field.
- The real Adafruit `ServoKit` and `simulation_mode`: only the stub hat is modelled.
- `print`, logging, the debug flags and `print_input_mappings`, which only prints.
- The `isinstance` guards of the setters: the model's parameters are already of the type each guard demands. `set_deadzone` takes an `int`; `set_threshold` accepts any positive real.
- `_find_controller` and `read_loop`: they are device access and become oracles. An `OSError` raised inside `_attempt_reconnect`'s find counts as "not found"; the source then keeps the old `_device`.
- The `break` on the stop flag inside the read loop: another thread sets the flag, so the model ends every read loop with the device failing.
- `time.sleep` in the reconnect loop and in `main`, `main`'s `while True` loop itself, the `step % 20` rate printout, and the five-second start-up pause.
- A ValueError from `update_values` ends `main` in the source. The model reports it as the iteration's outcome.
- Ordering comparisons on a non-number in `validate_configuration` raise TypeError in the source. The model reports them as that rule's violation (`ChannelConfig.Numeric`).
- A channel named "pump" whose type is `angle`: `handle_pump` then looks for `idle` and `multiplier`, which validation does not demand of it. The model reports the KeyError (`NoPumpEntry`) and does not model such an entry carrying those keys anyway.
- Floating point: rounding error, infinities and NaN. All values are exact reals.
- `handle_angles`' defaults for missing gamma and multiplier keys, and its "no data" branch: validation makes both unreachable (`PwmSpec.ValidFits`).
- The Camera, Led, Load_cell and Oled programs: they are not part of this model.
- PwmSpec.StoreInputs: its own contract only keeps the 16 slots; what it does is proved in PwmProperties.StoredSlot.
- PwmSpec.WriteAngles: its own contract only keeps the 16 slots; what it does is proved in PwmProperties.WrittenSlot.
- PwmSpec.ResetAngles: its own contract only keeps the 16 slots; what it does is proved in PwmProperties.ResetSlot.
- PwmSpec.HandlePumpSpec: its own contract only keeps the 16 slots; what it does is proved in PwmProperties.PumpDisabledOverride, PumpWithoutInput and PumpWithInput.
- PwmSpec.HandleAnglesSpec: its own contract only keeps the 16 slots; what it does is proved in PwmProperties.WrittenAnglesInRange, RecordedReadout and HandleAnglesInv.
- PwmSpec.ResetSpec: its own contract only keeps the 16 slots; what it does to the angles is proved in PwmProperties.ResetSlot and ResetCentres, to the throttles in ResetPumpThrottle, and ResetIdempotent proves it idempotent.
- PwmSpec.EnterSpec: its own contract only keeps the 16 slots; what it does is proved in PwmProperties.UpdateWhileInactive.
- PwmSpec.StoreSpec: its own contract only keeps the 16 slots; what it does is proved in PwmProperties.UpdateApplied.
- PwmSpec.DriveSpec: its own contract only keeps the 16 slots; what it does is proved in PwmProperties.DriveKeepsInputs and DriveInv.
- PwmSpec.UpdateSpec: its own contract only keeps the 16 slots; what it does is proved in PwmProperties.UpdateRejectsBadInput, UpdateApplied, UpdateMissingPump and UpdateInv.
- PwmSpec.MonitorStepSpec: its own contract only keeps the 16 slots; what it does is proved in the PwmProperties.Watchdog lemmas and MonitorInv.
- PwmSpec.ApplySpec: its own contract only keeps the 16 slots; what it does is proved in PwmProperties.UpdateRejectsBadInput, UpdateApplied and UpdateMissingPump.
- PwmSpec.InputSeenSpec: its own contract only says the outputs are left alone; what it does is proved in PwmProperties.WatchdogActivates, WatchdogCounts, WatchdogSlowInput and WatchdogNoTimeElapsed.
- PwmSpec.TimeoutSpec: its own contract only keeps the 16 slots; what it does is proved in PwmProperties.WatchdogTimeout.
- ControlLoop.IterationSpec: its own contract only keeps the 16 slots; what it does is proved in ControlLoop.IterationForwards, IterationWhileInactive and IterationInv.
