/** `XboxController`: the state of an Xbox pad as evdev events update it, the snapshot `read()`
    returns, and the connect / disconnect / reconnect bookkeeping of the monitoring thread.
    Device discovery and the event stream are oracles: a sequence of find results and, per
    connection, the finite run of events read before the device fails. */
module Joystick {
  import opened Common

  // ---------------------------------------------------------------------------------------
  // Constants of the controller and of the Linux input layer

  const StickMax: int := 65536
  const StickCenter: int := StickMax / 2
  const TriggerMax: int := 1024
  const CenterTolerance: int := 350
  const MaxReconnectAttempts: nat := 5

  const EvSyn: int := 0
  const EvKey: int := 1
  const EvAbs: int := 3

  const BtnSouth: int := 304
  const BtnEast: int := 305
  const BtnNorth: int := 307
  const BtnWest: int := 308
  const BtnTl: int := 310
  const BtnTr: int := 311
  const BtnSelect: int := 314
  const BtnStart: int := 315
  const BtnThumbL: int := 317
  const BtnThumbR: int := 318

  const AbsX: int := 0
  const AbsY: int := 1
  const AbsZ: int := 2
  const AbsRz: int := 5
  const AbsGas: int := 9
  const AbsBrake: int := 10
  const AbsHat0X: int := 16
  const AbsHat0Y: int := 17

  /** One evdev input event. */
  datatype Event = Event(evType: int, code: int, value: int)

  // ---------------------------------------------------------------------------------------
  // Normalisation

  /** Half the stick range, `STICK_MAX / 2` as a float. */
  const HalfStick: real := StickMax as real / 2.0
  /** The stick deadzone, `CENTER_TOLERANCE / (STICK_MAX / 2)`. */
  const StickDeadzone: real := CenterTolerance as real / HalfStick

  /** A raw stick reading mapped linearly onto [-1, 1], snapped to 0 near the centre. */
  function StickNormalize(raw: int): (r: real)
    ensures 0 <= raw <= StickMax ==> -1.0 <= r <= 1.0
    ensures r == 0.0 || Abs(r) >= StickDeadzone
  {
    var n := raw as real / HalfStick - 1.0;
    if Abs(n) < StickDeadzone then 0.0 else n
  }

  /** A reading is snapped to 0 exactly when it lies within `CENTER_TOLERANCE` of the centre;
      outside that band it is the plain linear map. */
  lemma StickDeadband(raw: int)
    ensures StickNormalize(raw) == 0.0 <==> -CenterTolerance < raw - StickCenter < CenterTolerance
    ensures !(-CenterTolerance < raw - StickCenter < CenterTolerance) ==>
              StickNormalize(raw) == (raw - StickCenter) as real / HalfStick
  {
    assert raw as real / HalfStick - 1.0 == (raw - StickCenter) as real / HalfStick;
  }

  /** Pushing a stick further never lowers its normalised value. */
  lemma StickMonotone(raw1: int, raw2: int)
    requires raw1 <= raw2
    ensures StickNormalize(raw1) <= StickNormalize(raw2)
  {
    var n1 := raw1 as real / HalfStick - 1.0;
    var n2 := raw2 as real / HalfStick - 1.0;
    assert n1 <= n2;
  }

  /** Readings mirrored about the centre normalise to opposite values. */
  lemma StickSymmetric(d: int)
    ensures StickNormalize(StickCenter + d) == -StickNormalize(StickCenter - d)
  {
    StickDeadband(StickCenter + d);
    StickDeadband(StickCenter - d);
  }

  /** A raw trigger reading over `TRIGGER_MAX`. */
  function TriggerNormalize(raw: int): (r: real)
    ensures 0 <= raw <= TriggerMax ==> 0.0 <= r <= 1.0
    ensures raw == 0 ==> r == 0.0
  {
    raw as real / TriggerMax as real
  }

  lemma TriggerMonotone(raw1: int, raw2: int)
    requires raw1 <= raw2
    ensures TriggerNormalize(raw1) <= TriggerNormalize(raw2)
  {
  }

  // ---------------------------------------------------------------------------------------
  // The pad state and the events that change it

  /** The eighteen values the controller keeps. */
  datatype PadState = PadState(
    leftJoystickY: real, leftJoystickX: real, rightJoystickY: real, rightJoystickX: real,
    leftTrigger: real, rightTrigger: real,
    leftBumper: real, rightBumper: real, a: real, x: real, y: real, b: real,
    leftThumb: real, rightThumb: real, back: real, start: real,
    dPadX: real, dPadY: real)

  /** What `reset_values` leaves: every value 0. */
  const Neutral: PadState := PadState(0.0, 0.0, 0.0, 0.0, 0.0, 0.0, 0.0, 0.0, 0.0, 0.0, 0.0, 0.0,
                                      0.0, 0.0, 0.0, 0.0, 0.0, 0.0)

  /** The values in a fixed order, so that "one field" can be said by index. */
  function Fields(s: PadState): (f: seq<real>)
    ensures |f| == 18
  {
    [s.leftJoystickY, s.leftJoystickX, s.rightJoystickY, s.rightJoystickX, s.leftTrigger, s.rightTrigger,
     s.leftBumper, s.rightBumper, s.a, s.x, s.y, s.b, s.leftThumb, s.rightThumb, s.back, s.start,
     s.dPadX, s.dPadY]
  }

  lemma NeutralIsZero()
    ensures forall i :: 0 <= i < 18 ==> Fields(Neutral)[i] == 0.0
  {
  }

  /** `_process_event`: a button press or release, or an axis move. */
  function ApplyEvent(s: PadState, ev: Event): PadState
  {
    if ev.evType == EvKey then
      var v := if ev.value != 0 then 1.0 else 0.0;
      if ev.code == BtnSouth then s.(a := v)
      else if ev.code == BtnNorth then s.(y := v)
      else if ev.code == BtnWest then s.(x := v)
      else if ev.code == BtnEast then s.(b := v)
      else if ev.code == BtnTl then s.(leftBumper := v)
      else if ev.code == BtnTr then s.(rightBumper := v)
      else if ev.code == BtnThumbL then s.(leftThumb := v)
      else if ev.code == BtnThumbR then s.(rightThumb := v)
      else if ev.code == BtnSelect then s.(back := v)
      else if ev.code == BtnStart then s.(start := v)
      else s
    else if ev.evType == EvAbs then
      if ev.code == AbsX then s.(leftJoystickX := StickNormalize(ev.value))
      else if ev.code == AbsY then s.(leftJoystickY := StickNormalize(ev.value))
      else if ev.code == AbsZ then s.(rightJoystickX := StickNormalize(ev.value))
      else if ev.code == AbsRz then s.(rightJoystickY := StickNormalize(ev.value))
      else if ev.code == AbsBrake then s.(leftTrigger := TriggerNormalize(ev.value))
      else if ev.code == AbsGas then s.(rightTrigger := TriggerNormalize(ev.value))
      else if ev.code == AbsHat0X then s.(dPadX := ev.value as real)
      else if ev.code == AbsHat0Y then s.(dPadY := ev.value as real)
      else s
    else s
  }

  /** The index in `Fields` an event writes (the button table and `axis_map`), or -1. */
  function FieldFor(ev: Event): (i: int)
    ensures -1 <= i < 18
  {
    if ev.evType == EvKey then
      match ev.code
      case 304 => 8 case 307 => 10 case 308 => 9 case 305 => 11 case 310 => 6
      case 311 => 7 case 317 => 12 case 318 => 13 case 314 => 14 case 315 => 15
      case _ => -1
    else if ev.evType == EvAbs then
      match ev.code
      case 0 => 1 case 1 => 0 case 2 => 3 case 5 => 2 case 10 => 4 case 9 => 5
      case 16 => 16 case 17 => 17
      case _ => -1
    else -1
  }

  /** The value an event writes into its field. */
  function EventValue(ev: Event): real
  {
    if ev.evType == EvKey then (if ev.value != 0 then 1.0 else 0.0)
    else if ev.code in {AbsX, AbsY, AbsZ, AbsRz} then StickNormalize(ev.value)
    else if ev.code in {AbsBrake, AbsGas} then TriggerNormalize(ev.value)
    else ev.value as real
  }

  /** An event changes at most the one field the mapping tables give it, and sets it to the
      normalised event value; any other event changes nothing. */
  lemma EventWritesOneField(s: PadState, ev: Event)
    ensures var r := ApplyEvent(s, ev);
      && (forall i :: 0 <= i < 18 && i != FieldFor(ev) ==> Fields(r)[i] == Fields(s)[i])
      && (FieldFor(ev) >= 0 ==> Fields(r)[FieldFor(ev)] == EventValue(ev))
  {
    if ev.evType == EvKey {
      KeyWritesOneField(s, ev);
    } else if ev.evType == EvAbs {
      AbsWritesOneField(s, ev);
    }
  }

  /** `EventWritesOneField` for a button event. */
  lemma KeyWritesOneField(s: PadState, ev: Event)
    requires ev.evType == EvKey
    ensures Fields(ApplyEvent(s, ev)) == Fields(s)[if FieldFor(ev) >= 0 then FieldFor(ev) else 0 :=
        if FieldFor(ev) >= 0 then EventValue(ev) else Fields(s)[0]]
  {
  }

  /** `EventWritesOneField` for an axis event. */
  lemma AbsWritesOneField(s: PadState, ev: Event)
    requires ev.evType == EvAbs
    ensures Fields(ApplyEvent(s, ev)) == Fields(s)[if FieldFor(ev) >= 0 then FieldFor(ev) else 0 :=
        if FieldFor(ev) >= 0 then EventValue(ev) else Fields(s)[0]]
  {
  }

  /** Unmapped codes and other event types leave the state alone. */
  lemma UnmappedEventIgnored(s: PadState, ev: Event)
    requires FieldFor(ev) == -1
    ensures ApplyEvent(s, ev) == s
  {
  }

  /** A button is always 0 or 1 after a key event. */
  lemma KeyEventIsBinary(s: PadState, ev: Event)
    requires ev.evType == EvKey && FieldFor(ev) >= 0
    ensures Fields(ApplyEvent(s, ev))[FieldFor(ev)] in {0.0, 1.0}
  {
    EventWritesOneField(s, ev);
  }

  /** The events of one connection, `EV_SYN` skipped, applied in order. */
  function ApplyEvents(s: PadState, evs: seq<Event>): PadState
    decreases |evs|
  {
    if evs == [] then s
    else ApplyEvents(if evs[0].evType != EvSyn then ApplyEvent(s, evs[0]) else s, evs[1..])
  }

  /** The events of a connection change only fields that some event in it is mapped to. */
  lemma {:induction false} EventsWriteMappedFields(s: PadState, evs: seq<Event>, i: int)
    requires 0 <= i < 18 && forall j :: 0 <= j < |evs| ==> FieldFor(evs[j]) != i
    ensures Fields(ApplyEvents(s, evs))[i] == Fields(s)[i]
    decreases |evs|
  {
    if evs != [] {
      var s1 := if evs[0].evType != EvSyn then ApplyEvent(s, evs[0]) else s;
      EventWritesOneField(s, evs[0]);
      assert forall j :: 0 <= j < |evs[1..]| ==> evs[1..][j] == evs[j + 1];
      EventsWriteMappedFields(s1, evs[1..], i);
    }
  }

  // ---------------------------------------------------------------------------------------
  // read()

  const SnapshotKeys: set<string> := {
    "LeftJoystickY", "LeftJoystickX", "RightJoystickY", "RightJoystickX", "LeftTrigger", "RightTrigger",
    "LeftBumper", "RightBumper", "A", "X", "Y", "B", "LeftThumb", "RightThumb", "Back", "Start",
    "DPadY", "DPadX"}

  /** The dictionary `read()` returns; the "X" and "Y" entries are swapped. */
  function Snapshot(s: PadState): (m: map<string, real>)
    ensures m.Keys == SnapshotKeys
  {
    map[
      "LeftJoystickY" := s.leftJoystickY, "LeftJoystickX" := s.leftJoystickX,
      "RightJoystickY" := s.rightJoystickY, "RightJoystickX" := s.rightJoystickX,
      "LeftTrigger" := s.leftTrigger, "RightTrigger" := s.rightTrigger,
      "LeftBumper" := s.leftBumper, "RightBumper" := s.rightBumper,
      "A" := s.a, "X" := s.y, "Y" := s.x, "B" := s.b,
      "LeftThumb" := s.leftThumb, "RightThumb" := s.rightThumb, "Back" := s.back, "Start" := s.start,
      "DPadY" := s.dPadY, "DPadX" := s.dPadX]
  }

  /** A disconnected read is all zeros. */
  lemma NeutralSnapshot()
    ensures forall k :: k in Snapshot(Neutral) ==> Snapshot(Neutral)[k] == 0.0
  {
  }

  /** The "X" entry of a snapshot holds the `y` field and the "Y" entry the `x` field. */
  lemma SnapshotSwapsXY(s: PadState)
    ensures Snapshot(s)["X"] == s.y && Snapshot(s)["Y"] == s.x
  {
  }

  /** Pressing the north button (the one the pad labels Y) shows up under "X", and the west
      button under "Y". */
  lemma SwappedFaceButtons(s: PadState, v: int)
    requires v != 0
    ensures Snapshot(ApplyEvent(s, Event(EvKey, BtnNorth, v)))["X"] == 1.0
    ensures Snapshot(ApplyEvent(s, Event(EvKey, BtnWest, v)))["Y"] == 1.0
    ensures Snapshot(ApplyEvent(s, Event(EvKey, BtnNorth, 0)))["X"] == 0.0
  {
    SnapshotSwapsXY(ApplyEvent(s, Event(EvKey, BtnNorth, v)));
    SnapshotSwapsXY(ApplyEvent(s, Event(EvKey, BtnWest, v)));
    SnapshotSwapsXY(ApplyEvent(s, Event(EvKey, BtnNorth, 0)));
  }

  // ---------------------------------------------------------------------------------------
  // Connection bookkeeping

  /** `_connected`, `_reconnect_count`, whether `_device` is set, and the stop flag. */
  datatype Link = Link(connected: bool, reconnectCount: nat, hasDevice: bool, stop: bool)

  /** The `k`-th find result of an oracle; past its end no controller is found. */
  function At(finds: seq<bool>, k: nat): bool
  {
    k < |finds| && finds[k]
  }

  /** `_attempt_reconnect`: the new link, the result, and how many finds were made. */
  function ReconnectSpec(l: Link, finds: seq<bool>, k: nat): (r: (Link, bool, nat))
    ensures r.0.stop == l.stop && r.0.reconnectCount >= l.reconnectCount
    decreases MaxReconnectAttempts - l.reconnectCount
  {
    if l.stop || l.reconnectCount >= MaxReconnectAttempts then (l, false, 0)
    else if At(finds, k) then (l.(hasDevice := true, connected := true), true, 1)
    else
      var rest := ReconnectSpec(l.(hasDevice := false, reconnectCount := l.reconnectCount + 1), finds, k + 1);
      (rest.0, rest.1, rest.2 + 1)
  }

  /** The counter never passes `MAX_RECONNECT_ATTEMPTS`. */
  lemma {:induction false} ReconnectBounded(l: Link, finds: seq<bool>, k: nat)
    requires l.reconnectCount <= MaxReconnectAttempts
    ensures ReconnectSpec(l, finds, k).0.reconnectCount <= MaxReconnectAttempts
    decreases MaxReconnectAttempts - l.reconnectCount
  {
    if !l.stop && l.reconnectCount < MaxReconnectAttempts && !At(finds, k) {
      ReconnectBounded(l.(hasDevice := false, reconnectCount := l.reconnectCount + 1), finds, k + 1);
    }
  }

  /** Success leaves the controller connected with a device; failure without the stop flag
      has used up every attempt. */
  lemma {:induction false} ReconnectOutcome(l: Link, finds: seq<bool>, k: nat)
    requires l.reconnectCount <= MaxReconnectAttempts
    ensures var r := ReconnectSpec(l, finds, k);
      && (r.1 ==> r.0.connected && r.0.hasDevice)
      && (!r.1 ==> r.0.connected == l.connected)
      && (!r.1 && !l.stop ==> r.0.reconnectCount == MaxReconnectAttempts)
    decreases MaxReconnectAttempts - l.reconnectCount
  {
    if !l.stop && l.reconnectCount < MaxReconnectAttempts && !At(finds, k) {
      ReconnectOutcome(l.(hasDevice := false, reconnectCount := l.reconnectCount + 1), finds, k + 1);
    }
  }

  /** Reconnecting succeeds exactly when, the stop flag clear, one of the attempts left finds a
      controller. */
  lemma {:induction false} ReconnectIff(l: Link, finds: seq<bool>, k: nat)
    ensures ReconnectSpec(l, finds, k).1 <==>
      !l.stop && exists j :: k <= j < k + MaxReconnectAttempts - l.reconnectCount && At(finds, j)
    decreases MaxReconnectAttempts - l.reconnectCount
  {
    if !l.stop && l.reconnectCount < MaxReconnectAttempts && !At(finds, k) {
      var l1 := l.(hasDevice := false, reconnectCount := l.reconnectCount + 1);
      ReconnectIff(l1, finds, k + 1);
      if exists j :: k <= j < k + MaxReconnectAttempts - l.reconnectCount && At(finds, j) {
        var j :| k <= j < k + MaxReconnectAttempts - l.reconnectCount && At(finds, j);
        assert j != k;
      }
    }
  }

  /** The whole controller as the monitoring thread sees it. */
  datatype Pad = Pad(state: PadState, link: Link)

  /** What the device does during one pass of the monitoring loop: the find result used if no
      device is held, the events read before the device fails, and the finds of the reconnect. */
  datatype Pass = Pass(find: bool, events: seq<Event>, reconnectFinds: seq<bool>)

  /** The `try` part of a pass: find a device if none is held and, with one, mark the
      controller connected and process the events. The flag says whether it connected. */
  function ConnectSpec(p: Pad, pass: Pass): (r: (Pad, bool))
  {
    if !p.link.hasDevice && !pass.find then (p, false)
    else
      (Pad(ApplyEvents(p.state, pass.events),
           p.link.(hasDevice := true, connected := true, reconnectCount := 0)), true)
  }

  /** The `except` part: drop the connection, then reconnect or stop. */
  function DisconnectSpec(p: Pad, pass: Pass): (r: Pad)
  {
    var dropped := if p.link.connected then Pad(Neutral, p.link.(connected := false)) else p;
    var re := ReconnectSpec(dropped.link, pass.reconnectFinds, 0);
    Pad(dropped.state, if re.1 then re.0 else re.0.(stop := true))
  }

  /** One pass of `_monitor_controller`'s loop; every read loop ends in an I/O error. */
  function MonitorPassSpec(p: Pad, pass: Pass): Pad
  {
    DisconnectSpec(ConnectSpec(p, pass).0, pass)
  }

  /** The loop run over the passes until the stop flag is set or the passes run out. */
  function MonitorRun(p: Pad, passes: seq<Pass>): Pad
    decreases |passes|
  {
    if passes == [] || p.link.stop then p else MonitorRun(MonitorPassSpec(p, passes[0]), passes[1..])
  }

  /** A connection zeroes the counter, sets `_connected` and feeds the events to the state. */
  lemma ConnectMarksConnected(p: Pad, pass: Pass)
    ensures var r := ConnectSpec(p, pass);
      && (r.1 <==> p.link.hasDevice || pass.find)
      && (r.1 ==> r.0.link.connected && r.0.link.reconnectCount == 0 && r.0.link.hasDevice
                  && r.0.state == ApplyEvents(p.state, pass.events))
      && (!r.1 ==> r.0 == p)
  {
  }

  /** Losing a connection resets the values; failing to reconnect sets the stop flag. */
  lemma DisconnectResets(p: Pad, pass: Pass)
    requires p.link.connected && p.link.reconnectCount <= MaxReconnectAttempts
    ensures var r := DisconnectSpec(p, pass);
      && r.state == Neutral
      && (r.link.stop <==> p.link.stop || !ReconnectSpec(p.link.(connected := false), pass.reconnectFinds, 0).1)
      && (!r.link.stop ==> r.link.connected)
  {
    ReconnectOutcome(p.link.(connected := false), pass.reconnectFinds, 0);
  }

  /** What holds of the controller between passes: values are neutral whenever it is not
      connected, and the counter is within its bound. */
  predicate PadInv(p: Pad)
  {
    (!p.link.connected ==> p.state == Neutral) && p.link.reconnectCount <= MaxReconnectAttempts
  }

  lemma PassInv(p: Pad, pass: Pass)
    requires PadInv(p)
    ensures PadInv(MonitorPassSpec(p, pass))
  {
    var c := ConnectSpec(p, pass).0;
    var dropped := if c.link.connected then Pad(Neutral, c.link.(connected := false)) else c;
    ReconnectBounded(dropped.link, pass.reconnectFinds, 0);
    ReconnectOutcome(dropped.link, pass.reconnectFinds, 0);
  }

  /** The whole loop keeps the invariant. */
  lemma {:induction false} RunInv(p: Pad, passes: seq<Pass>)
    requires PadInv(p)
    ensures PadInv(MonitorRun(p, passes))
    decreases |passes|
  {
    if passes != [] && !p.link.stop {
      PassInv(p, passes[0]);
      RunInv(MonitorPassSpec(p, passes[0]), passes[1..]);
    }
  }

  // ---------------------------------------------------------------------------------------
  // The controller object

  class XboxController {
    var leftJoystickY: real
    var leftJoystickX: real
    var rightJoystickY: real
    var rightJoystickX: real
    var leftTrigger: real
    var rightTrigger: real
    var leftBumper: real
    var rightBumper: real
    var a: real
    var x: real
    var y: real
    var b: real
    var leftThumb: real
    var rightThumb: real
    var back: real
    var start: real
    var dPadX: real
    var dPadY: real

    var connected: bool
    var reconnectCount: nat
    /** `_device is not None` */
    var hasDevice: bool
    /** `_stop_event.is_set()` */
    var stopFlag: bool

    ghost function State(): PadState
      reads this
    {
      PadState(leftJoystickY, leftJoystickX, rightJoystickY, rightJoystickX, leftTrigger, rightTrigger,
               leftBumper, rightBumper, a, x, y, b, leftThumb, rightThumb, back, start, dPadX, dPadY)
    }

    ghost function LinkState(): Link
      reads this
    {
      Link(connected, reconnectCount, hasDevice, stopFlag)
    }

    /** `__init__`, without starting the thread. */
    constructor ()
      ensures State() == Neutral && LinkState() == Link(false, 0, false, false)
    {
      connected := false;
      reconnectCount := 0;
      hasDevice := false;
      stopFlag := false;
      new;
      ResetValues();
    }

    /** `reset_values` */
    method ResetValues()
      modifies this`leftJoystickY, this`leftJoystickX, this`rightJoystickY, this`rightJoystickX,
               this`leftTrigger, this`rightTrigger, this`leftBumper, this`rightBumper, this`a, this`x,
               this`y, this`b, this`leftThumb, this`rightThumb, this`back, this`start, this`dPadX, this`dPadY
      ensures State() == Neutral
    {
      ResetSticks();
      ResetTriggers();
      ResetButtons();
      ResetDPad();
    }

    /** `reset_values` for the four stick axes */
    method ResetSticks()
      modifies this`leftJoystickY, this`leftJoystickX, this`rightJoystickY, this`rightJoystickX
      ensures leftJoystickY == 0.0 && leftJoystickX == 0.0 && rightJoystickY == 0.0 && rightJoystickX == 0.0
    {
      leftJoystickY, leftJoystickX, rightJoystickY, rightJoystickX := 0.0, 0.0, 0.0, 0.0;
    }

    /** `reset_values` for the triggers */
    method ResetTriggers()
      modifies this`leftTrigger, this`rightTrigger
      ensures leftTrigger == 0.0 && rightTrigger == 0.0
    {
      leftTrigger, rightTrigger := 0.0, 0.0;
    }

    /** `reset_values` for the ten buttons */
    method ResetButtons()
      modifies this`leftBumper, this`rightBumper, this`a, this`x, this`y, this`b, this`leftThumb,
               this`rightThumb, this`back, this`start
      ensures leftBumper == 0.0 && rightBumper == 0.0 && a == 0.0 && x == 0.0 && y == 0.0 && b == 0.0
      ensures leftThumb == 0.0 && rightThumb == 0.0 && back == 0.0 && start == 0.0
    {
      leftBumper, rightBumper, a, x, y, b := 0.0, 0.0, 0.0, 0.0, 0.0, 0.0;
      leftThumb, rightThumb, back, start := 0.0, 0.0, 0.0, 0.0;
    }

    /** `reset_values` for the d-pad axes */
    method ResetDPad()
      modifies this`dPadX, this`dPadY
      ensures dPadX == 0.0 && dPadY == 0.0
    {
      dPadX, dPadY := 0.0, 0.0;
    }

    /** `_process_event(event)` */
    method ProcessEvent(ev: Event)
      modifies this
      ensures State() == ApplyEvent(old(State()), ev) && LinkState() == old(LinkState())
    {
      if ev.evType == EvKey {
        ProcessKey(ev);
      } else if ev.evType == EvAbs {
        ProcessAbs(ev);
      }
    }

    /** A button event: the mapped button becomes 1 when pressed and 0 when released. */
    method ProcessKey(ev: Event)
      requires ev.evType == EvKey
      modifies this`a, this`y, this`x, this`b, this`leftBumper, this`rightBumper, this`leftThumb,
               this`rightThumb, this`back, this`start
      ensures State() == ApplyEvent(old(State()), ev)
    {
      var value := if ev.value != 0 then 1.0 else 0.0;
      if ev.code == BtnSouth {
        a := value;
      } else if ev.code == BtnNorth {
        y := value;
      } else if ev.code == BtnWest {
        x := value;
      } else if ev.code == BtnEast {
        b := value;
      } else if ev.code == BtnTl {
        leftBumper := value;
      } else if ev.code == BtnTr {
        rightBumper := value;
      } else if ev.code == BtnThumbL {
        leftThumb := value;
      } else if ev.code == BtnThumbR {
        rightThumb := value;
      } else if ev.code == BtnSelect {
        back := value;
      } else if ev.code == BtnStart {
        start := value;
      }
    }

    /** An axis event: sticks are normalised with the dead band, triggers scaled, the d-pad
        copied. */
    method ProcessAbs(ev: Event)
      requires ev.evType == EvAbs
      modifies this`leftJoystickX, this`leftJoystickY, this`rightJoystickX, this`rightJoystickY,
               this`leftTrigger, this`rightTrigger, this`dPadX, this`dPadY
      ensures State() == ApplyEvent(old(State()), ev)
    {
      if ev.code in {AbsX, AbsY, AbsZ, AbsRz} {
        var normalized := ev.value as real / HalfStick - 1.0;
        if Abs(normalized) < StickDeadzone {
          normalized := 0.0;
        }
        if ev.code == AbsX {
          leftJoystickX := normalized;
        } else if ev.code == AbsY {
          leftJoystickY := normalized;
        } else if ev.code == AbsZ {
          rightJoystickX := normalized;
        } else {
          rightJoystickY := normalized;
        }
      } else if ev.code == AbsBrake {
        leftTrigger := ev.value as real / TriggerMax as real;
      } else if ev.code == AbsGas {
        rightTrigger := ev.value as real / TriggerMax as real;
      } else if ev.code == AbsHat0X {
        dPadX := ev.value as real;
      } else if ev.code == AbsHat0Y {
        dPadY := ev.value as real;
      }
    }

    /** `read()`: resets first when not connected. */
    method Read() returns (snapshot: map<string, real>)
      modifies this
      ensures State() == (if old(connected) then old(State()) else Neutral)
      ensures LinkState() == old(LinkState())
      ensures snapshot == Snapshot(State())
    {
      if !connected {
        ResetValues();
      }
      snapshot := map[
        "LeftJoystickY" := leftJoystickY, "LeftJoystickX" := leftJoystickX,
        "RightJoystickY" := rightJoystickY, "RightJoystickX" := rightJoystickX,
        "LeftTrigger" := leftTrigger, "RightTrigger" := rightTrigger,
        "LeftBumper" := leftBumper, "RightBumper" := rightBumper,
        "A" := a, "X" := y, "Y" := x, "B" := b,
        "LeftThumb" := leftThumb, "RightThumb" := rightThumb, "Back" := back, "Start" := start,
        "DPadY" := dPadY, "DPadX" := dPadX];
    }

    /** `is_connected()` */
    method IsConnected() returns (r: bool)
      ensures r == connected
    {
      r := connected;
    }

    /** `_attempt_reconnect()`, the `k`-th find of the oracle answering the `k`-th attempt. */
    method AttemptReconnect(finds: seq<bool>) returns (ok: bool, used: nat)
      modifies this`connected, this`reconnectCount, this`hasDevice
      ensures (LinkState(), ok, used) == ReconnectSpec(old(LinkState()), finds, 0)
    {
      used := 0;
      ghost var target := ReconnectSpec(old(LinkState()), finds, 0);
      while !stopFlag && reconnectCount < MaxReconnectAttempts
        invariant var r := ReconnectSpec(LinkState(), finds, used); target == (r.0, r.1, r.2 + used)
        invariant stopFlag == old(stopFlag)
        decreases MaxReconnectAttempts - reconnectCount
      {
        ghost var l := LinkState();
        if At(finds, used) {
          hasDevice, connected := true, true;
          assert LinkState() == l.(hasDevice := true, connected := true);
          return true, used + 1;
        }
        hasDevice, reconnectCount := false, reconnectCount + 1;
        assert LinkState() == l.(hasDevice := false, reconnectCount := l.reconnectCount + 1);
        used := used + 1;
      }
      ok := false;
    }

    /** The read loop of one connection: every event but `EV_SYN` is processed. */
    method ProcessEvents(evs: seq<Event>)
      modifies this
      ensures State() == ApplyEvents(old(State()), evs) && LinkState() == old(LinkState())
    {
      var i := 0;
      while i < |evs|
        invariant 0 <= i <= |evs|
        invariant ApplyEvents(old(State()), evs) == ApplyEvents(State(), evs[i..])
        invariant LinkState() == old(LinkState())
      {
        assert evs[i..][1..] == evs[i + 1..];
        if evs[i].evType != EvSyn {
          ProcessEvent(evs[i]);
        }
        i := i + 1;
      }
    }

    /** One pass of `_monitor_controller`'s loop: connect and read until the device fails,
        then handle the I/O error. */
    method MonitorPass(pass: Pass)
      modifies this
      ensures Pad(State(), LinkState()) == MonitorPassSpec(old(Pad(State(), LinkState())), pass)
    {
      Connect(pass);
      Disconnect(pass);
    }

    /** The `try` part of a pass: find a device if none is held, then read its events. */
    method Connect(pass: Pass)
      modifies this
      ensures Pad(State(), LinkState()) == ConnectSpec(old(Pad(State(), LinkState())), pass).0
    {
      if !hasDevice {
        hasDevice := pass.find;
      }
      if hasDevice {
        connected, reconnectCount := true, 0;
        ProcessEvents(pass.events);
      }
    }

    /** The `except OSError` part of a pass: drop the connection, then reconnect or stop. */
    method Disconnect(pass: Pass)
      modifies this
      ensures Pad(State(), LinkState()) == DisconnectSpec(old(Pad(State(), LinkState())), pass)
    {
      ghost var p := Pad(State(), LinkState());
      if connected {
        connected := false;
        ResetValues();
      }
      assert Pad(State(), LinkState()) == if p.link.connected then Pad(Neutral, p.link.(connected := false)) else p;
      var ok, _ := AttemptReconnect(pass.reconnectFinds);
      if !ok {
        stopFlag := true;
      }
    }

    /** `_monitor_controller()` over the passes the device goes through; returns the number of
        passes it ran. */
    method MonitorController(passes: seq<Pass>) returns (ran: nat)
      modifies this
      ensures Pad(State(), LinkState()) == MonitorRun(old(Pad(State(), LinkState())), passes)
      ensures ran <= |passes| && (ran < |passes| ==> stopFlag)
    {
      ran := 0;
      while !stopFlag && ran < |passes|
        invariant 0 <= ran <= |passes|
        invariant MonitorRun(old(Pad(State(), LinkState())), passes) == MonitorRun(Pad(State(), LinkState()), passes[ran..])
      {
        assert passes[ran..][1..] == passes[ran + 1..];
        MonitorPass(passes[ran]);
        ran := ran + 1;
      }
    }
  }
}
