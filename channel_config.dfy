/** The channel configuration of the PWM controller: the already-parsed `CHANNEL_CONFIGS`
    document, the count of input channels, the ordered validation rules, and the typed
    channel descriptors the controller works with once validation has passed. */
module ChannelConfig {
  import opened Common

  /** A value as the YAML loader hands it over. */
  datatype Value = Int(i: int) | Float(f: real) | Bool(b: bool) | Str(s: string) | Null

  /** One channel's entry: a dictionary from key to value. */
  type Entry = map<string, Value>

  /** `CHANNEL_CONFIGS` in document order: (channel name, entry) pairs. */
  type RawConfig = seq<(string, Entry)>

  /** The PCA9685 hat has 16 outputs. */
  const NumOutputs: nat := 16

  /** `isinstance(v, int)`: Python's bool is a subclass of int. */
  predicate IsInt(v: Value) { v.Int? || v.Bool? }

  function AsInt(v: Value): int
    requires IsInt(v)
  {
    match v
    case Int(i) => i
    case Bool(b) => if b then 1 else 0
  }

  /** The number a value compares as, or None when an ordering comparison on it raises TypeError. */
  function Numeric(v: Value): (r: Option<real>)
    ensures IsInt(v) ==> r == Some(AsInt(v) as real)
  {
    match v
    case Int(i) => Some(i as real)
    case Float(f) => Some(f)
    case Bool(b) => Some(if b then 1.0 else 0.0)
    case Str(_) => None
    case Null => None
  }

  /** Python truthiness, for `config.get('affects_pump', False)`. */
  predicate Truthy(v: Value)
  {
    match v
    case Int(i) => i != 0
    case Float(f) => f != 0.0
    case Bool(b) => b
    case Str(s) => s != ""
    case Null => false
  }

  predicate InRange(v: Value, lo: real, hi: real)
  {
    Numeric(v).Some? && lo <= Numeric(v).value <= hi
  }

  // ---------------------------------------------------------------------------------------
  // calculate_num_inputs

  /** `config.get('input_channel')` when it is an int. */
  predicate HasIntInput(e: Entry)
  {
    "input_channel" in e && IsInt(e["input_channel"])
  }

  /** The distinct integer input channels of a configuration. */
  ghost function InputChannelSet(cfg: RawConfig): set<int>
  {
    set i | 0 <= i < |cfg| && HasIntInput(cfg[i].1) :: AsInt(cfg[i].1["input_channel"])
  }

  /** `calculate_num_inputs`: counts the distinct integer `input_channel` values. */
  method CalculateNumInputs(cfg: RawConfig) returns (n: nat)
    ensures n == |InputChannelSet(cfg)|
  {
    var inputChannels: set<int> := {};
    var k := 0;
    while k < |cfg|
      invariant 0 <= k <= |cfg|
      invariant inputChannels == InputChannelSet(cfg[..k])
    {
      var e := cfg[k].1;
      if HasIntInput(e) {
        inputChannels := inputChannels + {AsInt(e["input_channel"])};
      }
      assert InputChannelSet(cfg[..k + 1]) == InputChannelSet(cfg[..k]) +
        (if HasIntInput(e) then {AsInt(e["input_channel"])} else {}) by {
        assert forall i | 0 <= i < k :: cfg[..k + 1][i] == cfg[..k][i];
      }
      k := k + 1;
    }
    assert cfg[..k] == cfg;
    n := |inputChannels|;
  }

  // ---------------------------------------------------------------------------------------
  // validate_configuration

  /** The rule a channel entry violates; the message of the ValueError names it. */
  datatype Rule =
    | MissingKey(key: string)
    | InvalidType
    | InvalidInputChannel
    | InvalidOutputChannel
    | InvalidDirection
    | OffsetOutOfRange
    | MissingAngleKey(angleKey: string)
    | AngleValueOutOfRange(angleKey: string)
    | InvalidAffectsPump
    | MissingPumpKey(pumpKey: string)
    | IdleOutOfRange
    | PumpMultiplierOutOfRange

  datatype ConfigError = ConfigError(channel: string, rule: Rule)

  datatype Outcome<+E> = Pass | Fail(error: E)

  const RequiredKeys: seq<string> := ["type", "input_channel", "output_channel", "direction", "offset"]
  const AngleKeys: seq<string> := ["multiplier_positive", "multiplier_negative", "gamma_positive", "gamma_negative"]
  const PumpKeys: seq<string> := ["idle", "multiplier"]

  predicate IsGammaKey(key: string) { key == "gamma_positive" || key == "gamma_negative" }
  predicate IsMultiplierKey(key: string) { key == "multiplier_positive" || key == "multiplier_negative" }

  /** The first key of `keys` missing from `e`. */
  function FirstMissing(e: Entry, keys: seq<string>): (r: Option<string>)
    ensures r.None? <==> forall k :: k in keys ==> k in e
    ensures r.Some? ==> r.value in keys && r.value !in e
  {
    if keys == [] then None
    else if keys[0] !in e then Some(keys[0])
    else FirstMissing(e, keys[1..])
  }

  /** The per-key loop over the angle keys: presence, then the range of that key, key by key. */
  function AngleKeyViolation(e: Entry, keys: seq<string>): Option<Rule>
  {
    if keys == [] then None
    else
      var key := keys[0];
      if key !in e then Some(MissingAngleKey(key))
      else if IsGammaKey(key) && !InRange(e[key], 0.1, 3.0) then Some(AngleValueOutOfRange(key))
      else if IsMultiplierKey(key) && !(Numeric(e[key]).Some? && 1.0 <= Abs(Numeric(e[key]).value) <= 50.0)
      then Some(AngleValueOutOfRange(key))
      else AngleKeyViolation(e, keys[1..])
  }

  /** The first rule, in the order the validator checks them, that the entry violates. */
  function EntryViolation(e: Entry, numInputs: nat): Option<Rule>
  {
    var common := CommonViolation(e, numInputs);
    if common.Some? then common else TypeViolation(e)
  }

  /** The checks every channel goes through: the required keys, the type, the channels, the
      direction and the offset. */
  function CommonViolation(e: Entry, numInputs: nat): (r: Option<Rule>)
    ensures r.None? ==> forall k :: k in RequiredKeys ==> k in e
  {
    var missing := FirstMissing(e, RequiredKeys);
    if missing.Some? then Some(MissingKey(missing.value))
    else if e["type"] != Str("angle") && e["type"] != Str("pump") then Some(InvalidType)
    else if e["input_channel"] != Str("None") &&
            !(IsInt(e["input_channel"]) && 0 <= AsInt(e["input_channel"]) < numInputs)
    then Some(InvalidInputChannel)
    else if !(IsInt(e["output_channel"]) && 0 <= AsInt(e["output_channel"]) < NumOutputs)
    then Some(InvalidOutputChannel)
    else if Numeric(e["direction"]) != Some(-1.0) && Numeric(e["direction"]) != Some(1.0)
    then Some(InvalidDirection)
    else if !InRange(e["offset"], -30.0, 30.0) then Some(OffsetOutOfRange)
    else None
  }

  /** The checks of an angle channel's or a pump channel's own keys. */
  function TypeViolation(e: Entry): Option<Rule>
    requires "type" in e
  {
    if e["type"] == Str("angle") then
      var a := AngleKeyViolation(e, AngleKeys);
      if a.Some? then a
      else if "affects_pump" !in e || !e["affects_pump"].Bool? then Some(InvalidAffectsPump)
      else None
    else
      var p := FirstMissing(e, PumpKeys);
      if p.Some? then Some(MissingPumpKey(p.value))
      else if !InRange(e["idle"], -1.0, 1.0) then Some(IdleOutOfRange)
      else if !(Numeric(e["multiplier"]).Some? && 0.0 < Numeric(e["multiplier"]).value <= 10.0)
      then Some(PumpMultiplierOutOfRange)
      else None
  }

  /** `validate_configuration`: the first violation in channel order, then rule order. */
  function Validate(cfg: RawConfig, numInputs: nat): Outcome<ConfigError>
  {
    if cfg == [] then Pass
    else
      var v := EntryViolation(cfg[0].1, numInputs);
      if v.Some? then Fail(ConfigError(cfg[0].0, v.value))
      else Validate(cfg[1..], numInputs)
  }

  // ---------------------------------------------------------------------------------------
  // An independent statement of what a valid entry is: every rule, unordered.

  predicate IntIn(v: Value, lo: int, hi: int)
  {
    IsInt(v) && lo <= AsInt(v) < hi
  }

  predicate EntryOk(e: Entry, numInputs: nat)
  {
    CommonOk(e, numInputs) && AngleOk(e) && PumpOk(e)
  }

  predicate CommonOk(e: Entry, numInputs: nat)
  {
    && (forall k :: k in RequiredKeys ==> k in e)
    && (e["type"] == Str("angle") || e["type"] == Str("pump"))
    && (e["input_channel"] == Str("None") || IntIn(e["input_channel"], 0, numInputs))
    && IntIn(e["output_channel"], 0, NumOutputs)
    && Numeric(e["direction"]) in {Some(-1.0), Some(1.0)}
    && InRange(e["offset"], -30.0, 30.0)
  }

  predicate AngleOk(e: Entry)
    requires "type" in e
  {
    e["type"] == Str("angle") ==>
      && (forall k :: k in AngleKeys ==> k in e)
      && InRange(e["gamma_positive"], 0.1, 3.0)
      && InRange(e["gamma_negative"], 0.1, 3.0)
      && Numeric(e["multiplier_positive"]).Some? && 1.0 <= Abs(Numeric(e["multiplier_positive"]).value) <= 50.0
      && Numeric(e["multiplier_negative"]).Some? && 1.0 <= Abs(Numeric(e["multiplier_negative"]).value) <= 50.0
      && "affects_pump" in e && e["affects_pump"].Bool?
  }

  predicate PumpOk(e: Entry)
    requires "type" in e
  {
    e["type"] == Str("pump") ==>
      && "idle" in e && "multiplier" in e
      && InRange(e["idle"], -1.0, 1.0)
      && Numeric(e["multiplier"]).Some? && 0.0 < Numeric(e["multiplier"]).value <= 10.0
  }

  /** The range rule for one angle key, as the per-key loop applies it. */
  predicate AngleValueOk(e: Entry, key: string)
    requires key in e
  {
    && (IsGammaKey(key) ==> InRange(e[key], 0.1, 3.0))
    && (IsMultiplierKey(key) ==> Numeric(e[key]).Some? && 1.0 <= Abs(Numeric(e[key]).value) <= 50.0)
  }

  lemma {:induction false} AngleKeyViolationIff(e: Entry, keys: seq<string>)
    ensures AngleKeyViolation(e, keys).None? <==> forall k :: k in keys ==> k in e && AngleValueOk(e, k)
  {
    if keys != [] {
      AngleKeyViolationIff(e, keys[1..]);
      assert forall k :: k in keys ==> k == keys[0] || k in keys[1..];
    }
  }

  lemma AngleKeysOk(e: Entry)
    ensures AngleKeyViolation(e, AngleKeys).None? <==>
      && (forall k :: k in AngleKeys ==> k in e)
      && InRange(e["gamma_positive"], 0.1, 3.0)
      && InRange(e["gamma_negative"], 0.1, 3.0)
      && Numeric(e["multiplier_positive"]).Some? && 1.0 <= Abs(Numeric(e["multiplier_positive"]).value) <= 50.0
      && Numeric(e["multiplier_negative"]).Some? && 1.0 <= Abs(Numeric(e["multiplier_negative"]).value) <= 50.0
  {
    AngleKeyViolationIff(e, AngleKeys);
    assert AngleKeys[0] == "multiplier_positive" && AngleKeys[1] == "multiplier_negative";
    assert AngleKeys[2] == "gamma_positive" && AngleKeys[3] == "gamma_negative";
    assert forall k :: k in AngleKeys ==> k == AngleKeys[0] || k == AngleKeys[1] || k == AngleKeys[2] || k == AngleKeys[3];
  }

  /** An entry passes the ordered checks exactly when it satisfies every rule. */
  lemma EntryViolationIffOk(e: Entry, numInputs: nat)
    ensures EntryViolation(e, numInputs).None? <==> EntryOk(e, numInputs)
  {
    CommonViolationIffOk(e, numInputs);
    if CommonOk(e, numInputs) {
      TypeViolationIffOk(e);
    }
  }

  lemma CommonViolationIffOk(e: Entry, numInputs: nat)
    ensures CommonViolation(e, numInputs).None? <==> CommonOk(e, numInputs)
  {
  }

  lemma TypeViolationIffOk(e: Entry)
    requires "type" in e && (e["type"] == Str("angle") || e["type"] == Str("pump"))
    ensures TypeViolation(e).None? <==> AngleOk(e) && PumpOk(e)
  {
    AngleKeysOk(e);
  }

  /** A configuration passes iff every channel satisfies every rule. */
  lemma {:induction false} ValidateIffAllOk(cfg: RawConfig, numInputs: nat)
    ensures Validate(cfg, numInputs) == Pass <==> forall i :: 0 <= i < |cfg| ==> EntryOk(cfg[i].1, numInputs)
  {
    if cfg != [] {
      EntryViolationIffOk(cfg[0].1, numInputs);
      ValidateIffAllOk(cfg[1..], numInputs);
      assert forall i :: 1 <= i < |cfg| ==> cfg[i] == cfg[1..][i - 1];
    }
  }

  /** A failing configuration reports the first violating channel and its first violated rule. */
  lemma {:induction false} ValidateReportsFirstViolation(cfg: RawConfig, numInputs: nat)
    requires Validate(cfg, numInputs).Fail?
    ensures var err := Validate(cfg, numInputs).error;
      exists k :: 0 <= k < |cfg| && cfg[k].0 == err.channel
        && EntryViolation(cfg[k].1, numInputs) == Some(err.rule)
        && forall j :: 0 <= j < k ==> EntryOk(cfg[j].1, numInputs)
  {
    var err := Validate(cfg, numInputs).error;
    if EntryViolation(cfg[0].1, numInputs).Some? {
      assert cfg[0].0 == err.channel;
    } else {
      EntryViolationIffOk(cfg[0].1, numInputs);
      ValidateReportsFirstViolation(cfg[1..], numInputs);
      var k :| 0 <= k < |cfg[1..]| && cfg[1..][k].0 == err.channel
        && EntryViolation(cfg[1..][k].1, numInputs) == Some(err.rule)
        && forall j :: 0 <= j < k ==> EntryOk(cfg[1..][j].1, numInputs);
      assert forall j :: 1 <= j < k + 1 ==> cfg[j] == cfg[1..][j - 1];
      assert cfg[k + 1] == cfg[1..][k];
    }
  }

  // ---------------------------------------------------------------------------------------
  // Input-channel coverage

  /** The integers 0 .. n - 1. */
  function Range(n: nat): (r: set<int>)
    ensures forall x :: x in r <==> 0 <= x < n
    ensures |r| == n
  {
    if n == 0 then {} else Range(n - 1) + {n - 1}
  }

  lemma SubsetOfSameSize(a: set<int>, b: set<int>)
    requires a <= b && |a| == |b|
    ensures a == b
  {
    assert a + (b - a) == b;
    assert a * (b - a) == {};
    assert |b - a| == 0;
  }

  /** A validated configuration uses exactly the input channels 0 .. num_inputs - 1. */
  lemma ValidatedInputsAreDense(cfg: RawConfig)
    requires Validate(cfg, |InputChannelSet(cfg)|) == Pass
    ensures InputChannelSet(cfg) == Range(|InputChannelSet(cfg)|)
  {
    var n := |InputChannelSet(cfg)|;
    ValidateIffAllOk(cfg, n);
    forall x | x in InputChannelSet(cfg) ensures 0 <= x < n {
      var i :| 0 <= i < |cfg| && HasIntInput(cfg[i].1) && AsInt(cfg[i].1["input_channel"]) == x;
      assert EntryOk(cfg[i].1, n);
    }
    SubsetOfSameSize(InputChannelSet(cfg), Range(n));
  }

  // ---------------------------------------------------------------------------------------
  // Typed channels

  datatype InputRef = Unmapped | Mapped(index: nat)

  datatype Kind =
    | Angle(gammaPositive: real, gammaNegative: real, multiplierPositive: real, multiplierNegative: real)
    | Pump(idle: real, multiplier: real)

  datatype Channel = Channel(
    name: string,
    kind: Kind,
    input: InputRef,
    output: nat,
    direction: real,
    offset: real,
    /** `config.get('affects_pump', False)`, read as a truth value */
    affectsPump: bool)

  /** What validation guarantees about one typed channel. */
  predicate ChannelValid(c: Channel, numInputs: nat)
  {
    && (c.input.Mapped? ==> c.input.index < numInputs)
    && c.output < NumOutputs
    && (c.direction == -1.0 || c.direction == 1.0)
    && -30.0 <= c.offset <= 30.0
    && KindValid(c.kind)
  }

  /** The ranges validation guarantees for an angle's or a pump's own parameters. */
  predicate KindValid(k: Kind)
  {
    match k
    case Angle(gp, gn, mp, mn) =>
      0.1 <= gp <= 3.0 && 0.1 <= gn <= 3.0 && 1.0 <= Abs(mp) <= 50.0 && 1.0 <= Abs(mn) <= 50.0
    case Pump(idle, m) => -1.0 <= idle <= 1.0 && 0.0 < m <= 10.0
  }

  function ParseEntry(name: string, e: Entry, numInputs: nat): (c: Channel)
    requires EntryOk(e, numInputs)
    ensures c.name == name && ChannelValid(c, numInputs)
    ensures c.kind.Angle? <==> e["type"] == Str("angle")
    ensures c.input.Unmapped? <==> e["input_channel"] == Str("None")
    ensures c.input.Mapped? ==> c.input.index == AsInt(e["input_channel"])
    ensures c.output == AsInt(e["output_channel"])
    ensures c.direction == Numeric(e["direction"]).value && c.offset == Numeric(e["offset"]).value
    ensures c.affectsPump <==> "affects_pump" in e && Truthy(e["affects_pump"])
    ensures c.kind == ParseKind(e)
  {
    var input := if e["input_channel"] == Str("None") then Unmapped else Mapped(AsInt(e["input_channel"]));
    Channel(name, ParseKind(e), input, AsInt(e["output_channel"]), Numeric(e["direction"]).value,
            Numeric(e["offset"]).value, "affects_pump" in e && Truthy(e["affects_pump"]))
  }

  /** The angle or pump parameters of a validated entry. */
  function ParseKind(e: Entry): (k: Kind)
    requires "type" in e && (e["type"] == Str("angle") || e["type"] == Str("pump")) && AngleOk(e) && PumpOk(e)
    ensures KindValid(k) && (k.Angle? <==> e["type"] == Str("angle"))
    ensures k.Angle? ==> && k.gammaPositive == Numeric(e["gamma_positive"]).value
                         && k.gammaNegative == Numeric(e["gamma_negative"]).value
                         && k.multiplierPositive == Numeric(e["multiplier_positive"]).value
                         && k.multiplierNegative == Numeric(e["multiplier_negative"]).value
    ensures k.Pump? ==> k.idle == Numeric(e["idle"]).value && k.multiplier == Numeric(e["multiplier"]).value
  {
    if e["type"] == Str("angle") then
      Angle(Numeric(e["gamma_positive"]).value, Numeric(e["gamma_negative"]).value,
            Numeric(e["multiplier_positive"]).value, Numeric(e["multiplier_negative"]).value)
    else Pump(Numeric(e["idle"]).value, Numeric(e["multiplier"]).value)
  }

  /** The typed descriptors of a validated configuration, in document order. */
  function Parse(cfg: RawConfig, numInputs: nat): (chs: seq<Channel>)
    requires Validate(cfg, numInputs) == Pass
    ensures |chs| == |cfg|
    ensures forall i :: 0 <= i < |cfg| ==> chs[i].name == cfg[i].0 && ChannelValid(chs[i], numInputs)
    ensures forall i :: 0 <= i < |cfg| ==> EntryOk(cfg[i].1, numInputs) && chs[i] == ParseEntry(cfg[i].0, cfg[i].1, numInputs)
  {
    ValidateIffAllOk(cfg, numInputs);
    seq(|cfg|, i requires 0 <= i < |cfg| => ParseEntry(cfg[i].0, cfg[i].1, numInputs))
  }

  datatype ChannelType = AngleType | PumpType

  /** `get_defined_channel_types`: the channel types that occur in the configuration. */
  function DefinedChannelTypes(chs: seq<Channel>): (r: set<ChannelType>)
    ensures AngleType in r <==> exists i :: 0 <= i < |chs| && chs[i].kind.Angle?
    ensures PumpType in r <==> exists i :: 0 <= i < |chs| && chs[i].kind.Pump?
  {
    set i | 0 <= i < |chs| :: if chs[i].kind.Angle? then AngleType else PumpType
  }
}
