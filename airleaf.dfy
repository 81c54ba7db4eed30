/** The AirLeaf family: its mode table, its `Function` presets (which stand
    for fan speeds and night mode), and how it decodes the snapshot (tenths of
    a degree, fan preset in `fn`, no rotation). Its write operations are
    methods of InnovaDevice.Device. */
module AirLeaf {
  import opened Wire
  import opened Modes
  import opened ModeRegistry

  const AUTO: Mode := NewMode("set/mode/auto", 0, auto := true)
  const HEATING: Mode := NewMode("set/mode/heating", 3, heat := true)
  const COOLING: Mode := NewMode("set/mode/cooling", 5, cool := true)

  const CODES: ModeTable := [(0, AUTO), (3, HEATING), (5, COOLING)]

  /** The `Function` enumeration: each preset has a command and a code. */
  datatype Function = FUNCTION_AUTO | FUNCTION_NIGHT | FUNCTION_MIN | FUNCTION_MAX
  {
    function Cmd(): string
    {
      match this
      case FUNCTION_AUTO => "set/function/auto"
      case FUNCTION_NIGHT => "set/function/night"
      case FUNCTION_MIN => "set/function/min"
      case FUNCTION_MAX => "set/function/max"
    }

    function Code(): int
    {
      match this
      case FUNCTION_AUTO => 1
      case FUNCTION_NIGHT => 2
      case FUNCTION_MIN => 3
      case FUNCTION_MAX => 4
    }
  }

  /** The members in the order `for function in self.Function` visits them. */
  const FUNCTIONS: seq<Function> := [FUNCTION_AUTO, FUNCTION_NIGHT, FUNCTION_MIN, FUNCTION_MAX]

  const TEMPERATURE_STEP: real := 0.5

  /** The preset whose code is `code`, defined member by member. */
  function FunctionWithCode(code: int): (r: Option<Function>)
    ensures r.Some? ==> r.value.Code() == code && r.value in FUNCTIONS
    ensures r.None? ==> forall f :: f in FUNCTIONS ==> f.Code() != code
  {
    if code == FUNCTION_AUTO.Code() then Some(FUNCTION_AUTO)
    else if code == FUNCTION_NIGHT.Code() then Some(FUNCTION_NIGHT)
    else if code == FUNCTION_MIN.Code() then Some(FUNCTION_MIN)
    else if code == FUNCTION_MAX.Code() then Some(FUNCTION_MAX)
    else None
  }

  /** The presets have the codes 1..4 and pairwise different codes and
      commands, so a code names at most one command. */
  lemma FunctionsAreDistinct()
    ensures forall i :: 0 <= i < |FUNCTIONS| ==> FUNCTIONS[i].Code() == i + 1
    ensures forall f, g :: f in FUNCTIONS && g in FUNCTIONS && f != g ==> f.Code() != g.Code() && f.Cmd() != g.Cmd()
  {
  }

  /** The scan at the head of `set_fan_speed`: the command of the preset whose
      code equals `speed` (the last such, as the loop keeps overwriting), or
      None when no preset has that code. */
  method FunctionCommand(speed: int) returns (command: Option<string>)
    ensures command.Some? <==> 1 <= speed <= 4
    ensures forall f :: f in FUNCTIONS && f.Code() == speed ==> command == Some(f.Cmd())
    ensures command == (if FunctionWithCode(speed).Some? then Some(FunctionWithCode(speed).value.Cmd()) else None)
  {
    command := None;
    var i := 0;
    while i < |FUNCTIONS|
      invariant 0 <= i <= |FUNCTIONS|
      invariant command.Some? <==> exists j :: 0 <= j < i && FUNCTIONS[j].Code() == speed
      invariant forall j :: 0 <= j < i && FUNCTIONS[j].Code() == speed ==> command == Some(FUNCTIONS[j].Cmd())
    {
      var preset := FUNCTIONS[i];
      if speed == preset.Code() {
        command := Some(preset.Cmd());
      }
      i := i + 1;
    }
    FunctionsAreDistinct();
    if 1 <= speed <= 4 {
      assert FUNCTIONS[speed - 1].Code() == speed;
    }
  }

  /** `ambient_temp`: `ta` in tenths of a degree, or 0. */
  function AmbientTemp(st: Status): (r: real)
    requires WellFormed(st)
    ensures "ta" in st ==> st["ta"] == Num((r * 10.0).Floor) && r * 10.0 == (r * 10.0).Floor as real
    ensures "ta" !in st ==> r == 0.0
  {
    NumOrZero(st, "ta") as real / 10.0
  }

  /** `target_temperature`: `sp` in tenths of a degree, or 0. */
  function TargetTemperature(st: Status): (r: real)
    requires WellFormed(st)
    ensures "sp" in st ==> st["sp"] == Num((r * 10.0).Floor) && r * 10.0 == (r * 10.0).Floor as real
    ensures "sp" !in st ==> r == 0.0
  {
    NumOrZero(st, "sp") as real / 10.0
  }

  /** `water_temperature`: `tw` in tenths of a degree, or 0. */
  function WaterTemperature(st: Status): (r: real)
    requires WellFormed(st)
    ensures "tw" in st ==> st["tw"] == Num((r * 10.0).Floor) && r * 10.0 == (r * 10.0).Floor as real
    ensures "tw" !in st ==> r == 0.0
  {
    NumOrZero(st, "tw") as real / 10.0
  }

  /** `fan_speed`: the preset code in `fn` as stored, or 0. */
  function FanSpeed(st: Status): (r: int)
    requires WellFormed(st)
    ensures "fn" in st ==> st["fn"] == Num(r)
    ensures "fn" !in st ==> r == 0
  {
    NumOrZero(st, "fn")
  }

  /** `night_mode`: on exactly when the preset in `fn` is NIGHT. */
  predicate NightMode(st: Status)
  {
    "fn" in st && st["fn"] == Num(FUNCTION_NIGHT.Code())
  }

  /** There is no rotation hardware: always off. */
  predicate Rotation(st: Status)
  {
    false
  }

  /** Night mode is the NIGHT preset and nothing else: storing its code reads
      as night, storing any other code (AUTO's included) or none reads as not;
      rotation never reads as on. */
  lemma NightModeIsNightPreset(st: Status, code: int)
    ensures NightMode(st["fn" := Num(code)]) <==> code == FUNCTION_NIGHT.Code()
    ensures "fn" !in st ==> !NightMode(st)
    ensures !Rotation(st)
  {
  }

  /** The table has the registry shape: keys 0, 3, 5. */
  lemma TableIsRegistered()
    ensures Registered(CODES)
  {
  }

  /** Which codes the table knows: all but 0, 3 and 5 read as UNKNOWN_MODE. */
  lemma GetModeKnowsExactly(c: int)
    ensures GetMode(CODES, c) == Constants.UNKNOWN_MODE <==> c !in {0, 3, 5}
  {
    TableIsRegistered();
    GetModeUnknownIffUnregistered(CODES, c);
    if c in {0, 3, 5} {
      var i := if c == 0 then 0 else if c == 3 then 1 else 2;
      assert CODES[i].0 == c;
    }
  }

  /** Auto, heating and cooling read back from their own codes. */
  lemma ModesReadBack()
    ensures GetMode(CODES, 0) == AUTO && GetMode(CODES, 3) == HEATING && GetMode(CODES, 5) == COOLING
  {
    TableIsRegistered();
    GetModeFinds(CODES, 0);
    GetModeFinds(CODES, 1);
    GetModeFinds(CODES, 2);
  }
}
