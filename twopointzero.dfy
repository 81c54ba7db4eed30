/** The TwoPointZero family: its mode table and how it decodes the snapshot
    (whole degrees, raw fan speed in `fs`, rotation in `fr`, night in `nm`).
    Its write operations are methods of InnovaDevice.Device. */
module TwoPointZero {
  import opened Wire
  import opened Modes
  import opened Constants
  import opened ModeRegistry

  const HEATING: Mode := NewMode("set/mode/heating", 0, heat := true)
  const COOLING: Mode := NewMode("set/mode/cooling", 1, cool := true)
  const DEHUMIDIFICATION: Mode := NewMode("set/mode/dehumidification", 3, dehumidify := true)
  const FAN_ONLY: Mode := NewMode("set/mode/fanonly", 4, fanOnly := true)
  const AUTO: Mode := NewMode("set/mode/auto", 5, auto := true)

  const CODES: ModeTable := [(0, HEATING), (1, COOLING), (3, DEHUMIDIFICATION), (4, FAN_ONLY), (5, AUTO)]

  const TEMPERATURE_STEP: real := 1.0

  /** `ambient_temp`: `t` as stored, or 0. */
  function AmbientTemp(st: Status): (r: real)
    requires WellFormed(st)
    ensures "t" in st ==> st["t"] == Num(r.Floor) && r == r.Floor as real
    ensures "t" !in st ==> r == 0.0
  {
    NumOrZero(st, "t") as real
  }

  /** `target_temperature`: `sp` as stored, or 0. */
  function TargetTemperature(st: Status): (r: real)
    requires WellFormed(st)
    ensures "sp" in st ==> st["sp"] == Num(r.Floor) && r == r.Floor as real
    ensures "sp" !in st ==> r == 0.0
  {
    NumOrZero(st, "sp") as real
  }

  /** `fan_speed`: `fs` as stored, or 0. */
  function FanSpeed(st: Status): (r: int)
    requires WellFormed(st)
    ensures "fs" in st ==> st["fs"] == Num(r)
    ensures "fs" !in st ==> r == 0
  {
    NumOrZero(st, "fs")
  }

  /** `rotation`: on exactly when `fr` holds ROTATION_ON (0); the off value 7,
      any other value and an absent key all read as off. */
  predicate Rotation(st: Status)
  {
    "fr" in st && st["fr"] == Num(ROTATION_ON)
  }

  /** `night_mode`: on exactly when `nm` holds NIGHT_MODE_ON (1). */
  predicate NightMode(st: Status)
  {
    "nm" in st && st["nm"] == Num(NIGHT_MODE_ON)
  }

  /** The encodings read back: storing ROTATION_ON (0) reads as rotating,
      ROTATION_OFF (7) as not; NIGHT_MODE_ON (1) as night, NIGHT_MODE_OFF (0)
      as not; an absent key reads as off. */
  lemma EncodingsReadBack(st: Status)
    ensures Rotation(st["fr" := Num(ROTATION_ON)]) && !Rotation(st["fr" := Num(ROTATION_OFF)])
    ensures NightMode(st["nm" := Num(NIGHT_MODE_ON)]) && !NightMode(st["nm" := Num(NIGHT_MODE_OFF)])
    ensures "fr" !in st ==> !Rotation(st)
    ensures "nm" !in st ==> !NightMode(st)
  {
  }

  /** The table has the registry shape: keys 0, 1, 3, 4, 5, each equal to its
      mode's code, each mode with exactly one capability. */
  lemma TableIsRegistered()
    ensures Registered(CODES)
  {
  }

  /** Which codes the table knows: every other code, 2 included, reads as
      UNKNOWN_MODE. */
  lemma GetModeKnowsExactly(c: int)
    ensures GetMode(CODES, c) == UNKNOWN_MODE <==> c !in {0, 1, 3, 4, 5}
  {
    TableIsRegistered();
    GetModeUnknownIffUnregistered(CODES, c);
    if c in {0, 1, 3, 4, 5} {
      var i := if c == 0 then 0 else if c == 1 then 1 else c - 1;
      assert CODES[i].0 == c;
    }
  }

  /** The five modes (heating, cooling, dehumidification, fan only, auto)
      read back from their own codes. */
  lemma ModesReadBack()
    ensures GetMode(CODES, 0) == HEATING && GetMode(CODES, 1) == COOLING
    ensures GetMode(CODES, 3) == DEHUMIDIFICATION && GetMode(CODES, 4) == FAN_ONLY
    ensures GetMode(CODES, 5) == AUTO
  {
    TableIsRegistered();
    GetModeFinds(CODES, 0);
    GetModeFinds(CODES, 1);
    GetModeFinds(CODES, 2);
    GetModeFinds(CODES, 3);
    GetModeFinds(CODES, 4);
  }
}
