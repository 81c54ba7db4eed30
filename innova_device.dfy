/** The device object of the current package. The Python base class
    `InnovaDevice` and its two subclasses become one class whose family is
    fixed at construction; what differs between the families is taken from
    the modules TwoPointZero and AirLeaf. The snapshot is the field `status`,
    patched in place after every successful write. */
module InnovaDevice {
  import opened Wire
  import opened Transport
  import opened Modes
  import opened Constants
  import opened ModeRegistry
  import TwoPointZero
  import AirLeaf

  datatype Family = TWO_POINT_ZERO | AIR_LEAF

  /** The family's `Modes.codes` table. */
  function Codes(family: Family): (t: ModeTable)
    ensures Registered(t)
  {
    TwoPointZero.TableIsRegistered();
    AirLeaf.TableIsRegistered();
    match family
    case TWO_POINT_ZERO => TwoPointZero.CODES
    case AIR_LEAF => AirLeaf.CODES
  }

  /** `set_data` takes the document's RESULT as the new snapshot exactly when
      `success` is true and RESULT is present. */
  predicate Accepts(doc: Document)
  {
    doc.success == Some(true) && doc.result.Some?
  }

  /** `power`: on exactly when `ps` is present and holds 1. */
  predicate PowerOf(st: Status)
  {
    "ps" in st && st["ps"] == Num(1)
  }

  /** The power encodings read back: storing 1 in `ps` reads as on, storing 0
      as off, and an absent `ps` reads as off. */
  lemma PowerReadsBack(st: Status)
    ensures PowerOf(st["ps" := Num(1)]) && !PowerOf(st["ps" := Num(0)])
    ensures "ps" !in st ==> !PowerOf(st)
  {
  }

  /** `mode`: the table's mode for the code in `wm`, UNKNOWN_MODE when `wm`
      is absent. */
  function ModeOf(t: ModeTable, st: Status): (m: Mode)
    requires WellFormed(st)
    ensures "wm" !in st ==> m == UNKNOWN_MODE
    ensures "wm" in st ==> m == GetMode(t, st["wm"].n)
  {
    if "wm" in st then GetMode(t, st["wm"].n) else UNKNOWN_MODE
  }

  /** `section[key]` when the section and the key are both there, else None
      (the identity getters). */
  function SectionValue(section: Option<map<string, string>>, key: string): (r: Option<string>)
    ensures r.None? <==> section.None? || key !in section.value
    ensures r.Some? ==> r.value == section.value[key]
  {
    if section.Some? && key in section.value then Some(section.value[key]) else None
  }

  class Device {
    const family: Family
    const transport: Transport
    /** `_data`: the last status document received. */
    var data: Document
    /** `_status`: the snapshot. */
    var status: Status

    predicate Valid()
      reads this
    {
      WellFormed(status)
    }

    constructor (family: Family, transport: Transport)
      ensures this.family == family && this.transport == transport
      ensures data == EMPTY_DOCUMENT && status == map[]
      ensures Valid()
    {
      this.family := family;
      this.transport := transport;
      data := EMPTY_DOCUMENT;
      status := map[];
    }

    /** `set_data`: keep the document; when it is a success with a RESULT,
        scrub the password and make RESULT the snapshot. A document without
        `success` raises KeyError after it has been kept. */
    method SetData(doc: Document) returns (raised: Option<PyError>)
      requires Valid() && WellFormedDocument(doc)
      modifies this`data, this`status
      ensures Valid()
      ensures raised == if doc.success.None? then Some(KeyError("success")) else None
      ensures Accepts(doc) ==> data == WithScrubbedResult(doc) && status == Scrubbed(doc.result.value)
      ensures !Accepts(doc) ==> data == doc && status == old(status)
    {
      data := doc;
      if doc.success.None? {
        return Some(KeyError("success"));
      }
      raised := None;
      if doc.success.value && doc.result.Some? {
        ScrubbedKeepsWellFormed(doc.result.value);
        data := WithScrubbedResult(doc);
        status := Scrubbed(doc.result.value);
      }
    }

    // Read accessors: pure decodings of the snapshot.

    function AmbientTemp(): real
      reads this
      requires Valid()
    {
      match family
      case TWO_POINT_ZERO => TwoPointZero.AmbientTemp(status)
      case AIR_LEAF => AirLeaf.AmbientTemp(status)
    }

    function TargetTemperature(): real
      reads this
      requires Valid()
    {
      match family
      case TWO_POINT_ZERO => TwoPointZero.TargetTemperature(status)
      case AIR_LEAF => AirLeaf.TargetTemperature(status)
    }

    /** Only AirLeaf has `water_temperature`. */
    function WaterTemperature(): real
      reads this
      requires Valid() && family == AIR_LEAF
    {
      AirLeaf.WaterTemperature(status)
    }

    function FanSpeed(): int
      reads this
      requires Valid()
    {
      match family
      case TWO_POINT_ZERO => TwoPointZero.FanSpeed(status)
      case AIR_LEAF => AirLeaf.FanSpeed(status)
    }

    predicate Rotation()
      reads this
    {
      match family
      case TWO_POINT_ZERO => TwoPointZero.Rotation(status)
      case AIR_LEAF => AirLeaf.Rotation(status)
    }

    predicate NightMode()
      reads this
    {
      match family
      case TWO_POINT_ZERO => TwoPointZero.NightMode(status)
      case AIR_LEAF => AirLeaf.NightMode(status)
    }

    function TemperatureStep(): (r: real)
      ensures r == (if family == TWO_POINT_ZERO then 1.0 else 0.5)
    {
      match family
      case TWO_POINT_ZERO => TwoPointZero.TEMPERATURE_STEP
      case AIR_LEAF => AirLeaf.TEMPERATURE_STEP
    }

    function MinTemperature(): int { MIN_TEMP }

    function MaxTemperature(): int { MAX_TEMP }

    predicate Power()
      reads this
    {
      PowerOf(status)
    }

    /** `mode`. */
    function OperatingMode(): Mode
      reads this
      requires Valid()
    {
      ModeOf(Codes(family), status)
    }

    /** `Modes.get_supported_modes()` of the family. */
    function SupportedModes(): seq<Mode>
    {
      ModeRegistry.SupportedModes(Codes(family))
    }

    function Name(): Option<string>
      reads this
    {
      SectionValue(data.setup, "name")
    }

    function Serial(): Option<string>
      reads this
    {
      SectionValue(data.setup, "serial")
    }

    function Uid(): Option<string>
      reads this
    {
      data.uid
    }

    function SoftwareVersion(): Option<string>
      reads this
    {
      SectionValue(data.sw, "V")
    }

    function IpAddress(): Option<string>
      reads this
    {
      SectionValue(data.net, "ip")
    }

    predicate SupportsTargetTemp() { true }

    /** Only TwoPointZero overrides the base's `False`. */
    predicate SupportsSwing() { family == TWO_POINT_ZERO }

    predicate SupportsFan() { true }

    predicate SupportsPreset() { true }

    // Write operations: send, then patch the snapshot only on success.

    method PowerOn() returns (ok: bool)
      requires Valid()
      modifies this`status, transport
      ensures Valid()
      ensures transport.sent == old(transport.sent) + [Request(CMD_POWER_ON, NoBody)]
      ensures status == if ok then old(status)["ps" := Num(1)] else old(status)
      ensures ok ==> Power()
    {
      ok := transport.Send(Request(CMD_POWER_ON, NoBody));
      if ok {
        status := status["ps" := Num(1)];
      }
    }

    method PowerOff() returns (ok: bool)
      requires Valid()
      modifies this`status, transport
      ensures Valid()
      ensures transport.sent == old(transport.sent) + [Request(CMD_POWER_OFF, NoBody)]
      ensures status == if ok then old(status)["ps" := Num(0)] else old(status)
      ensures ok ==> !Power()
    {
      ok := transport.Send(Request(CMD_POWER_OFF, NoBody));
      if ok {
        status := status["ps" := Num(0)];
      }
    }

    /** `_set_mode`: send the mode's command; on success the unit is on and
        in that mode. */
    method SetMode(m: Mode) returns (ok: bool)
      requires Valid()
      modifies this`status, transport
      ensures Valid()
      ensures transport.sent == old(transport.sent) + [Request(m.command, NoBody)]
      ensures status == if ok then old(status)["ps" := Num(1)]["wm" := Num(m.code)] else old(status)
      ensures ok ==> Power()
      ensures ok && m in SupportedModes() ==> OperatingMode() == m
    {
      ok := transport.Send(Request(m.command, NoBody));
      if ok {
        status := status["ps" := Num(1)]["wm" := Num(m.code)];
        SupportedModesRoundTrip(Codes(family));
      }
    }

    method SetHeating() returns (ok: bool)
      requires Valid()
      modifies this`status, transport
      ensures Valid()
      ensures transport.sent == old(transport.sent) + [Request("set/mode/heating", NoBody)]
      ensures status == if ok then old(status)["ps" := Num(1)]["wm" := Num(if family == TWO_POINT_ZERO then 0 else 3)] else old(status)
      ensures ok ==> Power() && OperatingMode().IsHeating()
    {
      var mode := if family == TWO_POINT_ZERO then TwoPointZero.HEATING else AirLeaf.HEATING;
      assert mode == SupportedModes()[if family == TWO_POINT_ZERO then 0 else 1];
      ok := SetMode(mode);
    }

    method SetCooling() returns (ok: bool)
      requires Valid()
      modifies this`status, transport
      ensures Valid()
      ensures transport.sent == old(transport.sent) + [Request("set/mode/cooling", NoBody)]
      ensures status == if ok then old(status)["ps" := Num(1)]["wm" := Num(if family == TWO_POINT_ZERO then 1 else 5)] else old(status)
      ensures ok ==> Power() && OperatingMode().IsCooling()
    {
      var mode := if family == TWO_POINT_ZERO then TwoPointZero.COOLING else AirLeaf.COOLING;
      assert mode == SupportedModes()[if family == TWO_POINT_ZERO then 1 else 2];
      ok := SetMode(mode);
    }

    method SetAuto() returns (ok: bool)
      requires Valid()
      modifies this`status, transport
      ensures Valid()
      ensures transport.sent == old(transport.sent) + [Request("set/mode/auto", NoBody)]
      ensures status == if ok then old(status)["ps" := Num(1)]["wm" := Num(if family == TWO_POINT_ZERO then 5 else 0)] else old(status)
      ensures ok ==> Power() && OperatingMode().IsAuto()
    {
      var mode := if family == TWO_POINT_ZERO then TwoPointZero.AUTO else AirLeaf.AUTO;
      assert mode == SupportedModes()[if family == TWO_POINT_ZERO then 4 else 0];
      ok := SetMode(mode);
    }

    /** AirLeaf has no dehumidification: nothing is sent, nothing changes. */
    method SetDehumidifying() returns (ok: bool)
      requires Valid()
      modifies this`status, transport
      ensures Valid()
      ensures family == AIR_LEAF ==> !ok && transport.sent == old(transport.sent)
      ensures family == TWO_POINT_ZERO ==>
        transport.sent == old(transport.sent) + [Request("set/mode/dehumidification", NoBody)]
      ensures status == if ok then old(status)["ps" := Num(1)]["wm" := Num(3)] else old(status)
      ensures ok ==> Power() && OperatingMode().IsDehumidifying()
    {
      if family == AIR_LEAF {
        return false;
      }
      assert TwoPointZero.DEHUMIDIFICATION == SupportedModes()[2];
      ok := SetMode(TwoPointZero.DEHUMIDIFICATION);
    }

    /** AirLeaf has no fan-only mode: nothing is sent, nothing changes. */
    method SetFanOnly() returns (ok: bool)
      requires Valid()
      modifies this`status, transport
      ensures Valid()
      ensures family == AIR_LEAF ==> !ok && transport.sent == old(transport.sent)
      ensures family == TWO_POINT_ZERO ==>
        transport.sent == old(transport.sent) + [Request("set/mode/fanonly", NoBody)]
      ensures status == if ok then old(status)["ps" := Num(1)]["wm" := Num(4)] else old(status)
      ensures ok ==> Power() && OperatingMode().IsFanOnly()
    {
      if family == AIR_LEAF {
        return false;
      }
      assert TwoPointZero.FAN_ONLY == SupportedModes()[3];
      ok := SetMode(TwoPointZero.FAN_ONLY);
    }

    /** `set_temperature`: TwoPointZero sends and stores whole degrees;
        AirLeaf sends and stores `temperature * 100`, which its ÷10 getter
        then reads as ten times the value set. */
    method SetTemperature(temperature: int) returns (ok: bool)
      requires Valid()
      modifies this`status, transport
      ensures Valid()
      ensures var wire := if family == TWO_POINT_ZERO then temperature else temperature * 100;
        && transport.sent == old(transport.sent) + [Request(CMD_SET_TEMP, Form("p_temp", wire))]
        && status == if ok then old(status)["sp" := Num(wire)] else old(status)
      ensures ok && family == TWO_POINT_ZERO ==> TargetTemperature() == temperature as real
      ensures ok && family == AIR_LEAF ==> TargetTemperature() == (temperature * 10) as real
    {
      var wire := if family == TWO_POINT_ZERO then temperature else temperature * 100;
      ok := transport.Send(Request(CMD_SET_TEMP, Form("p_temp", wire)));
      if ok {
        status := status["sp" := Num(wire)];
      }
    }

    /** `set_fan_speed`: TwoPointZero sends the speed itself on `set/fan`;
        AirLeaf sends the command of the Function whose code equals the speed,
        and sends nothing and fails when no Function has that code. */
    method SetFanSpeed(speed: int) returns (ok: bool)
      requires Valid()
      modifies this`status, transport
      ensures Valid()
      ensures family == TWO_POINT_ZERO ==>
        transport.sent == old(transport.sent) + [Request(CMD_FAN_SPEED, Form("value", speed))]
      ensures family == AIR_LEAF && 1 <= speed <= 4 ==>
        transport.sent == old(transport.sent) + [Request(AirLeaf.FunctionWithCode(speed).value.Cmd(), NoBody)]
      ensures family == AIR_LEAF && !(1 <= speed <= 4) ==> !ok && transport.sent == old(transport.sent)
      ensures status == if ok then old(status)[(if family == TWO_POINT_ZERO then "fs" else "fn") := Num(speed)] else old(status)
      ensures ok ==> FanSpeed() == speed
    {
      if family == TWO_POINT_ZERO {
        ok := transport.Send(Request(CMD_FAN_SPEED, Form("value", speed)));
        if ok {
          status := status["fs" := Num(speed)];
        }
      } else {
        var command := AirLeaf.FunctionCommand(speed);
        if command.Some? && command.value != "" {
          ok := transport.Send(Request(command.value, NoBody));
          if ok {
            status := status["fn" := Num(speed)];
          }
        } else {
          ok := false;
        }
      }
    }

    /** `rotation_on`: TwoPointZero stores the inverted value 0; AirLeaf
        sends nothing and fails. */
    method RotationOn() returns (ok: bool)
      requires Valid()
      modifies this`status, transport
      ensures Valid()
      ensures family == TWO_POINT_ZERO ==>
        transport.sent == old(transport.sent) + [Request(CMD_ROTATION, Form("value", ROTATION_ON))]
      ensures family == AIR_LEAF ==> !ok && transport.sent == old(transport.sent)
      ensures status == if ok then old(status)["fr" := Num(ROTATION_ON)] else old(status)
      ensures ok ==> Rotation()
    {
      if family == AIR_LEAF {
        return false;
      }
      ok := transport.Send(Request(CMD_ROTATION, Form("value", ROTATION_ON)));
      if ok {
        status := status["fr" := Num(ROTATION_ON)];
      }
    }

    /** `rotation_off`: TwoPointZero stores 7; AirLeaf sends nothing and fails. */
    method RotationOff() returns (ok: bool)
      requires Valid()
      modifies this`status, transport
      ensures Valid()
      ensures family == TWO_POINT_ZERO ==>
        transport.sent == old(transport.sent) + [Request(CMD_ROTATION, Form("value", ROTATION_OFF))]
      ensures family == AIR_LEAF ==> !ok && transport.sent == old(transport.sent)
      ensures status == if ok then old(status)["fr" := Num(ROTATION_OFF)] else old(status)
      ensures !Rotation() <== ok || family == AIR_LEAF
    {
      if family == AIR_LEAF {
        return false;
      }
      ok := transport.Send(Request(CMD_ROTATION, Form("value", ROTATION_OFF)));
      if ok {
        status := status["fr" := Num(ROTATION_OFF)];
      }
    }

    /** `night_mode_on`: TwoPointZero toggles `nm` and touches nothing else
        (no fan-speed side effect); AirLeaf selects the NIGHT Function. */
    method NightModeOn() returns (ok: bool)
      requires Valid()
      modifies this`status, transport
      ensures Valid()
      ensures family == TWO_POINT_ZERO ==>
        && transport.sent == old(transport.sent) + [Request(CMD_NIGHT_MODE, Form("value", NIGHT_MODE_ON))]
        && status == if ok then old(status)["nm" := Num(NIGHT_MODE_ON)] else old(status)
      ensures family == AIR_LEAF ==>
        && transport.sent == old(transport.sent) + [Request("set/function/night", NoBody)]
        && status == if ok then old(status)["fn" := Num(2)] else old(status)
      ensures ok ==> NightMode()
    {
      if family == TWO_POINT_ZERO {
        ok := transport.Send(Request(CMD_NIGHT_MODE, Form("value", NIGHT_MODE_ON)));
        if ok {
          status := status["nm" := Num(NIGHT_MODE_ON)];
        }
      } else {
        ok := transport.Send(Request(AirLeaf.Function.FUNCTION_NIGHT.Cmd(), NoBody));
        if ok {
          status := status["fn" := Num(AirLeaf.Function.FUNCTION_NIGHT.Code())];
        }
      }
    }

    /** `night_mode_off`: TwoPointZero stores 0 in `nm`; AirLeaf goes back to
        the AUTO Function. */
    method NightModeOff() returns (ok: bool)
      requires Valid()
      modifies this`status, transport
      ensures Valid()
      ensures family == TWO_POINT_ZERO ==>
        && transport.sent == old(transport.sent) + [Request(CMD_NIGHT_MODE, Form("value", NIGHT_MODE_OFF))]
        && status == if ok then old(status)["nm" := Num(NIGHT_MODE_OFF)] else old(status)
      ensures family == AIR_LEAF ==>
        && transport.sent == old(transport.sent) + [Request("set/function/auto", NoBody)]
        && status == if ok then old(status)["fn" := Num(1)] else old(status)
      ensures ok ==> !NightMode()
    {
      if family == TWO_POINT_ZERO {
        ok := transport.Send(Request(CMD_NIGHT_MODE, Form("value", NIGHT_MODE_OFF)));
        if ok {
          status := status["nm" := Num(NIGHT_MODE_OFF)];
        }
      } else {
        ok := transport.Send(Request(AirLeaf.Function.FUNCTION_AUTO.Cmd(), NoBody));
        if ok {
          status := status["fn" := Num(AirLeaf.Function.FUNCTION_AUTO.Code())];
        }
      }
    }
  }
}
