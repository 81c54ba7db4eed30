/** The facade of the current package. It owns at most one device, created
    from the device-type code of the first status document that arrives;
    until then every getter answers a fixed default and every guarded write
    answers false without sending anything. */
module Innova {
  import opened Wire
  import opened Transport
  import opened Modes
  import opened Constants
  import opened InnovaDevice
  import opened InnovaFactory
  import AirLeaf
  import FanSpeeds

  class Innova {
    const transport: Transport
    /** `_innova_device`: None until the first successful update. */
    var device: Device?

    ghost predicate Valid()
      reads this, device
    {
      device != null ==> device.transport == transport && device.Valid()
    }

    constructor (transport: Transport)
      ensures this.transport == transport && device == null && Valid()
    {
      this.transport := transport;
      device := null;
    }

    /** `async_update`, given what the transport's `get_status` returned. A
        missing or empty document answers false and changes nothing. Otherwise
        the device is created on the first call only (a missing `deviceType`
        raises KeyError, an unknown one ValueError, and then no device is
        kept) and then ingests the document. */
    method AsyncUpdate(fetched: Option<Document>) returns (r: Outcome<bool>)
      requires Valid() && (fetched.Some? ==> WellFormedDocument(fetched.value))
      modifies this, device
      ensures Valid() && transport.sent == old(transport.sent)
      ensures r == Ok(false) <==> fetched.None? || !Truthy(fetched.value)
      ensures r == Ok(false) ==> device == old(device) && (device != null ==> unchanged(device))
      ensures old(device) != null ==> device == old(device)
      ensures old(device) == null && device != null ==>
        && fresh(device) && fetched.Some? && fetched.value.deviceType.Some?
        && Ok(device.family) == ResolveFamily(Some(fetched.value.deviceType.value))
      ensures old(device) == null && fetched.Some? && Truthy(fetched.value) ==>
        && (fetched.value.deviceType.None? ==> r == Raised(KeyError("deviceType")) && device == null)
        && (fetched.value.deviceType.Some? && ResolveFamily(Some(fetched.value.deviceType.value)).Raised? ==>
              r.Raised? && r.error.ValueError? && device == null)
      ensures r == Ok(true) ==>
        && device != null && fetched.Some? && fetched.value.success.Some?
        && device.data == (if Accepts(fetched.value) then WithScrubbedResult(fetched.value) else fetched.value)
        && device.status == if Accepts(fetched.value) then Scrubbed(fetched.value.result.value)
                            else if old(device) == null then map[] else old(device.status)
      ensures && fetched.Some? && Truthy(fetched.value) && fetched.value.success.Some?
              && (old(device) != null || (fetched.value.deviceType.Some? && ResolveFamily(Some(fetched.value.deviceType.value)).Ok?))
              ==> r == Ok(true)
      ensures device != null && fetched.Some? && Truthy(fetched.value) && fetched.value.success.None? ==>
        && r == Raised(KeyError("success")) && device.data == fetched.value
        && device.status == if old(device) == null then map[] else old(device.status)
    {
      if fetched.None? || !Truthy(fetched.value) {
        return Ok(false);
      }
      var doc := fetched.value;
      if device == null {
        if doc.deviceType.None? {
          return Raised(KeyError("deviceType"));
        }
        var created := GetDevice(Some(doc.deviceType.value), transport);
        if created.Raised? {
          return Raised(created.error);
        }
        device := created.value;
      }
      var raised := device.SetData(doc);
      if raised.Some? {
        return Raised(raised.value);
      }
      r := Ok(true);
    }

    // Getters: forward to the device, or answer the documented default.

    function AmbientTemp(): (r: real)
      reads this, device
      requires Valid()
      ensures device == null ==> r == 0.0
      ensures device != null ==> r == device.AmbientTemp()
    {
      if device != null then device.AmbientTemp() else 0.0
    }

    function TargetTemperature(): (r: real)
      reads this, device
      requires Valid()
      ensures device == null ==> r == 0.0
      ensures device != null ==> r == device.TargetTemperature()
    {
      if device != null then device.TargetTemperature() else 0.0
    }

    function TemperatureStep(): (r: real)
      reads this, device
      ensures device == null ==> r == 1.0
      ensures device != null ==> r == device.TemperatureStep()
    {
      if device != null then device.TemperatureStep() else 1.0
    }

    function MinTemperature(): (r: int)
      reads this
      ensures r == if device == null then 0 else MIN_TEMP
    {
      if device != null then device.MinTemperature() else 0
    }

    function MaxTemperature(): (r: int)
      reads this
      ensures r == if device == null then 0 else MAX_TEMP
    {
      if device != null then device.MaxTemperature() else 0
    }

    function Power(): (on: bool)
      reads this, device
      ensures device == null ==> !on
      ensures device != null ==> (on <==> PowerOf(device.status))
    {
      device != null && device.Power()
    }

    /** `mode`. */
    function OperatingMode(): (m: Mode)
      reads this, device
      requires Valid()
      ensures device == null ==> m == UNKNOWN_MODE
      ensures device != null ==> m == device.OperatingMode()
    {
      if device != null then device.OperatingMode() else UNKNOWN_MODE
    }

    function SupportedModes(): (r: seq<Mode>)
      reads this
      ensures device == null ==> r == []
      ensures device != null ==> r == ModeRegistry.SupportedModes(Codes(device.family))
    {
      if device != null then device.SupportedModes() else []
    }

    function Rotation(): (on: bool)
      reads this, device
      ensures device == null ==> !on
      ensures device != null ==> (on <==> device.Rotation())
    {
      device != null && device.Rotation()
    }

    function FanSpeed(): (r: int)
      reads this, device
      requires Valid()
      ensures device == null ==> r == 0
      ensures device != null ==> r == device.FanSpeed()
    {
      if device != null then device.FanSpeed() else 0
    }

    /** `supported_fan_speeds`: the empty list when no device is known; with
        a device it reaches the abstract property, whose body answers None. */
    function SupportedFanSpeeds(): (r: Option<seq<FanSpeeds.FanSpeed>>)
      reads this
      ensures r == if device == null then Some([]) else None
    {
      if device != null then None else Some([])
    }

    function NightMode(): (on: bool)
      reads this, device
      ensures device == null ==> !on
      ensures device != null ==> (on <==> device.NightMode())
    {
      device != null && device.NightMode()
    }

    function Name(): (r: Option<string>)
      reads this, device
      ensures device == null ==> r == None
      ensures device != null ==> r == device.Name()
    {
      if device != null then device.Name() else None
    }

    function Serial(): (r: Option<string>)
      reads this, device
      ensures device == null ==> r == None
      ensures device != null ==> r == device.Serial()
    {
      if device != null then device.Serial() else None
    }

    function Uid(): (r: Option<string>)
      reads this, device
      ensures device == null ==> r == None
      ensures device != null ==> r == device.Uid()
    {
      if device != null then device.Uid() else None
    }

    function SoftwareVersion(): (r: Option<string>)
      reads this, device
      ensures device == null ==> r == None
      ensures device != null ==> r == device.SoftwareVersion()
    {
      if device != null then device.SoftwareVersion() else None
    }

    function IpAddress(): (r: Option<string>)
      reads this, device
      ensures device == null ==> r == None
      ensures device != null ==> r == device.IpAddress()
    {
      if device != null then device.IpAddress() else None
    }

    // Guarded writes: false, and nothing sent, while no device is known. With
    // a device each one sends what the device's write sends, leaves the
    // document alone, and patches the snapshot exactly as the device does.

    method PowerOn() returns (ok: bool)
      requires Valid()
      modifies device, transport
      ensures Valid()
      ensures device == null ==> !ok && transport.sent == old(transport.sent)
      ensures device != null ==>
        && transport.sent == old(transport.sent) + [Request(CMD_POWER_ON, NoBody)]
        && device.data == old(device.data)
        && device.status == if ok then old(device.status)["ps" := Num(1)] else old(device.status)
      ensures ok ==> Power()
    {
      if device == null {
        return false;
      }
      ok := device.PowerOn();
    }

    method PowerOff() returns (ok: bool)
      requires Valid()
      modifies device, transport
      ensures Valid()
      ensures device == null ==> !ok && transport.sent == old(transport.sent)
      ensures device != null ==>
        && transport.sent == old(transport.sent) + [Request(CMD_POWER_OFF, NoBody)]
        && device.data == old(device.data)
        && device.status == if ok then old(device.status)["ps" := Num(0)] else old(device.status)
      ensures ok ==> device != null && !Power()
    {
      if device == null {
        return false;
      }
      ok := device.PowerOff();
    }

    method RotationOn() returns (ok: bool)
      requires Valid()
      modifies device, transport
      ensures Valid()
      ensures device == null ==> !ok && transport.sent == old(transport.sent)
      ensures device != null && device.family == TWO_POINT_ZERO ==>
        transport.sent == old(transport.sent) + [Request(CMD_ROTATION, Form("value", ROTATION_ON))]
      ensures device != null && device.family == AIR_LEAF ==> !ok && transport.sent == old(transport.sent)
      ensures device != null ==>
        && device.data == old(device.data)
        && device.status == if ok then old(device.status)["fr" := Num(ROTATION_ON)] else old(device.status)
      ensures ok ==> Rotation()
    {
      if device == null {
        return false;
      }
      ok := device.RotationOn();
    }

    method RotationOff() returns (ok: bool)
      requires Valid()
      modifies device, transport
      ensures Valid()
      ensures device == null ==> !ok && transport.sent == old(transport.sent)
      ensures device != null && device.family == TWO_POINT_ZERO ==>
        transport.sent == old(transport.sent) + [Request(CMD_ROTATION, Form("value", ROTATION_OFF))]
      ensures device != null && device.family == AIR_LEAF ==> !ok && transport.sent == old(transport.sent)
      ensures device != null ==>
        && device.data == old(device.data)
        && device.status == if ok then old(device.status)["fr" := Num(ROTATION_OFF)] else old(device.status)
      ensures ok ==> device != null && !Rotation()
    {
      if device == null {
        return false;
      }
      ok := device.RotationOff();
    }

    method NightModeOn() returns (ok: bool)
      requires Valid()
      modifies device, transport
      ensures Valid()
      ensures device == null ==> !ok && transport.sent == old(transport.sent)
      ensures device != null && device.family == TWO_POINT_ZERO ==>
        && transport.sent == old(transport.sent) + [Request(CMD_NIGHT_MODE, Form("value", NIGHT_MODE_ON))]
        && device.status == if ok then old(device.status)["nm" := Num(NIGHT_MODE_ON)] else old(device.status)
      ensures device != null && device.family == AIR_LEAF ==>
        && transport.sent == old(transport.sent) + [Request("set/function/night", NoBody)]
        && device.status == if ok then old(device.status)["fn" := Num(2)] else old(device.status)
      ensures device != null ==> device.data == old(device.data)
      ensures ok ==> NightMode()
    {
      if device == null {
        return false;
      }
      ok := device.NightModeOn();
    }

    method NightModeOff() returns (ok: bool)
      requires Valid()
      modifies device, transport
      ensures Valid()
      ensures device == null ==> !ok && transport.sent == old(transport.sent)
      ensures device != null && device.family == TWO_POINT_ZERO ==>
        && transport.sent == old(transport.sent) + [Request(CMD_NIGHT_MODE, Form("value", NIGHT_MODE_OFF))]
        && device.status == if ok then old(device.status)["nm" := Num(NIGHT_MODE_OFF)] else old(device.status)
      ensures device != null && device.family == AIR_LEAF ==>
        && transport.sent == old(transport.sent) + [Request("set/function/auto", NoBody)]
        && device.status == if ok then old(device.status)["fn" := Num(1)] else old(device.status)
      ensures device != null ==> device.data == old(device.data)
      ensures ok ==> device != null && !NightMode()
    {
      if device == null {
        return false;
      }
      ok := device.NightModeOff();
    }

    method SetTemperature(temperature: int) returns (ok: bool)
      requires Valid()
      modifies device, transport
      ensures Valid()
      ensures device == null ==> !ok && transport.sent == old(transport.sent)
      ensures device != null ==>
        var wire := if device.family == TWO_POINT_ZERO then temperature else temperature * 100;
        && transport.sent == old(transport.sent) + [Request(CMD_SET_TEMP, Form("p_temp", wire))]
        && device.data == old(device.data)
        && device.status == if ok then old(device.status)["sp" := Num(wire)] else old(device.status)
      ensures ok ==> (device != null &&
        TargetTemperature() == (if device.family == TWO_POINT_ZERO then temperature else temperature * 10) as real)
    {
      if device == null {
        return false;
      }
      ok := device.SetTemperature(temperature);
    }

    method SetFanSpeed(speed: int) returns (ok: bool)
      requires Valid()
      modifies device, transport
      ensures Valid()
      ensures device == null ==> !ok && transport.sent == old(transport.sent)
      ensures device != null && device.family == TWO_POINT_ZERO ==>
        transport.sent == old(transport.sent) + [Request(CMD_FAN_SPEED, Form("value", speed))]
      ensures device != null && device.family == AIR_LEAF && 1 <= speed <= 4 ==>
        transport.sent == old(transport.sent) + [Request(AirLeaf.FunctionWithCode(speed).value.Cmd(), NoBody)]
      ensures device != null && device.family == AIR_LEAF && !(1 <= speed <= 4) ==>
        !ok && transport.sent == old(transport.sent)
      ensures device != null ==>
        && device.data == old(device.data)
        && device.status == if ok then old(device.status)[(if device.family == TWO_POINT_ZERO then "fs" else "fn") := Num(speed)]
                            else old(device.status)
      ensures ok ==> device != null && FanSpeed() == speed
    {
      if device == null {
        return false;
      }
      ok := device.SetFanSpeed(speed);
    }

    // Unguarded forwards: the source dereferences the device without a check.

    method SetHeating() returns (ok: bool)
      requires Valid() && device != null
      modifies device, transport
      ensures Valid()
      ensures transport.sent == old(transport.sent) + [Request("set/mode/heating", NoBody)]
      ensures device.data == old(device.data)
      ensures device.status == if ok then old(device.status)["ps" := Num(1)]["wm" := Num(if device.family == TWO_POINT_ZERO then 0 else 3)]
                               else old(device.status)
      ensures ok ==> Power() && OperatingMode().IsHeating()
    {
      ok := device.SetHeating();
    }

    method SetCooling() returns (ok: bool)
      requires Valid() && device != null
      modifies device, transport
      ensures Valid()
      ensures transport.sent == old(transport.sent) + [Request("set/mode/cooling", NoBody)]
      ensures device.data == old(device.data)
      ensures device.status == if ok then old(device.status)["ps" := Num(1)]["wm" := Num(if device.family == TWO_POINT_ZERO then 1 else 5)]
                               else old(device.status)
      ensures ok ==> Power() && OperatingMode().IsCooling()
    {
      ok := device.SetCooling();
    }

    method SetDehumidifying() returns (ok: bool)
      requires Valid() && device != null
      modifies device, transport
      ensures Valid()
      ensures device.family == AIR_LEAF ==> !ok && transport.sent == old(transport.sent)
      ensures device.family == TWO_POINT_ZERO ==>
        transport.sent == old(transport.sent) + [Request("set/mode/dehumidification", NoBody)]
      ensures device.data == old(device.data)
      ensures device.status == if ok then old(device.status)["ps" := Num(1)]["wm" := Num(3)] else old(device.status)
      ensures ok ==> Power() && OperatingMode().IsDehumidifying()
    {
      ok := device.SetDehumidifying();
    }

    method SetFanOnly() returns (ok: bool)
      requires Valid() && device != null
      modifies device, transport
      ensures Valid()
      ensures device.family == AIR_LEAF ==> !ok && transport.sent == old(transport.sent)
      ensures device.family == TWO_POINT_ZERO ==>
        transport.sent == old(transport.sent) + [Request("set/mode/fanonly", NoBody)]
      ensures device.data == old(device.data)
      ensures device.status == if ok then old(device.status)["ps" := Num(1)]["wm" := Num(4)] else old(device.status)
      ensures ok ==> Power() && OperatingMode().IsFanOnly()
    {
      ok := device.SetFanOnly();
    }

    method SetAuto() returns (ok: bool)
      requires Valid() && device != null
      modifies device, transport
      ensures Valid()
      ensures transport.sent == old(transport.sent) + [Request("set/mode/auto", NoBody)]
      ensures device.data == old(device.data)
      ensures device.status == if ok then old(device.status)["ps" := Num(1)]["wm" := Num(if device.family == TWO_POINT_ZERO then 5 else 0)]
                               else old(device.status)
      ensures ok ==> Power() && OperatingMode().IsAuto()
    {
      ok := device.SetAuto();
    }

    // Capabilities: read from the device without a check. Every family
    // supports a target temperature, a fan and presets; only TwoPointZero
    // overrides the base's answer for swing.

    function SupportsTargetTemp(): (r: bool)
      reads this
      requires device != null
      ensures r
    {
      device.SupportsTargetTemp()
    }

    function SupportsSwing(): (r: bool)
      reads this
      requires device != null
      ensures r <==> device.family == TWO_POINT_ZERO
    {
      device.SupportsSwing()
    }

    function SupportsFan(): (r: bool)
      reads this
      requires device != null
      ensures r
    {
      device.SupportsFan()
    }

    function SupportsPreset(): (r: bool)
      reads this
      requires device != null
      ensures r
    {
      device.SupportsPreset()
    }
  }

  /** Before the first successful update every getter answers its default
      and every guarded write fails. */
  lemma UnresolvedDefaults(f: Innova)
    requires f.Valid() && f.device == null
    ensures f.AmbientTemp() == 0.0 && f.TargetTemperature() == 0.0
    ensures f.MinTemperature() == 0 && f.MaxTemperature() == 0 && f.FanSpeed() == 0
    ensures f.TemperatureStep() == 1.0
    ensures !f.Power() && !f.Rotation() && !f.NightMode()
    ensures f.OperatingMode() == UNKNOWN_MODE
    ensures f.SupportedModes() == [] && f.SupportedFanSpeeds() == Some([])
    ensures f.Name() == None && f.Serial() == None && f.Uid() == None
    ensures f.SoftwareVersion() == None && f.IpAddress() == None
  {
  }
}

/** Two end-to-end runs of the facade over a fresh transport. */
module InnovaScenarios {
  import opened Wire
  import opened Transport
  import opened Modes
  import opened InnovaDevice
  import opened Innova
  import AirLeaf
  import FanSpeeds

  /** The status an AirLeaf unit reports while heating: on, mode 3,
      set-point 21.0 and ambient 21.5 in tenths, AUTO preset. */
  const AIRLEAF_DOCUMENT: Document :=
    Document(Some(true),
             Some(map["ps" := Num(1), "wm" := Num(3), "sp" := Num(210), "ta" := Num(215), "fn" := Num(1)]),
             Some("002"), None, None, None, None)

  /** The first update with that document resolves an AirLeaf, and the getters
      decode it: powered, heating, 21.0 target, 21.5 ambient, AUTO preset. */
  method FirstAirLeafUpdate() returns (f: Innova, r: Outcome<bool>)
    ensures f.Valid() && r == Ok(true)
    ensures f.device != null && f.device.family == AIR_LEAF
    ensures f.Power() && f.OperatingMode().IsHeating()
    ensures f.TargetTemperature() == 21.0 && f.AmbientTemp() == 21.5
    ensures f.FanSpeed() == AirLeaf.Function.FUNCTION_AUTO.Code()
    ensures f.transport.sent == []
  {
    var transport := new Transport();
    f := new Innova(transport);
    r := f.AsyncUpdate(Some(AIRLEAF_DOCUMENT));
    AirLeaf.ModesReadBack();
  }

  /** On an AirLeaf, `set_fan_speed(FanSpeed.HIGH)` compares 5 with the
      Function codes 1..4, finds none, sends nothing and fails; FanSpeed.LOW
      (1) selects the AUTO Function. */
  method HighFanSpeedOnAirLeaf() returns (high: bool, low: bool, f: Innova)
    ensures !high
    ensures f.Valid() && f.device != null && f.device.family == AIR_LEAF
    ensures f.transport.sent == [Request("set/function/auto", NoBody)]
    ensures low ==> f.FanSpeed() == 1
  {
    var transport := new Transport();
    f := new Innova(transport);
    var r := f.AsyncUpdate(Some(AIRLEAF_DOCUMENT));
    high := f.SetFanSpeed(FanSpeeds.FanSpeed.HIGH.Value());
    low := f.SetFanSpeed(FanSpeeds.FanSpeed.LOW.Value());
  }
}
