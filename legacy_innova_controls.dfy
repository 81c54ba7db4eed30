/** The facade of the earlier revision. Like the current one it creates its
    device from the first status document, but a code the factory does not
    know leaves it without a device, and the `set_data` call that follows
    then fails on None. */
module LegacyInnovaControls {
  import opened Wire
  import opened Transport
  import opened LegacyConstants
  import opened LegacyModes
  import opened InnovaDevice
  import opened LegacyInnovaFactory
  import LegacyInnovaDevice

  class Innova {
    const transport: Transport
    /** `_device_manager`: None until a device has been created. */
    var device: LegacyInnovaDevice.Device?

    ghost predicate Valid()
      reads this, device
    {
      device != null ==> device.transport == transport && device.Valid()
    }

    constructor (transport: Transport)
      ensures this.transport == transport && device == null && Valid()
    {
      this.transport := transport;
      device := null;
    }

    /** `async_update`, given what the transport's `get_status` returned. A
        missing or empty document answers false and changes nothing. Otherwise
        a device is created while there is none (a missing `deviceType` raises
        KeyError); with still no device, `set_data` raises AttributeError;
        a device ingests the document, and a document without RESULT raises
        KeyError. */
    method AsyncUpdate(fetched: Option<Document>) returns (r: Outcome<bool>)
      requires Valid() && (fetched.Some? ==> WellFormedDocument(fetched.value))
      modifies this, device
      ensures Valid() && transport.sent == old(transport.sent)
      ensures r == Ok(false) <==> fetched.None? || !Truthy(fetched.value)
      ensures r == Ok(false) ==> device == old(device) && (device != null ==> unchanged(device))
      ensures old(device) != null ==> device == old(device)
      ensures old(device) == null && device != null ==>
        && fresh(device) && fetched.Some? && fetched.value.deviceType.Some?
        && Some(device.family) == ResolveFamily(fetched.value.deviceType.value)
      ensures old(device) == null && fetched.Some? && Truthy(fetched.value) ==>
        && (fetched.value.deviceType.None? ==> r == Raised(KeyError("deviceType")) && device == null)
        && (fetched.value.deviceType.Some? && ResolveFamily(fetched.value.deviceType.value).None? ==>
              r == Raised(AttributeError("set_data")) && device == null)
      ensures r == Ok(true) ==>
        && device != null && fetched.Some? && fetched.value.result.Some?
        && device.data == WithScrubbedResult(fetched.value)
        && device.status == Scrubbed(fetched.value.result.value)
      ensures && fetched.Some? && Truthy(fetched.value) && fetched.value.result.Some?
              && (old(device) != null || (fetched.value.deviceType.Some? && ResolveFamily(fetched.value.deviceType.value).Some?))
              ==> r == Ok(true)
      ensures device != null && fetched.Some? && Truthy(fetched.value) && fetched.value.result.None? ==>
        && r == Raised(KeyError("RESULT")) && device.data == fetched.value
        && device.status == if old(device) == null then map[] else old(device.status)
    {
      if fetched.None? || !Truthy(fetched.value) {
        return Ok(false);
      }
      var doc := fetched.value;
      if device == null {
        if doc.deviceType.None? {
          return Raised(KeyError("deviceType"));
        }
        device := GetDevice(doc.deviceType.value, transport);
      }
      if device == null {
        return Raised(AttributeError("set_data"));
      }
      var raised := device.SetData(doc);
      if raised.Some? {
        return Raised(raised.value);
      }
      r := Ok(true);
    }

    // Getters: forward to the device, or answer the documented default.

    function AmbientTemp(): (r: Outcome<real>)
      reads this, device
      requires Valid()
      ensures device == null ==> r == Ok(0.0)
      ensures device != null ==> r == device.AmbientTemp()
    {
      if device != null then device.AmbientTemp() else Ok(0.0)
    }

    function TargetTemperature(): (r: real)
      reads this, device
      requires Valid()
      ensures device == null ==> r == 0.0
      ensures device != null ==> r == device.TargetTemperature()
    {
      if device != null then device.TargetTemperature() else 0.0
    }

    function MinTemperature(): (r: int)
      reads this
      ensures r == if device == null then 0 else MIN_TEMP
    {
      if device != null then device.MinTemperature() else 0
    }

    function MaxTemperature(): (r: int)
      reads this
      ensures r == if device == null then 0 else MAX_TEMP
    {
      if device != null then device.MaxTemperature() else 0
    }

    function Power(): (on: bool)
      reads this, device
      ensures device == null ==> !on
      ensures device != null ==> (on <==> PowerOf(device.status))
    {
      device != null && device.Power()
    }

    /** `mode`: the device's scan, or nothing while no device is known. */
    method Mode() returns (r: Option<ModeMember>)
      requires Valid()
      ensures device == null ==> r == None
      ensures device != null && "wm" !in device.status ==> r == None
      ensures device != null && "wm" in device.status ==>
        r == FirstWithCode(LegacyInnovaDevice.Members(device.family), device.status["wm"].n)
    {
      if device == null {
        return None;
      }
      r := device.Mode();
    }

    function Rotation(): (on: bool)
      reads this, device
      ensures device == null ==> !on
      ensures device != null ==> (on <==> device.Rotation())
    {
      device != null && device.Rotation()
    }

    function FanSpeed(): (r: int)
      reads this, device
      requires Valid()
      ensures device == null ==> r == 0
      ensures device != null ==> r == device.FanSpeed()
    {
      if device != null then device.FanSpeed() else 0
    }

    function NightMode(): (on: bool)
      reads this, device
      ensures device == null ==> !on
      ensures device != null ==> (on <==> device.NightMode())
    {
      device != null && device.NightMode()
    }

    function Name(): (r: Option<string>)
      reads this, device
      ensures device == null ==> r == None
      ensures device != null ==> r == device.Name()
    {
      if device != null then device.Name() else None
    }

    function Serial(): (r: Option<string>)
      reads this, device
      ensures device == null ==> r == None
      ensures device != null ==> r == device.Serial()
    {
      if device != null then device.Serial() else None
    }

    function Uid(): (r: Option<string>)
      reads this, device
      ensures device == null ==> r == None
      ensures device != null ==> r == device.Uid()
    {
      if device != null then device.Uid() else None
    }

    function SoftwareVersion(): (r: Option<string>)
      reads this, device
      ensures device == null ==> r == None
      ensures device != null ==> r == device.SoftwareVersion()
    {
      if device != null then device.SoftwareVersion() else None
    }

    function IpAddress(): (r: Option<string>)
      reads this, device
      ensures device == null ==> r == None
      ensures device != null ==> r == device.IpAddress()
    {
      if device != null then device.IpAddress() else None
    }

    // Guarded writes: false, and nothing sent, while no device is known. With
    // a device each one sends what the device's write sends, leaves the
    // document alone, and patches the snapshot exactly as the device does.

    method PowerOn() returns (ok: bool)
      requires Valid()
      modifies device, transport
      ensures Valid()
      ensures device == null ==> !ok && transport.sent == old(transport.sent)
      ensures device != null ==>
        && transport.sent == old(transport.sent) + [Request(CMD_POWER_ON, NoBody)]
        && device.data == old(device.data)
        && device.status == if ok then old(device.status)["ps" := Num(1)] else old(device.status)
      ensures ok ==> Power()
    {
      if device == null {
        return false;
      }
      ok := device.PowerOn();
    }

    method PowerOff() returns (ok: bool)
      requires Valid()
      modifies device, transport
      ensures Valid()
      ensures device == null ==> !ok && transport.sent == old(transport.sent)
      ensures device != null ==>
        && transport.sent == old(transport.sent) + [Request(CMD_POWER_OFF, NoBody)]
        && device.data == old(device.data)
        && device.status == if ok then old(device.status)["ps" := Num(0)] else old(device.status)
      ensures ok ==> device != null && !Power()
    {
      if device == null {
        return false;
      }
      ok := device.PowerOff();
    }

    method RotationOn() returns (ok: bool)
      requires Valid()
      modifies device, transport
      ensures Valid()
      ensures device == null ==> !ok && transport.sent == old(transport.sent)
      ensures device != null && device.family == TWO_POINT_ZERO ==>
        transport.sent == old(transport.sent) + [Request(CMD_ROTATION, Form("value", ROTATION_ON))]
      ensures device != null && device.family == AIR_LEAF ==> !ok && transport.sent == old(transport.sent)
      ensures device != null ==>
        && device.data == old(device.data)
        && device.status == if ok then old(device.status)["fr" := Num(ROTATION_ON)] else old(device.status)
      ensures ok ==> Rotation()
    {
      if device == null {
        return false;
      }
      ok := device.RotationOn();
    }

    method RotationOff() returns (ok: bool)
      requires Valid()
      modifies device, transport
      ensures Valid()
      ensures device == null ==> !ok && transport.sent == old(transport.sent)
      ensures device != null && device.family == TWO_POINT_ZERO ==>
        transport.sent == old(transport.sent) + [Request(CMD_ROTATION, Form("value", ROTATION_OFF))]
      ensures device != null && device.family == AIR_LEAF ==> !ok && transport.sent == old(transport.sent)
      ensures device != null ==>
        && device.data == old(device.data)
        && device.status == if ok then old(device.status)["fr" := Num(ROTATION_OFF)] else old(device.status)
      ensures ok ==> device != null && !Rotation()
    {
      if device == null {
        return false;
      }
      ok := device.RotationOff();
    }

    method NightModeOn() returns (ok: bool)
      requires Valid()
      modifies device, transport
      ensures Valid()
      ensures device == null ==> !ok && transport.sent == old(transport.sent)
      ensures device != null && device.family == TWO_POINT_ZERO ==>
        && transport.sent == old(transport.sent) + [Request(CMD_NIGHT_MODE, Form("value", NIGHT_MODE_ON))]
        && device.status == if ok then old(device.status)["nm" := Num(NIGHT_MODE_ON)] else old(device.status)
      ensures device != null && device.family == AIR_LEAF ==>
        && transport.sent == old(transport.sent) + [Request(CMD_FAN_SPEED, Form("value", 2))]
        && device.status == if ok then old(device.status)["fn" := Num(2)] else old(device.status)
      ensures device != null ==> device.data == old(device.data)
      ensures ok ==> NightMode()
    {
      if device == null {
        return false;
      }
      ok := device.NightModeOn();
    }

    method NightModeOff() returns (ok: bool)
      requires Valid()
      modifies device, transport
      ensures Valid()
      ensures device == null ==> !ok && transport.sent == old(transport.sent)
      ensures device != null && device.family == TWO_POINT_ZERO ==>
        && transport.sent == old(transport.sent) + [Request(CMD_NIGHT_MODE, Form("value", NIGHT_MODE_OFF))]
        && device.status == if ok then old(device.status)["nm" := Num(NIGHT_MODE_OFF)] else old(device.status)
      ensures device != null && device.family == AIR_LEAF ==>
        && transport.sent == old(transport.sent) + [Request(CMD_FAN_SPEED, Form("value", 0))]
        && device.status == if ok then old(device.status)["fn" := Num(0)] else old(device.status)
      ensures device != null ==> device.data == old(device.data)
      ensures ok ==> device != null && !NightMode()
    {
      if device == null {
        return false;
      }
      ok := device.NightModeOff();
    }

    method SetTemperature(temperature: int) returns (ok: bool)
      requires Valid()
      modifies device, transport
      ensures Valid()
      ensures device == null ==> !ok && transport.sent == old(transport.sent)
      ensures device != null ==>
        var wire := if device.family == TWO_POINT_ZERO then temperature else temperature * 100;
        && transport.sent == old(transport.sent) + [Request(CMD_SET_TEMP, Form("p_temp", wire))]
        && device.data == old(device.data)
        && device.status == if ok then old(device.status)["sp" := Num(wire)] else old(device.status)
      ensures ok ==> (device != null &&
        TargetTemperature() == (if device.family == TWO_POINT_ZERO then temperature else temperature * 10) as real)
    {
      if device == null {
        return false;
      }
      ok := device.SetTemperature(temperature);
    }

    method SetFanSpeed(speed: int) returns (ok: bool)
      requires Valid()
      modifies device, transport
      ensures Valid()
      ensures device == null ==> !ok && transport.sent == old(transport.sent)
      ensures device != null ==>
        && transport.sent == old(transport.sent) + [Request(CMD_FAN_SPEED, Form("value", speed))]
        && device.data == old(device.data)
        && device.status == if ok then old(device.status)[(if device.family == TWO_POINT_ZERO then "fs" else "fn") := Num(speed)]
                            else old(device.status)
      ensures ok ==> device != null && FanSpeed() == speed
    {
      if device == null {
        return false;
      }
      ok := device.SetFanSpeed(speed);
    }

    method SetMode(m: ModeMember) returns (ok: bool)
      requires Valid()
      modifies device, transport
      ensures Valid()
      ensures device == null ==> !ok && transport.sent == old(transport.sent)
      ensures device != null ==>
        && transport.sent == old(transport.sent) + [Request(m.cmd, NoBody)]
        && device.data == old(device.data)
        && device.status == if ok then old(device.status)["ps" := Num(1)]["wm" := Num(m.code)] else old(device.status)
      ensures ok ==> Power()
      ensures ok && m in LegacyInnovaDevice.Members(device.family) ==>
        "wm" in device.status && FirstWithCode(LegacyInnovaDevice.Members(device.family), device.status["wm"].n) == Some(m)
    {
      if device == null {
        return false;
      }
      ok := device.SetMode(m);
    }
  }

  /** Before a device exists every getter answers its default. */
  lemma UnresolvedDefaults(f: Innova)
    requires f.Valid() && f.device == null
    ensures f.AmbientTemp() == Ok(0.0) && f.TargetTemperature() == 0.0
    ensures f.MinTemperature() == 0 && f.MaxTemperature() == 0 && f.FanSpeed() == 0
    ensures !f.Power() && !f.Rotation() && !f.NightMode()
    ensures f.Name() == None && f.Serial() == None && f.Uid() == None
    ensures f.SoftwareVersion() == None && f.IpAddress() == None
  {
  }
}

/** End-to-end runs contrasting the two revisions on the same documents. */
module LegacyScenarios {
  import opened Wire
  import opened Transport
  import opened InnovaDevice
  import Innova
  import LegacyInnovaControls

  /** An AirLeaf status that reports the ambient only in `ta`. */
  const TA_ONLY_DOCUMENT: Document :=
    Document(Some(true), Some(map["sp" := Num(210), "ta" := Num(215)]), Some("002"), None, None, None, None)

  /** A status whose device-type code is empty. */
  const EMPTY_CODE_DOCUMENT: Document :=
    Document(Some(true), Some(map["sp" := Num(21), "t" := Num(20)]), Some(""), None, None, None, None)

  /** With the ambient only in `ta`, the earlier facade reports 0 where the
      current one reports 21.5; both read the set-point 21.0. */
  method AmbientOnlyInTa() returns (earlier: LegacyInnovaControls.Innova, current: Innova.Innova)
    ensures earlier.Valid() && current.Valid()
    ensures earlier.AmbientTemp() == Ok(0.0) && current.AmbientTemp() == 21.5
    ensures earlier.TargetTemperature() == 21.0 && current.TargetTemperature() == 21.0
  {
    var t1 := new Transport();
    earlier := new LegacyInnovaControls.Innova(t1);
    var r1 := earlier.AsyncUpdate(Some(TA_ONLY_DOCUMENT));
    var t2 := new Transport();
    current := new Innova.Innova(t2);
    var r2 := current.AsyncUpdate(Some(TA_ONLY_DOCUMENT));
  }

  /** An empty device-type code: the current facade resolves a TwoPointZero,
      the earlier one gets no device and fails on `set_data`. */
  method EmptyDeviceType() returns (earlier: LegacyInnovaControls.Innova, r1: Outcome<bool>,
                                    current: Innova.Innova, r2: Outcome<bool>)
    ensures earlier.Valid() && earlier.device == null && r1 == Raised(AttributeError("set_data"))
    ensures current.Valid() && current.device != null && current.device.family == TWO_POINT_ZERO && r2 == Ok(true)
    ensures current.AmbientTemp() == 20.0
  {
    var t1 := new Transport();
    earlier := new LegacyInnovaControls.Innova(t1);
    r1 := earlier.AsyncUpdate(Some(EMPTY_CODE_DOCUMENT));
    var t2 := new Transport();
    current := new Innova.Innova(t2);
    r2 := current.AsyncUpdate(Some(EMPTY_CODE_DOCUMENT));
  }
}
