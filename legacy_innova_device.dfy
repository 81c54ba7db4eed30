/** The device object of the earlier revision. As in the current package, the
    base class and its subclasses become one class whose family is fixed at
    construction. The earlier TwoPointZero adds nothing to the base class it
    is written against, so it is the base behaviour here: the base getters
    (whole degrees, `fs`, `fr`, `nm`) and the base's empty Mode enumeration. */
module LegacyInnovaDevice {
  import opened Wire
  import opened Transport
  import opened LegacyConstants
  import opened LegacyModes
  import opened InnovaDevice
  import TwoPointZero
  import AirLeaf
  import LegacyAirLeaf

  /** The members `for mode in self.Mode` visits: none for the base enum,
      AUTO, HEATING, COOLING for AirLeaf. */
  function Members(family: Family): (r: seq<ModeMember>)
    ensures DistinctCodes(r)
  {
    LegacyAirLeaf.MembersHaveDistinctCodes();
    match family
    case TWO_POINT_ZERO => []
    case AIR_LEAF => LegacyAirLeaf.MEMBERS
  }

  class Device {
    const family: Family
    const transport: Transport
    /** `_data`: the last status document received. */
    var data: Document
    /** `_status`: the snapshot. */
    var status: Status

    predicate Valid()
      reads this
    {
      WellFormed(status)
    }

    constructor (family: Family, transport: Transport)
      ensures this.family == family && this.transport == transport
      ensures data == EMPTY_DOCUMENT && status == map[]
      ensures Valid()
    {
      this.family := family;
      this.transport := transport;
      data := EMPTY_DOCUMENT;
      status := map[];
    }

    /** `set_data` with no test of `success`: keep the document, scrub the
        password in RESULT and make RESULT the snapshot. A document without
        RESULT raises KeyError after it has been kept. */
    method SetData(doc: Document) returns (raised: Option<PyError>)
      requires Valid() && WellFormedDocument(doc)
      modifies this`data, this`status
      ensures Valid()
      ensures raised == if doc.result.None? then Some(KeyError("RESULT")) else None
      ensures doc.result.Some? ==> data == WithScrubbedResult(doc) && status == Scrubbed(doc.result.value)
      ensures doc.result.None? ==> data == doc && status == old(status)
    {
      data := doc;
      if doc.result.None? {
        return Some(KeyError("RESULT"));
      }
      ScrubbedKeepsWellFormed(doc.result.value);
      data := WithScrubbedResult(doc);
      status := Scrubbed(doc.result.value);
      raised := None;
    }

    // Read accessors: pure decodings of the snapshot.

    /** `ambient_temp`: AirLeaf's may raise. */
    function AmbientTemp(): Outcome<real>
      reads this
      requires Valid()
    {
      match family
      case TWO_POINT_ZERO => Ok(TwoPointZero.AmbientTemp(status))
      case AIR_LEAF => LegacyAirLeaf.AmbientTemp(status)
    }

    function TargetTemperature(): real
      reads this
      requires Valid()
    {
      match family
      case TWO_POINT_ZERO => TwoPointZero.TargetTemperature(status)
      case AIR_LEAF => AirLeaf.TargetTemperature(status)
    }

    /** Only AirLeaf has `water_temperature`. */
    function WaterTemperature(): real
      reads this
      requires Valid() && family == AIR_LEAF
    {
      AirLeaf.WaterTemperature(status)
    }

    function FanSpeed(): int
      reads this
      requires Valid()
    {
      match family
      case TWO_POINT_ZERO => TwoPointZero.FanSpeed(status)
      case AIR_LEAF => AirLeaf.FanSpeed(status)
    }

    predicate Rotation()
      reads this
    {
      match family
      case TWO_POINT_ZERO => TwoPointZero.Rotation(status)
      case AIR_LEAF => AirLeaf.Rotation(status)
    }

    predicate NightMode()
      reads this
    {
      match family
      case TWO_POINT_ZERO => TwoPointZero.NightMode(status)
      case AIR_LEAF => AirLeaf.NightMode(status)
    }

    function MinTemperature(): int { MIN_TEMP }

    function MaxTemperature(): int { MAX_TEMP }

    predicate Power()
      reads this
    {
      InnovaDevice.PowerOf(status)
    }

    /** `mode`: the scan over the family's members for the code in `wm`;
        None when `wm` is absent or no member has that code. */
    method Mode() returns (r: Option<ModeMember>)
      requires Valid()
      ensures "wm" !in status ==> r == None
      ensures "wm" in status ==> r == FirstWithCode(Members(family), status["wm"].n)
    {
      if "wm" in status {
        r := ScanMode(Members(family), status["wm"].n);
      } else {
        r := None;
      }
    }

    function Name(): Option<string>
      reads this
    {
      InnovaDevice.SectionValue(data.setup, "name")
    }

    function Serial(): Option<string>
      reads this
    {
      InnovaDevice.SectionValue(data.setup, "serial")
    }

    function Uid(): Option<string>
      reads this
    {
      data.uid
    }

    function SoftwareVersion(): Option<string>
      reads this
    {
      InnovaDevice.SectionValue(data.sw, "V")
    }

    function IpAddress(): Option<string>
      reads this
    {
      InnovaDevice.SectionValue(data.net, "ip")
    }

    // Write operations: send, then patch the snapshot only on success.

    method PowerOn() returns (ok: bool)
      requires Valid()
      modifies this`status, transport
      ensures Valid()
      ensures transport.sent == old(transport.sent) + [Request(CMD_POWER_ON, NoBody)]
      ensures status == if ok then old(status)["ps" := Num(1)] else old(status)
      ensures ok ==> Power()
    {
      ok := transport.Send(Request(CMD_POWER_ON, NoBody));
      if ok {
        status := status["ps" := Num(1)];
      }
    }

    method PowerOff() returns (ok: bool)
      requires Valid()
      modifies this`status, transport
      ensures Valid()
      ensures transport.sent == old(transport.sent) + [Request(CMD_POWER_OFF, NoBody)]
      ensures status == if ok then old(status)["ps" := Num(0)] else old(status)
      ensures ok ==> !Power()
    {
      ok := transport.Send(Request(CMD_POWER_OFF, NoBody));
      if ok {
        status := status["ps" := Num(0)];
      }
    }

    /** `set_mode`: send the member's command; on success the unit is on and
        the scan finds that member again. */
    method SetMode(m: ModeMember) returns (ok: bool)
      requires Valid()
      modifies this`status, transport
      ensures Valid()
      ensures transport.sent == old(transport.sent) + [Request(m.cmd, NoBody)]
      ensures status == if ok then old(status)["ps" := Num(1)]["wm" := Num(m.code)] else old(status)
      ensures ok ==> Power()
      ensures ok && m in Members(family) ==> "wm" in status && FirstWithCode(Members(family), status["wm"].n) == Some(m)
    {
      ok := transport.Send(Request(m.cmd, NoBody));
      if ok {
        status := status["ps" := Num(1)]["wm" := Num(m.code)];
        if m in Members(family) {
          var i :| 0 <= i < |Members(family)| && Members(family)[i] == m;
          FirstWithCodeFinds(Members(family), i);
        }
      }
    }

    /** `set_temperature`: the base sends and stores whole degrees; AirLeaf
        sends and stores `temperature * 100`. */
    method SetTemperature(temperature: int) returns (ok: bool)
      requires Valid()
      modifies this`status, transport
      ensures Valid()
      ensures var wire := if family == TWO_POINT_ZERO then temperature else temperature * 100;
        && transport.sent == old(transport.sent) + [Request(CMD_SET_TEMP, Form("p_temp", wire))]
        && status == if ok then old(status)["sp" := Num(wire)] else old(status)
      ensures ok && family == TWO_POINT_ZERO ==> TargetTemperature() == temperature as real
      ensures ok && family == AIR_LEAF ==> TargetTemperature() == (temperature * 10) as real
    {
      var wire := if family == TWO_POINT_ZERO then temperature else temperature * 100;
      ok := transport.Send(Request(CMD_SET_TEMP, Form("p_temp", wire)));
      if ok {
        status := status["sp" := Num(wire)];
      }
    }

    /** `set_fan_speed`: both families send the speed itself on `set/fan`;
        the base stores it in `fs`, AirLeaf in `fn`. */
    method SetFanSpeed(speed: int) returns (ok: bool)
      requires Valid()
      modifies this`status, transport
      ensures Valid()
      ensures transport.sent == old(transport.sent) + [Request(CMD_FAN_SPEED, Form("value", speed))]
      ensures status == if ok then old(status)[(if family == TWO_POINT_ZERO then "fs" else "fn") := Num(speed)] else old(status)
      ensures ok ==> FanSpeed() == speed
    {
      ok := transport.Send(Request(CMD_FAN_SPEED, Form("value", speed)));
      if ok {
        status := status[(if family == TWO_POINT_ZERO then "fs" else "fn") := Num(speed)];
      }
    }

    /** `rotation_on`: the base stores the inverted value 0; AirLeaf sends
        nothing and fails. */
    method RotationOn() returns (ok: bool)
      requires Valid()
      modifies this`status, transport
      ensures Valid()
      ensures family == TWO_POINT_ZERO ==>
        transport.sent == old(transport.sent) + [Request(CMD_ROTATION, Form("value", ROTATION_ON))]
      ensures family == AIR_LEAF ==> !ok && transport.sent == old(transport.sent)
      ensures status == if ok then old(status)["fr" := Num(ROTATION_ON)] else old(status)
      ensures ok ==> Rotation()
    {
      if family == AIR_LEAF {
        return false;
      }
      ok := transport.Send(Request(CMD_ROTATION, Form("value", ROTATION_ON)));
      if ok {
        status := status["fr" := Num(ROTATION_ON)];
      }
    }

    /** `rotation_off`: the base stores 7; AirLeaf sends nothing and fails. */
    method RotationOff() returns (ok: bool)
      requires Valid()
      modifies this`status, transport
      ensures Valid()
      ensures family == TWO_POINT_ZERO ==>
        transport.sent == old(transport.sent) + [Request(CMD_ROTATION, Form("value", ROTATION_OFF))]
      ensures family == AIR_LEAF ==> !ok && transport.sent == old(transport.sent)
      ensures status == if ok then old(status)["fr" := Num(ROTATION_OFF)] else old(status)
      ensures !Rotation() <== ok || family == AIR_LEAF
    {
      if family == AIR_LEAF {
        return false;
      }
      ok := transport.Send(Request(CMD_ROTATION, Form("value", ROTATION_OFF)));
      if ok {
        status := status["fr" := Num(ROTATION_OFF)];
      }
    }

    /** `night_mode_on`: the base stores 1 in `nm`; AirLeaf sends fan value 2
        on `set/fan` and stores 2 in `fn`. */
    method NightModeOn() returns (ok: bool)
      requires Valid()
      modifies this`status, transport
      ensures Valid()
      ensures family == TWO_POINT_ZERO ==>
        && transport.sent == old(transport.sent) + [Request(CMD_NIGHT_MODE, Form("value", NIGHT_MODE_ON))]
        && status == if ok then old(status)["nm" := Num(NIGHT_MODE_ON)] else old(status)
      ensures family == AIR_LEAF ==>
        && transport.sent == old(transport.sent) + [Request(CMD_FAN_SPEED, Form("value", 2))]
        && status == if ok then old(status)["fn" := Num(2)] else old(status)
      ensures ok ==> NightMode()
    {
      if family == TWO_POINT_ZERO {
        ok := transport.Send(Request(CMD_NIGHT_MODE, Form("value", NIGHT_MODE_ON)));
        if ok {
          status := status["nm" := Num(NIGHT_MODE_ON)];
        }
      } else {
        ok := transport.Send(Request(CMD_FAN_SPEED, Form("value", 2)));
        if ok {
          status := status["fn" := Num(2)];
        }
      }
    }

    /** `night_mode_off`: the base stores 0 in `nm`; AirLeaf sends fan value 0
        on `set/fan` and stores 0 in `fn`. */
    method NightModeOff() returns (ok: bool)
      requires Valid()
      modifies this`status, transport
      ensures Valid()
      ensures family == TWO_POINT_ZERO ==>
        && transport.sent == old(transport.sent) + [Request(CMD_NIGHT_MODE, Form("value", NIGHT_MODE_OFF))]
        && status == if ok then old(status)["nm" := Num(NIGHT_MODE_OFF)] else old(status)
      ensures family == AIR_LEAF ==>
        && transport.sent == old(transport.sent) + [Request(CMD_FAN_SPEED, Form("value", 0))]
        && status == if ok then old(status)["fn" := Num(0)] else old(status)
      ensures ok ==> !NightMode()
    {
      if family == TWO_POINT_ZERO {
        ok := transport.Send(Request(CMD_NIGHT_MODE, Form("value", NIGHT_MODE_OFF)));
        if ok {
          status := status["nm" := Num(NIGHT_MODE_OFF)];
        }
      } else {
        ok := transport.Send(Request(CMD_FAN_SPEED, Form("value", 0)));
        if ok {
          status := status["fn" := Num(0)];
        }
      }
    }
  }
}
