/** The factory of the current package: from the device-type code in the
    status document to the device family. An absent or empty code stands for
    TwoPointZero; a code that is not a `DeviceType` value makes
    `DeviceType(code)` raise ValueError. */
module InnovaFactory {
  import opened Wire
  import opened Transport
  import opened InnovaDevice

  datatype DeviceType = TWOPOINTZERO | AIRLEAF
  {
    function Value(): string
    {
      match this
      case TWOPOINTZERO => "001"
      case AIRLEAF => "002"
    }
  }

  /** `DeviceType(value)`: the member with that value, or the enum's
      ValueError, whose message quotes the value. */
  function DeviceTypeOf(value: string): (r: Outcome<DeviceType>)
    ensures r.Ok? ==> r.value.Value() == value
    ensures r.Raised? <==> value != "001" && value != "002"
    ensures r.Raised? ==> r.error == ValueError("'" + value + "' is not a valid DeviceType")
  {
    if value == TWOPOINTZERO.Value() then Ok(TWOPOINTZERO)
    else if value == AIRLEAF.Value() then Ok(AIRLEAF)
    else Raised(ValueError("'" + value + "' is not a valid DeviceType"))
  }

  /** The family `get_device` constructs for a device-type code (None is
      Python's None). */
  function ResolveFamily(deviceType: Option<string>): (r: Outcome<Family>)
    ensures deviceType in {None, Some(""), Some("001")} ==> r == Ok(TWO_POINT_ZERO)
    ensures deviceType == Some("002") ==> r == Ok(AIR_LEAF)
    ensures r.Raised? <==> deviceType.Some? && deviceType.value !in {"", "001", "002"}
  {
    var code := if deviceType.None? || deviceType.value == "" then TWOPOINTZERO.Value() else deviceType.value;
    match DeviceTypeOf(code)
    case Raised(e) => Raised(e)
    case Ok(TWOPOINTZERO) => Ok(TWO_POINT_ZERO)
    case Ok(AIRLEAF) => Ok(AIR_LEAF)
  }

  /** The family of each device type. */
  function FamilyOf(t: DeviceType): Family
  {
    match t
    case TWOPOINTZERO => TWO_POINT_ZERO
    case AIRLEAF => AIR_LEAF
  }

  /** The two DeviceType values differ, and each resolves to its own family:
      the mapping from codes to families is deterministic and one-to-one. */
  lemma DeviceTypesResolveApart(s: DeviceType, t: DeviceType)
    ensures ResolveFamily(Some(t.Value())) == Ok(FamilyOf(t))
    ensures s != t ==> s.Value() != t.Value() && FamilyOf(s) != FamilyOf(t)
  {
  }

  /** `get_device`: a fresh device of the resolved family over the transport. */
  method GetDevice(deviceType: Option<string>, transport: Transport) returns (r: Outcome<Device>)
    ensures r.Raised? <==> ResolveFamily(deviceType).Raised?
    ensures r.Raised? ==> r.error == ResolveFamily(deviceType).error
    ensures r.Ok? ==> && fresh(r.value) && r.value.Valid()
                      && Ok(r.value.family) == ResolveFamily(deviceType)
                      && r.value.transport == transport
                      && r.value.status == map[] && r.value.data == EMPTY_DOCUMENT
  {
    match ResolveFamily(deviceType)
    case Raised(e) =>
      r := Raised(e);
    case Ok(family) =>
      var device := new Device(family, transport);
      r := Ok(device);
  }
}
