/** The factory of the earlier revision: "001" and "002" select the two
    families, and every other code, the empty one included, yields no device
    (the function falls off its end and returns None). */
module LegacyInnovaFactory {
  import opened Wire
  import opened Transport
  import opened InnovaDevice
  import InnovaFactory
  import LegacyInnovaDevice

  /** The family `get_device` constructs for a device-type code, if any. */
  function ResolveFamily(deviceType: string): (r: Option<Family>)
    ensures deviceType == "001" ==> r == Some(TWO_POINT_ZERO)
    ensures deviceType == "002" ==> r == Some(AIR_LEAF)
    ensures r.None? <==> deviceType != "001" && deviceType != "002"
  {
    if deviceType == InnovaFactory.DeviceType.TWOPOINTZERO.Value() then Some(TWO_POINT_ZERO)
    else if deviceType == InnovaFactory.DeviceType.AIRLEAF.Value() then Some(AIR_LEAF)
    else None
  }

  /** Both revisions agree on the two known codes; on every other code the
      current factory raises (or, for the empty code, picks TwoPointZero) where
      this one answers None. */
  lemma AgreesWithCurrentFactory(deviceType: string)
    ensures ResolveFamily(deviceType).Some? ==>
      InnovaFactory.ResolveFamily(Some(deviceType)) == Ok(ResolveFamily(deviceType).value)
    ensures ResolveFamily(deviceType).None? && deviceType != "" ==>
      InnovaFactory.ResolveFamily(Some(deviceType)).Raised?
    ensures ResolveFamily("").None? && InnovaFactory.ResolveFamily(Some("")) == Ok(TWO_POINT_ZERO)
  {
  }

  /** `get_device`: a fresh device of the resolved family, or null. */
  method GetDevice(deviceType: string, transport: Transport) returns (d: LegacyInnovaDevice.Device?)
    ensures d == null <==> ResolveFamily(deviceType).None?
    ensures d != null ==> && fresh(d) && d.Valid()
                          && Some(d.family) == ResolveFamily(deviceType)
                          && d.transport == transport
                          && d.status == map[] && d.data == EMPTY_DOCUMENT
  {
    match ResolveFamily(deviceType)
    case None =>
      d := null;
    case Some(family) =>
      d := new LegacyInnovaDevice.Device(family, transport);
  }
}
