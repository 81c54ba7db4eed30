/** The AirLeaf family of the earlier revision: its Mode members and its
    ambient-temperature getter, which tests for the key `t` but reads `ta`.
    Its other getters decode the snapshot exactly as the current AirLeaf
    does (÷10 temperatures, raw `fn`, night when `fn` is 2, no rotation), so
    the device uses those; its writes are methods of LegacyInnovaDevice.Device. */
module LegacyAirLeaf {
  import opened Wire
  import opened LegacyModes
  import AirLeaf

  const AUTO: ModeMember := ModeMember("set/mode/auto", 0)
  const HEATING: ModeMember := ModeMember("set/mode/heating", 3)
  const COOLING: ModeMember := ModeMember("set/mode/cooling", 5)

  /** The members in the order `for mode in self.Mode` visits them. */
  const MEMBERS: seq<ModeMember> := [AUTO, HEATING, COOLING]

  lemma MembersHaveDistinctCodes()
    ensures DistinctCodes(MEMBERS)
  {
  }

  /** `ambient_temp` as written: 0 unless `t` is present; then `ta` in tenths
      of a degree, which raises KeyError when only `t` is there. */
  function AmbientTemp(st: Status): (r: Outcome<real>)
    requires WellFormed(st)
    ensures "t" !in st ==> r == Ok(0.0)
    ensures "t" in st && "ta" !in st ==> r == Raised(KeyError("ta"))
    ensures "t" in st && "ta" in st ==>
      r.Ok? && st["ta"] == Num((r.value * 10.0).Floor) && r.value * 10.0 == (r.value * 10.0).Floor as real
  {
    if "t" in st then
      if "ta" in st then Ok(st["ta"].n as real / 10.0) else Raised(KeyError("ta"))
    else Ok(0.0)
  }

  /** The mismatch shown on two snapshots: an ambient of 21.5 reported in `ta`
      alone reads as 0, where the current getter reads 21.5; a snapshot with
      `t` and no `ta` raises. */
  lemma AmbientGuardMismatch()
    ensures AmbientTemp(map["ta" := Num(215)]) == Ok(0.0)
    ensures AirLeaf.AmbientTemp(map["ta" := Num(215)]) == 21.5
    ensures AmbientTemp(map["t" := Num(21)]) == Raised(KeyError("ta"))
  {
  }

  /** Where `t` and `ta` are both present or both absent, the earlier getter
      agrees with the current one, which tests the key it reads. */
  lemma AmbientAgreesWhenGuardMatches(st: Status)
    requires WellFormed(st) && ("t" in st <==> "ta" in st)
    ensures AmbientTemp(st) == Ok(AirLeaf.AmbientTemp(st))
  {
  }
}
