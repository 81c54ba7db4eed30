/** `FanSpeed`, an integer enumeration: each member is equal to its integer,
    which is how the devices store and compare speeds (as raw ints). */
module FanSpeeds {
  import opened Wire

  datatype FanSpeed = AUTO | LOW | MEDIUM_LOW | MEDIUM | MEDIUM_HIGH | HIGH
  {
    /** The integer this member is equal to. */
    function Value(): (v: int)
      ensures 0 <= v <= 5
    {
      match this
      case AUTO => 0
      case LOW => 1
      case MEDIUM_LOW => 2
      case MEDIUM => 3
      case MEDIUM_HIGH => 4
      case HIGH => 5
    }
  }

  /** The members in declaration order. */
  const MEMBERS: seq<FanSpeed> := [AUTO, LOW, MEDIUM_LOW, MEDIUM, MEDIUM_HIGH, HIGH]

  /** `FanSpeed(n)`: the member whose value is `n`, if any. */
  function FromValue(n: int): (r: Option<FanSpeed>)
    ensures r.Some? <==> 0 <= n <= 5
    ensures r.Some? ==> r.value.Value() == n
  {
    if n == 0 then Some(AUTO)
    else if n == 1 then Some(LOW)
    else if n == 2 then Some(MEDIUM_LOW)
    else if n == 3 then Some(MEDIUM)
    else if n == 4 then Some(MEDIUM_HIGH)
    else if n == 5 then Some(HIGH)
    else None
  }

  /** Value and FromValue are inverse: the enumeration is a bijection
      between its members and 0..5. */
  lemma ValueRoundTrip(f: FanSpeed)
    ensures FromValue(f.Value()) == Some(f)
  {
  }

  /** The values are distinct, consecutive and increase in declaration order,
      so comparing members compares speeds. */
  lemma ValuesFollowDeclarationOrder()
    ensures |MEMBERS| == 6
    ensures forall i :: 0 <= i < |MEMBERS| ==> MEMBERS[i].Value() == i
    ensures forall i, j :: 0 <= i < j < |MEMBERS| ==> MEMBERS[i].Value() < MEMBERS[j].Value()
  {
  }
}
