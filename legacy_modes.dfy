/** The Mode enumerations of the earlier revision: each member's value is a
    `{"cmd": ..., "code": ...}` pair, and `mode` scans the members in
    declaration order for the one whose code is in `wm`. */
module LegacyModes {
  import opened Wire

  /** The value of a Mode member. */
  datatype ModeMember = ModeMember(cmd: string, code: int)

  predicate DistinctCodes(members: seq<ModeMember>)
  {
    forall i, j :: 0 <= i < j < |members| ==> members[i].code != members[j].code
  }

  /** The first member, in declaration order, whose code is `code`. */
  function FirstWithCode(members: seq<ModeMember>, code: int): (r: Option<ModeMember>)
    ensures r.Some? ==> r.value in members && r.value.code == code
    ensures r.None? <==> forall m :: m in members ==> m.code != code
  {
    if |members| == 0 then None
    else if members[0].code == code then Some(members[0])
    else FirstWithCode(members[1..], code)
  }

  /** With distinct codes, every member is what the scan finds for its own
      code. */
  lemma {:induction false} FirstWithCodeFinds(members: seq<ModeMember>, i: int)
    requires DistinctCodes(members) && 0 <= i < |members|
    ensures FirstWithCode(members, members[i].code) == Some(members[i])
  {
    if i > 0 {
      assert members[0].code != members[i].code;
      assert members[1..][i - 1] == members[i];
      FirstWithCodeFinds(members[1..], i - 1);
    }
  }

  /** The `for mode in self.Mode` loop of `mode`, returning at the first hit. */
  method ScanMode(members: seq<ModeMember>, code: int) returns (r: Option<ModeMember>)
    ensures r == FirstWithCode(members, code)
  {
    var i := 0;
    while i < |members|
      invariant 0 <= i <= |members|
      invariant FirstWithCode(members[i..], code) == FirstWithCode(members, code)
    {
      if members[i].code == code {
        return Some(members[i]);
      }
      assert members[i..][1..] == members[i + 1..];
      i := i + 1;
    }
    return None;
  }
}
