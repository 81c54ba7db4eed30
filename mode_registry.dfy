/** The per-family mode registry (`InnovaDevice.Modes`): a `codes` table from
    wire code to Mode, the list of its values, and lookup by code that falls
    back to the UNKNOWN sentinel instead of failing. */
module ModeRegistry {
  import opened Modes
  import opened Constants

  /** A family's `codes` dict as its (key, mode) entries in insertion order. */
  type ModeTable = seq<(int, Mode)>

  predicate HasCode(t: ModeTable, c: int)
  {
    exists i :: 0 <= i < |t| && t[i].0 == c
  }

  /** A dict cannot hold a key twice. */
  predicate UniqueKeys(t: ModeTable)
  {
    forall i, j :: 0 <= i < j < |t| ==> t[i].0 != t[j].0
  }

  /** The shape every family table has: unique keys, each key equal to its
      mode's code, and each mode with exactly one capability. */
  predicate Registered(t: ModeTable)
  {
    && UniqueKeys(t)
    && (forall i :: 0 <= i < |t| ==> t[i].0 == t[i].1.code)
    && (forall i :: 0 <= i < |t| ==> t[i].1.FlagCount() == 1)
  }

  /** `get_supported_modes()`: the values of the table, in order. */
  function SupportedModes(t: ModeTable): (r: seq<Mode>)
    ensures |r| == |t|
    ensures forall i :: 0 <= i < |t| ==> r[i] == t[i].1
  {
    if t == [] then [] else [t[0].1] + SupportedModes(t[1..])
  }

  /** `get_mode(code)`: the table's mode for `code`, or UNKNOWN_MODE. */
  function GetMode(t: ModeTable, c: int): (m: Mode)
    ensures m == UNKNOWN_MODE || m in SupportedModes(t)
    ensures !HasCode(t, c) ==> m == UNKNOWN_MODE
  {
    if t == [] then UNKNOWN_MODE
    else if t[0].0 == c then t[0].1
    else GetMode(t[1..], c)
  }

  /** A registered code finds its own entry. */
  lemma {:induction false} GetModeFinds(t: ModeTable, i: int)
    requires UniqueKeys(t) && 0 <= i < |t|
    ensures GetMode(t, t[i].0) == t[i].1
  {
    if i > 0 {
      assert t[0].0 != t[i].0;
      assert t[1..][i - 1] == t[i];
      GetModeFinds(t[1..], i - 1);
    }
  }

  /** In a registered table, looking up the code of any supported mode gives
      that mode back. */
  lemma SupportedModesRoundTrip(t: ModeTable)
    requires Registered(t)
    ensures forall m :: m in SupportedModes(t) ==> GetMode(t, m.code) == m
  {
    forall m | m in SupportedModes(t)
      ensures GetMode(t, m.code) == m
    {
      var i :| 0 <= i < |t| && SupportedModes(t)[i] == m;
      GetModeFinds(t, i);
    }
  }

  /** In a registered table, the lookup answers UNKNOWN_MODE exactly for the
      codes the table does not hold. */
  lemma GetModeUnknownIffUnregistered(t: ModeTable, c: int)
    requires Registered(t)
    ensures GetMode(t, c) == UNKNOWN_MODE <==> !HasCode(t, c)
  {
    if HasCode(t, c) {
      var i :| 0 <= i < |t| && t[i].0 == c;
      GetModeFinds(t, i);
      assert t[i].1.FlagCount() == 1;
      UnknownModeIsEmpty();
    }
  }
}
