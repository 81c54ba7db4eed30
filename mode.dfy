/** `Mode`: an operating regime, with the command that selects it, its wire
    code and five capability flags. A datatype value: nothing changes after
    construction. */
module Modes {

  datatype Mode = Mode(
    command: string,
    code: int,
    heat: bool,
    cool: bool,
    dehumidify: bool,
    fanOnly: bool,
    auto: bool)
  {
    predicate IsHeating() { heat }
    predicate IsCooling() { cool }
    predicate IsDehumidifying() { dehumidify }
    predicate IsFanOnly() { fanOnly }
    predicate IsAuto() { auto }

    /** How many capability flags are set. */
    function FlagCount(): (n: nat)
      ensures n <= 5
      ensures n == 0 <==> !heat && !cool && !dehumidify && !fanOnly && !auto
    {
      (if heat then 1 else 0) + (if cool then 1 else 0) + (if dehumidify then 1 else 0)
        + (if fanOnly then 1 else 0) + (if auto then 1 else 0)
    }
  }

  /** The constructor `Mode(command, code, heat=False, ...)`: every flag not
      passed is false. */
  function NewMode(command: string, code: int, heat: bool := false, cool: bool := false,
                   dehumidify: bool := false, fanOnly: bool := false, auto: bool := false): (m: Mode)
    ensures m.command == command && m.code == code
    ensures m.IsHeating() == heat && m.IsCooling() == cool && m.IsDehumidifying() == dehumidify
    ensures m.IsFanOnly() == fanOnly && m.IsAuto() == auto
  {
    Mode(command, code, heat, cool, dehumidify, fanOnly, auto)
  }

  /** A mode built from a command and a code alone has no capability. */
  lemma FlagsDefaultToFalse(command: string, code: int)
    ensures NewMode(command, code).FlagCount() == 0
  {
  }
}
