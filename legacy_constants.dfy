/** Wire constants of the earlier revision: command paths, the inverted
    rotation encoding, the night-mode values and the temperature bounds. The
    earlier device module keeps private copies of the same values. */
module LegacyConstants {
  import Constants

  const CMD_POWER_ON: string := "power/on"
  const CMD_POWER_OFF: string := "power/off"
  const CMD_NIGHT_MODE: string := "set/feature/night"
  const CMD_SET_TEMP: string := "set/setpoint"
  const CMD_ROTATION: string := "set/feature/rotation"
  const CMD_FAN_SPEED: string := "set/fan"

  const ROTATION_ON: int := 0
  const ROTATION_OFF: int := 7

  const NIGHT_MODE_ON: int := 1
  const NIGHT_MODE_OFF: int := 0

  const MIN_TEMP: int := 16
  const MAX_TEMP: int := 31

  /** The command paths, in declaration order. */
  const COMMANDS: seq<string> := [CMD_POWER_ON, CMD_POWER_OFF, CMD_NIGHT_MODE,
                                  CMD_SET_TEMP, CMD_ROTATION, CMD_FAN_SPEED]

  /** No two command paths are the same string, the encodings are the
      current package's, and every path is one the current package also has. */
  lemma MatchesCurrentConstants()
    ensures forall i, j :: 0 <= i < j < |COMMANDS| ==> COMMANDS[i] != COMMANDS[j]
    ensures forall c :: c in COMMANDS ==> c in Constants.COMMANDS
    ensures ROTATION_ON == Constants.ROTATION_ON && ROTATION_OFF == Constants.ROTATION_OFF
    ensures NIGHT_MODE_ON == Constants.NIGHT_MODE_ON && NIGHT_MODE_OFF == Constants.NIGHT_MODE_OFF
    ensures MIN_TEMP == Constants.MIN_TEMP && MAX_TEMP == Constants.MAX_TEMP
    ensures ROTATION_ON != ROTATION_OFF && NIGHT_MODE_ON != NIGHT_MODE_OFF && MIN_TEMP < MAX_TEMP
  {
  }
}
