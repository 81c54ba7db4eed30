/** Wire constants of the current package: command paths, the inverted
    rotation encoding, the night-mode values, the temperature bounds and the
    "unknown mode" sentinel. */
module Constants {
  import opened Modes

  const CMD_CALENDAR_OFF: string := "set/calendar/off"
  const CMD_CALENDAR_ON: string := "set/calendar/on"
  const CMD_POWER_ON: string := "power/on"
  const CMD_POWER_OFF: string := "power/off"
  const CMD_NIGHT_MODE: string := "set/feature/night"
  const CMD_SET_TEMP: string := "set/setpoint"
  const CMD_ROTATION: string := "set/feature/rotation"
  const CMD_FAN_SPEED: string := "set/fan"
  const CMD_STATUS: string := "status"
  const CMD_LOCK_OFF: string := "set/lock/off"
  const CMD_LOCK_ON: string := "set/lock/on"

  /** Rotation is encoded as 0 = on, 7 = off. */
  const ROTATION_ON: int := 0
  const ROTATION_OFF: int := 7

  const NIGHT_MODE_ON: int := 1
  const NIGHT_MODE_OFF: int := 0

  const MIN_TEMP: int := 16
  const MAX_TEMP: int := 31

  const CONNECTION_TIMEOUT: int := 20

  /** The mode reported for a code no family table holds. */
  const UNKNOWN_MODE: Mode := NewMode("", -1)

  /** All command paths, in declaration order. */
  const COMMANDS: seq<string> := [CMD_CALENDAR_OFF, CMD_CALENDAR_ON, CMD_POWER_ON, CMD_POWER_OFF,
                                  CMD_NIGHT_MODE, CMD_SET_TEMP, CMD_ROTATION, CMD_FAN_SPEED,
                                  CMD_STATUS, CMD_LOCK_OFF, CMD_LOCK_ON]

  /** The two rotation values differ, the two night values differ, and the
      temperature range is not empty. */
  lemma EncodingsAreDistinct()
    ensures ROTATION_ON != ROTATION_OFF && NIGHT_MODE_ON != NIGHT_MODE_OFF
    ensures MIN_TEMP < MAX_TEMP
  {
  }

  /** The sentinel has code -1, an empty command and no capability. */
  lemma UnknownModeIsEmpty()
    ensures UNKNOWN_MODE.code == -1 && UNKNOWN_MODE.command == ""
    ensures UNKNOWN_MODE.FlagCount() == 0
  {
  }

  /** No two command paths are the same string. */
  lemma CommandsAreDistinct()
    ensures forall i, j :: 0 <= i < j < |COMMANDS| ==> COMMANDS[i] != COMMANDS[j]
  {
  }
}
