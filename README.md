# Innova heat-pump client: the device layer in Dafny

This project models the device-abstraction layer of the Innova heat-pump
client in two revisions: the current package (`innova_controls/`) and the
earlier one (`src/`). In both, a device owns a status snapshot, which maps
short wire keys (`ps`, `wm`, `sp`, `t`, `ta`, `tw`, `fs`, `fn`, `fr`, `nm`,
`pwd`) to values. It also keeps the status document the snapshot came from.

- **Getters** are pure decodings of the snapshot, each with a default for an
  absent key.
- **Writes** send one command through the transport, then patch a fixed set
  of keys, and only when the transport answers true.
- **Facade.** A facade creates the device lazily from the first status
  document and answers fixed defaults until then.

How the model is built:

- **Snapshot.** The snapshot is `Wire.Status`, a `map<string, Value>`. The
  numeric wire keys hold numbers, and `pwd` holds the scrubbed password
  string. `Wire.WellFormed` says the numeric keys hold numbers, and every
  device keeps it as its `Valid()` invariant.
- **Status document.** The status document is `Wire.Document`, whose
  top-level sections are optional.
- **Exceptions.** A Python exception the code lets escape becomes
  `Outcome.Raised(PyError)`. Examples: a KeyError for a missing `success`,
  `RESULT`, `deviceType` or `ta`; a ValueError from `DeviceType(code)`; an
  AttributeError for `None.set_data`.
- **Transport.** The transport is a class. It records every request sent,
  oldest first, and answers each send with an unconstrained boolean. The
  status fetch is the parameter `fetched` of `AsyncUpdate`.
- **Device classes.** The base class and its two subclasses become one
  `Device` class per revision. Its `family` (TwoPointZero or AirLeaf) is
  fixed at construction, and its methods dispatch on the family. The
  per-family tables and decodings live in the modules `TwoPointZero`,
  `AirLeaf` and `LegacyAirLeaf`.
- **Shared decodings.** The earlier revision reuses the current decodings
  wherever the two sources are identical, and only its divergent getter has
  a member of its own.

Places where the code does not do what its names and comments suggest; the model follows the code:

- TwoPointZero `night_mode_on` patches only `nm`. There is no fan-speed side
  effect.
- AirLeaf `set_heating`/`set_cooling` go straight to `_set_mode`. There is no
  implicit power-on.
- AirLeaf `fan_speed` returns `fn` as stored. A night preset (2) is reported
  as 2.
- AirLeaf `set_fan_speed(FanSpeed.HIGH)` finds no Function with code 5, so it
  sends nothing and fails.
- The current factory raises ValueError for an unknown non-empty code.
- The earlier factory answers None even for the empty code.
- AirLeaf `set_temperature(t)` stores `t*100` in `sp`, but `target_temperature`
  divides by 10, so the read-back is `t*10`. The model states this as
  written.

The earlier source keeps two copies of the wire constants:
src/innova_device.py:6-22 repeats src/constants.py privately. Both copies
have the same values, and a single module `LegacyConstants` models them.

The base class of the earlier TwoPointZero (`DeviceManager`) is not part of
this model. The earlier TwoPointZero adds nothing of its own, so it is
modelled as the earlier `InnovaDevice` base: the base getters, the base
writes, and the base's empty Mode enumeration.

## Model

| member | source | states |
|---|---|---|
| FanSpeeds.FanSpeed.Value | innova_controls/fan_speed.py:4-10 | every member is equal to an integer between 0 and 5 |
| FanSpeeds.FromValue | innova_controls/fan_speed.py:4-10 | `FanSpeed(n)` finds a member exactly when 0 <= n <= 5, and that member has value n |
| FanSpeeds.ValueRoundTrip | innova_controls/fan_speed.py:5-10 | value and lookup are inverse: the enumeration is a bijection onto 0..5 |
| FanSpeeds.ValuesFollowDeclarationOrder | innova_controls/fan_speed.py:5-10 | the six values are 0..5 in declaration order and strictly increasing (AUTO < LOW < ... < HIGH) |
| Modes.Mode.FlagCount | innova_controls/mode.py:15-19 | counts the capability flags: at most 5, and 0 exactly when none is set |
| Modes.NewMode | innova_controls/mode.py:2-39 | the constructor stores command and code unchanged, and each `is_*` accessor returns exactly its flag |
| Modes.FlagsDefaultToFalse | innova_controls/mode.py:6-10 | a mode built from a command and a code alone has no capability |
| Constants.EncodingsAreDistinct | innova_controls/constants.py:15-22 | rotation on/off (0/7) differ, night on/off (1/0) differ, and MIN_TEMP 16 < MAX_TEMP 31 |
| Constants.UnknownModeIsEmpty | innova_controls/constants.py:26 | UNKNOWN_MODE has code -1, an empty command and no capability |
| Constants.CommandsAreDistinct | innova_controls/constants.py:3-13 | the eleven command paths are pairwise distinct |
| ModeRegistry.SupportedModes | innova_controls/innova_device.py:23-25 | `get_supported_modes` is exactly the table's values, in order |
| ModeRegistry.GetMode | innova_controls/innova_device.py:27-32 | `get_mode` never fails: it answers a supported mode or UNKNOWN_MODE, and UNKNOWN_MODE for every code not in the table |
| ModeRegistry.GetModeFinds | innova_controls/innova_device.py:27-30 | with unique keys, each key looks up its own entry |
| ModeRegistry.SupportedModesRoundTrip | innova_controls/innova_device.py:23-32 | in a registered table, looking up the code of any supported mode returns that mode |
| ModeRegistry.GetModeUnknownIffUnregistered | innova_controls/innova_device.py:27-32 | in a registered table, `get_mode(c)` is UNKNOWN_MODE if and only if c is not a key |
| Wire.NumOrZero | innova_controls/twopointzero.py:41-44 | the stored number when the key is present, 0 when it is absent |
| Wire.PatchKeepsWellFormed | innova_controls/innova_device.py:131-132 | storing a number under a key keeps the snapshot well formed |
| Wire.Scrubbed | innova_controls/innova_device.py:44 | only `pwd` changes, to `"__OBFUSCATED__"`; every other key keeps its value |
| Wire.ScrubbedKeepsWellFormed | innova_controls/innova_device.py:44-46 | scrubbing the password keeps the snapshot well formed |
| Wire.WithScrubbedResult | innova_controls/innova_device.py:44 | the document with only its RESULT scrubbed |
| Transport.Transport.Send | innova_controls/innova_device.py:130 | each send appends exactly its request to the log; the answer is unconstrained |
| TwoPointZero.AmbientTemp | innova_controls/twopointzero.py:39-44 | `t` as stored (whole degrees), or 0 when absent; also modelled: src/innova_device.py:46-51: the earlier base `t` getter is the same decoding |
| TwoPointZero.TargetTemperature | innova_controls/twopointzero.py:46-51 | `sp` as stored, or 0 when absent; also modelled: src/innova_device.py:53-58: the earlier base `sp` getter is the same decoding |
| TwoPointZero.FanSpeed | innova_controls/twopointzero.py:53-57 | `fs` as stored, or 0 when absent; also modelled: src/innova_device.py:89-93: the earlier base `fs` getter is the same decoding |
| TwoPointZero.EncodingsReadBack | innova_controls/twopointzero.py:59-71 | `fr` 0 reads as rotating and 7 as not; `nm` 1 reads as night and 0 as not; an absent key reads as off; also modelled: src/innova_device.py:82-100: the earlier rotation (`fr == 0`) and night (`nm == 1`) getters read the stored encodings back |
| TwoPointZero.TableIsRegistered | innova_controls/twopointzero.py:17-30 | keys 0, 1, 3, 4, 5 are unique, each equals its mode's code, and each mode has exactly one flag |
| TwoPointZero.GetModeKnowsExactly | innova_controls/twopointzero.py:24-30 | the lookup is UNKNOWN_MODE exactly for codes outside {0, 1, 3, 4, 5}, code 2 included |
| TwoPointZero.ModesReadBack | innova_controls/twopointzero.py:18-30 | codes 0, 1, 3, 4, 5 give HEATING, COOLING, DEHUMIDIFICATION, FAN_ONLY, AUTO |
| AirLeaf.FunctionWithCode | innova_controls/airleaf.py:21-25 | the Function member with a given code, or none when no member has it |
| AirLeaf.FunctionsAreDistinct | innova_controls/airleaf.py:21-25 | Function codes are 1..4 in order, with pairwise different codes and commands |
| AirLeaf.FunctionCommand | innova_controls/airleaf.py:80-83 | the scan finds a command exactly for speeds 1..4, and it is the command of the member with that code |
| AirLeaf.AmbientTemp | innova_controls/airleaf.py:34-39 | `ta` in tenths of a degree, or 0 when absent |
| AirLeaf.TargetTemperature | innova_controls/airleaf.py:41-46 | `sp` in tenths of a degree, or 0 when absent; also modelled: src/airleaf.py:22-27: the earlier `sp / 10` getter is the same decoding |
| AirLeaf.WaterTemperature | innova_controls/airleaf.py:48-53 | `tw` in tenths of a degree, or 0 when absent; also modelled: src/airleaf.py:29-34: the earlier `tw / 10` getter is the same decoding |
| AirLeaf.FanSpeed | innova_controls/airleaf.py:55-59 | `fn` as stored, or 0 when absent; also modelled: src/airleaf.py:36-40: the earlier raw `fn` getter is the same decoding |
| AirLeaf.NightModeIsNightPreset | innova_controls/airleaf.py:61-70 | night mode holds exactly when `fn` is NIGHT's code 2; rotation is never on; also modelled: src/airleaf.py:42-51: the earlier rotation (always false) and night (`fn == 2`) getters are the same decodings |
| AirLeaf.TableIsRegistered | innova_controls/airleaf.py:10-19 | keys 0, 3, 5 are unique, each equals its mode's code, and each mode has exactly one flag |
| AirLeaf.GetModeKnowsExactly | innova_controls/airleaf.py:15-19 | the lookup is UNKNOWN_MODE exactly for codes outside {0, 3, 5} |
| AirLeaf.ModesReadBack | innova_controls/airleaf.py:11-19 | codes 0, 3, 5 give AUTO, HEATING, COOLING |
| InnovaDevice.Codes | innova_controls/twopointzero.py:24-30 | each family's table has the registry shape |
| InnovaDevice.ModeOf | innova_controls/innova_device.py:150-155 | `mode` is UNKNOWN_MODE when `wm` is absent, else the table's lookup of `wm` |
| InnovaDevice.PowerReadsBack | innova_controls/innova_device.py:144-148 | `power` (`PowerOf`, which `Device.Power` applies to the snapshot) reads a stored 1 as on, a stored 0 as off, and an absent `ps` as off; also modelled: src/innova_device.py:68-72: the earlier `power` is the same decoding |
| InnovaDevice.SectionValue | innova_controls/innova_device.py:169-197 | the identity getters answer None exactly when the section or the key is missing, else the stored string |
| InnovaDevice.Device.constructor | innova_controls/innova_device.py:34-38 | a new device has an empty document and an empty snapshot |
| InnovaDevice.Device.SetData | innova_controls/innova_device.py:40-48 | always keeps the document. With `success` true and RESULT present, the snapshot becomes RESULT with `pwd` scrubbed; otherwise it is unchanged. A missing `success` raises KeyError |
| InnovaDevice.Device.TemperatureStep | innova_controls/twopointzero.py:35-37 | 1.0 for TwoPointZero and 0.5 for AirLeaf |
| InnovaDevice.Device.PowerOn | innova_controls/innova_device.py:157-161 | sends `power/on`; on success only `ps` becomes 1 and `power` reads true; on failure the snapshot is unchanged |
| InnovaDevice.Device.PowerOff | innova_controls/innova_device.py:163-167 | sends `power/off`; on success only `ps` becomes 0; on failure the snapshot is unchanged |
| InnovaDevice.Device.SetMode | innova_controls/innova_device.py:129-134 | sends the mode's command; on success `ps` becomes 1, `wm` the mode's code, and a supported mode reads back; on failure the snapshot is unchanged |
| InnovaDevice.Device.SetHeating | innova_controls/twopointzero.py:123-124 | sends `set/mode/heating`; on success `ps` becomes 1 and `wm` 0 (3 on AirLeaf), reading as heating; also modelled: innova_controls/airleaf.py:108-109: on AirLeaf, `wm` becomes 3, with no separate power-on |
| InnovaDevice.Device.SetCooling | innova_controls/twopointzero.py:126-127 | sends `set/mode/cooling`; on success `ps` becomes 1 and `wm` 1 (5 on AirLeaf), reading as cooling; also modelled: innova_controls/airleaf.py:111-112: on AirLeaf, `wm` becomes 5 |
| InnovaDevice.Device.SetAuto | innova_controls/twopointzero.py:135-136 | sends `set/mode/auto`; on success `ps` becomes 1 and `wm` 5 (0 on AirLeaf), reading as auto; also modelled: innova_controls/airleaf.py:114-115: on AirLeaf, `wm` becomes 0 |
| InnovaDevice.Device.SetDehumidifying | innova_controls/twopointzero.py:129-130 | TwoPointZero sends `set/mode/dehumidification` and on success stores `wm` 3; also modelled: innova_controls/airleaf.py:117-118: AirLeaf sends nothing, answers false and changes nothing |
| InnovaDevice.Device.SetFanOnly | innova_controls/twopointzero.py:132-133 | TwoPointZero sends `set/mode/fanonly` and on success stores `wm` 4; also modelled: innova_controls/airleaf.py:120-121: AirLeaf sends nothing, answers false and changes nothing |
| InnovaDevice.Device.SetTemperature | innova_controls/twopointzero.py:73-78 | TwoPointZero sends and stores `sp = t`, and the target reads back t; also modelled: innova_controls/airleaf.py:72-77: AirLeaf sends and stores `sp = t*100`, and the target then reads `t*10`; on failure the snapshot is unchanged |
| InnovaDevice.Device.SetFanSpeed | innova_controls/twopointzero.py:80-85 | TwoPointZero sends `set/fan` with `value=s` and on success stores `fs = s`, which reads back; also modelled: innova_controls/airleaf.py:79-88: AirLeaf sends the command of the Function with code s and on success stores `fn = s`. For s outside 1..4 it sends nothing, answers false and changes nothing |
| InnovaDevice.Device.RotationOn | innova_controls/twopointzero.py:91-97 | TwoPointZero sends value 0 and on success stores `fr = 0`, reading as rotating; also modelled: innova_controls/airleaf.py:90-91: AirLeaf sends nothing and answers false |
| InnovaDevice.Device.RotationOff | innova_controls/twopointzero.py:99-105 | TwoPointZero sends value 7 and on success stores `fr = 7`, reading as not rotating; also modelled: innova_controls/airleaf.py:93-94: AirLeaf sends nothing and answers false |
| InnovaDevice.Device.NightModeOn | innova_controls/twopointzero.py:107-113 | TwoPointZero sends `set/feature/night` value 1 and on success patches only `nm = 1`; also modelled: innova_controls/airleaf.py:96-100: AirLeaf sends `set/function/night` and on success stores `fn = 2`, reading as night |
| InnovaDevice.Device.NightModeOff | innova_controls/twopointzero.py:115-121 | TwoPointZero sends value 0 and on success patches only `nm = 0`; also modelled: innova_controls/airleaf.py:102-106: AirLeaf sends `set/function/auto` and on success stores `fn = 1`, reading as not night |
| InnovaFactory.DeviceTypeOf | innova_controls/innova_factory.py:9-11 | `DeviceType(v)` succeeds exactly for "001" and "002", with that value; otherwise it raises the enum's ValueError, "'v' is not a valid DeviceType" |
| InnovaFactory.ResolveFamily | innova_controls/innova_factory.py:16-24 | None, "" and "001" give TwoPointZero and "002" gives AirLeaf. Exactly the other codes raise |
| InnovaFactory.DeviceTypesResolveApart | innova_controls/innova_factory.py:9-11 | the two values differ, and each resolves to its own family |
| InnovaFactory.GetDevice | innova_controls/innova_factory.py:16-24 | a fresh, empty device of the resolved family over the given transport, or the factory's exception |
| Innova.Innova.constructor | innova_controls/innova.py:32-45 | a new facade holds no device |
| Innova.Innova.AsyncUpdate | innova_controls/innova.py:47-60 | covers every outcome, listed after the table |
| Innova.Innova.AmbientTemp | innova_controls/innova.py:62-66 | 0 without a device, else the device's value |
| Innova.Innova.TargetTemperature | innova_controls/innova.py:68-72 | 0 without a device, else the device's value |
| Innova.Innova.TemperatureStep | innova_controls/innova.py:74-78 | 1.0 without a device, else the family's step |
| Innova.Innova.MinTemperature | innova_controls/innova.py:80-84 | 0 without a device, else 16 |
| Innova.Innova.MaxTemperature | innova_controls/innova.py:86-90 | 0 without a device, else 31 |
| Innova.Innova.Power | innova_controls/innova.py:92-96 | false without a device, else the device's `power` of its snapshot |
| Innova.Innova.OperatingMode | innova_controls/innova.py:98-102 | UNKNOWN_MODE without a device, else the device's mode |
| Innova.Innova.SupportedModes | innova_controls/innova.py:104-108 | empty without a device, else the values of the family's table |
| Innova.Innova.Rotation | innova_controls/innova.py:110-114 | false without a device, else the device's `rotation` |
| Innova.Innova.FanSpeed | innova_controls/innova.py:116-120 | 0 without a device, else the device's value |
| Innova.Innova.SupportedFanSpeeds | innova_controls/innova.py:122-126 | the empty list without a device; with one, the abstract property's None |
| Innova.Innova.NightMode | innova_controls/innova.py:128-132 | false without a device, else the device's `night_mode` |
| Innova.Innova.Name | innova_controls/innova.py:134-138 | None without a device, else the device's name |
| Innova.Innova.Serial | innova_controls/innova.py:140-144 | None without a device, else the device's serial |
| Innova.Innova.Uid | innova_controls/innova.py:146-150 | None without a device, else the device's UID |
| Innova.Innova.SoftwareVersion | innova_controls/innova.py:152-156 | None without a device, else the device's version |
| Innova.Innova.IpAddress | innova_controls/innova.py:158-162 | None without a device, else the device's address |
| Innova.Innova.PowerOn | innova_controls/innova.py:164-167 | false and nothing sent without a device; with a device it sends the device write's request, keeps the document, and on success patches only `ps = 1` (reading as powered); on failure the snapshot is unchanged |
| Innova.Innova.PowerOff | innova_controls/innova.py:169-172 | false and nothing sent without a device; with a device it sends `power/off`, keeps the document, and on success patches only `ps = 0`; on failure the snapshot is unchanged |
| Innova.Innova.RotationOn | innova_controls/innova.py:174-177 | false and nothing sent without a device; TwoPointZero sends `set/feature/rotation` value 0 and on success patches only `fr = 0` (reading as rotating); AirLeaf sends nothing and fails; the document is kept |
| Innova.Innova.RotationOff | innova_controls/innova.py:179-182 | false and nothing sent without a device; TwoPointZero sends value 7 and on success patches only `fr = 7`; AirLeaf sends nothing and fails; the document is kept |
| Innova.Innova.NightModeOn | innova_controls/innova.py:184-187 | false and nothing sent without a device; TwoPointZero sends `set/feature/night` value 1 and on success patches only `nm = 1`; AirLeaf sends `set/function/night` and on success patches only `fn = 2`; the document is kept |
| Innova.Innova.NightModeOff | innova_controls/innova.py:189-192 | false and nothing sent without a device; TwoPointZero sends value 0 and on success patches only `nm = 0`; AirLeaf sends `set/function/auto` and on success patches only `fn = 1`; the document is kept |
| Innova.Innova.SetTemperature | innova_controls/innova.py:194-197 | false and nothing sent without a device; with a device it sends `p_temp` t (TwoPointZero) or t*100 (AirLeaf), keeps the document, and on success patches only `sp` with that value, which reads back t or t*10 |
| Innova.Innova.SetFanSpeed | innova_controls/innova.py:199-202 | false and nothing sent without a device; TwoPointZero sends `set/fan` value s and AirLeaf the command of the Function with code s (nothing and false outside 1..4); on success only `fs` or `fn` becomes s, which reads back; the document is kept |
| Innova.Innova.SetHeating | innova_controls/innova.py:204-205 | requires a device (no guard); sends `set/mode/heating`, keeps the document, and on success patches only `ps = 1` and `wm` 0 (3 on AirLeaf), reading as heating |
| Innova.Innova.SetCooling | innova_controls/innova.py:207-208 | requires a device; sends `set/mode/cooling`, keeps the document, and on success patches only `ps = 1` and `wm` 1 (5 on AirLeaf), reading as cooling |
| Innova.Innova.SetDehumidifying | innova_controls/innova.py:210-211 | requires a device; TwoPointZero sends `set/mode/dehumidification` and on success patches only `ps = 1` and `wm = 3`; AirLeaf sends nothing and fails; the document is kept |
| Innova.Innova.SetFanOnly | innova_controls/innova.py:213-214 | requires a device; TwoPointZero sends `set/mode/fanonly` and on success patches only `ps = 1` and `wm = 4`; AirLeaf sends nothing and fails; the document is kept |
| Innova.Innova.SetAuto | innova_controls/innova.py:216-217 | requires a device; sends `set/mode/auto`, keeps the document, and on success patches only `ps = 1` and `wm` 5 (0 on AirLeaf), reading as auto |
| Innova.Innova.SupportsTargetTemp | innova_controls/innova.py:219-221 | requires a device (no guard); true for every family; also modelled: innova_controls/innova_device.py:199-201: the base answers True |
| Innova.Innova.SupportsSwing | innova_controls/innova.py:223-225 | requires a device; true exactly for TwoPointZero; also modelled: innova_controls/innova_device.py:203-205 and innova_controls/twopointzero.py:87-89: the base answers False and only TwoPointZero overrides it with True |
| Innova.Innova.SupportsFan | innova_controls/innova.py:227-229 | requires a device; true for every family; also modelled: innova_controls/innova_device.py:207-209: the base answers True |
| Innova.Innova.SupportsPreset | innova_controls/innova.py:231-233 | requires a device; true for every family; also modelled: innova_controls/innova_device.py:211-213: the base answers True |
| Innova.UnresolvedDefaults | innova_controls/innova.py:62-162 | without a device every getter answers its default, listed after the table |
| InnovaScenarios.FirstAirLeafUpdate | innova_controls/innova.py:47-60 | a first update with an AirLeaf document resolves an AirLeaf that reads powered, heating, target 21.0, ambient 21.5 and the AUTO preset |
| InnovaScenarios.HighFanSpeedOnAirLeaf | innova_controls/airleaf.py:79-88 | on AirLeaf, FanSpeed.HIGH sends nothing and fails, while FanSpeed.LOW sends `set/function/auto` |
| LegacyConstants.MatchesCurrentConstants | src/constants.py:1-15 | the six paths are distinct and are paths of the current package; rotation, night and temperature values equal the current ones |
| LegacyModes.FirstWithCode | src/innova_device.py:76-79 | the first member with the code is one of the members and has that code; there is none exactly when no member has the code |
| LegacyModes.FirstWithCodeFinds | src/innova_device.py:76-79 | with distinct codes, each member is found by its own code |
| LegacyModes.ScanMode | src/innova_device.py:77-79 | the early-returning loop answers the first member with the code |
| LegacyAirLeaf.MembersHaveDistinctCodes | src/airleaf.py:7-10 | AUTO 0, HEATING 3 and COOLING 5 have distinct codes |
| LegacyAirLeaf.AmbientTemp | src/airleaf.py:15-20 | 0 unless `t` is present; then `ta` in tenths of a degree, or KeyError when `ta` is absent |
| LegacyAirLeaf.AmbientGuardMismatch | src/airleaf.py:17-18 | an ambient reported only in `ta` reads 0 (the current getter reads 21.5); `t` without `ta` raises |
| LegacyAirLeaf.AmbientAgreesWhenGuardMatches | src/airleaf.py:15-20 | when `t` and `ta` are both present or both absent, it agrees with the current getter |
| LegacyInnovaDevice.Members | src/airleaf.py:7-10 | the scanned members (none for the base enum, three for AirLeaf) have distinct codes |
| LegacyInnovaDevice.Device.constructor | src/innova_device.py:33-37 | a new device has an empty document and an empty snapshot |
| LegacyInnovaDevice.Device.SetData | src/innova_device.py:39-44 | keeps the document whatever `success` says; the snapshot becomes RESULT with `pwd` scrubbed; a missing RESULT raises KeyError and leaves the snapshot unchanged |
| LegacyInnovaDevice.Device.Mode | src/innova_device.py:74-80 | nothing when `wm` is absent, else the first member whose code is `wm` |
| LegacyInnovaDevice.Device.PowerOn | src/innova_device.py:132-136 | sends `power/on`; on success only `ps` becomes 1; on failure nothing changes |
| LegacyInnovaDevice.Device.PowerOff | src/innova_device.py:138-142 | sends `power/off`; on success only `ps` becomes 0; on failure nothing changes |
| LegacyInnovaDevice.Device.SetMode | src/innova_device.py:182-187 | sends the member's command; on success `ps` becomes 1 and `wm` its code, and the scan finds that member again |
| LegacyInnovaDevice.Device.SetTemperature | src/innova_device.py:168-173 | the base sends and stores `sp = t`; also modelled: src/airleaf.py:53-58: AirLeaf sends and stores `sp = t*100` |
| LegacyInnovaDevice.Device.SetFanSpeed | src/innova_device.py:175-180 | both families send `set/fan` with `value=s`; the base stores `fs = s`; also modelled: src/airleaf.py:60-65: AirLeaf sends the same request and stores `fn = s`; the speed reads back |
| LegacyInnovaDevice.Device.RotationOn | src/innova_device.py:144-148 | the base stores `fr = 0` on success; also modelled: src/airleaf.py:67-68: AirLeaf sends nothing and answers false |
| LegacyInnovaDevice.Device.RotationOff | src/innova_device.py:150-154 | the base stores `fr = 7` on success; also modelled: src/airleaf.py:70-71: AirLeaf sends nothing and answers false |
| LegacyInnovaDevice.Device.NightModeOn | src/innova_device.py:156-160 | the base sends `set/feature/night` value 1 and stores `nm = 1`; also modelled: src/airleaf.py:73-77: AirLeaf sends `set/fan` value 2 and stores `fn = 2`, reading as night |
| LegacyInnovaDevice.Device.NightModeOff | src/innova_device.py:162-166 | the base sends value 0 and stores `nm = 0`; also modelled: src/airleaf.py:79-83: AirLeaf sends `set/fan` value 0 and stores `fn = 0`, reading as not night |
| LegacyInnovaFactory.ResolveFamily | src/innova_factory.py:15-19 | "001" gives TwoPointZero and "002" AirLeaf; every other code, "" included, gives nothing |
| LegacyInnovaFactory.AgreesWithCurrentFactory | src/innova_factory.py:9-19 | both factories agree on "001" and "002"; other non-empty codes raise in the current one; "" differs |
| LegacyInnovaFactory.GetDevice | src/innova_factory.py:15-19 | null exactly for unknown codes, else a fresh, empty device of the family |
| LegacyInnovaControls.Innova.constructor | src/innova_controls.py:28-40 | a new facade holds no device |
| LegacyInnovaControls.Innova.AsyncUpdate | src/innova_controls.py:42-53 | covers every outcome, listed after the table |
| LegacyInnovaControls.Innova.AmbientTemp | src/innova_controls.py:55-59 | 0 without a device, else the device's value (which may raise) |
| LegacyInnovaControls.Innova.TargetTemperature | src/innova_controls.py:61-65 | 0 without a device, else the device's value |
| LegacyInnovaControls.Innova.MinTemperature | src/innova_controls.py:67-71 | 0 without a device, else 16 |
| LegacyInnovaControls.Innova.MaxTemperature | src/innova_controls.py:73-77 | 0 without a device, else 31 |
| LegacyInnovaControls.Innova.Power | src/innova_controls.py:79-83 | false without a device, else the device's `power` of its snapshot |
| LegacyInnovaControls.Innova.Mode | src/innova_controls.py:85-89 | nothing without a device, else the device's scan |
| LegacyInnovaControls.Innova.Rotation | src/innova_controls.py:91-95 | false without a device, else the device's `rotation` |
| LegacyInnovaControls.Innova.FanSpeed | src/innova_controls.py:97-101 | 0 without a device, else the device's value |
| LegacyInnovaControls.Innova.NightMode | src/innova_controls.py:103-107 | false without a device, else the device's `night_mode` |
| LegacyInnovaControls.Innova.Name | src/innova_controls.py:109-113 | None without a device |
| LegacyInnovaControls.Innova.Serial | src/innova_controls.py:115-119 | None without a device |
| LegacyInnovaControls.Innova.Uid | src/innova_controls.py:121-125 | None without a device |
| LegacyInnovaControls.Innova.SoftwareVersion | src/innova_controls.py:127-131 | None without a device |
| LegacyInnovaControls.Innova.IpAddress | src/innova_controls.py:133-137 | None without a device |
| LegacyInnovaControls.Innova.PowerOn | src/innova_controls.py:139-142 | false and nothing sent without a device; with a device it sends `power/on`, keeps the document, and on success patches only `ps = 1`; on failure the snapshot is unchanged |
| LegacyInnovaControls.Innova.PowerOff | src/innova_controls.py:144-147 | false and nothing sent without a device; with a device it sends `power/off`, keeps the document, and on success patches only `ps = 0`; on failure the snapshot is unchanged |
| LegacyInnovaControls.Innova.RotationOn | src/innova_controls.py:149-152 | false and nothing sent without a device; the base sends `set/feature/rotation` value 0 and on success patches only `fr = 0`; AirLeaf sends nothing and fails; the document is kept |
| LegacyInnovaControls.Innova.RotationOff | src/innova_controls.py:154-157 | false and nothing sent without a device; the base sends value 7 and on success patches only `fr = 7`; AirLeaf sends nothing and fails; the document is kept |
| LegacyInnovaControls.Innova.NightModeOn | src/innova_controls.py:159-162 | false and nothing sent without a device; the base sends `set/feature/night` value 1 and on success patches only `nm = 1`; AirLeaf sends `set/fan` value 2 and on success patches only `fn = 2`; the document is kept |
| LegacyInnovaControls.Innova.NightModeOff | src/innova_controls.py:164-167 | false and nothing sent without a device; the base sends value 0 and on success patches only `nm = 0`; AirLeaf sends `set/fan` value 0 and on success patches only `fn = 0`; the document is kept |
| LegacyInnovaControls.Innova.SetTemperature | src/innova_controls.py:169-172 | false and nothing sent without a device; with a device it sends `p_temp` t (base) or t*100 (AirLeaf), keeps the document, and on success patches only `sp` with that value, which reads back t or t*10 |
| LegacyInnovaControls.Innova.SetFanSpeed | src/innova_controls.py:174-177 | false and nothing sent without a device; with a device it sends `set/fan` value s, keeps the document, and on success patches only `fs` (base) or `fn` (AirLeaf) with s, which reads back |
| LegacyInnovaControls.Innova.SetMode | src/innova_controls.py:179-182 | false and nothing sent without a device; with a device it sends the member's command, keeps the document, and on success patches only `ps = 1` and `wm` = the member's code, for any member; a member of the family's enumeration is then found again by the scan |
| LegacyInnovaControls.UnresolvedDefaults | src/innova_controls.py:55-137 | without a device the temperatures and fan speed read 0, the flags false and the identity fields None |
| LegacyScenarios.AmbientOnlyInTa | src/airleaf.py:15-20 | the same AirLeaf document reads ambient 0 in the earlier facade and 21.5 in the current one |
| LegacyScenarios.EmptyDeviceType | src/innova_factory.py:15-19 | an empty device-type code gives no device and an AttributeError in the earlier facade, and a TwoPointZero in the current one |

`Innova.Innova.AsyncUpdate` states every outcome of one update:

- A missing or empty document answers false, sends nothing and changes
  nothing.
- A device, once held, is never replaced.
- The first device is fresh and of the family the factory resolves.
- With no device yet:
  - a missing `deviceType` raises KeyError and keeps no device;
  - an unknown code raises ValueError and keeps no device.
- Otherwise the document goes through `set_data`:
  - true means the data and the snapshot are what `set_data` makes of them;
  - a missing `success` raises KeyError, keeps the document and leaves the
    snapshot as it was (empty for a device created by this call).

`LegacyInnovaControls.Innova.AsyncUpdate` states every outcome of one update:

- A missing or empty document answers false and changes nothing.
- A device, once held, is never replaced.
- With no device yet:
  - a missing `deviceType` raises KeyError;
  - an unknown or empty code leaves no device and raises AttributeError on
    `set_data`.
- A document with RESULT answers true and installs the scrubbed RESULT.
- A document without RESULT raises KeyError, keeps the document and leaves
  the snapshot as it was (empty for a device created by this call).

`Innova.UnresolvedDefaults` lists the defaults of the current facade with no
device:

- temperatures, the bounds and the fan speed read 0;
- the temperature step reads 1.0;
- power, rotation and night read false;
- the mode is UNKNOWN_MODE;
- the supported modes and fan speeds are empty;
- the identity fields are None.

## Left out

- The transport (`network_functions.py` in both revisions): HTTP, URL and header assembly, `@retry`, time-outs. It becomes a `Send` whose boolean answer is unconstrained, and the status fetch becomes a parameter of `AsyncUpdate`.
- `_send_command` and `send_command`: the devices call the first, while the current transport defines the second. Both are taken to be the same capability.
- `async`/`await`, concurrency and logging. Every call is a sequential method, and the log messages are dropped.
- The simulator, the smoke-test scripts, `setup.py` and `src/twopointzero.py`. The last has no logic, and its base class `DeviceManager` is not part of this model.
- Python's ABC instantiation checks.
- InnovaFactory.DeviceTypeOf: the ValueError message puts the code between single quotes, as Python's `repr` does for a plain code; the escaping `repr` applies to a code holding quotes or backslashes is not modelled.
- `Mode.UNKNOWN` of the earlier revision. It is not a member of the empty base enumeration. Where the earlier `mode` would reach it (no device, no `wm`, no match), the model answers "no member".
- JSON values other than integers in the numeric keys, and a JSON `null` device type. The document's `success` is taken to be a boolean.
- Top-level document keys other than `success`, `RESULT`, `deviceType`, `UID`, `setup`, `sw` and `net`. The emptiness test of `async_update` is judged on these keys only.
- Aliasing between `_status` and `_data["RESULT"]`. In Python the two are one dictionary after `set_data`, so later write patches also show in the kept document. In the model, the kept document keeps the RESULT as received, scrubbed.
- Innova.Innova.SetTemperature: the current facade annotates the temperature as a float. The model takes an integer, as the devices do.
- InnovaDevice.Device.SetDehumidifying: the AirLeaf methods return Python's None. This is modelled as false, which the facade's callers see as falsy.
- InnovaDevice.Device.SetFanOnly: the AirLeaf method returns None, which is modelled as false.
- Innova.Innova.SupportedFanSpeeds: with a device it reaches an abstract property that no family implements. The answer is modelled as None, not as a concrete list.
- The keyboard-lock and calendar command constants are declared but not used by any operation. No operation is built on them.

## Findings

| source | as written | input that shows it | evidently intended | confidence | as-written member | corrected member |
|---|---|---|---|---|---|---|
| src/airleaf.py:17-18 | `ambient_temp` tests for the key `t` but reads `ta` | a snapshot with `ta` = 215 and no `t` reads 0 instead of 21.5; a snapshot with `t` and no `ta` raises KeyError | test for `ta`, the key it reads, as innova_controls/airleaf.py:36-37 does | not executed; high | LegacyAirLeaf.AmbientGuardMismatch | AirLeaf.AmbientTemp |
