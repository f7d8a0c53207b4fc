# SunEnergyXT 500 integration — a verified model

This project is a Dafny model of the Home Assistant integration for the
SunEnergyXT 500 solar battery (domain `sunenergyxt`). It covers the
integration's sequential core. Each HTTP exchange with the battery is an input
value (`Http.Exchange`): either a reply with a status, a text and the decoded
JSON body, or a transport error.

- **Poll step** (`UpdateCoordinator`). One read of `/read` is classified as
  success or failure. `Coordinator` is a class holding `data` and
  `lastSuccess`. A successful poll replaces `data` with the `state.reported`
  object and stamps `lastSuccess`. A failed one changes neither.
- **Writes** (`NumberPlatform`, `SwitchPlatform`, `TextPlatform`,
  `ButtonPlatform`). Each entity class holds the shared `Coordinator` and posts
  a `{"state": {...}}` payload.
  - An answer other than 200 is raised and `data` stays as it was.
  - On 200, number and switch patch their key; text patches its key, and MD
    also patches MM; button patches nothing.
  - Numbers are clamped to their per-key bounds first.
  - `Scenarios` chains writes and polls on one coordinator.
- **Reads** (`SensorReading`, `NumberReading`, `SwitchReading`,
  `TextReading`). Each reads one key of `data` the way its entity's
  `native_value` or `is_on` does.
- **Onboarding** (`ConfigFlow`):
  - the Zeroconf host-name check and serial-number extraction;
  - device-info extraction from the read body;
  - the exception-to-result mapping of the user step and the Zeroconf
    confirmation step.
- **Entry registry** (`Integration`). `HassData.domains` is `hass.data`.
  Setup records an entry only after the connection test and the first refresh
  succeed. Unload removes it only when the platforms unloaded.

The Python built-ins the code applies are written out in `PyBuiltins`:
- `int()` of a float truncates toward zero;
- `str()` of an int;
- `str.strip()` with Python's whitespace set;
- `rstrip`, `startswith`, `endswith`, slicing with negative bounds, and
  `lower()` on ASCII.

Parts that are foreign code in the original become function-typed parameters:
- how `float()` and `int()` parse a string (`parseFloat`, `parseInt`);
- the `str()` of a float, list or dict (`reprOf`);
- `datetime.isoformat` (`isoformat`);
- `ipaddress.ip_address` validity (`ipValid`).

Where the code and its documentation differ, the model follows the code:
- Only status 200 counts as success. Any other 2xx status is a failure.
- Only the eleven keys II1–II4, VP1–VP4, GD1, GD2 and LD are scaled. Every
  other value, such as a string "123" under PV, is passed through unchanged.

Assumptions about Home Assistant behaviour that is not in the integration's code:
- A failed refresh keeps the previous `data` and `last_success_time`.
- A failed first refresh ends setup with ConfigEntryNotReady before anything
  is stored.
- `data` is an empty mapping until a poll succeeds. In Home Assistant it
  starts as None, but no entity exists before then: setup creates the
  platforms only after the first refresh succeeded. So entities always find a
  mapping, and the writes' `isinstance(data, dict)` test always holds.
- The unique-id calls (`async_set_unique_id`,
  `_abort_if_unique_id_configured`) are represented by `uniqueIdCheck`: the
  reason of the AbortFlow they raise, or none.
- A missing Zeroconf host name is the empty string.

## Model

| member | source | states |
|---|---|---|
| UpdateCoordinator.ClassifyRead | custom_components/sunenergyxt/coordinator.py:64-84 | transport error, non-200 status ("HTTP status N") and undecodable body fail; success exactly when the body is an object whose `state` and `state.reported` are each absent or an object; the result is the reported object itself, or empty when a level is missing |
| UpdateCoordinator.ReadBodyRoundTrip | custom_components/sunenergyxt/coordinator.py:71-81 | a 200 body `{"state": {"reported": m}}` polls to exactly `m` |
| UpdateCoordinator.ReportedNotObjectFails | custom_components/sunenergyxt/coordinator.py:73-77 | a present `reported` that is not an object fails with the TypeError "Invalid 'reported' structure in JSON" |
| UpdateCoordinator.StateNotObjectFails | custom_components/sunenergyxt/coordinator.py:73 | a present `state` that is not an object makes `.get` raise, so the poll fails |
| UpdateCoordinator.Coordinator.constructor | custom_components/sunenergyxt/coordinator.py:33-51 | keeps sn and ip; data starts empty and no poll has succeeded |
| UpdateCoordinator.Coordinator.UpdateData | custom_components/sunenergyxt/coordinator.py:53-84 | returns the classification of the reply; `lastSuccess` becomes `now` only on success, otherwise unchanged |
| UpdateCoordinator.Coordinator.Refresh | custom_components/sunenergyxt/coordinator.py:53-84 | success replaces `data` wholesale with the reported mapping (no merge) and stamps `now`; failure leaves `data` and `lastSuccess` as they were |
| Http.WriteResult | custom_components/sunenergyxt/number.py:242-256 | a write succeeds exactly on status 200; any other status raises `HTTP {status}: {text}` with the reply's status and text, and a transport error is re-raised |
| Http.RejectedMessageDeterminesReply | custom_components/sunenergyxt/number.py:250-253 | equal `HTTP {status}: {text}` messages come only from the same status and text |
| Http.DecimalHasNoColon | custom_components/sunenergyxt/number.py:252 | the decimal text of a status has no ':' |
| PyBuiltins.Trunc | custom_components/sunenergyxt/number.py:237-239 | `int()` truncates toward zero: the result is within 1 of the input on the side of zero |
| PyBuiltins.NatDecimal | custom_components/sunenergyxt/coordinator.py:68 | `str(n)` is a non-empty digit string with no leading zero |
| PyBuiltins.NatDecimalRoundTrip | custom_components/sunenergyxt/coordinator.py:68 | the digits of `str(n)` read back as `n` |
| PyBuiltins.IntDecimalRoundTrip | custom_components/sunenergyxt/coordinator.py:68 | `str(n)` of any int, sign included, reads back as `n` |
| PyBuiltins.IntDecimalInjective | custom_components/sunenergyxt/number.py:252 | distinct ints have distinct decimal texts |
| PyBuiltins.StripLeft | custom_components/sunenergyxt/text.py:178 | removes a whitespace-only prefix and stops at a non-space |
| PyBuiltins.StripRight | custom_components/sunenergyxt/text.py:178 | removes a whitespace-only suffix and stops at a non-space |
| PyBuiltins.StripEmptyIffBlank | custom_components/sunenergyxt/text.py:178 | `value.strip() == ""` exactly when every character is whitespace |
| PyBuiltins.RStrip | custom_components/sunenergyxt/config_flow.py:193 | `rstrip(c)` leaves a prefix that does not end in `c`, and removes only copies of `c` |
| EntityNaming.UniqueId | custom_components/sunenergyxt/sensor.py:405 | the unique id starts with `sunenergyxt_{entry_id}_` |
| EntityNaming.TranslationKey | custom_components/sunenergyxt/sensor.py:406 | `key.lower()`: the same length, no upper-case ASCII letter left; upper-case letters map to their lower-case letter and every other character is kept |
| EntityNaming.TranslationKeyIdempotent | custom_components/sunenergyxt/sensor.py:406 | lower-casing a translation key again changes nothing |
| EntityNaming.UniqueIdInjective | custom_components/sunenergyxt/sensor.py:405 | within one entry, distinct keys have distinct unique ids |
| NumberPlatform.EntityBounds | custom_components/sunenergyxt/number.py:174-192 | the bounds are NUMBER_META's, except that a "SunEnergyXT 500" caps GS and IS at 800; min never exceeds max |
| NumberPlatform.SmallModelBounds | custom_components/sunenergyxt/number.py:188-192 | on a "SunEnergyXT 500" GS spans -2400..800 and IS 1..800 |
| NumberPlatform.ClampToInt | custom_components/sunenergyxt/number.py:237-239 | the sent value lies within the bounds; below min gives min, above max gives max, and in between it is the truncation |
| NumberPlatform.TruncWithinIntegers | custom_components/sunenergyxt/number.py:237-239 | truncating a real between two integers stays between them |
| NumberPlatform.ClampKeepsInRangeInteger | custom_components/sunenergyxt/number.py:237-239 | an in-range integer is sent unchanged |
| NumberPlatform.ClampIdempotent | custom_components/sunenergyxt/number.py:237-239 | clamping a clamped value changes nothing |
| NumberPlatform.ClampGridSetting | custom_components/sunenergyxt/number.py:237-239 | 5000 for GS (-2400..2400) is sent as 2400 |
| NumberPlatform.NumberReading | custom_components/sunenergyxt/number.py:215-224 | an absent or null key, or any value `float()` rejects, reads as None; ints and floats read as their value, booleans as 1.0 and 0.0, and a string as `float()` parses it (None when it is rejected) |
| NumberPlatform.SunlitNumber.constructor | custom_components/sunenergyxt/number.py:170-192 | sets the bounds from the table and the model, the unique id and the translation key |
| NumberPlatform.SunlitNumber.NativeValue | custom_components/sunenergyxt/number.py:206-224 | the entity's key of the shared data: absent or null reads None, an int reads as its value, a rejected value reads None |
| NumberPlatform.SunlitNumber.SetNativeValue | custom_components/sunenergyxt/number.py:237-259 | sends `{"state": {key: v}}` with the clamped, in-range `v`; on failure `data` is unchanged; on success only `data[key]` becomes `v`, and it reads back |
| SwitchPlatform.SwitchValue | custom_components/sunenergyxt/switch.py:196 | the written value is 1 for on and 0 for off |
| SwitchPlatform.SwitchReading | custom_components/sunenergyxt/switch.py:162-163 | an absent or null key is off; an int is on exactly when non-zero; a float is on exactly when its truncation is non-zero; a string as `int()` parses it, raising when rejected; a list or object makes `int()` raise |
| SwitchPlatform.SwitchValueReadsBack | custom_components/sunenergyxt/switch.py:163-215 | a stored switch value reads back as the written state |
| SwitchPlatform.SunlitSwitch.constructor | custom_components/sunenergyxt/switch.py:109-151 | keeps the coordinator, key and ip; sets the unique id and the translation key |
| SwitchPlatform.SunlitSwitch.IsOn | custom_components/sunenergyxt/switch.py:153-163 | the entity's key of the shared data: absent or null is off, an int is on exactly when non-zero |
| SwitchPlatform.SunlitSwitch.WriteSwitch | custom_components/sunenergyxt/switch.py:185-215 | sends `{"state": {key: 0 or 1}}`; on failure `data` is unchanged; on success only `data[key]` changes, and `is_on` is the requested state |
| SwitchPlatform.SunlitSwitch.TurnOn | custom_components/sunenergyxt/switch.py:165-173 | writes 1; afterwards on success `is_on` is True |
| SwitchPlatform.SunlitSwitch.TurnOff | custom_components/sunenergyxt/switch.py:175-183 | writes 0; afterwards on success `is_on` is False |
| TextPlatform.MmFlag | custom_components/sunenergyxt/text.py:178 | MM is 0 exactly for a blank text, and 1 otherwise |
| TextPlatform.TextUpdate | custom_components/sunenergyxt/text.py:177-181 | MD sends exactly MD and MM, MM being `MmFlag`; any other key sends only itself |
| TextPlatform.TextReading | custom_components/sunenergyxt/text.py:153-154 | an absent or null key reads as ""; a string reads as itself and an int as its decimal text |
| TextPlatform.ModeWriteSetsMmSwitch | custom_components/sunenergyxt/text.py:198-201 | after an MD write the MM switch is on exactly when the text is not blank |
| TextPlatform.TextUpdateFrame | custom_components/sunenergyxt/text.py:198-201 | a text write leaves every key other than its own (and MM for MD) unchanged |
| TextPlatform.SunlitText.constructor | custom_components/sunenergyxt/text.py:105-142 | keeps the coordinator, key and ip; sets the unique id and the translation key |
| TextPlatform.SunlitText.NativeValue | custom_components/sunenergyxt/text.py:144-154 | the entity's key of the shared data: absent or null reads "", a string reads as itself |
| TextPlatform.SunlitText.SetValue | custom_components/sunenergyxt/text.py:166-201 | sends the text update; on failure `data` is unchanged; on success `data` gets exactly the keys sent, MM equals the sent MM, and the text reads back |
| ButtonPlatform.SunlitButton.constructor | custom_components/sunenergyxt/button.py:100-141 | keeps the coordinator, key and ip; sets the unique id and the translation key |
| ButtonPlatform.SunlitButton.Press | custom_components/sunenergyxt/button.py:143-168 | sends `{"state": {key: 1}}`; a non-200 answer is `HTTP {status}: {text}`; nothing is modified |
| SensorPlatform.ScalingTable | custom_components/sunenergyxt/sensor.py:86-185 | II1–II4 and VP1–VP4 scale by 0.1 with precision 1, GD1, GD2 and LD by 0.001 with precision 3, and no other key has either |
| SensorPlatform.SensorReading | custom_components/sunenergyxt/sensor.py:434-445 | absent or null reads as None; no scale or a value `float()` rejects passes raw; otherwise `float(raw) * scale` with the key's precision |
| SensorPlatform.SensorScenario | custom_components/sunenergyxt/sensor.py:434-445 | II1 = 123 reads 12.3 at precision 1; PV = "123" is passed through |
| SensorPlatform.ExtraStateAttributes | custom_components/sunenergyxt/sensor.py:456-459 | `last_report_time` is present exactly when a poll has succeeded, holds its ISO time, and is the only attribute |
| SensorPlatform.SetupSensors | custom_components/sunenergyxt/sensor.py:309-362 | one entity per key, in order, each with its unique id, translation key and scaling |
| SensorPlatform.SensorKeysDistinct | custom_components/sunenergyxt/sensor.py:309-352 | the setup key list has 42 keys, none of them twice |
| SensorPlatform.SetupDefaultSensors | custom_components/sunenergyxt/sensor.py:309-362 | the setup creates 42 entities, one per listed key and in order, with pairwise distinct unique ids |
| SensorPlatform.SensorUniqueIdsDistinct | custom_components/sunenergyxt/sensor.py:354-362 | distinct keys give entities with distinct unique ids |
| ConfigFlow.GetDeviceInfo | custom_components/sunenergyxt/config_flow.py:54-84 | success exactly on status 200 with string `state.reported.SN` and `DevType`, returning them; every failure, missing SN or model included, is CannotConnect |
| ConfigFlow.UserStep | custom_components/sunenergyxt/config_flow.py:113-178 | no input shows the form; an entry `{ip, sn, model}` titled by the model exactly when nothing failed; invalid_ip, cannot_connect, already_configured, already_in_progress, unknown as form errors; other AbortFlow re-raised; cannot_get_sn and cannot_get_model never shown |
| ConfigFlow.PrefixAndSuffixDoNotOverlap | custom_components/sunenergyxt/config_flow.py:194-197 | a name that starts with "SunEnergyXT_AIO_" and ends with ".local" is at least as long as both together |
| ConfigFlow.SharedCharacter | custom_components/sunenergyxt/config_flow.py:194 | where a prefix and a suffix of one name overlap, they agree on its characters |
| ConfigFlow.HostnameSerial | custom_components/sunenergyxt/config_flow.py:193-197 | a serial exactly when the dot-stripped name has the prefix and suffix, and prefix + serial + suffix is that name |
| ConfigFlow.HostnameRoundTrip | custom_components/sunenergyxt/config_flow.py:193-197 | for every serial, dots included, the host name `SunEnergyXT_AIO_{sn}.local.` yields `sn` |
| ConfigFlow.HostnameSerialKeepsInnerDot | custom_components/sunenergyxt/config_flow.py:193-197 | `SunEnergyXT_AIO_AB..local.` yields the serial "AB.": stripping dots stops at ".local" |
| ConfigFlow.SunlitConfigFlow.constructor | custom_components/sunenergyxt/config_flow.py:103-111 | nothing is discovered yet |
| ConfigFlow.SunlitConfigFlow.StepZeroconf | custom_components/sunenergyxt/config_flow.py:180-210 | a foreign name aborts with not_device; a missing model raises; an AbortFlow propagates; otherwise remembers sn, ip and model and shows the confirmation form; nothing changes on the other paths |
| ConfigFlow.SunlitConfigFlow.StepZeroconfConfirm | custom_components/sunenergyxt/config_flow.py:212-273 | no input shows the form; an invalid or missing address aborts with unknown; a failed probe aborts with cannot_connect; already_configured aborts, other AbortFlow re-raised; otherwise the entry from the discovered ip and probed sn and model |
| Integration.TestConnection | custom_components/sunenergyxt/__init__.py:47-67 | passes exactly on status 200 with a decodable body; otherwise transport, `HTTP status N` or undecodable |
| Integration.WithDomain | custom_components/sunenergyxt/__init__.py:85 | the domain gets an empty table only if it has none; every existing table is kept |
| Integration.Register | custom_components/sunenergyxt/__init__.py:100-105 | records the entry under its id; other entries and domains unchanged |
| Integration.Unregister | custom_components/sunenergyxt/__init__.py:126 | drops the id if present, missing ids included; other entries and domains unchanged |
| Integration.UnloadUndoesSetup | custom_components/sunenergyxt/__init__.py:100-126 | unloading a freshly set-up entry restores the registry |
| Integration.UnregisterIdempotent | custom_components/sunenergyxt/__init__.py:126 | a second unload of the same id changes nothing |
| Integration.HassData.constructor | custom_components/sunenergyxt/__init__.py:85 | starts from the given `hass.data` |
| Integration.HassData.SetupEntry | custom_components/sunenergyxt/__init__.py:70-108 | after setdefault, a failed connection test or first refresh is EntryNotReady with nothing stored; otherwise exactly sn, ip, model and a new coordinator holding the first poll are stored under the entry id and setup is Loaded |
| Integration.HassData.UnloadEntry | custom_components/sunenergyxt/__init__.py:111-128 | platforms not unloaded: false and nothing changes; otherwise the entry is dropped and true is returned, or KeyError when the domain table is missing |
| Scenarios.LastWriterWins | custom_components/sunenergyxt/switch.py:185-215 | two writes to one key on a shared coordinator: the later successful one is what both entities read |
| Scenarios.WriteThenPoll | custom_components/sunenergyxt/coordinator.py:73-81 | a successful poll after a number write overwrites `data` wholesale; a failed one keeps the written value |

## Left out

- HTTP transport (aiohttp sessions, GET and POST, timeouts): each exchange is an input value. The timeouts are recorded only as constants: 10 s for a poll (`UpdateCoordinator.ReadTimeoutSeconds`) and 5 s for writes, the connection test and the device-info probe (`Http.WriteTimeoutSeconds`).
- JSON text decoding: the body arrives decoded, and a body `resp.json()` rejects is `None`.
- Scheduling and concurrency (the coordinator's 3 s timer, in-flight requests, cancellation): polls and writes are sequential calls in any order.
- Binary floating point: numbers are exact reals. `round()` in the sensor reading is not applied; `Scaled` carries the exact product and the precision.
- NumberPlatform.NumberReading: how `float()` parses a string is a parameter, and the OverflowError of `float()` on a huge int is not modelled.
- SwitchPlatform.SwitchReading: how `int()` parses a string is a parameter; `None` stands for the exception `is_on` lets escape.
- TextPlatform.TextReading: the `str()` text of a float, list or dict is a parameter.
- `ipaddress.ip_address` is the parameter `ipValid`.
- `datetime.isoformat` is the parameter `isoformat`, and a time is a plain integer.
- Home Assistant itself: `async_write_ha_state`, listener notification, the platforms' forwarding and unloading (given to `UnloadEntry` as a boolean), and the unique-id registry (given as `uniqueIdCheck`).
- Exception messages other than `HTTP status N`, `HTTP N: text` and the TypeError text, such as the ConfigEntryNotReady text and the `Cannot connect to device at ...` wrapper, are not modelled; `EntryNotReady` carries the cause instead.
- Presentation: icons, units, device and state classes, entity categories, display precision, form schemas, description placeholders and device info.
- Logging, and the coordinator's name.
- The platforms' own `async_setup_entry` functions for number, switch, text and button (only the sensor setup is modelled). These functions also pass the device's ip and the Home Assistant instance to each entity. The number setup also passes the entry's model, which decides the bounds; `SunlitNumber.constructor` takes both the ip and the model.
- NumberPlatform.SunlitNumber.constructor: requires a key of NUMBER_META, which every key the number platform creates is; the framework's default bounds for other keys are not modelled.
