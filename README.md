# EG4 battery monitor: telemetry decoding, alarms and configuration

This project models the core of the EG4 WallMount battery monitor in Dafny, and proves properties of the model.

The model covers five parts of the monitor:

- **Slug** (`slugify`). It turns a battery name into its identifier. It lower-cases the name, replaces each run of characters other than `[a-z0-9]` by one `_`, and strips `_` from both ends.
- **Registers**. This covers the register map and `_signed16`. It also covers the telemetry record `BatteryData` and the decoding of the main block of holding registers. That block is the answer to a Modbus "Read Holding Registers" request, function code 0x03, section 6.3 of the Modbus Application Protocol Specification V1.1b3. The cell-voltage block is decoded here too.
- **AlarmCheck** (`_check_alarms`). It makes nine strict threshold comparisons in a fixed order, and each one that holds adds its label. The model has two forms:
  - a specification function, `Alarms`;
  - the method with the source's nine `if`s, proved equal to that function.
- **Reader** (`EG4ModbusReader`). It is a class with the client and `_connected` state, `connect`, `disconnect`, the `connected` property and `poll`. `poll` is proved equal to a specification function, `PollSpec`, and the poll properties are lemmas about that function.
- **Configuration** (`config.py`):
  - `BatteryConfig`;
  - `Config` and `__post_init__`;
  - `from_dict`, modelled as a method with the source's loop and proved equal to the function `ConfigOf`;
  - `to_dict`;
  - the `EG4_DEBUG` rule of `from_env`.

Modelling choices:
- **Exact arithmetic.** Scaled quantities are `real`, which is exact rational arithmetic. Register words are integers in [0, 65535].
- **The transport is a parameter.** The pymodbus client is replaced by a `Transport` value, which holds four answers for one poll:
  - whether the socket is still open;
  - whether a fresh connection attempt succeeds;
  - what the main read returns, with `None` for a failed read;
  - what the cell read returns.
- **The clock is a parameter.** The timestamp of `datetime.now()` is passed in as an argument.
- **Configuration values are untyped.** Python does not check a dataclass field's annotation, and `dict.get` returns whatever the map holds. So every setting is a `Value`, a model of a loaded YAML node. As a result the export round trip is exact, up to the masked password and the dropped client id.
- **`from_dict` errors are results.** A malformed input raises in Python. In the model it becomes `Err(TypeError)` when the value is not iterable, and `Err(AttributeError)` when `.get` is called on a value that is not a dictionary.

Where the intended design differs from the code, the model follows the code:
- **One register layout.** The design describes two register layouts, with a cell validity filter and temperature averaging for the second one. The code has only one layout, and `BatteryConfig.protocol` is never consulted. The model has that one layout.
- **Cell delta.** The design says the cell delta is never negative and comes from the valid cell voltages. The code computes it from registers 37 and 38, `(cell_max - cell_min) * 1000`, and it can be negative. `Registers.CellDeltaCanBeNegative` exhibits an input that gives a negative delta.
- **Cell block length.** The design requires a cell block of exactly 16 words. The code uses any non-empty answer to the second read, so the model takes the words as they come.
- **Short main block.** The design treats a short main block as a read failure. In the code, a non-empty answer shorter than 42 words raises `IndexError` during decoding. The model makes a length of at least 42 a precondition of `poll` (`Reader.MainReadSized`).

## Model

| member | source | states |
|---|---|---|
| Common.LowerChar | src/eg4_monitor/battery.py:146 | an upper-case ASCII letter maps to its lower-case letter (code point + 32); every other character is kept; the result is never upper-case |
| Common.Lower | src/eg4_monitor/battery.py:146 | `name.lower()` keeps the length and lower-cases each character in place |
| Common.LowerOfLower | src/eg4_monitor/battery.py:146 | lower-casing text without upper-case letters changes nothing |
| Common.LowerIdempotent | src/eg4_monitor/battery.py:146 | lower-casing twice is lower-casing once |
| Slug.ReplaceRuns | src/eg4_monitor/battery.py:147 | the substitution's output has only `[a-z0-9_]` and never two `_` in a row; it keeps every letter and digit of the input, in order; when it continues a run, it does not start with `_` |
| Slug.ReplaceRunsKeepsWord | src/eg4_monitor/battery.py:147 | a word of letters and digits is copied unchanged, and the substitution goes on after it as outside a run |
| Slug.ReplaceRunsOfSeparators | src/eg4_monitor/battery.py:147 | a maximal run of characters outside `[a-z0-9]` becomes exactly one `_`, or nothing when it continues a run already replaced |
| Slug.ReplaceRunsKeepsSlugPrefix | src/eg4_monitor/battery.py:147 | a prefix of slug characters without `__` that ends in a letter or digit is copied unchanged, and what follows is replaced as if it stood alone |
| Slug.ReplaceRunsJoin | src/eg4_monitor/battery.py:147 | two slugs with a run of separators between them come out joined by a single `_` |
| Slug.StripLeading | src/eg4_monitor/battery.py:148 | `lstrip('_')` gives a suffix that does not start with `_`, and only `_` was removed |
| Slug.StripTrailing | src/eg4_monitor/battery.py:148 | `rstrip('_')` gives a prefix that does not end with `_`, and only `_` was removed |
| Slug.StripLeadingKeepsAlnums | src/eg4_monitor/battery.py:148 | stripping leading `_` keeps every letter and digit |
| Slug.StripTrailingKeepsAlnums | src/eg4_monitor/battery.py:148 | stripping trailing `_` keeps every letter and digit |
| Slug.StripIsSlug | src/eg4_monitor/battery.py:147-148 | stripping a string of slug characters without `__` gives a slug |
| Slug.Strip | src/eg4_monitor/battery.py:148 | `strip('_')` leaves no `_` at either end and keeps every letter and digit, in order |
| Slug.StripKeepsMiddle | src/eg4_monitor/battery.py:148 | `strip('_')` is the contiguous slice of its input between a run of leading `_` and a run of trailing `_`: only `_` is removed, and only at the ends |
| Slug.StripOfTrimmed | src/eg4_monitor/battery.py:148 | a string that neither starts nor ends with `_` is left as it is |
| Slug.Slugify | src/eg4_monitor/battery.py:143-149 | every slug has only `[a-z0-9_]`, no `__`, and no `_` at either end; it holds exactly the letters and digits of the lower-cased name, in order |
| Slug.ReplaceRunsOfSlugChars | src/eg4_monitor/battery.py:147 | the substitution leaves a string of slug characters without `__` unchanged |
| Slug.SlugifyOfSlug | src/eg4_monitor/battery.py:143-149 | a slug is its own slug |
| Slug.SlugifyIdempotent | src/eg4_monitor/battery.py:143-149 | `slugify(slugify(n)) == slugify(n)` |
| Slug.SlugifyJoin | src/eg4_monitor/battery.py:143-149 | two slugs separated by any non-empty run of characters that are neither `[a-z0-9]` nor upper-case ASCII give the two slugs joined by one `_` |
| Slug.SlugifyOfTwoWords | src/eg4_monitor/battery.py:143-149 | `slugify("a b") == "a_b"` |
| Registers.Signed16 | src/eg4_monitor/battery.py:215-218 | for a 16-bit word, the result lies in [-32768, 32767] and is congruent to the word modulo 65536, so it is the word's two's-complement value |
| Registers.Unsigned16 | src/eg4_monitor/battery.py:215-218 | the encoding partner of `_signed16`: a word congruent to the value modulo 65536 |
| Registers.Signed16RoundTrip | src/eg4_monitor/battery.py:215-218 | `_signed16` and the 16-bit encoding are inverse to each other, both ways |
| Registers.Signed16Boundaries | tests/test_monitor.py:101-111 | 0, 100 and 32767 are kept; 32768 gives -32768, 65436 gives -100 and 65535 gives -1 |
| Registers.Blank | src/eg4_monitor/battery.py:64-106 | a fresh record carries the given name, id and timestamp, is offline, has every numeric field at zero, and has no cells and no alarms |
| Registers.DecodeMain | src/eg4_monitor/battery.py:239-259 | decoding marks the record online; it keeps the identity, the cell voltages and the alarms |
| Registers.CellVoltagesOf | src/eg4_monitor/battery.py:262-264 | one voltage per cell word, in order, each `raw / 1000`, in [0, 65.536) |
| Registers.RegisterMapInBlock | src/eg4_monitor/battery.py:21-40 | every mapped register lies below offset 42 and has a positive divisor |
| Registers.DecodeFollowsRegisterMap | src/eg4_monitor/battery.py:242-258 | every record field that `REGISTER_MAP` (lines 21-40) names equals its register divided by the listed divisor; the sign conversion applies to register 24 alone, and every other decoded field is non-negative; `soh_alt` is not decoded |
| Registers.DecodedElectricals | src/eg4_monitor/battery.py:244-259 | voltage is `regs[22] / 100`; current is `signed16(regs[24]) / 100`; power is exactly voltage times current; cell max and min are `regs[37] / 1000` and `regs[38] / 1000`; the delta is their difference in millivolts, which is `regs[37] - regs[38]`; the bounds of voltage and current |
| Registers.DecodeReadsFirst42 | src/eg4_monitor/battery.py:234-258 | decoding depends only on the first 42 words of the 60 requested |
| Registers.CellDeltaCanBeNegative | src/eg4_monitor/battery.py:254-259 | a block with `regs[37] < regs[38]` decodes to a negative cell delta |
| AlarmCheck.Alarms | src/eg4_monitor/battery.py:274-309 | the nine checks report at most nine labels |
| AlarmCheck.CheckAlarms | src/eg4_monitor/battery.py:274-309 | the nine `if`s compute exactly `Alarms(ALARM_THRESHOLDS, data)` |
| AlarmCheck.AlarmsAreLabelsOfFired | src/eg4_monitor/battery.py:274-309 | the alarm list is the list of labels of the checks that fire, taken in evaluation order |
| AlarmCheck.FiredMembers | src/eg4_monitor/battery.py:274-309 | a check is among those fired from the first `k` exactly when its position is below `k` and its comparison holds |
| AlarmCheck.FiredInOrder | src/eg4_monitor/battery.py:274-309 | the fired checks come in strictly increasing evaluation position |
| AlarmCheck.AlarmsExactly | src/eg4_monitor/battery.py:274-309 | a label is reported if and only if its strict comparison holds |
| AlarmCheck.AlarmsAreLabels | src/eg4_monitor/battery.py:274-309 | every reported label belongs to a check whose comparison holds |
| AlarmCheck.AlarmsInOrder | src/eg4_monitor/battery.py:274-309 | the labels come in the fixed order (Pack Over-V, Pack Under-V, Cell Over-V, Cell Under-V, Imbalance, High Temp, Low Temp, Critical SOC, Over Current); no label repeats, and there are at most nine |
| AlarmCheck.AtLimitRaisesNothing | src/eg4_monitor/battery.py:280-307 | a reading equal to its limit raises nothing, for example `cell_delta == 50` or `voltage == 57.6` |
| AlarmCheck.OppositeAlarmsExclusive | src/eg4_monitor/battery.py:280-299 | when each lower limit lies below its upper limit, over- and under-voltage never both appear, and neither do high and low temperature |
| AlarmCheck.DefaultThresholdsCoherent | src/eg4_monitor/battery.py:47-57 | `ALARM_THRESHOLDS` has its lower limits below its upper limits |
| AlarmCheck.HealthyRaisesNothing | tests/test_monitor.py:116-135 | the healthy pack (53 V, 50 %, 25 degrees, cells 3.30 V to 3.35 V, 50 mV delta) raises no alarm; neither does the same pack at exactly 57.6 V |
| AlarmCheck.SingleFaults | tests/test_monitor.py:137-157 | in a healthy pack, low charge alone gives exactly "Critical Low SOC", and 58 V alone gives exactly "Pack Over-Voltage" |
| AlarmCheck.CombinedFaults | src/eg4_monitor/battery.py:274-309 | three simultaneous faults are all reported, in evaluation order |
| Reader.Snapshot | src/eg4_monitor/battery.py:239-268 | the record of a successful main read is online, keeps its identity, takes the cell voltages only from a successful cell read (one per word), and carries exactly the alarms its own readings raise, with their count |
| Reader.PollSpec | src/eg4_monitor/battery.py:220-237 | a poll keeps the identity; an offline poll returns the fresh record and leaves the flag cleared; an online poll leaves a client and the flag set |
| Reader.IdOf | src/eg4_monitor/battery.py:159 | `slugify(battery_config.name)` succeeds exactly for a string name, giving a slug with the name's letters and digits, and raises `AttributeError` for any other value |
| Reader.ModbusReader.constructor | src/eg4_monitor/battery.py:155-161 | the reader keeps the configuration and its name; its id is the slug of the name; it has no client and is not connected |
| Reader.ModbusReader.Connected | src/eg4_monitor/battery.py:163-165 | connected means the flag is set, a client exists and its socket is open |
| Reader.ModbusReader.Connect | src/eg4_monitor/battery.py:167-187 | a client now exists; the flag and the return value are the outcome of the connection attempt |
| Reader.ModbusReader.Disconnect | src/eg4_monitor/battery.py:189-194 | the flag is cleared and the client is kept |
| Reader.ModbusReader.Poll | src/eg4_monitor/battery.py:220-272 | the returned record and the new session state are exactly those of `PollSpec` |
| Reader.OfflineExactlyOnFailure | src/eg4_monitor/battery.py:222-237 | a poll comes back offline if and only if a needed reconnection failed or the main read returned nothing; an offline record carries name, id and timestamp, has every numeric field at its default, and has no alarms |
| Reader.OfflineLeavesDisconnected | src/eg4_monitor/battery.py:229-237 | after an offline poll the reader is not connected, so the next poll reconnects first |
| Reader.ReconnectBeforeRead | src/eg4_monitor/battery.py:228-237 | a reader that is not connected creates a client before it reads; a connected one keeps its client; the reader ends up connected exactly when the poll came back online |
| Reader.OnlineRecord | src/eg4_monitor/battery.py:239-268 | the online record has the decoded voltage, current, exact power and cell delta; its cell voltages are those of a successful cell read, and empty otherwise; its alarms are the ones its own readings raise; `alarm_count == len(alarms)`; every register-map field has the value decoded from the main block over the blank record |
| Reader.FiftyMillivoltSpreadIsNoImbalance | src/eg4_monitor/battery.py:259-293 | registers 37 and 38 exactly 50 apart give a cell delta of exactly 50 and no "Cell Imbalance" |
| Reader.AlarmsIgnoreAlarmFields | src/eg4_monitor/battery.py:266-268 | the alarms do not depend on the alarm fields of the record, so filling them in afterwards is consistent |
| Reader.PollIsWellFormed | src/eg4_monitor/battery.py:220-272 | every polled record satisfies `WellFormed`: the alarm count is the number of alarms; online power and delta are derived, and online alarms are evaluated; an offline record is at its defaults |
| Reader.OfflineRaisesNoAlarm | src/eg4_monitor/battery.py:231-237 | an offline record carries no alarm, although its zero readings would raise three |
| Configuration.NewConfig | src/eg4_monitor/config.py:23-51 | `Config(batteries=None)` gets the single default battery; a given list is kept; every other setting is at its declared default |
| Configuration.Get | src/eg4_monitor/config.py:89-132 | `dict.get` returns the stored value when the key is present and the default otherwise |
| Configuration.AsMap | src/eg4_monitor/config.py:98-129 | `.get` works only on a dictionary; anything else raises `AttributeError` |
| Configuration.BatteryItems | src/eg4_monitor/config.py:88 | iterating a list visits its items; a string visits one entry per character; an empty dictionary visits nothing, and a non-empty one fails; `None`, booleans and integers are not iterable |
| Configuration.BuildBattery | src/eg4_monitor/config.py:89-105 | a battery entry builds if and only if it is a dictionary, and otherwise raises `AttributeError` |
| Configuration.BuildAll | src/eg4_monitor/config.py:88-95 | a built list has one battery per entry |
| Configuration.BuildAllFailsFrom | src/eg4_monitor/config.py:88-95 | once an entry fails, the whole list fails with that error |
| Configuration.BatteriesOf | src/eg4_monitor/config.py:87-108 | with neither key the list is the default battery; a legacy block gives one battery, and builds exactly when it is a dictionary; a built `batteries` list has one battery per item |
| Configuration.Section | src/eg4_monitor/config.py:111-130 | an absent section reads as empty; a present one must be a dictionary |
| Configuration.ConfigOf | src/eg4_monitor/config.py:66-134 | a battery error is the error of the whole call; a loaded record has the built battery list, and without a `batteries` key exactly one battery |
| Configuration.FromDict | src/eg4_monitor/config.py:66-134 | the loop over the entries, followed by the section overrides, returns or raises exactly as `ConfigOf` does |
| Configuration.BuildAllPerEntry | src/eg4_monitor/config.py:88-95 | the list builds if and only if every entry is a dictionary, and then battery `i` is built from entry `i` |
| Configuration.BatteriesKeyIgnoresLegacy | src/eg4_monitor/config.py:86-95 | whenever a `batteries` key is present, whatever it holds, a `battery` key beside it changes nothing |
| Configuration.BatteriesListWins | src/eg4_monitor/config.py:87-95 | with a `batteries` list there is one battery per entry, in order, and missing keys take name "Battery", ip "192.168.130.139", port 4196, device_id 1 and protocol "eg4"; a `battery` key beside it changes nothing |
| Configuration.LegacyBlockGivesOneBattery | src/eg4_monitor/config.py:96-105 | a legacy `battery` block gives exactly one battery, named "EG4 WallMount 280Ah" unless the block names it, with the other defaults as for list entries |
| Configuration.NoBatteryKeysGivesDefault | src/eg4_monitor/config.py:106-108 | with neither key there is exactly the default battery, as with `Config(batteries=None)` (lines 48-51); the empty map gives exactly `Config()` |
| Configuration.SettingsOverrideOrDefault | src/eg4_monitor/config.py:110-132 | each of the twelve settings is the value under its key in its section, or its default when the section or the key is absent |
| Configuration.DefaultSettings | src/eg4_monitor/config.py:72-84 | the defaults are localhost, 1883, "", "", homeassistant, "", true, 0.0.0.0, 5000, 30, true and false |
| Configuration.ConfigOfSucceedsIff | src/eg4_monitor/config.py:86-132 | `from_dict` succeeds if and only if the battery part is acceptable and each section that is present is a dictionary |
| Configuration.BatteriesErrors | src/eg4_monitor/config.py:87-95 | a non-iterable `batteries` raises `TypeError`; a list with an entry that is not a dictionary raises `AttributeError` |
| Configuration.BuildAllError | src/eg4_monitor/config.py:88-95 | building the list can raise only `AttributeError` |
| Configuration.Mask | src/eg4_monitor/config.py:180 | a set password is reported as "***" and an unset one as "" |
| Configuration.BatteryDicts | src/eg4_monitor/config.py:166-175 | the export has one dictionary per battery, in order |
| Configuration.BatteryDict | src/eg4_monitor/config.py:167-173 | one battery exports as a dictionary with exactly the keys name, ip, port, device_id and protocol, which loads back as the same battery, as a list entry or as a legacy block |
| Configuration.ExportBatteries | src/eg4_monitor/config.py:87-95 | the exported battery list loads back as the batteries |
| Configuration.ToDict | src/eg4_monitor/config.py:163-193 | the export has exactly the sections batteries, mqtt, web and monitor |
| Configuration.ExportMasksPassword | src/eg4_monitor/config.py:180 | the exported password is "***" exactly when a password is set and "" exactly when none is set; for a string it is "***" exactly when the string is non-empty |
| Configuration.BuildAllOfExport | src/eg4_monitor/config.py:166-175 | building from the exported battery dictionaries gives the batteries back |
| Configuration.ExportRoundTrip | src/eg4_monitor/config.py:163-193 | `from_dict(to_dict(c))` is `c`, except that the password becomes its mask and the client id becomes "" |
| Configuration.ExportRoundTripExact | src/eg4_monitor/config.py:163-193 | a record with no password and the default client id survives the export unchanged |
| Configuration.DebugFromEnv | src/eg4_monitor/config.py:159 | an unset `EG4_DEBUG` leaves debugging off; it is on only for a value of one, three or four characters |
| Configuration.DebugIgnoresCase | src/eg4_monitor/config.py:159 | the rule ignores letter case: lower-casing the variable first changes nothing |
| Configuration.DebugSpellings | src/eg4_monitor/config.py:159 | an unset or empty `EG4_DEBUG` leaves debugging off; "1", "true", "TRUE" and "Yes" turn it on; "on" and "0" do not |

## Left out

- The pymodbus transport is left out: `ModbusTcpClient`, `is_socket_open`, `read_holding_registers` and `_read_registers` (src/eg4_monitor/battery.py:165-213). It is foreign network I/O. Its answers are the `Transport` argument of `Poll`, and the device id, host, port and timeout it would be given are unused.
- Reader.ModbusReader.constructor: the constructor requires a name for which `IdOf` succeeds, that is a string. For any other name the source raises `AttributeError` in `slugify` (src/eg4_monitor/battery.py:146, 159), and the configuration stores such a name unchecked (src/eg4_monitor/config.py:90, 100). That raise is the `Err(AttributeError)` of `Reader.IdOf`; a constructor cannot return it.
- Reader.ModbusReader.Connect: the model always records a client (`hasClient` becomes true on every call). In the source, when the `ModbusTcpClient(...)` constructor itself raises (battery.py:170-174), the assignment never happens and the previous client is kept, which may be None. An exception from `client.connect()` (battery.py:175) comes after the assignment, as in the model. Both exceptions end like a refused connection: the flag is cleared and False is returned.
- Reader.ModbusReader.Disconnect: closing the socket is not modelled. The socket state is an input of each poll.
- `datetime.now()` is nondeterministic, so the timestamp is an argument.
- Logging is left out.
- `BatteryData.to_dict` (src/eg4_monitor/battery.py:108-136) is left out. Its float `round` is presentation only.
- Floating point is not modelled. Quantities are exact rationals, so `power == voltage * current` holds exactly, and a float's rounding error is not modelled.
- Reader.FiftyMillivoltSpreadIsNoImbalance: with exact arithmetic a 50 mV spread gives a delta of exactly 50, which is not above the limit. The source's doubles can land on either side: registers 37 = 3350 and 38 = 3300 give `(3.35 - 3.3) * 1000 = 50.00000000000027`, so the source reports "Cell Imbalance" where the model does not. The pairs 3450/3400, 3600/3550 and 1050/1000 also raise it in the source. The pair 3400/3350 gives 49.99999999999982 and raises nothing, as in the model. The same holds for AlarmCheck.AtLimitRaisesNothing and Reader.OnlineRecord at that limit.
- Common.LowerChar: lowers ASCII capitals only. Python's `str.lower` also maps non-ASCII capitals, which this function keeps unchanged; the Common.Lower line below gives the consequences for slugs.
- Common.Lower: lower-casing is modelled for ASCII only. Python's `str.lower` also maps non-ASCII letters. Most of them stay outside `[a-z0-9]`, and `slugify` replaces them. Some become ASCII letters: U+212A KELVIN SIGN becomes "k", and U+0130 LATIN CAPITAL LETTER I WITH DOT ABOVE becomes "i" followed by U+0307. For those names the source's slug keeps "k" or "i", while the model's slug drops the character (for the one-character names, the source gives "k" and "i" and the model gives "").
- Registers.Signed16: the contract characterises the result for 16-bit words only, which is all the transport delivers.
- `Config.from_file`, `Config.save` and the environment reads of `from_env` are left out. They are YAML, filesystem and environment I/O. Only the `EG4_DEBUG` rule is modelled, with the environment as a map.
- Configuration.NewConfig: only the `batteries` argument of the `Config(...)` constructor is modelled. The other keyword arguments are stored as given.
- Configuration.DebugSpellings: these spellings are samples; the facts for every environment are the contract of `Configuration.DebugFromEnv` and `Configuration.DebugIgnoresCase`. Lower-casing is ASCII only, as above.
- YAML floats and non-string keys are not modelled in configuration values.
- The MQTT publisher, web server, terminal UI, command line and monitor loop are left out (mqtt.py, web.py, ui.py, cli.py, monitor.py). They are adapters around I/O and threads.
- The description strings of the register map are not modelled. The model keeps each register's field and divisor.
