# LPWAN tracker: a verified model of the firmware core and its uplink decoders

This project models the sequential, integer-level core of the RAKwireless
LPWAN Tracker Solution and proves properties of that model in Dafny. The
core has six parts:

- **Scheduler** (PlatformIO `app.cpp`): the event handlers.
  - `init_app` computes the send throttle.
  - `app_event_handler` handles the STATUS, ACC_TRIGGER and GNSS_FIN
    events: battery hysteresis, motion throttling and the uplink with its
    bounded retry.
  - `lora_data_handler` handles LORA_JOIN_FIN, LORA_TX_FIN and LORA_DATA,
    including the failure counter that restarts the node.
  - The `send_delayed` timer callback.
- **Acquisition** (`gnss.cpp`):
  - `poll_gnss` searches for a fix and encodes it as three 24-bit
    big-endian fields of `g_tracker_data`, or zeroes the location bytes.
  - One wake of `gnss_task`, with its busy-skip counter.
- **Wire layouts** (both `app.h`): the Cayenne LPP packet structs, their
  lengths and tag bytes, the unions, and the event masks.
- **Environment packer** (PlatformIO `environment.cpp`): `read_bme` with its
  bounded wait and its byte packing.
- **AT settings** (both `user_at_cmd.cpp`): the `AT+GNSS` and `AT+GPS`
  commands. Each flag persists as the presence of a file in the internal
  flash file system.
- **Network-side decoders** (`Datacake-decode.js`, `Chirpstack-decode.js`):
  - `bin2HexStr` and `parseShort`/`parseTriple`/`parseQuadruple`;
  - the tag-driven `rakSensorDataDecode` loop, shared by both decoders and
    parameterised by a dialect;
  - the Datacake `Decoder` field list and location rule;
  - the Chirpstack `Decode`.

Modules, one per file:

- `Wrappers`: `Option`.
- `Bytes`: fixed-width integers, C truncating division, byte splits,
  sign extension.
- `Layout`, `Globals`, `Environment`, `Gnss`, `Scheduler`: the firmware.
- `ArduinoAt`, `PlatformAt`: the two AT command sets.
- `JsHex`, `SensorDecode`, `DatacakeDecoder`, `ChirpstackDecoder`: the
  decoders.

**How the imperative code is modelled.** The firmware's globals live in the
class `Globals.Device`:

- the 16-bit event mask as a `bv16`;
- the flags and counters as fields;
- `g_tracker_data` and `g_env_data` as byte arrays.

Every handler is a method on `Device`. Its `ensures` ties the new
`Snapshot()` and the effects it asked for (timers, semaphores, radio sends,
restart) to a pure step function of the old snapshot. The properties are
proved as lemmas about those step functions.

**How the decoders are modelled.** A JavaScript object becomes an
association list with `Put`/`Lookup`, which keeps insertion order.
`rakSensorDataDecode` and `bin2HexStr` are loops proved against their
specification functions.

## Source map

Each source function is modelled by a specification function, and the
lemmas and methods in the table below state what it does.

- `init_app` (app.cpp): `Scheduler.InitStep`, with `MinDelay`; on the globals `InitApp`.
- `app_event_handler` (app.cpp): `Scheduler.AppEvent`, built from `StatusStep` (with `Protection`, `HysteresisEffects`, `BatteryPayload`, `LowBatterySend`), `AccStep` (with `WaitTime`, `Throttled`) and `GnssFinStep` (with `Uplink`, `Attempts`, `Enqueued`); on the globals `AppEventHandler`.
- `lora_data_handler` (app.cpp): `Scheduler.LoraDataStep`, built from `JoinFinStep`, `TxFinStep` and `RxDataStep`; a run of transmissions is `TxRun`; on the globals `LoraDataHandler`.
- `send_delayed` (app.cpp): `Scheduler.SendDelayedStep`; on the globals `SendDelayed`.
- `poll_gnss` (gnss.cpp): `Gnss.PollStep`, with `FirstFix`, `EncodeFix` and `WithLocation`; on the globals `PollGnss`.
- `gnss_task` (gnss.cpp): one wake is `Gnss.GnssWakeStep`, a run of wakes `WakeRun`; on the globals `GnssTaskWake`.
- `read_bme` (environment.cpp): `Environment.BmeStep`, with `FirstFinished` and `Packed`; on the globals `ReadBme`.
- The packet structs (both app.h): `Layout.TrackerBytes`, `ShortBytes`, `PrecBytes` and `EnvBytes`, read back by `ParseTracker`, `ParseShortRecord`, `ParsePrecRecord` and `ParseEnv`; the event masks by `Layout.Decode`.
- `at_query_gnss`, `at_exec_gnss`, `read_gps_settings`, `save_gps_settings` (ArduinoIDE user_at_cmd.cpp): `ArduinoAt.QueryText`, `ExecGnss`, `Read`, `Save`; on the globals the methods of `ArduinoAt.UserAt`.
- `user_at_handler`, `read_gps_settings`, `save_gps_settings` (PlatformIO user_at_cmd.cpp): `PlatformAt.Handle` with `Token`, `Read`, `Save`; on the globals the methods of `PlatformAt.GpsSettings`.
- `bin2HexStr` (both decoders): `JsHex.HexStr`; the loop is `Bin2HexStr`.
- `parseShort`, `parseTriple`, `parseQuadruple` (both decoders): `JsHex.ParseShort`, `ParseTriple`, `ParseQuadruple`, over `ParseInt`.
- `rakSensorDataDecode` (both decoders): `SensorDecode.Decoded` and `DecodeFrom`, a tag chosen by `TagOf`; the loop is `RakSensorDataDecode`.
- `Decoder` (Datacake-decode.js): `DatacakeDecoder.Output`, with `WithMetadata`; the method is `Decoder`.
- `Decode` (Chirpstack-decode.js): `ChirpstackDecoder.Decode`; with the fix test corrected, `DecodeCorrected`.

## Model

| member | source | states |
|---|---|---|
| Bytes.TruncDivBounds | PlatformIO/src/gnss.cpp:196 | C division truncates toward zero: the quotient has the dividend's sign, and the remainder lies strictly within one divisor on the dividend's side |
| Bytes.SplitJoin16 | PlatformIO/src/app.h:160-164 | the two bytes of the `batt_s` union reassemble big-endian to the 16-bit value |
| Bytes.U32BytesReassemble | PlatformIO/src/app.h:166-170 | the four little-endian bytes of the `latLong_s` union, weighted back, give the 32-bit value |
| Bytes.Low24Value | PlatformIO/src/gnss.cpp:196-199 | bytes `val8[2]`, `val8[1]`, `val8[0]` hold the value modulo 2^24 |
| Bytes.Low24BigEndian | PlatformIO/src/gnss.cpp:197-199 | the copied field is exactly three bytes |
| Bytes.SignExtend24 | PlatformIO/src/gnss.cpp:196 | a 24-bit two's complement reading lies in [-2^23, 2^23) and agrees with the pattern modulo 2^24 |
| Bytes.SignExtend16 | PlatformIO/src/environment.cpp:83-84 | a 16-bit two's complement reading lies in [-2^15, 2^15) and agrees with the pattern modulo 2^16 |
| Bytes.Low24RoundTrip | PlatformIO/src/gnss.cpp:196-199 | a value that fits in 24 signed bits survives storing in 32 bits, keeping 3 bytes and sign-extending |
| Bytes.ModOfMod | PlatformIO/src/gnss.cpp:196 | the `uint32_t` wrap does not change the low 24 bits |
| Bytes.ModUnique | PlatformIO/src/gnss.cpp:196 | a remainder modulo 2^24 is the one in-range remainder of any decomposition |
| Layout.MaskComplements | PlatformIO/src/app.h:54-57 | each `N_` mask is the 16-bit complement of its bit, and the event bits are pairwise disjoint |
| Layout.DecodeZero | ArduinoIDE/LPWAN-Tracker-Solution/app.h:64-67 | a cleared mask holds no event |
| Layout.ClearAccTrigger | ArduinoIDE/LPWAN-Tracker-Solution/app.h:64-65 | `mask & N_ACC_TRIGGER` clears ACC_TRIGGER and no other event |
| Layout.ClearGnssFin | ArduinoIDE/LPWAN-Tracker-Solution/app.h:66-67 | `mask & N_GNSS_FIN` clears GNSS_FIN and no other event |
| Layout.ClearStatus | PlatformIO/src/app.cpp:157 | `mask & N_STATUS` clears STATUS and no other event |
| Layout.ClearLoraData | PlatformIO/src/app.cpp:487 | `mask & N_LORA_DATA` clears LORA_DATA and no other event |
| Layout.ClearLoraTxFin | PlatformIO/src/app.cpp:449 | `mask & N_LORA_TX_FIN` clears LORA_TX_FIN and no other event |
| Layout.ClearLoraJoinFin | PlatformIO/src/app.cpp:418 | `mask & N_LORA_JOIN_FIN` clears LORA_JOIN_FIN and no other event |
| Layout.RaiseGnssFin | PlatformIO/src/gnss.cpp:318 | `mask \| GNSS_FIN` raises GNSS_FIN and no other event |
| Layout.RaiseStatus | PlatformIO/src/app.cpp:269 | `mask \| STATUS` raises STATUS and no other event |
| Layout.LocationBytes | PlatformIO/src/app.h:92-100 | the location block is nine bytes |
| Layout.ShortBytes | PlatformIO/src/app.h:88-103 | `tracker_data_short_s` is TRACKER_DATA_SHORT_LEN (11) bytes: `01 88` followed by 3+3+3 location bytes |
| Layout.PrecBytes | PlatformIO/src/app.h:106-123 | `tracker_data_prec_s` is TRACKER_DATA_PREC_LEN (13) bytes: `01 89`, then 4 latitude, 4 longitude and 3 altitude bytes |
| Layout.ShortRoundTrip | PlatformIO/src/app.h:88-103 | the short record parses back from its bytes, and only well-tagged 11-byte buffers parse |
| Layout.PrecRoundTrip | PlatformIO/src/app.h:106-123 | the precise record parses back from its bytes, and only well-tagged 13-byte buffers parse |
| Layout.EnvBytes | PlatformIO/src/app.h:126-149 | `env_data_s` is ENVIRONMENT_DATA_LEN (19) bytes with tags 02 02, 03 68, 04 67, 05 73, 06 02 at offsets 0, 4, 7, 11, 15 |
| Layout.EnvRoundTrip | PlatformIO/src/app.h:126-149 | the env record parses back from its bytes, and only well-tagged 19-byte buffers parse |
| Layout.TrackerBytes | ArduinoIDE/LPWAN-Tracker-Solution/app.h:96-131 | `tracker_data_s` is TRACKER_DATA_LEN (30) bytes with tags 01 88, 02 02, 03 68, 04 67, 05 73, 06 02 at offsets 0, 11, 15, 18, 22, 26 |
| Layout.TrackerRoundTrip | ArduinoIDE/LPWAN-Tracker-Solution/app.h:96-129 | the tracker record parses back from its bytes, and only well-tagged 30-byte buffers parse |
| Layout.TrackerSplitsAtDataFlag3 | ArduinoIDE/LPWAN-Tracker-Solution/app.h:109-129 | the suffix from `data_flag3` is 19 bytes beginning `02 02 batt_1 batt_2`; without the location block it is a well-formed `env_data_s`; the whole is short record + env record |
| Globals.Device.constructor | PlatformIO/src/app.cpp:20-46 | the globals start with no event, `min_delay` 45000, zero counters and default-tagged packet buffers |
| Globals.Device.TakeStatus | PlatformIO/src/app.cpp:155-157 | reports whether STATUS was set, and clears exactly that event |
| Globals.Device.TakeAccTrigger | PlatformIO/src/app.cpp:235-237 | the branch is taken only when ACC_TRIGGER is set and the device has joined; only then is the bit cleared |
| Globals.Device.TakeGnssFin | PlatformIO/src/app.cpp:280-282 | reports whether GNSS_FIN was set, and clears exactly that event |
| Globals.Device.TakeLoraJoinFin | PlatformIO/src/app.cpp:416-418 | reports whether LORA_JOIN_FIN was set, and clears exactly that event |
| Globals.Device.TakeLoraTxFin | PlatformIO/src/app.cpp:447-449 | reports whether LORA_TX_FIN was set, and clears exactly that event |
| Globals.Device.TakeLoraData | PlatformIO/src/app.cpp:479-487 | reports whether LORA_DATA was set, and clears exactly that event |
| Globals.Device.SetStatus | PlatformIO/src/app.cpp:532 | raises STATUS and no other event |
| Globals.Device.SetGnssFin | PlatformIO/src/gnss.cpp:318 | raises GNSS_FIN and no other event |
| Environment.FirstFinished | PlatformIO/src/environment.cpp:63-70 | the wait ends at the first poll that reports completion, or at none when no poll does |
| Environment.WithReading | PlatformIO/src/environment.cpp:82-88 | the packed buffer keeps its 19 bytes |
| Environment.BmeStep | PlatformIO/src/environment.cpp:59-95 | `read_bme` keeps the buffer length |
| Environment.BmeOutcome | PlatformIO/src/environment.cpp:61-94 | success exactly when some poll completes; on timeout the buffer is unchanged; the battery and tag bytes are never written |
| Environment.BmeBytes | PlatformIO/src/environment.cpp:82-88 | on success `temp_1`/`temp_2` sign-extend back to `temp_int`, press and gas reassemble to their values, and `humid_1` is the low byte of `humid_int` |
| Environment.ReadBme | PlatformIO/src/environment.cpp:59-95 | the polling loop and the in-place writes give `BmeStep`'s result and buffer |
| Gnss.FirstFix | PlatformIO/src/gnss.cpp:162-222 | the search stops at the first report with fix type at least 3, or finds none |
| Gnss.Field24 | PlatformIO/src/gnss.cpp:196-199 | each coordinate field is three bytes |
| Gnss.EncodeFix | PlatformIO/src/gnss.cpp:196-209 | a fix encodes to nine location bytes |
| Gnss.WithLocation | PlatformIO/src/gnss.cpp:197-209 | writing the location keeps the 30-byte packet length |
| Gnss.WithLocationBytes | PlatformIO/src/gnss.cpp:196-209 | only bytes 2..10 change, they become the location, and the tags survive |
| Gnss.PollOutcome | PlatformIO/src/gnss.cpp:127-290 | the result and `last_read_ok` say whether a fix was seen; a fix is encoded from the first such report; without one the nine bytes are zero; nothing else changes |
| Gnss.FieldRecoversValue | PlatformIO/src/gnss.cpp:196-209 | a field read back as signed 24-bit is the truncated quotient, within one scale unit of the receiver's value |
| Gnss.CoordinatesFit | PlatformIO/src/gnss.cpp:196-204 | every latitude (±90°) and longitude (±180°) fits its 3-byte field without overflow |
| Gnss.StoreField | PlatformIO/src/gnss.cpp:197-199 | copies `val8[2]`, `val8[1]`, `val8[0]` into three consecutive bytes and nothing else |
| Gnss.ClearLocation | PlatformIO/src/gnss.cpp:242-252 | zeroes the nine location bytes |
| Gnss.StoreFix | PlatformIO/src/gnss.cpp:196-209 | writes the fix's encoding through `pos_union` |
| Gnss.PollGnss | PlatformIO/src/gnss.cpp:127-290 | the polling loop and writes on the globals give `PollStep`'s result and state |
| Gnss.GnssWakeOutcome | PlatformIO/src/gnss.cpp:305-330 | an idle wake searches, then raises GNSS_FIN and gives `g_task_sem` (when it exists) fix or no fix, and changes only the location bytes, `last_read_ok` and that event; a busy wake searches nothing, asks for nothing, flips `busy_cnt` and frees the radio on the second skip, changing nothing else |
| Gnss.GnssWakeIdle | PlatformIO/src/gnss.cpp:308-320 | the whole new state of an idle wake (only the location bytes, `last_read_ok` and GNSS_FIN change; `busy_cnt`, `lora_busy`, `last_pos_send` and the env buffer stay) and its one effect, the give of `g_task_sem` when it exists |
| Gnss.GnssWakeBusy | PlatformIO/src/gnss.cpp:322-330 | the whole new state of a busy wake: `busy_cnt` toggles between 0 and 1, `lora_busy` is cleared when it wraps to 0, nothing else changes and nothing is asked |
| Gnss.TwoSkipsClearBusy | PlatformIO/src/gnss.cpp:302-330 | of two busy wakes with any number of idle wakes between them, exactly one frees the radio: the first when it finds `busy_cnt` at 1, else the second |
| Gnss.WakeCount | PlatformIO/src/gnss.cpp:308-330 | a busy wake flips `busy_cnt` and an idle one keeps it |
| Gnss.WakeRun | PlatformIO/src/gnss.cpp:300-334 | a run of wakes of one task keeps the packet buffers well formed and `busy_cnt` below 2 |
| Gnss.WakeRunCount | PlatformIO/src/gnss.cpp:302-330 | over any run of wakes `busy_cnt` ends flipped exactly when the run holds an odd number of busy wakes |
| Gnss.IdleRunKeepsCount | PlatformIO/src/gnss.cpp:308-320 | a run of idle wakes holds no busy wake to flip the count |
| Gnss.CountBusySkip | PlatformIO/src/gnss.cpp:324-329 | the 8-bit increment, and the reset and radio release at 2 |
| Gnss.GnssTaskWake | PlatformIO/src/gnss.cpp:305-333 | one wake of the task on the globals agrees with `GnssWakeStep` |
| Scheduler.MinDelay | PlatformIO/src/app.cpp:130-139 | `min_delay` is half of `send_repeat_time` (rounded down) when it is non-zero, else 30000 |
| Scheduler.InitOutcome | PlatformIO/src/app.cpp:104-144 | in P2P mode the GNSS task starts and the device counts as joined; the delayed timer is prepared with `min_delay`; the result is the OR of the three sensor inits |
| Scheduler.InitApp | PlatformIO/src/app.cpp:64-145 | `init_app` on the globals agrees with `InitStep` |
| Scheduler.WithBattery | PlatformIO/src/app.cpp:176-178 | writing the battery bytes keeps the packet's tags |
| Scheduler.StatusWork | PlatformIO/src/app.cpp:158-231 | the STATUS work keeps the packet buffers well formed |
| Scheduler.StatusStep | PlatformIO/src/app.cpp:155-232 | the STATUS branch keeps the packet buffers well formed |
| Scheduler.StatusBattery | PlatformIO/src/app.cpp:176-196 | the hysteresis: below 290 protection on with a one-hour period; above 410 with protection on, protection off with `send_repeat_time`; otherwise unchanged. `batt_1`/`batt_2` reassemble to the reading; no other byte changes |
| Scheduler.StatusSends | PlatformIO/src/app.cpp:198-231 | the battery-only uplink follows the flag after the reading: `02 02 batt_1 batt_2` over LoRaWAN, setting `lora_busy` when enqueued, or the whole packet over P2P |
| Scheduler.StatusStarts | PlatformIO/src/app.cpp:166-173 | the sensor reading and the location search start only when protection was off before the reading |
| Scheduler.WorkSends | PlatformIO/src/app.cpp:166-231 | the same starts and sends, once the bit is cleared |
| Scheduler.BatteryPayloadBytes | PlatformIO/src/app.cpp:203 | the 4 bytes from `data_flag3` are `02 02` and the two battery bytes |
| Scheduler.StoreBattery | PlatformIO/src/app.cpp:176-178 | writes `batt_1`/`batt_2` into `g_tracker_data` and nothing else |
| Scheduler.ApplyHysteresis | PlatformIO/src/app.cpp:181-196 | sets `low_batt_protection` and asks for the period changes of the hysteresis |
| Scheduler.SendLowBattery | PlatformIO/src/app.cpp:198-231 | the battery-only send on the globals |
| Scheduler.StatusWorkOn | PlatformIO/src/app.cpp:158-231 | the STATUS work on the globals agrees with `StatusWork` |
| Scheduler.HandleStatus | PlatformIO/src/app.cpp:155-232 | the STATUS branch on the globals agrees with `StatusStep` |
| Scheduler.AccWork | PlatformIO/src/app.cpp:238-276 | the ACC work keeps the packet buffers well formed |
| Scheduler.AccStep | PlatformIO/src/app.cpp:235-277 | the ACC branch keeps the packet buffers well formed |
| Scheduler.AccIgnored | PlatformIO/src/app.cpp:235 | a motion event is acted on only once joined; otherwise nothing changes and nothing is asked |
| Scheduler.AccImmediate | PlatformIO/src/app.cpp:241-276 | outside the throttle window (always with periodic sending off) the event raises STATUS and stamps `last_pos_send`; the wakeup timer restarts exactly when periodic sending is on |
| Scheduler.AccWorkImmediate | PlatformIO/src/app.cpp:263-276 | the same, once the bit is cleared |
| Scheduler.AccThrottled | PlatformIO/src/app.cpp:243-262 | inside the window STATUS is not raised; unless one is pending, a delayed send is armed after `min_delay - elapsed`, which lies in (0, min_delay], and `delayed_active` becomes true |
| Scheduler.AccWorkThrottled | PlatformIO/src/app.cpp:243-262 | the same, once the bit is cleared |
| Scheduler.AccWorkOn | PlatformIO/src/app.cpp:238-276 | the ACC work on the globals agrees with `AccWork` |
| Scheduler.HandleAcc | PlatformIO/src/app.cpp:235-277 | the ACC branch on the globals agrees with `AccStep` |
| Scheduler.GnssFinWork | PlatformIO/src/app.cpp:284-380 | the GNSS_FIN work keeps the packet buffers well formed |
| Scheduler.GnssFinStep | PlatformIO/src/app.cpp:280-381 | the GNSS_FIN branch keeps the packet buffers well formed |
| Scheduler.GnssFinOutcome | PlatformIO/src/app.cpp:280-381 | stamps `last_pos_send`, ends any pending delayed send, reads the sensor; region 8 at DR 0 sends nothing; otherwise 1 to 3 identical uplinks, a retry exactly after LMH_ERROR, of 30 bytes after a fix or the 19-byte env payload; `lora_busy` only from the first or second attempt |
| Scheduler.GnssFinWorkOutcome | PlatformIO/src/app.cpp:284-380 | the same, once the bit is cleared |
| Scheduler.UplinkAttempts | PlatformIO/src/app.cpp:313-367 | the number of attempts and their payloads; without a fix each payload parses as the packet's env record |
| Scheduler.SendTracker | PlatformIO/src/app.cpp:313-367 | the nested retry on the globals: attempts as `Attempts`, and `lora_busy` set only by a first or second success |
| Scheduler.GnssFinWorkOn | PlatformIO/src/app.cpp:284-380 | the GNSS_FIN work on the globals agrees with `GnssFinWork` |
| Scheduler.HandleGnssFin | PlatformIO/src/app.cpp:280-381 | the GNSS_FIN branch on the globals agrees with `GnssFinStep` |
| Scheduler.AppEvent | PlatformIO/src/app.cpp:152-382 | the whole handler keeps the packet buffers well formed |
| Scheduler.StatusKeepsEvents | PlatformIO/src/app.cpp:155-232 | the STATUS branch leaves ACC_TRIGGER, GNSS_FIN, `joined` and `send_fail` alone |
| Scheduler.AccClearsEvent | PlatformIO/src/app.cpp:235-277 | on a joined device the ACC branch always leaves ACC_TRIGGER clear and keeps GNSS_FIN |
| Scheduler.GnssFinClearsEvent | PlatformIO/src/app.cpp:280-282 | the GNSS_FIN branch leaves its event clear and keeps ACC_TRIGGER and STATUS |
| Scheduler.AppEventOutcome | PlatformIO/src/app.cpp:152-382 | after the handler on a joined device no ACC_TRIGGER or GNSS_FIN remains; `send_fail` is unchanged; an unthrottled motion event leaves STATUS raised for the next call |
| Scheduler.AppEventHandler | PlatformIO/src/app.cpp:152-382 | `app_event_handler` on the globals agrees with `AppEvent` |
| Scheduler.JoinFinOutcome | PlatformIO/src/app.cpp:416-444 | a successful join starts a new GNSS task, whose `busy_cnt` starts at 0, and stamps `last_pos_send`; a failed one only clears the bit; neither sets `joined`; in both cases the whole new state is given |
| Scheduler.TxFinOutcome | PlatformIO/src/app.cpp:447-476 | the end of a transmission frees the radio; a failure increments the 8-bit `send_fail` and asks for a restart exactly when it becomes 10; a success leaves the count |
| Scheduler.Failures | PlatformIO/src/app.cpp:464-467 | the failures of a run are the number of `false` results in it, at most the run's length |
| Scheduler.FailuresAppend | PlatformIO/src/app.cpp:464-467 | the failures of two consecutive runs add up |
| Scheduler.TxTurn | PlatformIO/src/app.cpp:447-476 | one counted transmission: the counter's new value and whether it restarts |
| Scheduler.TxRunRestarts | PlatformIO/src/app.cpp:464-475 | over any run `send_fail` grows by the number of failures, and exactly one restart is requested if the count crosses 10 |
| Scheduler.TenthFailureRestarts | PlatformIO/src/app.cpp:464-475 | from a zero counter, the tenth failure, and no other, restarts the node |
| Scheduler.RxDataOutcome | PlatformIO/src/app.cpp:479-520 | the LORA_DATA branch only clears its bit and frees the radio |
| Scheduler.HandleJoinFin | PlatformIO/src/app.cpp:416-444 | the JOIN_FIN branch on the globals agrees with `JoinFinStep`, including the new task's zero skip count |
| Scheduler.HandleTxFin | PlatformIO/src/app.cpp:447-476 | the TX_FIN branch on the globals agrees with `TxFinStep` |
| Scheduler.HandleRxData | PlatformIO/src/app.cpp:479-520 | the LORA_DATA branch on the globals agrees with `RxDataStep` |
| Scheduler.LoraDataHandler | PlatformIO/src/app.cpp:413-521 | `lora_data_handler` on the globals agrees with `LoraDataStep` |
| Scheduler.SendDelayedOutcome | PlatformIO/src/app.cpp:530-534 | the timer callback only raises STATUS and wakes the event loop |
| Scheduler.SendDelayed | PlatformIO/src/app.cpp:530-534 | `send_delayed` on the globals agrees with `SendDelayedStep` |
| ArduinoAt.ExecGnssOutcome | ArduinoIDE/LPWAN-Tracker-Solution/user_at_cmd.cpp:60-84 | '0' selects 4 digits Cayenne, '1' 6 digits Cayenne, '2' Helium keeping the precision, each saved and answering 0; anything else answers AT_ERRNO_PARA_VAL and changes nothing; only the first character matters |
| ArduinoAt.SaveReadRoundTrip | ArduinoIDE/LPWAN-Tracker-Solution/user_at_cmd.cpp:90-144 | after saving, "GNSS" exists exactly with 6-digit precision and "HELIUM" exactly in Helium format, each independent of the other; reading restores both flags; no other file changes |
| ArduinoAt.ExecThenQuery | ArduinoIDE/LPWAN-Tracker-Solution/user_at_cmd.cpp:38-144 | a successful `AT+GNSS=<d>` is reported back by the query as the same digit and survives a restart |
| ArduinoAt.UserAt.constructor | ArduinoIDE/LPWAN-Tracker-Solution/user_at_cmd.cpp:156-160 | the globals start with both flags off, an empty command list and count 0 |
| ArduinoAt.UserAt.AtQueryGnss | ArduinoIDE/LPWAN-Tracker-Solution/user_at_cmd.cpp:38-49 | writes "GPS precision: " and the digit (2 for Helium, else 1 or 0) and answers 0 |
| ArduinoAt.UserAt.AtExecGnss | ArduinoIDE/LPWAN-Tracker-Solution/user_at_cmd.cpp:60-84 | `at_exec_gnss` on the globals agrees with `ExecGnss` |
| ArduinoAt.UserAt.ReadGpsSettings | ArduinoIDE/LPWAN-Tracker-Solution/user_at_cmd.cpp:90-112 | each flag is set from the presence of its file |
| ArduinoAt.UserAt.SaveGpsSettings | ArduinoIDE/LPWAN-Tracker-Solution/user_at_cmd.cpp:118-144 | each file is created or removed according to its flag |
| ArduinoAt.UserAt.InitUserAt | ArduinoIDE/LPWAN-Tracker-Solution/user_at_cmd.cpp:150-181 | the list becomes the one-entry `+GNSS` table and the 8-bit count grows by its size, 1 |
| PlatformAt.SkipColons | PlatformIO/src/user_at_cmd.cpp:37 | `strtok` skips exactly the leading ':' delimiters |
| PlatformAt.UpToColon | PlatformIO/src/user_at_cmd.cpp:37 | the token is the longest prefix without ':' |
| PlatformAt.TokenOfCommand | PlatformIO/src/user_at_cmd.cpp:37-40 | a name without ':' is its own token, whatever parameters follow a ':' |
| PlatformAt.TokenSkipsDelimiters | PlatformIO/src/user_at_cmd.cpp:37 | leading delimiters are ignored, and a string of delimiters only has no token |
| PlatformAt.NameUpToColon | PlatformIO/src/user_at_cmd.cpp:37 | the token of a name followed by nothing or by ':' is the name |
| PlatformAt.HandleOutcome | PlatformIO/src/user_at_cmd.cpp:30-70 | the two queries are accepted and change nothing; `+GPS=0`/`+GPS=1` set the flag and save it; the answer is true exactly for these four tokens; any other leaves the state unchanged |
| PlatformAt.ParametersIgnored | PlatformIO/src/user_at_cmd.cpp:37-69 | a command with parameters after ':' behaves as the bare command |
| PlatformAt.SaveReadRoundTrip | PlatformIO/src/user_at_cmd.cpp:72-100 | after saving, "GPS" exists exactly with 6-digit precision, reading restores the flag, and no other file changes |
| PlatformAt.SetSurvivesRestart | PlatformIO/src/user_at_cmd.cpp:52-100 | the precision set by `+GPS=0`/`+GPS=1` is what is read back after a restart |
| PlatformAt.GpsSettings.constructor | PlatformIO/src/user_at_cmd.cpp:72-84 | the flag starts off over the given file system |
| PlatformAt.GpsSettings.UserAtHandler | PlatformIO/src/user_at_cmd.cpp:30-70 | `user_at_handler` on the globals agrees with `Handle` |
| PlatformAt.GpsSettings.ReadGpsSettings | PlatformIO/src/user_at_cmd.cpp:72-84 | the flag is the presence of "GPS" |
| PlatformAt.GpsSettings.SaveGpsSettings | PlatformIO/src/user_at_cmd.cpp:86-100 | "GPS" is created or removed according to the flag |
| JsHex.ToHex | Datacake-decode.js:39 | `toString(16)` gives one digit below 16 and two below 256 |
| JsHex.ByteHex | Datacake-decode.js:39-42 | each byte becomes exactly two characters, zero-padded |
| JsHex.HexStr | Datacake-decode.js:36-46 | the hex text has 2·n characters |
| JsHex.Bin2HexStr | Datacake-decode.js:36-46 | the accumulator loop builds `HexStr` of the bytes |
| JsHex.ByteHexDigits | Datacake-decode.js:39-42 | the two characters are the lowercase hex digits of the byte's high and low nibble after `& 0xff` |
| JsHex.HexStrAt | Chirpstack-decode.js:13-23 | byte i sits at positions 2i and 2i+1 |
| JsHex.HexPrefix | Datacake-decode.js:72 | `parseInt` reads the longest prefix of hex digits |
| JsHex.ParseHexDigits | Datacake-decode.js:72 | a non-empty run of hex digits parses to its value |
| JsHex.HexPrefixOfDigits | Datacake-decode.js:72 | a run of hex digits is read whole |
| JsHex.ByteHexParses | Datacake-decode.js:36-46 | the two characters of byte i parse back to the byte modulo 256 |
| JsHex.TwoDigits | Datacake-decode.js:39-42 | two hex digits parse to high·16 + low |
| JsHex.Pow2 | Datacake-decode.js:51 | the shift factor is positive |
| JsHex.Pow2Values | Datacake-decode.js:51-63 | the shift factors for 0, 8 and 16 bits |
| JsHex.Mod16Unique | Datacake-decode.js:51 | a remainder modulo 2^16 is the one in-range remainder of any decomposition |
| JsHex.Mod32Unique | Datacake-decode.js:63 | a remainder modulo 2^32 is the one in-range remainder of any decomposition |
| JsHex.ToInt32Residues | Datacake-decode.js:50-57 | ToInt32 keeps the low 16 and low 24 bits |
| JsHex.ShortShift | Datacake-decode.js:51 | `(n << 16) >> 16` sign-extends the low 16 bits |
| JsHex.TripleShift | Datacake-decode.js:57 | `(n << 8) >> 8` sign-extends the low 24 bits |
| JsHex.QuadrupleShift | Datacake-decode.js:63 | `(n << 32) >> 32` is the identity on an int32, since JavaScript takes shift counts modulo 32 |
| JsHex.ParseShortValue | Datacake-decode.js:49-52 | `parseShort` is the 16-bit two's complement of the parsed number (NaN counts as 0) |
| JsHex.ParseTripleValue | Chirpstack-decode.js:32-35 | `parseTriple` is the 24-bit two's complement of the parsed number |
| JsHex.ParseQuadrupleValue | Chirpstack-decode.js:38-41 | `parseQuadruple` is ToInt32 of the parsed number |
| SensorDecode.Keys | Datacake-decode.js:69 | the keys of an object in insertion order |
| SensorDecode.Lookup | Datacake-decode.js:15 | a property is found exactly when the object has it |
| SensorDecode.PutLookup | Datacake-decode.js:75 | assigning a property sets it and leaves the others |
| SensorDecode.PutKeys | Datacake-decode.js:75 | a new property is appended and an existing one keeps its place |
| SensorDecode.PutDistinct | Datacake-decode.js:75 | assignment keeps the keys distinct |
| SensorDecode.LastLookup | Datacake-decode.js:74-127 | a case assigns a value exactly for its keys |
| SensorDecode.PutAllLookup | Datacake-decode.js:74-127 | after a case's assignments each property holds its last assigned value or its old one |
| SensorDecode.PutAllDistinct | Datacake-decode.js:74-127 | a case's assignments keep the keys distinct |
| SensorDecode.From | Datacake-decode.js:76 | `substring(a)` keeps what is after a, or nothing |
| SensorDecode.Width | Datacake-decode.js:73-132 | every case consumes 6, 7, 8, 16 or 28 characters, and 7 exactly for an unknown tag |
| SensorDecode.FlagWidths | Chirpstack-decode.js:50-113 | the width of each tag: humidity 6; acceleration and gyroscope 16; GPS 28; the other known tags 8 (luminosity only outside Datacake); anything else 7 |
| SensorDecode.KeysOfDistinct | Datacake-decode.js:74-128 | no case assigns a property twice |
| SensorDecode.Slots | Datacake-decode.js:75-126 | every field lies inside its record, after the 4-character tag |
| SensorDecode.Raws | Datacake-decode.js:75-126 | one raw number per field |
| SensorDecode.Field | Chirpstack-decode.js:52-107 | a field's number is its raw value, with or without the unit text |
| SensorDecode.ValuesOf | Datacake-decode.js:74-128 | one value per property of the case |
| SensorDecode.Zip | Datacake-decode.js:74-128 | a case's assignments pair each property with its value, in order |
| SensorDecode.Fields | Datacake-decode.js:73-132 | a record assigns exactly the properties of its tag's case |
| SensorDecode.RakSensorDataDecode | Datacake-decode.js:67-136 | the loop's object is `Decoded` of the text, and has no property twice |
| SensorDecode.DecodeDistinct | Datacake-decode.js:67-136 | decoding never creates a property twice |
| SensorDecode.StepShortens | Datacake-decode.js:71-132 | each turn consumes its case's width, or the rest, so the loop terminates |
| SensorDecode.UnknownSkipped | Chirpstack-decode.js:110-112 | an unknown tag assigns nothing and skips 7 characters |
| SensorDecode.SubstringOfPrefix | Datacake-decode.js:75 | a field inside the record reads the same whatever follows |
| SensorDecode.RecordsCompose | Datacake-decode.js:71-133 | a record followed by more text is decoded on its own, then the rest |
| SensorDecode.ZipLastLookup | Datacake-decode.js:74-128 | each property of a case gets its own value |
| SensorDecode.RecordSets | Datacake-decode.js:74-128 | after a record each of its properties holds the value parsed from its slot |
| SensorDecode.RepeatedTagOverwrites | Chirpstack-decode.js:51-109 | a later record with the same tag overwrites every property of the earlier one |
| SensorDecode.GpsValues | Datacake-decode.js:86-96 | the GPS case's numbers are the raw fields; hasFix is 0 exactly when latitude and longitude are both 0, except as written in Chirpstack where it is always 1 |
| SensorDecode.GpsRecord | Datacake-decode.js:86-96 | a GPS record sets latitude, longitude and altitude to the 8-digit fields read as ToInt32, and hasFix 0 exactly when latitude and longitude are 0, else 1 |
| SensorDecode.ChirpstackGpsRecord | Chirpstack-decode.js:63-73 | as written, a Chirpstack GPS record always sets hasFix to 1 |
| SensorDecode.ChirpstackStepKeepsFix | Chirpstack-decode.js:51-109 | as written, no single Chirpstack record turns hasFix into 0 |
| SensorDecode.NoFixKeyOutsideGps | Chirpstack-decode.js:50-113 | only the GPS case assigns hasFix |
| SensorDecode.ChirpstackNeverNoFix | Chirpstack-decode.js:44-117 | as written, Chirpstack decoding never yields hasFix 0 |
| SensorDecode.Numbers | Chirpstack-decode.js:52-107 | an object's numbers, units dropped |
| SensorDecode.NumbersPut | Chirpstack-decode.js:52 | dropping units commutes with assignment |
| SensorDecode.NumbersPutAll | Chirpstack-decode.js:51-109 | dropping units commutes with a case's assignments |
| SensorDecode.SameCase | Chirpstack-decode.js:50-113 | apart from luminosity, both decoders pick the same case for every flag |
| SensorDecode.SameNumbers | Chirpstack-decode.js:51-109 | both decoders assign the same numbers for the same case |
| SensorDecode.DialectsAgree | Chirpstack-decode.js:44-117 | without luminosity records, Datacake and the corrected Chirpstack decoder give every property the same number |
| DatacakeDecoder.Lift | Datacake-decode.js:6 | each decoded property becomes a sensor field with the same value, in order |
| DatacakeDecoder.Upper | Datacake-decode.js:26 | `toUpperCase` maps every character and keeps the length |
| DatacakeDecoder.ToFields | Datacake-decode.js:21-28 | one output entry per property |
| DatacakeDecoder.Decoder | Datacake-decode.js:2-32 | the decoder builds `Output`: hex text, sensor decode, metadata, location, field list |
| DatacakeDecoder.PushFields | Datacake-decode.js:21-28 | the loop pushes one `{field, value}` per property, in order |
| DatacakeDecoder.UpperCases | Datacake-decode.js:26 | field names have no lowercase letter, only lowercase letters change, and upper-casing is idempotent |
| DatacakeDecoder.LiftLookup | Datacake-decode.js:6 | a sensor field is present exactly when the decoded object has it, with its value |
| DatacakeDecoder.LiftDistinct | Datacake-decode.js:6 | lifting keeps the keys distinct |
| DatacakeDecoder.GatewayLookup | Datacake-decode.js:9-11 | RSSI and SNR default to 0, the data rate is copied, and the sensor fields stay |
| DatacakeDecoder.MetadataAndLocation | Datacake-decode.js:9-18 | the metadata values; the sensor fields unchanged; `location` present exactly when hasFix is 1, holding latitude and longitude |
| DatacakeDecoder.LocationLookup | Datacake-decode.js:15-18 | `location` is added only when hasFix is 1 |
| DatacakeDecoder.OneEntryPerKey | Datacake-decode.js:21-31 | exactly one output entry per distinct key, with the field name upper-cased and the key's value |
| ChirpstackDecoder.DecodeIgnoresPort | Chirpstack-decode.js:5-9 | the result depends on the bytes only, not on fPort or the variables |
| ChirpstackDecoder.NeverNoFix | Chirpstack-decode.js:5-9 | as written, no uplink decodes to hasFix 0 |
| ChirpstackDecoder.CorrectedAgreesWithDatacake | Chirpstack-decode.js:5-9 | once corrected, Chirpstack and Datacake give every property the same number for any uplink without luminosity |
| ChirpstackDecoder.ZeroGpsExists | Chirpstack-decode.js:5-9 | an uplink of `01 88` followed by twelve zero bytes exists |
| ChirpstackDecoder.ZeroGpsText | Chirpstack-decode.js:13-23 | the hex text of `01 88` and twelve zero bytes is "0188" followed by 24 zeros |
| ChirpstackDecoder.GpsTagText | Chirpstack-decode.js:49 | "0188" parses to the GPS tag |
| ChirpstackDecoder.ZerosValue | Chirpstack-decode.js:38-41 | a run of '0' digits has value 0 |
| ChirpstackDecoder.ZeroField | Chirpstack-decode.js:64-65 | eight zero digits parse to 0 |
| ChirpstackDecoder.ZeroGpsRecord | Chirpstack-decode.js:63-73 | that uplink is one GPS record with zero latitude and longitude, in every dialect |
| ChirpstackDecoder.OneGpsRecord | Chirpstack-decode.js:48-73 | a 28-character text starting with "0188" decodes as that one record |
| ChirpstackDecoder.GpsTagOf | Chirpstack-decode.js:49-63 | a text starting with "0188" selects the GPS case |
| ChirpstackDecoder.ZeroGpsReportsFix | Chirpstack-decode.js:63-73 | for that uplink latitude and longitude are 0; Chirpstack as written reports hasFix 1, while the corrected decoder and Datacake report 0 |
| ChirpstackDecoder.CorrectedFixRule | Chirpstack-decode.js:68-72 | corrected, hasFix is 0 exactly when latitude and longitude are both 0, else 1 |

## Left out

- Hardware and I/O are not modelled: the serial wait, I2C and pin setup, `init_gnss` and its baud probing, LEDs, `AT_PRINTF`/`MYLOG` output, BLE advertising and `ble_data_handler`, and the hex dump of received data.
- FreeRTOS tasks and semaphores are not modelled; handlers run one at a time on the globals. Timers, semaphore gives, radio sends and the system reset appear only as recorded effects.
- `millis()` is read once per handler, as the parameter `now`. Clock wrap-around and the width of `time_t` are not modelled.
- `read_batt()`, the radio's answers, `g_join_result`, `g_rx_fin_result`, the BME680's completion polls and the GNSS receiver's reports are parameters. The receiver's search bound is abstracted as a finite sequence of reports.
- The float readings of the BME680 and their float-to-integer casts are not modelled; the readings enter as already-scaled integers.
- `g_lpwan_has_joined` is maintained by the WisBlock-API library, which is not part of this model; it is a state field that only P2P `init_app` sets.
- The STATUS, LORA_DATA, LORA_TX_FIN and LORA_JOIN_FIN bit values come from the WisBlock-API library. The model uses that library's values (0x0001, 0x0008, 0x0010, 0x0040); the proofs need only that they are distinct single bits. AT_ERRNO_PARA_VAL is 5, as the documentation of `at_exec_gnss` states.
- The answer to the third send attempt in the GNSS_FIN branch is read but never used, as in the source.
- `read_bme` fills `g_env_data`, but nothing copies it into `g_tracker_data`. The model keeps both buffers separate, as the source does.
- `send_fail` is only ever incremented. No lemma claims that a success resets it.
- `user_at_handler`'s `cmd_size` argument is not used by the source and is omitted. The case where `strtok` returns NULL is modelled as no token, which is refused; the source would pass NULL to `strcmp`.
- `init_user_at`'s malloc and memcpy become an assignment of the one-entry table.
- The JS decoders' float scaling (`* 0.01`, `toFixed`, `parseFloat`) is not modelled: every field is its raw integer. Chirpstack's unit suffixes are kept as text beside the number, which is what makes the GPS comparison fail.
- JS objects are association lists keyed by a `Key` datatype whose names are the property names. The Datacake metadata (`normalizedPayload`) is a parameter of optional integers and an optional data rate; an SNR with a fraction is not modelled.
- `location` holds latitude and longitude as values, not the formatted string "(lat,lon)".
- `parseInt` is modelled for an optional sign, an optional "0x" prefix and hex digits. Leading whitespace and numbers beyond 2^53 are not modelled.
- SensorDecode.RakSensorDataDecode: the loop body applies the chosen case's assignments as one `PutAll` of that case's field list instead of one statement per property.
- There is no encoder/decoder round trip: the firmware's 0x88 record has 3-byte fields, but the decoders read 4-byte fields under 0x0188.
- The ArduinoIDE `environment.cpp` and `wisblock_cayenne.h` (CayenneLPP calls with floats, and declarations whose bodies are not shown) are not part of this model.

## Findings

| source | as written | input that shows it | evidently intended | confidence | as-written member | corrected member |
|---|---|---|---|---|---|---|
| Chirpstack-decode.js:64-72 | latitude and longitude get the unit "'" appended before `myObj.latitude == 0.0 && myObj.longitude == 0.0` is tested; a string such as "0'" converts to NaN, so the test is false and hasFix is always 1 | the uplink `01 88` followed by twelve zero bytes (latitude, longitude and altitude 0) | hasFix 0 when latitude and longitude are both 0, as the Datacake decoder computes on the numbers | high; not executed | ChirpstackDecoder.ZeroGpsReportsFix | ChirpstackDecoder.CorrectedFixRule |
