# bluzscanner in Dafny

bluzscanner is an Android library that puts one Bluetooth LE scanning API in
front of several generations of the platform. It offers Android 8's features
(FIRST_MATCH / MATCH_LOST callback types, filters, batched delivery, the
Bluetooth 5 fields of a result) on every platform from Android 4.3 on. Where
the platform or the controller cannot provide a feature, the library emulates
it in a per-callback "wrapper". This project models the library's logic and
proves what it does.

The modules follow the library's classes:

- `Common`: the Kotlin value types. Bytes are `bv8` bit patterns, read as
  Kotlin's signed `Byte` by `Signed`. `Long` wrap-around is `WrapLong`. UUIDs
  are two 64-bit halves. There are also the exceptions the library throws.
- `ScanRecords` (`ScanRecord`): the advertisement parser. It reads the AD
  structures of the Bluetooth Core Specification 4.1, Volume 3, Part C,
  Sections 11 and 18, exactly as the Kotlin code does:
  - `and ff` with `ff = 0xFF.toByte()` masks nothing, so length and type are
    sign-extended;
  - a length of 0x80 or more makes the cursor go back or stay where it is;
    from there the loop may throw, never end (given as `Hangs`), or end
    normally at a zero length;
  - type 0xFF is read as -1, so manufacturer data is never parsed.
  
  The specification is `Parse`, built on a fuel-bounded `Run` of the loop.
  The lemma `HangsIffLoopsForever` proves that the bound decides termination
  exactly. The imperative `ParseFromBytes` is proved equal to `Parse`.
- `ScanResults` (`ScanResult`): the value with its packed event type.
- `ScanFilters` (`ScanFilter`): the matcher as pure functions, and the builder
  as a class whose setters return `false` where the source throws
  IllegalArgumentException.
- `Settings` (`ScanSettings`): the settings object, with its one mutable flag,
  and its builder.
- `Compat` (`BluetoothLeScannerCompat.ScanCallbackWrapper`): the emulation.
  - A pure `Session` specification (`HandleResult`, `Flush`, `MatchLostRun`,
    `Closed` and the rest) goes with an invariant `Inv` that every entry
    point preserves.
  - The class `ScanCallbackWrapper` runs the same steps in place. Each of its
    methods ensures `State() == <spec>(old(State()))`.
  - The `Handler` is the queue `pending` of runnables (the flush task, the
    match-lost task, posted MATCH_LOST notifications, posted results and
    batches). The environment chooses which runnable runs and at what clock
    value `now`. The application's `ScanCallback` is the append-only log
    `events`.
- `NativeConversions`: conversions between the library's objects and the
  platform's, per tier (`Lollipop`, `Marshmallow`, `Oreo`). Native objects are
  datatypes of the fields that were set.
- `LollipopScanners` (`BluetoothLeScannerImplLollipop`, with the Marshmallow
  and Oreo overrides selected by `tier`): the callback registry and the native
  callback's runnables. The platform is an `Adapter` value of capabilities,
  and the log `nativeCalls` records what the platform was asked to do.
- `JBScanners` (`BluetoothLeScannerImplJB`): one platform LE scan shared by
  every registered callback. The log `leScanCalls` of `startLeScan` /
  `stopLeScan` calls is proved to alternate. The scan runs exactly while a
  callback is registered.

`BluetoothUuid.parseUuidFrom` and `String(bytes)` are the two functions of a
`Decoders` parameter. `BluetoothAdapter.checkBluetoothAddress` is a predicate
parameter. The elapsed-realtime clock is the `now` parameter.

## Model

| member | source | states |
|---|---|---|
| ScanRecords.GetServiceData | bluzscanner/src/main/java/com/sherlock/bluzscanner/ScanRecord.kt:91-97 | null when the record has no service data map or no entry for the UUID, otherwise the stored bytes |
| ScanRecords.GetManufacturerSpecificData | bluzscanner/src/main/java/com/sherlock/bluzscanner/ScanRecord.kt:76-78 | null when the record has no manufacturer map or no entry for the id, otherwise the stored bytes |
| ScanRecords.ExtractBytes | bluzscanner/src/main/java/com/sherlock/bluzscanner/ScanRecord.kt:308-314 | succeeds exactly when the length is non-negative and the range lies inside the record (where `arraycopy` would not throw), and then returns those `length` bytes |
| ScanRecords.UuidChunksSucceed | bluzscanner/src/main/java/com/sherlock/bluzscanner/ScanRecord.kt:295-303 | a UUID list is read without exception exactly when its data length is not positive or the last chunk ends inside the record; it yields one UUID per started chunk |
| ScanRecords.UuidChunkAt | bluzscanner/src/main/java/com/sherlock/bluzscanner/ScanRecord.kt:295-303 | the k-th UUID of a list field is the UUID decoded from the w bytes at offset k*w, so the UUIDs keep their order |
| ScanRecords.ManufacturerField | bluzscanner/src/main/java/com/sherlock/bluzscanner/ScanRecord.kt:231-243 | the manufacturer id computed at line 236 is just the signed low byte, because the high byte is masked with 0x00 |
| ScanRecords.Parse | bluzscanner/src/main/java/com/sherlock/bluzscanner/ScanRecord.kt:153-266 | a null input gives no record; a parsed record keeps the input as its raw bytes; a loop that throws gives the record holding only the raw bytes and the sentinels |
| ScanRecords.FieldEffectThrowsAlike | bluzscanner/src/main/java/com/sherlock/bluzscanner/ScanRecord.kt:178-247 | whether a field branch throws depends only on the bytes, never on the values gathered so far |
| ScanRecords.LoopBodyControl | bluzscanner/src/main/java/com/sherlock/bluzscanner/ScanRecord.kt:168-248 | whether the loop body breaks, throws or continues, and where the cursor goes next, depends only on the cursor |
| ScanRecords.OutOfFuelIffRunning | bluzscanner/src/main/java/com/sherlock/bluzscanner/ScanRecord.kt:168-249 | a bounded run of the loop runs out of fuel exactly when the source loop is still running after that many iterations |
| ScanRecords.CycleRunsForever | bluzscanner/src/main/java/com/sherlock/bluzscanner/ScanRecord.kt:168-249 | a loop that returns to a cursor it has already visited goes round for ever |
| ScanRecords.LongRunLoopsForever | bluzscanner/src/main/java/com/sherlock/bluzscanner/ScanRecord.kt:168-249 | a loop still running after one iteration more than the record has bytes never ends |
| ScanRecords.HangsIffLoopsForever | bluzscanner/src/main/java/com/sherlock/bluzscanner/ScanRecord.kt:153-266 | `Parse` reports `Hangs` exactly when the source loop never terminates |
| ScanRecords.ZeroLengthBreaks | bluzscanner/src/main/java/com/sherlock/bluzscanner/ScanRecord.kt:170-173 | a zero length byte ends the loop, whatever bytes follow it |
| ScanRecords.CursorMovesBySignedLength | bluzscanner/src/main/java/com/sherlock/bluzscanner/ScanRecord.kt:170-248 | after a field, the cursor has moved by one plus the length byte read as a signed value |
| ScanRecords.UnknownFieldSkipped | bluzscanner/src/main/java/com/sherlock/bluzscanner/ScanRecord.kt:245-247 | a field of an unhandled type never throws, even when truncated, and changes no value |
| ScanRecords.UuidListFieldAppends | bluzscanner/src/main/java/com/sherlock/bluzscanner/ScanRecord.kt:180-203 | types 0x02-0x07 append their 2, 4 or 16-byte UUIDs in order to the one shared list, which is created on first use |
| ScanRecords.NameFieldReplaces | bluzscanner/src/main/java/com/sherlock/bluzscanner/ScanRecord.kt:204-206 | a short or complete name field succeeds exactly when its bytes lie inside the record, and then replaces any earlier name, so the last one wins |
| ScanRecords.FlagsAndTxPowerFieldsSet | bluzscanner/src/main/java/com/sherlock/bluzscanner/ScanRecord.kt:179-207 | a flags field and a TX power field succeed exactly when the byte at the field's start lies inside the record; the flags become that byte masked with 0xFF and read as a signed byte, the TX power level the byte sign-extended, and nothing else changes |
| ScanRecords.ServiceDataFieldOverwrites | bluzscanner/src/main/java/com/sherlock/bluzscanner/ScanRecord.kt:208-230 | a service data field succeeds exactly when its UUID fits in the data and the data lies inside the record; the bytes after the 2, 4 or 16-byte UUID are stored under it and replace an earlier entry |
| ScanRecords.ManufacturerDataNeverParsed | bluzscanner/src/main/java/com/sherlock/bluzscanner/ScanRecord.kt:177-231 | the type byte is sign-extended, so type 0xFF reads as -1 and a parsed record never holds manufacturer data |
| ScanRecords.FlagsThenTerminator | bluzscanner/src/main/java/com/sherlock/bluzscanner/ScanRecord.kt:158-179 | `[0x02,0x01,0x06,0x00]` followed by any bytes gives flags 6, with every other value left at its sentinel |
| ScanRecords.TruncatedUnknownFieldKeepsValues | bluzscanner/src/main/java/com/sherlock/bluzscanner/ScanRecord.kt:245-249 | a truncated trailing field of an unhandled type lets the loop exit normally and keeps the values already parsed |
| ScanRecords.TruncatedFlagsFallsBack | bluzscanner/src/main/java/com/sherlock/bluzscanner/ScanRecord.kt:178-264 | a flags field cut off before its value throws at the read of the value, and only the raw bytes are kept |
| ScanRecords.TruncatedUuidListFallsBack | bluzscanner/src/main/java/com/sherlock/bluzscanner/ScanRecord.kt:196-264 | a 128-bit service UUID list holding less than one UUID throws, and only the raw bytes are kept |
| ScanRecords.NegativeLengthFallsBack | bluzscanner/src/main/java/com/sherlock/bluzscanner/ScanRecord.kt:170-177 | a length byte of 0x80 is -128: the cursor goes negative, the next read throws, and the fallback record results |
| ScanRecords.LengthFFHangs | bluzscanner/src/main/java/com/sherlock/bluzscanner/ScanRecord.kt:168-248 | a length byte of 0xFF is -1: the cursor comes back to the length byte, so `[0xFF,0x00]` never finishes parsing |
| ScanRecords.BackwardCursorBreaks | bluzscanner/src/main/java/com/sherlock/bluzscanner/ScanRecord.kt:168-248 | a negative length that moves the cursor back can end the loop normally: `0x03 0x30 0x00 0x00 0xFD 0x30` visits cursors 0, 4 and 2 and stops at the zero length, giving the record with every value at its sentinel |
| ScanRecords.ParseServiceUuid | bluzscanner/src/main/java/com/sherlock/bluzscanner/ScanRecord.kt:287-305 | the loop succeeds exactly when every chunk lies inside the record; it then appends the chunk UUIDs to the list and returns the cursor after the last chunk |
| ScanRecords.ParseField | bluzscanner/src/main/java/com/sherlock/bluzscanner/ScanRecord.kt:178-247 | the `when` over the field type gives exactly the field effect of the specification, including where it throws |
| ScanRecords.ParseOneField | bluzscanner/src/main/java/com/sherlock/bluzscanner/ScanRecord.kt:168-248 | one iteration gives exactly the loop-body step of the specification |
| ScanRecords.ParseFromBytes | bluzscanner/src/main/java/com/sherlock/bluzscanner/ScanRecord.kt:153-266 | the imperative loop with its accumulators and catch gives exactly `Parse`: a record, the fallback record, or `Hangs` when the loop never ends |
| ScanRecords.Equals | bluzscanner/src/main/java/com/sherlock/bluzscanner/ScanRecord.kt:268-277 | two records are equal exactly when their raw bytes are; the parsed values take no part (see `ScanResults.EqualsIgnoresParsedValues`) |
| ScanRecords.FieldEffect | bluzscanner/src/main/java/com/sherlock/bluzscanner/ScanRecord.kt:178-246 | the branch of the `when` for one field type, giving the new values or `None` where the branch throws; its cases are stated by `UnknownFieldSkipped`, `FlagsAndTxPowerFieldsSet`, `UuidListFieldAppends`, `NameFieldReplaces`, `ServiceDataFieldOverwrites` and `FieldEffectThrowsAlike` |
| ScanRecords.LoopBody | bluzscanner/src/main/java/com/sherlock/bluzscanner/ScanRecord.kt:168-249 | one iteration of the parse loop: signed length, break on zero, signed type, the branch, the cursor moved by the signed length; stated by `LoopBodyControl`, `ZeroLengthBreaks` and `CursorMovesBySignedLength` |
| ScanRecords.Run | bluzscanner/src/main/java/com/sherlock/bluzscanner/ScanRecord.kt:167-253 | the parse loop under a fuel bound: completed at the end of the bytes or on a break, failed on an exception, out of fuel otherwise; `OutOfFuelIffRunning` and `HangsIffLoopsForever` tie the bound to the unbounded loop |
| ScanResults.LegacyScanResult | bluzscanner/src/main/java/com/sherlock/bluzscanner/ScanResult.kt:77-89 | the four-argument constructor stores device, record, rssi and timestamp; the result is legacy, connectable and DATA_COMPLETE, with PHY 1M, no secondary PHY, SID 0xFF, tx power 127 and interval 0 |
| ScanResults.ExtendedScanResult | bluzscanner/src/main/java/com/sherlock/bluzscanner/ScanResult.kt:91-106 | the ten-argument constructor stores every argument unchanged |
| ScanResults.DataStatus | bluzscanner/src/main/java/com/sherlock/bluzscanner/ScanResult.kt:201-204 | the data status is a two-bit value, below 4 |
| ScanResults.EventTypeRoundTrip | bluzscanner/src/main/java/com/sherlock/bluzscanner/ScanResult.kt:185-204 | the getters read back what the event-type packing put in: legacy and connectable exactly, and the two low bits of the data status, so any status below 4 survives |
| ScanResults.EqualsIsEquivalence | bluzscanner/src/main/java/com/sherlock/bluzscanner/ScanResult.kt:267-284 | `equals` is reflexive, symmetric and transitive |
| ScanResults.EqualsIgnoresParsedValues | bluzscanner/src/main/java/com/sherlock/bluzscanner/ScanResult.kt:267-284 | records are compared by their raw bytes only: results that differ only in the values parsed from their records are equal exactly when those bytes are equal |
| ScanResults.IsLegacy | bluzscanner/src/main/java/com/sherlock/bluzscanner/ScanResult.kt:185-187 | `isLegacy` reads bit 0x10 of the event type; `EventTypeRoundTrip` proves it reads back the packed legacy flag |
| ScanResults.IsConnectable | bluzscanner/src/main/java/com/sherlock/bluzscanner/ScanResult.kt:192-194 | `isConnectable` reads bit 0x01 of the event type; `EventTypeRoundTrip` proves it reads back the packed connectable flag |
| ScanResults.EventType | bluzscanner/src/main/java/com/sherlock/bluzscanner/BluetoothLeScannerImplOreo.kt:103-105 | the event type packed from a native result: data status shifted by 5, the legacy bit, the connectable bit; `EventTypeRoundTrip` proves the getters recover them |
| ScanResults.Equals | bluzscanner/src/main/java/com/sherlock/bluzscanner/ScanResult.kt:267-284 | `equals` compares every field, records by raw bytes; `EqualsIsEquivalence` and `EqualsIgnoresParsedValues` state its properties |
| ScanFilters.ServiceUuidMaskExtremes | bluzscanner/src/main/java/com/sherlock/bluzscanner/ScanFilter.kt:298-310 | an all-ones mask on both 64-bit halves is exact UUID equality; an all-zero mask accepts every UUID |
| ScanFilters.AnyServiceUuidMatches | bluzscanner/src/main/java/com/sherlock/bluzscanner/ScanFilter.kt:287-294 | the search loop finds a match exactly when some candidate from position i onwards matches |
| ScanFilters.MatchesServiceUuids | bluzscanner/src/main/java/com/sherlock/bluzscanner/ScanFilter.kt:276-296 | no UUID in the filter always passes; otherwise there must be a candidate list and some candidate in it must match |
| ScanFilters.PatternMatchesFrom | bluzscanner/src/main/java/com/sherlock/bluzscanner/ScanFilter.kt:325-337 | the byte loop succeeds exactly when every position from i on matches, with or without the mask |
| ScanFilters.MatchesPartialData | bluzscanner/src/main/java/com/sherlock/bluzscanner/ScanFilter.kt:312-338 | null filter data matches exactly when parsed data exists; otherwise the parsed data must be at least as long and match at every position of the filter data, masked or not |
| ScanFilters.PatternMatchesItsExtensions | bluzscanner/src/main/java/com/sherlock/bluzscanner/ScanFilter.kt:312-338 | filter data matches any parsed data that begins with it, whatever mask is given |
| ScanFilters.ZeroMaskAcceptsAll | bluzscanner/src/main/java/com/sherlock/bluzscanner/ScanFilter.kt:332-338 | an all-zero mask accepts any parsed data that is long enough |
| ScanFilters.EmptyFilterMatchesAll | bluzscanner/src/main/java/com/sherlock/bluzscanner/ScanFilter.kt:214-274 | a null result never matches; the empty filter matches every other result, yet `isAllFieldsEmpty` is false for it |
| ScanFilters.NoRecordMatches | bluzscanner/src/main/java/com/sherlock/bluzscanner/ScanFilter.kt:224-231 | for a result without a record, a filter matches exactly when its address, if any, is the device address and it sets no name, service UUID, manufacturer data or service data; a filter with only a service-data UUID or manufacturer id still passes |
| ScanFilters.ManufacturerFilterRejects | bluzscanner/src/main/java/com/sherlock/bluzscanner/ScanFilter.kt:258-267 | a filter with a manufacturer id of 0 or more rejects a record that has no manufacturer data |
| ScanFilters.ManufacturerFilterRejectsParsed | bluzscanner/src/main/java/com/sherlock/bluzscanner/ScanFilter.kt:258-267 | together with the parser: a filter with a manufacturer id of 0 or more rejects every result whose record came from the parser |
| ScanFilters.MatchesIffCriteria | bluzscanner/src/main/java/com/sherlock/bluzscanner/ScanFilter.kt:214-274 | a filter matches a result exactly when every criterion it sets holds: the address, no record criterion without a record, the name, some service UUID under the mask, and with a record the service and manufacturer data found and agreeing with the pattern under the mask (found at all when no pattern is set) |
| ScanFilters.ServiceUuidExample | bluzscanner/src/main/java/com/sherlock/bluzscanner/ScanFilter.kt:238-245 | a UUID filter matches a record that lists that UUID among others, and rejects a record that lists only another UUID |
| ScanFilters.EqualsIsValueEquality | bluzscanner/src/main/java/com/sherlock/bluzscanner/ScanFilter.kt:364-382 | `equals` over every field, with arrays compared by content, is equality of the filter values |
| ScanFilters.FilterBuilder.constructor | bluzscanner/src/main/java/com/sherlock/bluzscanner/ScanFilter.kt:396-409 | a new builder holds the empty filter, with manufacturer id -1 |
| ScanFilters.FilterBuilder.SetDeviceName | bluzscanner/src/main/java/com/sherlock/bluzscanner/ScanFilter.kt:414-417 | sets the name and nothing else |
| ScanFilters.FilterBuilder.SetDeviceAddress | bluzscanner/src/main/java/com/sherlock/bluzscanner/ScanFilter.kt:427-433 | accepts null or an address that passes `checkBluetoothAddress`; an accepted address is set, a rejection changes nothing |
| ScanFilters.FilterBuilder.SetServiceUuid | bluzscanner/src/main/java/com/sherlock/bluzscanner/ScanFilter.kt:438-442 | sets the UUID and clears the mask |
| ScanFilters.FilterBuilder.SetServiceUuidMasked | bluzscanner/src/main/java/com/sherlock/bluzscanner/ScanFilter.kt:452-462 | rejects a mask without a UUID, changing nothing; otherwise sets both |
| ScanFilters.FilterBuilder.SetServiceData | bluzscanner/src/main/java/com/sherlock/bluzscanner/ScanFilter.kt:469-481 | sets the service-data UUID and the data, and clears the mask |
| ScanFilters.FilterBuilder.SetServiceDataMasked | bluzscanner/src/main/java/com/sherlock/bluzscanner/ScanFilter.kt:494-521 | rejects a mask without data, or of a different length, changing nothing; otherwise sets UUID, data and mask |
| ScanFilters.FilterBuilder.SetManufacturerData | bluzscanner/src/main/java/com/sherlock/bluzscanner/ScanFilter.kt:531-542 | rejects data with a negative id, changing nothing; otherwise sets id and data and clears the mask |
| ScanFilters.FilterBuilder.SetManufacturerDataMasked | bluzscanner/src/main/java/com/sherlock/bluzscanner/ScanFilter.kt:556-582 | rejects data with a negative id, a mask without data, or a mask of a different length, changing nothing; otherwise sets all three |
| ScanFilters.FilterBuilder.Build | bluzscanner/src/main/java/com/sherlock/bluzscanner/ScanFilter.kt:589-591 | the built filter is the builder's filter, and it satisfies the builder invariants the matcher relies on |
| ScanFilters.MatchesServiceUuid | bluzscanner/src/main/java/com/sherlock/bluzscanner/ScanFilter.kt:298-310 | without a mask the UUIDs must be equal; with one, both 64-bit halves must agree under it; `ServiceUuidMaskExtremes` proves an all-ones mask is equality and an all-zeros mask accepts every UUID |
| ScanFilters.Matches | bluzscanner/src/main/java/com/sherlock/bluzscanner/ScanFilter.kt:214-274 | the matcher: a null result fails, then the address, record, name, service UUID, service data and manufacturer data checks in the source order; stated both ways by `MatchesIffCriteria`, with `EmptyFilterMatchesAll` and `NoRecordMatches` |
| ScanFilters.MeetsPattern | bluzscanner/src/main/java/com/sherlock/bluzscanner/ScanFilter.kt:312-338 | the data condition written on its own: data found, and with a pattern at least as long as it and agreeing under the mask; the contract of `MatchesPartialData` states the same condition for every input |
| ScanFilters.Equals | bluzscanner/src/main/java/com/sherlock/bluzscanner/ScanFilter.kt:364-382 | `equals` compares every field, byte arrays by content; `EqualsIsValueEquality` proves it is equality of the whole filter |
| ScanFilters.IsAllFieldsEmpty | bluzscanner/src/main/java/com/sherlock/bluzscanner/ScanFilter.kt:387-391 | `isAllFieldsEmpty` is false for every filter; `EmptyFilterMatchesAll` states it is false even for the empty filter |
| Settings.ScanSettings.constructor | bluzscanner/src/main/java/com/sherlock/bluzscanner/ScanSettings.kt:227-248 | stores every argument except `flegacy`: `legacy` stays false, and the match-lost timeout is the millisecond value times 1,000,000 with `Long` wrap-around |
| Settings.ScanSettings.DisableUseHardwareCallbackTypes | bluzscanner/src/main/java/com/sherlock/bluzscanner/ScanSettings.kt:190-192 | clears the hardware-callback-types flag; every other field is immutable |
| Settings.MatchTimeoutInNanos | bluzscanner/src/main/java/com/sherlock/bluzscanner/ScanSettings.kt:244-244 | the nanosecond timeout is exact and non-negative as long as the product fits in a `Long` |
| Settings.IsValidCallbackType | bluzscanner/src/main/java/com/sherlock/bluzscanner/ScanSettings.kt:366-373 | valid exactly for 1, 2, 4 and 6, since `or` is evaluated before the comparison |
| Settings.ValidCallbackTypesAreCombinations | bluzscanner/src/main/java/com/sherlock/bluzscanner/ScanSettings.kt:366-373 | the valid types are ALL_MATCHES alone, or any non-empty combination of FIRST_MATCH and MATCH_LOST |
| Settings.PowerSaveDefaults | bluzscanner/src/main/java/com/sherlock/bluzscanner/ScanSettings.kt:574-604 | LOW_LATENCY gives 0/0; every other mode scans for part of a 5000 ms cycle, 2000 ms for BALANCED and 500 ms for all others |
| Settings.BuildParams | bluzscanner/src/main/java/com/sherlock/bluzscanner/ScanSettings.kt:558-569 | values with either power-save interval set are passed on unchanged; otherwise only the two intervals may change |
| Settings.BuiltPowerSaveMode | bluzscanner/src/main/java/com/sherlock/bluzscanner/ScanSettings.kt:558-569 | built settings are in power-save mode unless no intervals were set and the mode is LOW_LATENCY; the built values stay valid |
| Settings.BuiltSettingsProperties | bluzscanner/src/main/java/com/sherlock/bluzscanner/ScanSettings.kt:558-569 | settings built from valid values have a valid mode, type and match options, a non-negative delay, `legacy` false, the power-save rule above, and a positive nanosecond timeout where it fits |
| Settings.DefaultSettings | bluzscanner/src/main/java/com/sherlock/bluzscanner/ScanSettings.kt:310-322 | a fresh builder gives LOW_POWER, ALL_MATCHES, no delay, a 10 s timeout in nanoseconds, a 10 s interval, and 500/4500 power save |
| Settings.SettingsBuilder.constructor | bluzscanner/src/main/java/com/sherlock/bluzscanner/ScanSettings.kt:310-322 | a new builder holds the default values |
| Settings.SettingsBuilder.SetScanMode | bluzscanner/src/main/java/com/sherlock/bluzscanner/ScanSettings.kt:343-349 | accepts exactly -1..2 and then sets the mode; a rejection changes nothing |
| Settings.SettingsBuilder.SetCallbackType | bluzscanner/src/main/java/com/sherlock/bluzscanner/ScanSettings.kt:357-363 | accepts exactly the valid callback types and then sets the type; a rejection changes nothing |
| Settings.SettingsBuilder.SetReportDelay | bluzscanner/src/main/java/com/sherlock/bluzscanner/ScanSettings.kt:390-396 | rejects a negative delay; otherwise sets it |
| Settings.SettingsBuilder.SetNumOfMatches | bluzscanner/src/main/java/com/sherlock/bluzscanner/ScanSettings.kt:407-413 | accepts exactly 1..3 and then sets the value; a rejection changes nothing |
| Settings.SettingsBuilder.SetMatchMode | bluzscanner/src/main/java/com/sherlock/bluzscanner/ScanSettings.kt:423-429 | accepts exactly 1..2 and then sets the value; a rejection changes nothing |
| Settings.SettingsBuilder.SetLegacy | bluzscanner/src/main/java/com/sherlock/bluzscanner/ScanSettings.kt:439-442 | sets `legacy` and nothing else |
| Settings.SettingsBuilder.SetPhy | bluzscanner/src/main/java/com/sherlock/bluzscanner/ScanSettings.kt:458-461 | sets the PHY and nothing else |
| Settings.SettingsBuilder.SetUseHardwareFilteringIfSupported | bluzscanner/src/main/java/com/sherlock/bluzscanner/ScanSettings.kt:474-477 | sets that flag and nothing else |
| Settings.SettingsBuilder.SetUseHardwareBatchingIfSupported | bluzscanner/src/main/java/com/sherlock/bluzscanner/ScanSettings.kt:491-494 | sets that flag and nothing else |
| Settings.SettingsBuilder.SetUseHardwareCallbackTypesIfSupported | bluzscanner/src/main/java/com/sherlock/bluzscanner/ScanSettings.kt:510-513 | sets that flag and nothing else |
| Settings.SettingsBuilder.SetMatchOptions | bluzscanner/src/main/java/com/sherlock/bluzscanner/ScanSettings.kt:527-534 | accepts only when both arguments are above 0, and then sets both; a rejection changes nothing |
| Settings.SettingsBuilder.SetPowerSave | bluzscanner/src/main/java/com/sherlock/bluzscanner/ScanSettings.kt:546-553 | accepts only when both intervals are above 0, and then sets both; a rejection changes nothing |
| Settings.SettingsBuilder.UpdatePowerSaveSettings | bluzscanner/src/main/java/com/sherlock/bluzscanner/ScanSettings.kt:574-604 | the two intervals become the defaults of the current scan mode, and nothing else changes |
| Settings.SettingsBuilder.Build | bluzscanner/src/main/java/com/sherlock/bluzscanner/ScanSettings.kt:558-569 | fills in the power-save defaults when neither interval is set, then constructs settings from the builder values |
| Settings.ScanSettings.HasPowerSaveMode | bluzscanner/src/main/java/com/sherlock/bluzscanner/ScanSettings.kt:296-298 | power saving is on exactly when both intervals are positive; `BuiltPowerSaveMode` states when the built settings have it |
| Settings.IsValidScanMode | bluzscanner/src/main/java/com/sherlock/bluzscanner/ScanSettings.kt:344-346 | `setScanMode` accepts OPPORTUNISTIC (-1) through LOW_LATENCY (2); the setter contract accepts exactly these |
| Settings.IsValidReportDelay | bluzscanner/src/main/java/com/sherlock/bluzscanner/ScanSettings.kt:391-393 | `setReportDelay` rejects a negative delay; the setter contract accepts exactly the others |
| Settings.IsValidNumOfMatches | bluzscanner/src/main/java/com/sherlock/bluzscanner/ScanSettings.kt:408-410 | `setNumOfMatches` accepts 1 through 3; the setter contract accepts exactly these |
| Settings.IsValidMatchMode | bluzscanner/src/main/java/com/sherlock/bluzscanner/ScanSettings.kt:424-426 | `setMatchMode` accepts AGGRESSIVE (1) and STICKY (2); the setter contract accepts exactly these |
| Compat.EmulationFlags | bluzscanner/src/main/java/com/sherlock/bluzscanner/BluetoothLeScannerCompat.kt:189-203 | found/lost is emulated only for types other than ALL_MATCHES, filtering only with filters, and batching only with a delay, when the flush task is armed; whatever the controller lacks is emulated, and nothing is when the controller offers everything and the settings ask for it |
| Compat.MatchesAnyIffSomeFilter | bluzscanner/src/main/java/com/sherlock/bluzscanner/BluetoothLeScannerCompat.kt:304-312 | the private `matches` holds exactly when some filter matches, and so is false for no filters |
| Compat.FilterResults | bluzscanner/src/main/java/com/sherlock/bluzscanner/BluetoothLeScannerCompat.kt:290-295 | the filtered list is no longer than the input |
| Compat.FilterResultsKeepsMatching | bluzscanner/src/main/java/com/sherlock/bluzscanner/BluetoothLeScannerCompat.kt:290-295 | the filtered list holds exactly the input results that some filter matches |
| Compat.WithoutMatchLost | bluzscanner/src/main/java/com/sherlock/bluzscanner/BluetoothLeScannerCompat.kt:259-259 | `removeCallbacks` removes every match-lost task from the queue and keeps every other task |
| Compat.SweepFacts | bluzscanner/src/main/java/com/sherlock/bluzscanner/BluetoothLeScannerCompat.kt:153-165 | the sweep removes exactly the visited entries seen before now minus the timeout, keeps all others unchanged, and reports each removed result |
| Compat.Notifications | bluzscanner/src/main/java/com/sherlock/bluzscanner/BluetoothLeScannerCompat.kt:158-163 | one MATCH_LOST runnable is posted for each removed result, in removal order |
| Compat.InitialInv | bluzscanner/src/main/java/com/sherlock/bluzscanner/BluetoothLeScannerCompat.kt:174-204 | a new wrapper satisfies the state invariant: keys are devices, the batch set matches the buffer, collections are empty when stopped |
| Compat.HandleResultInv | bluzscanner/src/main/java/com/sherlock/bluzscanner/BluetoothLeScannerCompat.kt:226-282 | `handleScanResult` keeps the invariant |
| Compat.RunTaskInv | bluzscanner/src/main/java/com/sherlock/bluzscanner/BluetoothLeScannerCompat.kt:138-172 | running any pending runnable keeps the invariant |
| Compat.ExecuteInv | bluzscanner/src/main/java/com/sherlock/bluzscanner/BluetoothLeScannerCompat.kt:138-172 | every kind of runnable keeps the invariant |
| Compat.MatchLostRunInv | bluzscanner/src/main/java/com/sherlock/bluzscanner/BluetoothLeScannerCompat.kt:148-172 | the match-lost task keeps the invariant; once stopped, it changes nothing |
| Compat.OtherEntryPointsInv | bluzscanner/src/main/java/com/sherlock/bluzscanner/BluetoothLeScannerCompat.kt:206-302 | `handleScanResults`, the flush, `close` and `handleScanError` keep the invariant |
| Compat.CloseStops | bluzscanner/src/main/java/com/sherlock/bluzscanner/BluetoothLeScannerCompat.kt:206-214 | `close` stops the wrapper, cancels every pending runnable and tells the application nothing |
| Compat.StoppedIsSilent | bluzscanner/src/main/java/com/sherlock/bluzscanner/BluetoothLeScannerCompat.kt:138-302 | once stopped, no result, batch, flush or runnable delivers anything more; only `handleScanError` still reports |
| Compat.UnmatchedResultIgnored | bluzscanner/src/main/java/com/sherlock/bluzscanner/BluetoothLeScannerCompat.kt:230-231 | with filters present, a result no filter matches is ignored, whether filtering is emulated or not |
| Compat.PlainResultDelivered | bluzscanner/src/main/java/com/sherlock/bluzscanner/BluetoothLeScannerCompat.kt:280-280 | with neither found/lost nor batching emulated, a result is delivered at once with its incoming callback type |
| Compat.FirstSightingReported | bluzscanner/src/main/java/com/sherlock/bluzscanner/BluetoothLeScannerCompat.kt:236-265 | a new device is stored and reported as FIRST_MATCH when the type asks for it; the match-lost task is re-armed only when the map was empty and MATCH_LOST is asked for |
| Compat.RepeatSightingIsSilent | bluzscanner/src/main/java/com/sherlock/bluzscanner/BluetoothLeScannerCompat.kt:239-253 | a device already in range has its stored result replaced and nothing is reported |
| Compat.SweepSplitsByAge | bluzscanner/src/main/java/com/sherlock/bluzscanner/BluetoothLeScannerCompat.kt:153-165 | when every device is visited, the sweep keeps exactly the devices seen at or after the threshold and reports every other one |
| Compat.FoundThenLost | bluzscanner/src/main/java/com/sherlock/bluzscanner/BluetoothLeScannerCompat.kt:148-265 | a device is reported as FIRST_MATCH; when the sweep runs after the timeout it is removed, and then reported as MATCH_LOST |
| Compat.FirstMatchStep | bluzscanner/src/main/java/com/sherlock/bluzscanner/BluetoothLeScannerCompat.kt:236-265 | the first result on a new found/lost wrapper gives the whole new state: one device, one FIRST_MATCH event, the match-lost task armed |
| Compat.MatchLostStep | bluzscanner/src/main/java/com/sherlock/bluzscanner/BluetoothLeScannerCompat.kt:148-172 | the sweep with one expired device empties the map, posts its MATCH_LOST runnable and does not re-arm |
| Compat.NotifyLostStep | bluzscanner/src/main/java/com/sherlock/bluzscanner/BluetoothLeScannerCompat.kt:158-163 | the posted MATCH_LOST runnable delivers exactly that event |
| Compat.LostAfterFound | bluzscanner/src/main/java/com/sherlock/bluzscanner/BluetoothLeScannerCompat.kt:148-172 | after a first sighting, the match-lost task run past the timeout leaves the map empty and its posted runnable adds exactly one MATCH_LOST event |
| Compat.FirstSightingsAreFirst | bluzscanner/src/main/java/com/sherlock/bluzscanner/BluetoothLeScannerCompat.kt:270-278 | the buffer takes results of new devices, one per device, including the first result of every new device |
| Compat.BatchStep | bluzscanner/src/main/java/com/sherlock/bluzscanner/BluetoothLeScannerCompat.kt:270-278 | in batch mode, a result of a new device is appended and its device remembered; a repeat is dropped; nothing is delivered |
| Compat.BatchKeepsFirstSightings | bluzscanner/src/main/java/com/sherlock/bluzscanner/BluetoothLeScannerCompat.kt:270-278 | a stream of results fills the buffer with the first sighting of each new device, in arrival order, and delivers nothing |
| Compat.FlushDeliversBuffer | bluzscanner/src/main/java/com/sherlock/bluzscanner/BluetoothLeScannerCompat.kt:216-224 | a copy of the buffer is delivered, then the buffer and the batch set are cleared; an immediate second flush delivers an empty batch |
| Compat.FlushWithoutBatchingIsNoop | bluzscanner/src/main/java/com/sherlock/bluzscanner/BluetoothLeScannerCompat.kt:216-224 | without emulated batching, the flush changes nothing |
| Compat.SecondBatchDropped | bluzscanner/src/main/java/com/sherlock/bluzscanner/BluetoothLeScannerImplLollipop.kt:209-213 | after an accepted batch at `first`, a batch at `second` is dropped exactly when `second - first < delay - 5` ms |
| Compat.KeysOf | bluzscanner/src/main/java/com/sherlock/bluzscanner/BluetoothLeScannerCompat.kt:153-155 | the iterator visits every key of the map exactly once, in an order that is not specified |
| Compat.SweepLoop | bluzscanner/src/main/java/com/sherlock/bluzscanner/BluetoothLeScannerCompat.kt:153-165 | the `iterator.remove()` loop computes exactly the specified sweep |
| Compat.ScanCallbackWrapper.constructor | bluzscanner/src/main/java/com/sherlock/bluzscanner/BluetoothLeScannerCompat.kt:174-204 | the emulation flags are derived from the settings and capabilities, and the state is the initial one, with the flush task armed when batching is emulated |
| Compat.ScanCallbackWrapper.Matches | bluzscanner/src/main/java/com/sherlock/bluzscanner/BluetoothLeScannerCompat.kt:304-312 | the loop over the filters returns the private `matches` |
| Compat.ScanCallbackWrapper.HandleScanResult | bluzscanner/src/main/java/com/sherlock/bluzscanner/BluetoothLeScannerCompat.kt:226-282 | the new state is `HandleResult` of the old one, and the invariant holds |
| Compat.ScanCallbackWrapper.HandleScanResults | bluzscanner/src/main/java/com/sherlock/bluzscanner/BluetoothLeScannerCompat.kt:284-298 | ignored when stopped; otherwise one batch is delivered, filtered only when filtering is emulated |
| Compat.ScanCallbackWrapper.FilterMatching | bluzscanner/src/main/java/com/sherlock/bluzscanner/BluetoothLeScannerCompat.kt:290-295 | the loop builds exactly the filtered list |
| Compat.ScanCallbackWrapper.FlushPendingScanResults | bluzscanner/src/main/java/com/sherlock/bluzscanner/BluetoothLeScannerCompat.kt:216-224 | the new state is the specified flush of the old one |
| Compat.ScanCallbackWrapper.Close | bluzscanner/src/main/java/com/sherlock/bluzscanner/BluetoothLeScannerCompat.kt:206-214 | the new state is the closed state, and the invariant holds |
| Compat.ScanCallbackWrapper.HandleScanError | bluzscanner/src/main/java/com/sherlock/bluzscanner/BluetoothLeScannerCompat.kt:300-302 | the error is forwarded unchanged, whether stopped or not |
| Compat.ScanCallbackWrapper.Post | bluzscanner/src/main/java/com/sherlock/bluzscanner/BluetoothLeScannerImplJB.kt:93-98 | `handler.post` appends the runnable to the queue and changes nothing else |
| Compat.ScanCallbackWrapper.MatchLostSweep | bluzscanner/src/main/java/com/sherlock/bluzscanner/BluetoothLeScannerCompat.kt:148-172 | the task body computes the specified sweep over some visiting order of every device in range, and re-arms while devices remain |
| Compat.ScanCallbackWrapper.RunPending | bluzscanner/src/main/java/com/sherlock/bluzscanner/BluetoothLeScannerCompat.kt:138-172 | running the k-th pending runnable gives the specified step and keeps the invariant |
| Compat.ScanCallbackWrapper.Run | bluzscanner/src/main/java/com/sherlock/bluzscanner/BluetoothLeScannerCompat.kt:138-172 | each runnable, once taken off the queue, has its specified effect |
| Compat.ScanCallbackWrapper.RunFlushTask | bluzscanner/src/main/java/com/sherlock/bluzscanner/BluetoothLeScannerCompat.kt:138-145 | unless stopped, the flush task flushes and then posts itself again with the report delay |
| Compat.ScanCallbackWrapper.RunNativeBatch | bluzscanner/src/main/java/com/sherlock/bluzscanner/BluetoothLeScannerImplLollipop.kt:206-219 | a batch arriving too early is dropped; otherwise its time is recorded and the batch goes to `handleScanResults` |
| Compat.Initial | bluzscanner/src/main/java/com/sherlock/bluzscanner/BluetoothLeScannerCompat.kt:174-204 | the state of a new wrapper: running, nothing stored or reported, the flush task armed exactly when batching is emulated; `InitialInv` and `EmulationFlags` |
| Compat.MatchesAny | bluzscanner/src/main/java/com/sherlock/bluzscanner/BluetoothLeScannerCompat.kt:304-312 | the private `matches`: true when some filter matches, false for no filters; `MatchesAnyIffSomeFilter` and `ScanCallbackWrapper.Matches` |
| Compat.HandleResult | bluzscanner/src/main/java/com/sherlock/bluzscanner/BluetoothLeScannerCompat.kt:226-282 | `handleScanResult` on the wrapper state; stated by `UnmatchedResultIgnored`, `PlainResultDelivered`, `FirstSightingReported`, `RepeatSightingIsSilent`, `BatchStep` and `HandleResultInv` |
| Compat.HandleResults | bluzscanner/src/main/java/com/sherlock/bluzscanner/BluetoothLeScannerCompat.kt:284-298 | `handleScanResults`: nothing once stopped, otherwise one batch, filtered when filtering is emulated; `FilterResultsKeepsMatching` and `StoppedIsSilent` |
| Compat.Flush | bluzscanner/src/main/java/com/sherlock/bluzscanner/BluetoothLeScannerCompat.kt:216-224 | `flushPendingScanResults` on the state; `FlushDeliversBuffer` and `FlushWithoutBatchingIsNoop` |
| Compat.Closed | bluzscanner/src/main/java/com/sherlock/bluzscanner/BluetoothLeScannerCompat.kt:206-214 | `close` on the state; `CloseStops` |
| Compat.HandleError | bluzscanner/src/main/java/com/sherlock/bluzscanner/BluetoothLeScannerCompat.kt:300-302 | `handleScanError`: the error reaches the application even when stopped; `StoppedIsSilent` |
| Compat.Sweep | bluzscanner/src/main/java/com/sherlock/bluzscanner/BluetoothLeScannerCompat.kt:153-165 | the iterator loop of the match-lost task over a given visiting order; `SweepFacts`, `SweepSplitsByAge`, and `SweepLoop` proves the loop equal to it |
| Compat.MatchLostRun | bluzscanner/src/main/java/com/sherlock/bluzscanner/BluetoothLeScannerCompat.kt:148-172 | the match-lost task on the state: the sweep, one MATCH_LOST post per removal, re-armed while devices remain; `MatchLostStep` and `MatchLostRunInv` |
| Compat.FlushTaskRun | bluzscanner/src/main/java/com/sherlock/bluzscanner/BluetoothLeScannerCompat.kt:138-145 | the periodic flush task on the state: while running, flush and re-post; `ScanCallbackWrapper.RunFlushTask` and `ExecuteInv` |
| Compat.NativeBatchRun | bluzscanner/src/main/java/com/sherlock/bluzscanner/BluetoothLeScannerImplLollipop.kt:205-219 | the runnable for a native batch: an early batch is dropped, otherwise handled and its time kept; `SecondBatchDropped` |
| NativeConversions.NativeSettingsFor | bluzscanner/src/main/java/com/sherlock/bluzscanner/BluetoothLeScannerImplMarshmallow.kt:12-30 | the report delay is forwarded only for an exact copy or hardware batching; callback type, match mode and number of matches only together, and only from Android 6 for an exact copy or when hardware callback types are wanted; the scan mode is always forwarded, OPPORTUNISTIC becoming LOW_POWER on Android 5; legacy and PHY only on Android 8 |
| NativeConversions.LollipopNeverOpportunistic | bluzscanner/src/main/java/com/sherlock/bluzscanner/BluetoothLeScannerImplLollipop.kt:109-115 | Android 5 never asks for an OPPORTUNISTIC scan, and the mode it asks for is valid |
| NativeConversions.OreoNeverAsksForLegacy | bluzscanner/src/main/java/com/sherlock/bluzscanner/BluetoothLeScannerImplOreo.kt:36-38 | settings made by the builder make Android 8 ask for a scan that is not limited to legacy advertisements |
| NativeConversions.NativeBuild | bluzscanner/src/main/java/com/sherlock/bluzscanner/BluetoothLeScannerImplOreo.kt:26-40 | the platform builder returns the values that were set and its own defaults for the rest |
| NativeConversions.OreoExactCopyCarriesEverything | bluzscanner/src/main/java/com/sherlock/bluzscanner/BluetoothLeScannerImplOreo.kt:20-41 | an exact copy on Android 8 carries every forwarded field, whatever the platform defaults are |
| NativeConversions.FromNativeScanSettings | bluzscanner/src/main/java/com/sherlock/bluzscanner/BluetoothLeScannerImplOreo.kt:43-68 | succeeds exactly when every value passes the settings builder's checks, and otherwise throws IllegalArgumentException; the result is what the builder builds from those values |
| NativeConversions.ConfigureScan | bluzscanner/src/main/java/com/sherlock/bluzscanner/BluetoothLeScannerImplOreo.kt:53-58 | the first links of the chain succeed exactly when the type, mode and delay are valid, and then set those five values |
| NativeConversions.ConfigureMatching | bluzscanner/src/main/java/com/sherlock/bluzscanner/BluetoothLeScannerImplOreo.kt:59-65 | the remaining links succeed exactly when the match options and match values are valid, and then set them |
| NativeConversions.OreoSettingsRoundTrip | bluzscanner/src/main/java/com/sherlock/bluzscanner/BluetoothLeScannerImplOreo.kt:20-68 | valid settings copied exactly to the platform and back are accepted and keep mode, type, delay, PHY, match values and hardware flags; the timeout comes back in nanoseconds from the milliseconds passed alongside, and power save gets the mode defaults |
| NativeConversions.ToNativeScanFilter | bluzscanner/src/main/java/com/sherlock/bluzscanner/BluetoothLeScannerImplLollipop.kt:130-150 | every filter field is copied; the service data only when there is a service-data UUID |
| NativeConversions.FromNativeScanFilter | bluzscanner/src/main/java/com/sherlock/bluzscanner/BluetoothLeScannerImplOreo.kt:78-98 | succeeds exactly when the native values pass the library builder's checks, and otherwise throws IllegalArgumentException; the result is a well-formed filter |
| NativeConversions.FromNativeScanFilters | bluzscanner/src/main/java/com/sherlock/bluzscanner/BluetoothLeScannerImplOreo.kt:70-76 | succeeds exactly when every filter converts, and then converts each one in order |
| NativeConversions.FilterRoundTrip | bluzscanner/src/main/java/com/sherlock/bluzscanner/BluetoothLeScannerImplOreo.kt:78-98 | a library filter converted to the platform and back is accepted and unchanged |
| NativeConversions.NativeFilterRoundTrip | bluzscanner/src/main/java/com/sherlock/bluzscanner/BluetoothLeScannerImplLollipop.kt:130-150 | a native filter the library accepts, whose service data comes with a UUID, converts to a well-formed filter and back to the same native filter |
| NativeConversions.FromNativeScanResult | bluzscanner/src/main/java/com/sherlock/bluzscanner/BluetoothLeScannerImplOreo.kt:100-116 | keeps device, rssi and timestamp; the record is null exactly when the native one is, and otherwise it is the parsed record of the same bytes; Android 8 packs the event type so that the getters read back the native status and flags, and copies the other fields; earlier tiers use the four-argument result |
| NativeConversions.FromNativeScanResults | bluzscanner/src/main/java/com/sherlock/bluzscanner/BluetoothLeScannerImplLollipop.kt:164-172 | every native result is converted, in order |
| LollipopScanners.NativeFiltersFor | bluzscanner/src/main/java/com/sherlock/bluzscanner/BluetoothLeScannerImplLollipop.kt:47-49 | native filters are passed exactly when there are filters, the controller can filter and hardware filtering is wanted; they are the converted filters in order |
| LollipopScanners.LollipopScanner.constructor | bluzscanner/src/main/java/com/sherlock/bluzscanner/BluetoothLeScannerImplLollipop.kt:13-17 | a new scanner has no wrappers and has made no platform calls |
| LollipopScanners.LollipopScanner.ToNativeScanSettings | bluzscanner/src/main/java/com/sherlock/bluzscanner/BluetoothLeScannerImplLollipop.kt:98-120 | returns the tier's forwarded settings; Android 5 also clears the hardware-callback-types flag, Android 6 and 8 leave it |
| LollipopScanners.LollipopScanner.ToNativeScanFilters | bluzscanner/src/main/java/com/sherlock/bluzscanner/BluetoothLeScannerImplLollipop.kt:122-128 | every filter is converted, in order |
| LollipopScanners.LollipopScanner.StartScanInternal | bluzscanner/src/main/java/com/sherlock/bluzscanner/BluetoothLeScannerImplLollipop.kt:20-52 | no LE scanner throws IllegalStateException and a registered callback IllegalArgumentException, both changing nothing; otherwise exactly one new wrapper is added and the platform scan is started with the forwarded settings and filters |
| LollipopScanners.LollipopScanner.Register | bluzscanner/src/main/java/com/sherlock/bluzscanner/BluetoothLeScannerImplLollipop.kt:39-51 | the new wrapper is put under the callback and the platform scan call is logged |
| LollipopScanners.LollipopScanner.NativeRequest | bluzscanner/src/main/java/com/sherlock/bluzscanner/BluetoothLeScannerImplLollipop.kt:46-49 | the filters and settings handed to the platform are the specified ones |
| LollipopScanners.LollipopScanner.Record | bluzscanner/src/main/java/com/sherlock/bluzscanner/BluetoothLeScannerImplLollipop.kt:43-51 | the wrapper is registered and the platform call logged, keeping the registry valid |
| LollipopScanners.LollipopScanner.StopScanInternal | bluzscanner/src/main/java/com/sherlock/bluzscanner/BluetoothLeScannerImplLollipop.kt:55-70 | an unknown callback changes nothing; a known one is removed and its wrapper closed, and the platform scan is stopped when there is an LE scanner |
| LollipopScanners.LollipopScanner.FlushPendingScanResults | bluzscanner/src/main/java/com/sherlock/bluzscanner/BluetoothLeScannerImplLollipop.kt:73-96 | an unregistered callback throws; with controller batching the platform is asked to flush; otherwise the wrapper flushes its buffer |
| LollipopScanners.LollipopScanner.ConvertResult | bluzscanner/src/main/java/com/sherlock/bluzscanner/BluetoothLeScannerImplLollipop.kt:152-162 | the conversion gives the specified result |
| LollipopScanners.LollipopScanner.ConvertResults | bluzscanner/src/main/java/com/sherlock/bluzscanner/BluetoothLeScannerImplLollipop.kt:164-172 | the loop converts the batch in order |
| LollipopScanners.LollipopScanner.OnNativeScanResult | bluzscanner/src/main/java/com/sherlock/bluzscanner/BluetoothLeScannerImplLollipop.kt:193-203 | posts the converted result with the platform callback type on the wrapper handler |
| LollipopScanners.LollipopScanner.OnNativeBatchScanResults | bluzscanner/src/main/java/com/sherlock/bluzscanner/BluetoothLeScannerImplLollipop.kt:205-220 | posts the converted batch on the wrapper handler |
| LollipopScanners.LollipopScanner.RunScanFailed | bluzscanner/src/main/java/com/sherlock/bluzscanner/BluetoothLeScannerImplLollipop.kt:222-259 | without a downgrade the error goes to the wrapper and nothing else changes; with one, the flag is cleared, no error is reported, the old wrapper is closed and its scan stopped, and (with an LE scanner) a fresh wrapper sharing the cleared settings is registered and started, with the exact registry and call log; the wrapper then registered for the callback does not downgrade again |
| LollipopScanners.LollipopScanner.Downgrade | bluzscanner/src/main/java/com/sherlock/bluzscanner/BluetoothLeScannerImplLollipop.kt:227-253 | clears the flag, closes the old wrapper and stops its platform scan, then registers one fresh wrapper that emulates found/lost and starts a scan for it; the application hears nothing |
| LollipopScanners.LollipopScanner.Restart | bluzscanner/src/main/java/com/sherlock/bluzscanner/BluetoothLeScannerImplLollipop.kt:242-251 | the start again: without an LE scanner nothing changes, otherwise one fresh wrapper and one platform start |
| JBScanners.AlternatingAppend | bluzscanner/src/main/java/com/sherlock/bluzscanner/BluetoothLeScannerImplJB.kt:35-61 | starting only when not running and stopping only when running keeps the start/stop log alternating |
| JBScanners.LeScanResult | bluzscanner/src/main/java/com/sherlock/bluzscanner/BluetoothLeScannerImplJB.kt:85-88 | one result per advertisement: the four-argument result with the parsed record of the bytes, or null for null bytes; none when parsing never ends |
| JBScanners.Posted | bluzscanner/src/main/java/com/sherlock/bluzscanner/BluetoothLeScannerImplJB.kt:93-98 | a post appends exactly the runnable to the queue |
| JBScanners.JBScanner.constructor | bluzscanner/src/main/java/com/sherlock/bluzscanner/BluetoothLeScannerImplJB.kt:12-14 | no wrappers and no platform calls |
| JBScanners.JBScanner.StartScanInternal | bluzscanner/src/main/java/com/sherlock/bluzscanner/BluetoothLeScannerImplJB.kt:17-42 | a registered callback throws IllegalArgumentException and changes nothing; otherwise a fresh wrapper that emulates everything is added, and the one platform scan starts when the registry was empty; the platform scan runs exactly while a callback is registered |
| JBScanners.JBScanner.Register | bluzscanner/src/main/java/com/sherlock/bluzscanner/BluetoothLeScannerImplJB.kt:35-41 | the wrapper is added, and `startLeScan` is called exactly when it is the first |
| JBScanners.JBScanner.StopScanInternal | bluzscanner/src/main/java/com/sherlock/bluzscanner/BluetoothLeScannerImplJB.kt:45-62 | the callback is removed; an unknown one makes no platform call; a known one has its wrapper closed, and `stopLeScan` is called exactly when the registry became empty |
| JBScanners.JBScanner.FlushPendingScanResults | bluzscanner/src/main/java/com/sherlock/bluzscanner/BluetoothLeScannerImplJB.kt:65-81 | an unregistered callback throws IllegalArgumentException; otherwise the wrapper flushes |
| JBScanners.JBScanner.OnLeScan | bluzscanner/src/main/java/com/sherlock/bluzscanner/BluetoothLeScannerImplJB.kt:83-101 | one shared result is built and posted for ALL_MATCHES delivery on the handler of every registered wrapper |
| JBScanners.JBScanner.PostToAll | bluzscanner/src/main/java/com/sherlock/bluzscanner/BluetoothLeScannerImplJB.kt:90-100 | the loop over the wrappers posts the runnable exactly once on each handler |
| JBScanners.JBScanner.PostOne | bluzscanner/src/main/java/com/sherlock/bluzscanner/BluetoothLeScannerImplJB.kt:93-98 | the loop body posts on one wrapper's handler and leaves the others alone |

## Left out

- `Parcelable` support (`writeToParcel`, the `Parcel` constructors, `CREATOR`): the platform's wire format is not part of this model.
- `toString`, `hashCode` and the `Log` calls: they have no effect on behaviour.
- `BluetoothLeScannerCompat.getScanner` and the selection of a tier by `Build.VERSION`: the tier is a parameter of the Lollipop scanner, the JB scanner is its own class, and a failure downgrade restarts on the scanner itself.
- The public `startScan` and `stopScan` overloads: they only reject a null callback and fill in defaults before calling the internal methods, which are modelled. Callbacks are identities (`CallbackId`) that cannot be null, so the null checks of the flush methods are also absent.
- `synchronized` blocks and `LOCK`: everything runs on one thread, one step at a time.
- The `Handler` and `SystemClock`: they are an explicit queue of runnables and a clock parameter. Delays of `postDelayed` are recorded in the task but time is not modelled; the environment picks which pending runnable runs. A null handler, under which `handler?.post` does nothing, is not modelled.
- A `Handler` shared by several scans: each wrapper has its own queue `pending`. That is what the overloads without a handler, and the four-argument overload given a null handler, produce, since they make a fresh `Handler` for each scan. When a caller passes one `Handler` to several scans, `close` of one scan (`removeCallbacksAndMessages(null)`) also cancels the flush and match-lost runnables of the others; this cross-scan cancellation is not modelled.
- The runnable that `onScanFailed` posts is not a task in `pending`: `RunScanFailed` may run at any time, even after the wrapper was closed, whereas in the source a `close` before it runs would cancel it.
- A null `BluetoothAdapter` and null filter lists or settings: the model always has them, so the `!!` failures that would follow are out of scope.
- The native `ScanSettings.Builder` and `ScanFilter.Builder` of the platform: `NativeBuild` fills unset fields from a parameter of platform defaults, and the platform's own validation is not modelled.
- `BluetoothUuid.parseUuidFrom`, `String(bytes)` and `checkBluetoothAddress`: uninterpreted parameters.
- The Lollipop and JB result handlers convert the platform result in the callback and post the converted result, where the source converts inside the runnable. The conversion is pure, so the outcome is the same; a conversion that never ends posts nothing.
- `HashMap` iteration order in the match-lost task and in the JB fan-out: `KeysOf` is an arbitrary order, and the JB loop picks wrappers in any order.
- The exceptions that the downgrade of `onScanFailed` catches and ignores: the only one the model has is the `IllegalStateException` of the restart when the adapter has no LE scanner, and ignoring it leaves the callback unregistered. The stop throws nothing: for a callback that is not registered `stopScanInternal` returns at once, and the restart then registers the scan again.
- `ScanCallback`: an abstract listener; its calls are the `Event` datatype and its error codes are constants.
- `MainActivity`: the demo application.
- ScanRecords.ManufacturerField: its contract states the id only, not the payload, because the branch can never run.
- Compat.FilterResults: its own contract states only the length; the contents are stated by `FilterResultsKeepsMatching`.
