# BLE white-tape gateway core, modelled in Dafny

The gateway listens for Bluetooth LE advertising reports and classifies each
one by its byte signature. Only direct white tapes with a full payload above an
RSSI floor are kept. It decodes the tape's record in one of four layouts, which
the 16-bit tape ID selects. It keeps per-address RSSI statistics and forwards
packets from the one tape of interest through a FIFO queue to the cloud side.
The cloud side builds a length-checked URL for each packet. Alongside, a
registry of connectable tapes is built from an allow-list of MAC addresses.
The registry tracks retries and backoff for a connection worker.

The modules follow the program:

- `Common`: integer widths, C conversions (`int8_t`, `uint16_t`, `uint32_t`,
  truncating `/`) and the advertisement record.
- `CString`: NUL-terminated buffers, `strlen`, what `strncat` copies, and the
  in-place `removeChar`.
- `TapeFormatDefs`: the offsets, IDs, record layouts and inline extractors of
  `inc/tapeFormat.h`.
- `Classifier`: the classifier part of `src/main.cpp`.
- `TapeFormat`: the decoder in `src/tapeFormat.cpp`.
- `Config`: MAC validation, MAC normalisation and the registry build
  (`inc/config.h`, `src/config.cpp`).
- `Ble`: the connectable-tape side of `src/ble.cpp`.
- `CloudComm`: URL assembly in `src/cloudComm.cpp`.
- `ScanPipeline`: statistics, the scan state machine, the delivery queue and
  the per-report step of `src/main.cpp`.

An advertisement is `AdvInfo(bdaddrText, length, data)`:

- `data` has `length + 1` bytes, because the stack appends the RSSI byte at
  index `length`.
- `bdaddrText` is the colon-separated text `ba2str` produces.

Quirks of the code that the model keeps as written:

- When both the direct and the proxied signature match, the code takes the
  track bytes of the direct layout (src/main.cpp:419-420).
- The IAT and DPD decoders read `t0` and `t1` (and, for IAT, `a0_val` and
  `a0_count`) at absolute positions 3, 4, 15 and 16, without the 7-byte start
  offset that every other field has. DPD stores the low 16 bits of a 32-bit
  timestamp. Both quirks are kept as written.
- `getLimeBat` reads byte 25 whatever the format. It is kept as written.
- For an unknown tape ID, `parseBleDataPacket` writes nothing into the
  packet's union. The packet is a fresh uninitialised local on every report,
  so the forward test then reads whatever that storage held. This is modelled
  by passing the storage's prior contents explicitly (`prior`).
- The connect worker books each attempt with `bool` of the value
  `connectToBleTape` returns (src/ble.cpp:252), so the -1 of a failure counts
  as a connection and a descriptor 0 as a failure. `Ble.WorkerStep`,
  `Ble.VisitTape` and `Ble.ConnectWorkerPass` keep that conversion as
  written. `Ble.CorrectedWorkerStep` is the step with the intended
  conversion (see "## Findings").
- `checkIfConnectableTape` is not called anywhere in the scan loop of this
  version. It is modelled on its own.

## Model

| member | source | states |
|---|---|---|
| Common.ToInt8 | inc/tapeFormat.h:385-387 | the two's-complement reading of a byte: negative exactly for bytes >= 0x80, congruent to the byte mod 256 |
| Common.ToUint32 | src/ble.cpp:203 | storing a time in a `uint32_t` keeps it when it fits and otherwise reduces it modulo 2^32 |
| Common.ToUint16 | src/tapeFormat.cpp:182 | narrowing to `uint16_t` keeps the low 16 bits: the value is the high part times 2^16 plus the result |
| Common.CDiv | src/main.cpp:474 | C's `/` truncates toward zero: Euclidean division for a non-negative dividend, the negated quotient of the negation otherwise |
| Common.CDivRemainder | src/main.cpp:474 | the remainder of truncating division is smaller than the divisor in magnitude and has the dividend's sign |
| CString.NCStr | src/cloudComm.cpp:52 | `strncat` copies a NUL-free prefix of the source of at most `n` characters, stopping early only at a NUL |
| CString.RemoveChar | src/main.cpp:320-330 | reference result of `removeChar`: never longer than its input |
| CString.RemoveCharAppend | src/main.cpp:323-328 | removing a character distributes over concatenation, so the scan can proceed character by character |
| CString.RemoveCharCounts | src/main.cpp:320-330 | the target is gone and every other character keeps its multiplicity |
| CString.RemoveCharAbsent | src/main.cpp:320-330 | a string without the target is left unchanged |
| CString.RemoveCharIdempotent | src/main.cpp:320-330 | removing twice is removing once |
| CString.RemoveCharNoNul | src/main.cpp:320-330 | removal does not introduce a terminator |
| CString.RemoveCharInPlace | src/main.cpp:320-330 | the two-pointer loop leaves the buffer holding its C string without the target, then a NUL, with the rest of the buffer as it was |
| TapeFormatDefs.BigEndian16RoundTrip | inc/tapeFormat.h:341-345 | a 16-bit big-endian value equals v exactly when its bytes are v's high and low bytes |
| TapeFormatDefs.BigEndian32RoundTrip | inc/tapeFormat.h:347-353 | the four bytes are recovered from the 32-bit big-endian value |
| TapeFormatDefs.LittleEndian24 | inc/tapeFormat.h:361-366 | a 3-byte little-endian value is below 2^24 |
| TapeFormatDefs.LittleEndian24RoundTrip | inc/tapeFormat.h:361-366 | the three bytes are recovered from the little-endian value |
| TapeFormatDefs.BigEndian32Low16 | src/tapeFormat.cpp:182 | keeping the low 16 bits of a big-endian 32-bit value leaves the big-endian value of its last two bytes |
| TapeFormatDefs.GetTimestampU16 | inc/tapeFormat.h:341-345 | `data[7+off]*256 + data[8+off]` |
| TapeFormatDefs.GetTimestampU32 | inc/tapeFormat.h:347-353 | the big-endian value of `data[7+off..10+off]` |
| TapeFormatDefs.GetTemperatureRaw | inc/tapeFormat.h:355-359 | the whole and hundredths bytes at `7+off` and `8+off` (float left out) |
| TapeFormatDefs.GetLimePid | inc/tapeFormat.h:361-366 | `data[s] + 256*data[s+1] + 65536*data[s+2]` for `s = 7+off`, below 2^24 |
| TapeFormatDefs.GetTapeId | inc/tapeFormat.h:368-372 | `data[28]*256 + data[29]` |
| TapeFormatDefs.GetFid | inc/tapeFormat.h:374-378 | `data[7]*256 + data[8]` |
| TapeFormatDefs.GetBatVoltageRaw | inc/tapeFormat.h:380-383 | the battery depends only on `data[30]` (scaling left out) |
| TapeFormatDefs.GetTapeRssi | inc/tapeFormat.h:385-387 | byte `length` read as `int8_t`: b below 128, b - 256 otherwise |
| TapeFormatDefs.GetLimeBat | inc/tapeFormat.h:389-391 | always `data[25]` |
| TapeFormatDefs.GetRecordSequence | inc/tapeFormat.h:393-397 | `data[7+off]*256 + data[8+off]` |
| TapeFormatDefs.GetLightData | inc/tapeFormat.h:399-403 | `data[7+off]*256 + data[8+off]` |
| Classifier.GetInfoDataAt | src/main.cpp:257-263 | fails exactly for an index at or past `length`; otherwise it yields that byte |
| Classifier.ClassifySignature | src/main.cpp:404-436 | once the ten bytes are read: UNKNOWN or WHITE only; WHITE exactly when `length >= 30`, the direct Nordic ID and white-tape track are present and the proxy signature is not |
| Classifier.ReadAll | src/main.cpp:393-402 | the ten guarded reads fail exactly when some index is outside the payload, and otherwise yield those bytes in order |
| Classifier.GetBleDataSource | src/main.cpp:371-439 | result is UNKNOWN or WHITE only; WHITE exactly when `length >= 30`, bytes 5-8 are 59 00 52 58 and the proxy signature (2-3 = 59 00, 12-13 = FF A5) is absent; `length <= 13` is UNKNOWN |
| Classifier.IsBleRssiInRange | src/main.cpp:252-255 | accepted exactly when the signed RSSI is -80 or stronger |
| Classifier.IsBleRssiInRangeBoundary | src/main.cpp:252-255 | -80 is accepted and -81 rejected |
| Classifier.IsBleRssiInRangeMonotone | src/main.cpp:252-255 | a stronger signal than an accepted one is accepted |
| Classifier.IsValidWhiteTapeBleSource | src/main.cpp:441-450 | the out-parameter is the classification; the result holds exactly for a WHITE report whose RSSI byte, read as `int8_t`, is at least -80, and then the payload is a full tape payload |
| Classifier.UpdateEventFlagForQuartz | src/main.cpp:304-317 | 0→60, 1→61, 18→62, 51→63, every other byte unchanged |
| Classifier.UpdateEventFlagForQuartzIdempotent | src/main.cpp:304-317 | no raw code survives the remap, so the remap is idempotent |
| Classifier.GetTimestamp | src/main.cpp:333-335 | a multiple of 120 whose quotient by 120 is the big-endian 16-bit value at `startIdx` |
| TapeFormat.PacketTypeRoundTrip | src/tapeFormat.cpp:14-29 | the tape ID selects a known type exactly when it is that type's ID |
| TapeFormat.GetBlePacketType | src/tapeFormat.cpp:14-29 | 0xFFFC→TMP117, 0xFFFA→OPT3110, 0xFFB1→IAT, 0xFFB0→DPD, each iff, and Unknown otherwise |
| TapeFormat.GetQuartzEventFlag | src/tapeFormat.cpp:31-34 | `data[9]` remapped: 0, 1, 18 and 51 become 60, 61, 62 and 63, any other byte is kept; the result is never a raw code |
| TapeFormat.GetEvtFlagQuartzTmp117 | src/tapeFormat.cpp:188-195 | `data[9]`, with 0 replaced by 50 |
| TapeFormat.GetEvtFlagQuartzOpt3110 | src/tapeFormat.cpp:197-204 | `data[9]`, with 0 replaced by 55 |
| TapeFormat.GetEvtFlagQuartzIat | src/tapeFormat.cpp:206-213 | `data[9]`, with 0 replaced by 55 |
| TapeFormat.GetEvtFlagQuartzDpd | src/tapeFormat.cpp:215-222 | `data[9]`, with 0 replaced by 55 |
| TapeFormat.TapeMacAddr | src/tapeFormat.cpp:83-86 | the stored MAC is the stack's address text with every ':' removed, so it has no ':' and no terminator inside |
| TapeFormat.ParseBleAdvDataQuartzTmp117 | src/tapeFormat.cpp:77-103 | the TMP117 layout in absolute bytes: fid 7-8, t0_ts 12-13, t1_ts 16-17, t2_ts 20-21, pid LE 22-24, lime_bat 25, seqId 26-27, tapeId 28-29, bat 30, rssi = int8 of byte `length`, MAC without ':' |
| TapeFormat.ParseBleAdvDataQuartzOpt3110 | src/tapeFormat.cpp:105-133 | the OPT3110 layout in absolute bytes |
| TapeFormat.ParseBleAdvDataQuartzIat | src/tapeFormat.cpp:135-160 | the IAT layout, with t0, t1, a0_val (int8) and a0_count at absolute bytes 3, 4, 15 and 16 |
| TapeFormat.ParseBleAdvDataQuartzDpd | src/tapeFormat.cpp:162-186 | the DPD layout, with t0 and t1 at absolute bytes 3 and 4, and ts equal to the big-endian value of bytes 26-27 only (the low half of the 32-bit value at 24-27) |
| TapeFormat.ParseBleDataPacket | src/tapeFormat.cpp:36-62 | the type is always `getBlePacketType`; an Unknown type leaves the union as it was; a known type writes its own member, whose stored tape ID is that type's ID and whose MAC is the address text without ':' |
| TapeFormat.ParseBleDataPacketIgnoresPrior | src/tapeFormat.cpp:43-57 | for a known type the decoded packet does not depend on the storage's prior contents |
| TapeFormat.StoredTapeIdSelectsFormat | src/tapeFormat.cpp:43-57 | the stored tape ID is `getTapeId` and maps back to the packet's type |
| Config.ToUpper | src/config.cpp:38-39 | `toupper`: lower-case letters lose 32, others unchanged; hexness preserved; never 'a'-'f' |
| Config.IsFormattedMacAddr | inc/config.h:75-85 | true iff the length is 17, with ':' at positions `i % 3 == 2` and a hex digit of either case elsewhere |
| Config.IsRawMacAddress | inc/config.h:93-99 | true iff the length is 12 and every character is a hex digit |
| Config.PairsWithColonsShape | inc/config.h:116-120 | after p pairs, the string has length 3p (17 at p = 6), with ':' at `j % 3 == 2` and input character `2*(j/3) + j%3` elsewhere |
| Config.PairsWithColonsStrip | inc/config.h:116-120 | stripping ':' from the paired string returns the first 2p input characters |
| Config.NormalizeMacRaw | inc/config.h:115-122 | a raw MAC becomes a formatted MAC, case preserved, from which stripping ':' gives back the input |
| Config.NormalizeMacResult | inc/config.h:110-127 | the result is formatted or empty; a formatted input is unchanged |
| Config.NormalizeMacIdempotent | inc/config.h:110-127 | normalising twice is normalising once |
| Config.FormatMacAddrStr | inc/config.h:110-127 | the loop computes the reference normalisation |
| Config.FormatMacAddress | src/config.cpp:26-55 | succeeds iff the first 12 characters exist and are hex (failure is the `exit` path), producing the six upper-cased pairs joined by ':' |
| Config.FormatMacAddressShape | src/config.cpp:35-52 | that result is formatted, has no lower-case a-f, and stripping ':' gives the upper-cased first 12 characters |
| Config.TapeConfig.Default | inc/config.h:15-24 | the default entry: empty address, time 0, not found, not connected, no retries, no backoff |
| Config.TapeConfig.constructor | inc/config.h:27-38 | stores exactly its six arguments |
| Config.NormalizedKeysProperties | src/config.cpp:124-136 | every registry key is a formatted MAC; duplicates collapse, so there are no more keys than list entries |
| Config.BleConnectConfig.constructor | src/config.cpp:13 | the zero-initialised registry: no entries, both counts zero, no gateway ID; valid |
| Config.BleConnectConfig.StoreTape | src/config.cpp:134 | the registry gains one fresh entry under the address, holding that address with every counter zero and every flag false; no other entry or field changes; valid stays valid |
| Config.BleConnectConfig.AddAllowListEntry | src/config.cpp:126-135 | the keys grow by exactly the element's normalised address (none for a non-string or an empty result), that key gets a fresh default-state entry, the rest are unchanged |
| Config.BleConnectConfig.BuildTapeList | src/config.cpp:120-136 | the count is the list length; the keys are the old keys plus the normalised non-empty addresses, each with a fresh default-state entry under its own address; other entries unchanged |
| Ble.ConvertBdAddrToStr | src/ble.cpp:26-40 | the output holds the input without ':', in order, then a NUL; no other cell is written |
| Ble.UpdatedStatus | src/ble.cpp:202-215 | time stamped as `uint32_t`; success: connected, 0 retries, 0 backoff; failure: not connected, one more retry, backoff `min(60, 5*retries)`, within [5, 60] from a non-negative count |
| Ble.BackoffAfterFailures | src/ble.cpp:210-214 | k failures from a clean entry give k retries and backoff `min(60, 5k) <= 60` |
| Ble.Eligible | src/ble.cpp:93-97 | eligible exactly when `now` has reached the last send time plus the larger of the backoff and the re-read delay |
| Ble.NoRetryDuringBackoff | src/ble.cpp:93-105 | after a failure, the tape is not eligible before its backoff has elapsed |
| Ble.EligibleAfterSuccess | src/ble.cpp:93-105 | after a success, the tape is eligible exactly once the re-read delay has elapsed |
| Ble.ConnectSucceededAsWritten | src/ble.cpp:252 | the conversion as written is true for every nonzero return |
| Ble.FailedConnectRecordedAsSuccess | src/ble.cpp:252-256 | in the worker step as written, a found entry whose attempt returned -1 is booked as connected with retries and backoff reset, and one whose attempt returned descriptor 0 as a failure |
| Ble.ConnectSucceeded | src/ble.cpp:125 | the intended conversion: -1 is failure and a descriptor (>= 0) is success |
| Ble.FailedConnectRecordedAsFailure | src/ble.cpp:252-256 | in the corrected step, -1 counts one more retry and descriptor 0 is a connection |
| Ble.WorkerStep | src/ble.cpp:244-256 | as written: an entry not found is unchanged; a found one is cleared, keeps its address, is stamped, and is booked connected with counters reset for any nonzero return, a failure with one more retry for 0 |
| Ble.CorrectedWorkerStep | src/ble.cpp:244-256 | the same step with the intended conversion: connected for a descriptor (>= 0), one more retry for a negative return |
| Ble.WorkerStepsAgreeOnPositive | src/ble.cpp:252 | the two conversions agree on every positive descriptor |
| Ble.CheckIfConnectableTape | src/ble.cpp:86-106 | true iff the normalised address is listed and both the backoff and the re-read delay have passed; only that entry's `tapeFound` is set; registry stays valid |
| Ble.UpdateTapeConnectionStatus | src/ble.cpp:202-215 | the entry's new state is the reference update of its old state |
| Ble.TapeFoundInList | src/ble.cpp:232-237 | true iff some entry has `tapeFound` |
| Ble.VisitTape | src/ble.cpp:240-256 | the loop body leaves the visited entry in the as-written worker step of its old state, every other entry as it was, and the registry valid |
| Ble.ConnectWorkerPass | src/ble.cpp:239-264 | every entry becomes the as-written worker step of its old state with its own attempt's outcome; none is found afterwards; a found entry whose attempt returned -1 ends connected with retries and backoff zero; the registry stays valid |
| CloudComm.CopyInto | src/cloudComm.cpp:33-34 | the buffer holds the copied characters from the given position on, every other cell as it was |
| CloudComm.BaseUrlIsConcatenation | src/cloudComm.cpp:33-34 | after the copies, the buffer's C string is `instance ++ pageUrl`, shorter than the buffer |
| CloudComm.AppendExtendsCStr | src/cloudComm.cpp:52 | appending at the terminator extends the buffer's C string by exactly the appended text |
| CloudComm.CreateBaseUrlLink | src/cloudComm.cpp:19-37 | -1 iff a pointer is null or the strings plus a NUL do not fit, leaving the buffer unchanged; otherwise 0 with the strings and a NUL at the start and the rest unchanged |
| CloudComm.AddBleDataToBaseUrl | src/cloudComm.cpp:40-54 | -1 iff a pointer is null or the current length plus `dataBuffLen` plus 1 exceeds the buffer, leaving it unchanged; otherwise the strncat part of the data and a NUL are written at the old terminator |
| CloudComm.CreateCloudDataUrl | src/cloudComm.cpp:57-72 | null or empty data, or a base URL that does not fit, leaves the buffer unchanged; otherwise the base URL, followed by the data if that fits too |
| CloudComm.CloudDataUrl | src/cloudComm.cpp:91-95 | the URL built for a report starts with the heartbeat link and is shorter than 512 characters |
| CloudComm.CloudDataUrlCases | src/cloudComm.cpp:91-95 | a declared length covering the data and fitting appends the data whole; a declared length that does not fit yields the bare heartbeat link |
| CloudComm.SendDataUrlToCloud | src/cloudComm.cpp:79-99 | -1 for null or zero-length input; otherwise 0, and the zeroed 512-character buffer holds the reference URL |
| CloudComm.GetGwId | src/cloudComm.cpp:74-76 | always the fixed identifier "124678807272" (inc/cloudComm.h:12), twelve decimal digits |
| ScanPipeline.StatsUpdate | src/main.cpp:469-483 | a new address gets seen 1 and total = avg = rssi, with the given device type; a known one gets seen + 1, total + rssi, avg = total / seen (truncating), and keeps its device type; all other keys untouched |
| ScanPipeline.StatsUpdatePreservesConsistency | src/main.cpp:469-483 | every entry keeps seen >= 1, samples within int8, and average = truncated total / seen |
| ScanPipeline.AverageInRange | src/main.cpp:474 | a consistent entry's average lies within the int8 range |
| ScanPipeline.RecordAllFromUnseen | src/main.cpp:469-483 | n samples folded in for a new address give seen n, their sum as total, their truncated mean as average and the last sample as rssi |
| ScanPipeline.ScanResults.CheckAndUpdateBleStats | src/main.cpp:455-484 | the in-place map update is the reference update for the report's colon-stripped address and RSSI, and keeps the map consistent |
| ScanPipeline.StartTransition | src/main.cpp:204-216 | succeeds iff idle; a refusal changes nothing; a success gives SCANNING, no stop requested, and the new options |
| ScanPipeline.StopTransition | src/main.cpp:218-230 | always true; unchanged unless scanning; scanning becomes IDLE with a stop request |
| ScanPipeline.TransitionsPreserveInvariant | src/main.cpp:204-230 | no stop request is pending while scanning, and both transitions keep this |
| ScanPipeline.SecondStartRefused | src/main.cpp:206-209 | a second start after a start is refused and changes nothing |
| ScanPipeline.StopAfterStart | src/main.cpp:218-230 | stopping is idempotent; start then stop from idle gives IDLE, a stop request, and the options kept |
| ScanPipeline.OneShotOptions | src/main.cpp:232-239 | not continuous, with the given duration and no sleep |
| ScanPipeline.ContinuousOptions | src/main.cpp:241-250 | continuous, with the given duration and sleep |
| ScanPipeline.BleScanControl.StartBleScan | src/main.cpp:204-216 | the globals and result follow the start transition |
| ScanPipeline.BleScanControl.StopBleScan | src/main.cpp:218-230 | the globals and result follow the stop transition |
| ScanPipeline.BleScanControl.StartOneShotScan | src/main.cpp:232-239 | a start with one-shot options, result dropped |
| ScanPipeline.BleScanControl.StartContinuousScan | src/main.cpp:241-250 | a start with continuous options, result dropped |
| ScanPipeline.BleDataQueue.SendBleDataPacket | src/main.cpp:566-570 | the packet joins at the back |
| ScanPipeline.BleDataQueue.Front | src/main.cpp:551 | the oldest packet |
| ScanPipeline.BleDataQueue.Pop | src/main.cpp:552 | the oldest packet leaves |
| ScanPipeline.BleDataQueue.Drain | src/main.cpp:549-562 | every queued packet is delivered oldest first, and the queue ends empty |
| ScanPipeline.PushAllAppends | src/main.cpp:566-570 | packets pushed one by one queue up behind the existing ones in push order |
| ScanPipeline.ForwardDecision | src/main.cpp:633-666 | a packet is forwarded only for an advertising report that passes the white-tape check; it is the decoded packet, and its TMP117-view MAC is E897D628F980 |
| ScanPipeline.ForwardedReportIsStrongWhiteTape | src/main.cpp:643-646 | a forwarded report is a full-size direct white tape at or above -80 |
| ScanPipeline.ForwardDecisionKnownFormat | src/main.cpp:657-666 | for a known format, forwarding happens iff the report's own colon-stripped address is E897D628F980 |
| ScanPipeline.ForwardDecisionUnknownFormat | src/main.cpp:657-666 | for an unknown format, forwarding depends only on the address left in the storage, and the packet forwarded is that storage with type Unknown |
| ScanPipeline.ProcessScanEvent | src/main.cpp:633-666 | stats change iff the report is an advertising report passing the white-tape check, and then by the reference update with device WHITE; the queue grows by the forward decision |

## Left out

- HCI radio management, the scan thread's socket `read` loop and its timing
  (`hci_dev_*`, filters, `initBleScan`, the elapsed-seconds wait in
  `bleThreadFunc`): these are raw-socket I/O and sleeps. Only the step for one
  extracted report is modelled.
- Threads, mutexes, condition variables, `keepRunning` and the SIGINT handler:
  push, drain and worker pass are modelled one at a time, with no
  interleaving.
- `connectToBleTape` (L2CAP socket setup) is an oracle `attempt(k)`, and
  `time(nullptr)` is a parameter (`now`, or `clock(k)` per entry).
- `getGatewayBLEMacAddress`, `ba2str` and `str2ba` are BlueZ calls. The
  colon-separated address text is an input.
- The curl transport after the early return in `sendDataUrlToCloud`, and
  libconfig file reading. The allow-list is given as a sequence, with `None`
  for a missing element.
- Floating point:
  - temperature and light pairs are kept as raw whole / hundredths bytes;
  - the battery is kept as its raw byte instead of `/10.0f`;
  - IAT/DPD `t0`/`t1` are kept as bytes;
  - `createBleDataUrlExtension` and the legacy `CreateBleDataPacket` are not
    modelled, so the drained packets are not turned into URL text.
- `getTimeFromEpoch` depends on `localtime_r` and the time zone.
- `malloc` failure in `formatMacAddress`.
- `printBlePacketData`, `isBleContScanEnabled` and the logging:
  output only.
- `BleScanOptions.callback` is never set by any caller.
- ScanPipeline.StatsUpdate: overflow of the `int` total and count is not
  modelled. Integers are unbounded, and an existing entry must have a
  non-negative count, which every entry the map holds does.
- Ble.UpdatedStatus: overflow of the `int` retry count and of `5 * retryCount`
  is not modelled, because integers are unbounded.
- Ble.CheckIfConnectableTape: `time_t` is taken to be wide enough for
  `now - lastSentTimeSecs`. The `tapeListCondVar` notification is not
  modelled.
- The decoders and `parseBleDataPacket` are modelled as functions returning the
  record they write, not as writes into the caller's packet. They are
  therefore not tied to a memory location, and the `exit(EXIT_ERR_NULL_PTR)`
  path for a null pointer cannot occur.
- Null pointers elsewhere: a null `info` cannot be expressed, and a null
  buffer or string in `src/cloudComm.cpp` is `null` / `None`.
- `AdvInfo.length` is not bounded by 255, where the stack's `uint8_t` would
  bound it. The decoders require a payload of at least 30 bytes, which the
  classifier guarantees for every report it lets through.
- The default value of `readTapeAgainDelaySecs` comes from the configuration
  file and is not modelled.

## Findings

| source | as written | input that shows it | evidently intended | confidence | as-written member | corrected member |
|---|---|---|---|---|---|---|
| src/ble.cpp:252 | `bool isTapeConnected = connectToBleTape(...)` converts the returned `int` to `bool`, true for any nonzero value | a failed connection returns -1, which converts to true: the tape is marked connected and its retries and backoff are reset | success exactly when a descriptor `>= 0` is returned (src/ble.cpp:125) | not executed | Ble.FailedConnectRecordedAsSuccess | Ble.FailedConnectRecordedAsFailure |
