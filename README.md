# Contact-tracing BLE beacon, modelled in Dafny

This project models `CT_Beacon`, the component of the contact-tracing BLE
project that talks to a Bluetooth controller through a raw BlueZ HCI socket.
It covers the following:

- **The advertising payload** (`AdPacket`). `build_ct_packet` writes three
  AD structures: the Flags, the 16-bit service UUID 0xFD6F and the service
  data with the 16-byte rolling proximity identifier (RPI). The payload is
  defined by these structures and their encoding. A proof shows it is the
  fixed 11-byte header followed by the identifier, 27 bytes in all. A parser
  that walks the length bytes finds the structures at offsets 0, 3 and 7. The
  identifier can be sliced back out. The C routine is modelled as a method
  that writes into an array.
- **The HCI commands and how replies are judged** (`Hci`). `do_req` treats a
  negative result as a transport failure and a non-zero status byte as a
  controller error that names the OCF. The library calls (`hci_le_set_scan_enable`,
  `hci_le_set_scan_parameters`, `setsockopt`) are judged only by their result
  code. `RunSteps` specifies a fixed command sequence that stops at its first
  failing step.
- **The beacon object** (`Beacon.CtBeacon`). The four state-changing
  operations (`start_advertising`, `stop_advertising`, `start_listening`,
  `stop_listening`) are methods that send commands to a scripted controller.
  Each is proved to issue exactly the prefix of its command sequence that
  `RunSteps` predicts, consume that many replies, and return its outcome. A
  ghost trace records every HCI command and library call made on the handle
  (the poll and the read of `log_to_stream` are not recorded). The constants are
  proved too: the advertising interval (200–270 ms gives 320–432 ticks of
  0.625 ms) and the scan timing (40 ms and 30 ms).
- **Reading advertising reports** (`AdReport`, `CtBeacon.LogToStream`). The
  offset arithmetic of `log_to_stream` is modelled as written and shown to
  over-read (see Findings). The model itself uses a corrected slice. Its
  round-trip lemma shows an observed beacon report gives back the identifier
  that was advertised.

Exceptions become `Outcome`/`LogOutcome` values. Each error message maps to
one `BeaconError` constructor.

The code reads `rpi[0..15]` without checking the identifier's length. The
model requires at least 16 bytes and uses only the first 16.

## Model

| member | source | states |
|---|---|---|
| Bytes.LittleEndian16 | ct_beacon.cpp:29 | `htobs` stores a 16-bit value as two bytes, low byte first, and the two bytes give back the value |
| Bytes.FromLittleEndian16 | ct_beacon.cpp:33 | reading two bytes low byte first gives a value whose low and high bytes are those two bytes |
| Bytes.LittleEndian16RoundTrip | ct_beacon.cpp:29 | writing a 16-bit value and reading it back gives the value |
| Bytes.FromLittleEndian16RoundTrip | ct_beacon.cpp:33 | reading two bytes and writing the value back gives the same two bytes |
| AdPacket.EncodeAd | ct_beacon.cpp:23-25 | an AD structure takes its data plus two bytes: a length byte, which counts the type and the data, and the type byte |
| AdPacket.EncodeAds | ct_beacon.cpp:22-34 | structures are encoded one after another; the encoding is empty exactly when there are no structures, and it opens with the first structure's length byte (data length + 1) and type |
| AdPacket.CtAdStructures | ct_beacon.cpp:22-34 | the payload is made of three structures: Flags 0x1A, the UUID list holding 0xFD6F, and service data holding 0xFD6F followed by the RPI; every length fits in a byte |
| AdPacket.CtAdStructuresEncoding | ct_beacon.cpp:21-35 | encoding the three structures gives exactly `02 01 1A 03 03 6F FD 13 16 6F FD` followed by the RPI |
| AdPacket.CtPacket | ct_beacon.cpp:21-36 | the payload for an RPI is the fixed header followed by the RPI |
| AdPacket.CtPacketLayout | ct_beacon.cpp:29-35 | the payload is 27 bytes, which fits the 31-byte data field; the RPI sits at offset 11; the UUID is stored low byte first at offsets 5-6 and 9-10 |
| AdPacket.ExtractRpi | ct_beacon.cpp:34 | slicing the identifier out of a 27-byte payload gives 16 bytes |
| AdPacket.ExtractRpiRoundTrip | ct_beacon.cpp:34 | slicing the identifier out of the payload for an RPI gives back that RPI |
| AdPacket.AdStarts | ct_beacon.cpp:23-31 | walking a frame by its length bytes gives structure offsets that all lie inside the frame, or reports the frame as malformed |
| AdPacket.AdStartsEncoded | ct_beacon.cpp:23-31 | walking any encoding of structures, at any position, lands on the start of each structure in turn and ends exactly at its end |
| AdPacket.CtPacketWalk | ct_beacon.cpp:23-31 | the payload's length bytes 0x02, 0x03 and 0x13 chain to offsets 0, 3 and 7 and end exactly at byte 27 |
| AdPacket.BuildCtPacket | ct_beacon.cpp:21-36 | writes the payload for the first 16 bytes of the RPI into the first 27 bytes of the buffer, returns 27 and leaves the rest of the buffer unchanged |
| Hci.MsToTicks | ct_beacon.cpp:76-77 | milliseconds divided by 0.625 and truncated to a whole number of ticks: the largest t with t·0.625 ≤ ms |
| Hci.TicksToMs | ct_beacon.cpp:146-149 | ticks converted back to whole milliseconds: the largest m with m ≤ t·0.625 |
| Hci.RequestFailure | ct_beacon.cpp:54-66 | a request fails exactly when the result is negative or the status is non-zero; a negative result is "could not send", otherwise the error carries the OCF and the status |
| Hci.StepFailure | ct_beacon.cpp:135-158 | a request is judged as `do_req` judges it; a library call fails exactly when its result is negative, with that call's own error |
| Hci.RunSteps | ct_beacon.cpp:71-119 | a sequence passes exactly when every step gets a good reply; otherwise it stops at a step that failed, every earlier step succeeded, and the outcome is that step's error |
| Hci.RunStepsFirstFailure | ct_beacon.cpp:87-118 | if step k is the first step to fail, exactly k+1 steps are issued and the outcome is step k's error |
| Hci.RunStepsAllSucceed | ct_beacon.cpp:71-119 | if every step succeeds, the whole sequence is issued and passes |
| AdReport.ReadInto | ct_beacon.cpp:172-173 | after a read, the 260-byte buffer starts with the bytes received and keeps its old contents beyond them |
| AdReport.AsWrittenCopy | ct_beacon.cpp:174-178 | as written, the code copies `len - 5` bytes starting at offset 14 (nothing if that count is not positive); the copy leaves the 260-byte buffer exactly when 14 + (len - 5) > 260 |
| AdReport.AsWrittenCopyOverreads | ct_beacon.cpp:177-178 | as written, for every read of more than 5 bytes (up to 251) the copy is `buf[14..len+9]`, so it always ends 9 bytes after the bytes read; its length does not depend on the report's own length byte |
| AdReport.AsWrittenCopyOfShortRead | ct_beacon.cpp:172-178 | as written, a read of 6 to 13 bytes still writes `len - 5` bytes, every one of them left in the buffer from before the read |
| AdReport.AsWrittenCopyOfBeaconReport | ct_beacon.cpp:174-178 | as written, a 42-byte beacon report writes 37 bytes: the 27-byte payload, the RSSI, and 9 bytes the read never filled |
| AdReport.ReportData | ct_beacon.cpp:174-178 | the corrected copy is found exactly when the length byte was received and the data it announces was fully received; it is then the report's advertising data: exactly as many bytes as its length byte says, starting at offset 14 |
| AdReport.ReportEvent | ct_beacon.cpp:172-176 | the LE Advertising Report event for one report is 15 bytes plus the data, which fits the 260-byte buffer |
| AdReport.ReportDataRoundTrip | ct_beacon.cpp:175-178 | the event for a report carries subevent 0x02, and the corrected copy gives back that report's data |
| AdReport.ObservedIdentifierRoundTrip | ct_beacon.cpp:174-178 | an observed beacon report yields its 27-byte payload, and the RPI sliced out of it is the one advertised |
| Beacon.AdvertisingParams | ct_beacon.cpp:75-80 | the interval bounds of the advertising parameters are 200 ms and 270 ms converted to 0.625 ms ticks |
| Beacon.AdvertisingIntervals | ct_beacon.cpp:38-41 | the bounds are exactly 320 and 432 ticks (no fraction is lost), in order, and inside the 0x0020-0x4000 range a controller accepts |
| Beacon.AdvertisingData | ct_beacon.cpp:110-111 | the data field holds 31 bytes: the payload for the first 16 bytes of the RPI (header and identifier), then zeros |
| Beacon.AdvParamsRequest | ct_beacon.cpp:75-86 | LE Set Advertising Parameters (OGF 0x08, OCF 0x0006, 15 parameter bytes) with advtype 0x03, own address type 0x01, channel map 0x07, filter 0 and intervals 320 and 432 ticks |
| Beacon.AdvEnableRequest | ct_beacon.cpp:97-104 | LE Set Advertise Enable (OGF 0x08, OCF 0x000A, 1 parameter byte) carrying the given enable byte |
| Beacon.AdvDataRequest | ct_beacon.cpp:110-117 | LE Set Advertising Data (OGF 0x08, OCF 0x0008): significant length 27, then the 31-byte data field starting with the payload, 32 parameter bytes in all |
| Beacon.StartAdvertisingCommands | ct_beacon.cpp:71-119 | three requests in order: advertising parameters, advertise enable with 0x01, advertising data |
| Beacon.StopAdvertisingCommand | ct_beacon.cpp:121-131 | one LE Set Advertise Enable request whose parameter is left zero |
| Beacon.PassiveScan | ct_beacon.cpp:146-154 | passive scanning (type 0), interval 0x40 and window 0x30 ticks, random own address (0x01), filter policy 0 |
| Beacon.StartListeningCommands | ct_beacon.cpp:133-159 | four calls in order: scan enable (0, 0), a socket filter for HCI event packets and LE Meta events, the passive scan parameters, scan enable (1, 1) |
| Beacon.StopListeningCommand | ct_beacon.cpp:161-164 | scan enable with scanning and duplicate filtering off, the same call that opens `start_listening` |
| Beacon.ScanTiming | ct_beacon.cpp:146-154 | a scan interval of 0x40 ticks is 40 ms and a window of 0x30 ticks is 30 ms, and the window does not exceed the interval |
| Beacon.StartAdvertisingDisallowed | ct_beacon.cpp:54-87 | a status of 0x0C (Command Disallowed) on the parameters command stops `start_advertising` after one command, with an error naming OCF 0x0006 |
| Beacon.AdvertisingRun | ct_beacon.cpp:71-119 | `start_advertising` stops at the first request that `do_req` rejects (parameters, then enable, then data) with that rejection, and passes after three accepted requests |
| Beacon.ListeningRun | ct_beacon.cpp:133-159 | `start_listening` stops at the first call with a negative result, with that call's error: a failed disable or enable gives "could not enable LE scan", a failed filter gives "could not set filter" (no scan parameters and no scan enable are then sent), failed parameters give "could not set LE scan parameters"; otherwise it passes after four calls |
| Beacon.SilentController | ct_beacon.cpp:58-60 | if the controller never answers, every sequence fails at its first step: requests with "could not send", the scan calls with "could not enable LE scan" |
| Beacon.Controller.Send | ct_beacon.cpp:58 | each step on the handle gets the next scripted reply (a timeout once the script runs out) and consumes it |
| Beacon.CtBeacon.constructor | ct_beacon.cpp:43-48 | a new beacon holds the opened device handle and has taken no steps |
| Beacon.CtBeacon.DoReq | ct_beacon.cpp:54-66 | sends one request, records it, consumes one reply, and fails exactly as `RequestFailure` judges that reply |
| Beacon.CtBeacon.Call | ct_beacon.cpp:135 | one library call on the handle: records it, consumes one reply and returns that reply's result code |
| Beacon.CtBeacon.StartAdvertising | ct_beacon.cpp:71-119 | sends parameters, then enable, then the data built by `BuildCtPacket`; the trace grows by exactly the prefix `RunSteps` issues, the same number of replies is consumed, and the result is `RunSteps`' outcome |
| Beacon.CtBeacon.StopAdvertising | ct_beacon.cpp:121-131 | sends advertise-enable with 0 and gives the outcome of that one-step sequence |
| Beacon.CtBeacon.StartListening | ct_beacon.cpp:133-159 | disables scanning, filters the socket to LE Meta events, sets passive scan parameters, then enables scanning with duplicate filtering, stopping at the first failure; trace, replies and result match `RunSteps` |
| Beacon.CtBeacon.StopListening | ct_beacon.cpp:161-164 | disables scanning and gives the outcome of that one-step sequence |
| Beacon.CtBeacon.LogToStream | ct_beacon.cpp:167-183 | a negative poll is an error; a zero poll returns 0 and writes nothing; otherwise returns 1, and writes the report data exactly when the event is an advertising report whose data was fully received |

## Left out

- Device lookup and opening (`hci_devid`, `hci_open_dev`) and closing in the destructor: the beacon is given a controller that is already open, and the failure messages of the constructor are not modelled.
- `reset()` has an empty body and `test_beacon_main` is a demo driver; neither is modelled.
- The transport: `hci_send_req`, the library scan calls, `setsockopt`, `poll` and `read` become scripted replies or method parameters. The 1000 ms request timeout is not modelled; a script that has run out answers with a negative result instead.
- The scan calls check the controller's status themselves and report a non-zero status as a negative result; only that result code is modelled.
- The bit layout of `struct hci_filter` is not modelled; the filter step records the packet type and event it selects.
- `MS_PER_INTERVAL` is a `double`. The division is modelled exactly as `ms * 8 / 5` in integers. Both bounds divide exactly, so no rounding is lost.
- The text of error messages, and the C++ exception types, are not modelled. This includes the fact that the poll error is thrown as a pointer (`throw new`), so it escapes handlers that catch by reference. Each message maps to one `BeaconError` constructor.
- `std::ostream` is not modelled: what `log_to_stream` writes is returned as a byte sequence.
- A failed read returns -1, and the as-written code would then go on to inspect the buffer's old contents. The model writes nothing in that case.
- Beacon.CtBeacon.LogToStream: writes the corrected slice (`AdReport.ReportData`) instead of the as-written `len - 5` bytes from offset 14. The as-written copy is modelled separately by `AdReport.AsWrittenCopy` (see Findings). Only the first report of an event is read.
- Beacon.CtBeacon.StartAdvertising: needs an identifier of at least 16 bytes, because the code reads `rpi[0..15]` without checking its length.
- AdPacket.BuildCtPacket: needs an identifier of at least 16 bytes, for the same reason.
- Rotating the identifier, and any caller that decides when to advertise or listen, are not part of this component.

## Findings

| source | as written | input that shows it | evidently intended | confidence | as-written member | corrected member |
|---|---|---|---|---|---|---|
| ct_beacon.cpp:177-178 | writes `len - 5` bytes starting at the report data (offset 14), where `len` is the number of bytes read; the copy ends 9 bytes after the bytes read and ignores the report's length byte | one LE Advertising Report carrying a 27-byte beacon payload: a 42-byte event gives 37 bytes (the payload, the RSSI and 9 uninitialised buffer bytes) | write the report's `length` bytes of advertising data starting at offset 14 | not executed | AdReport.AsWrittenCopyOfBeaconReport | AdReport.ObservedIdentifierRoundTrip |
