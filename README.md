# cam_app: a Dafny model of the camera application's command core

The camera application is a cFS flight-software app. It takes pictures with an
external camera program on a worker thread. When security is on, it pads each
picture to 16-byte blocks, encrypts it, stores the ciphertext as lower-case hex
text, reads that text back, decrypts it, strips the padding and stores the result.
Ground commands reach it through a software-bus pipe. The dispatcher routes them by
message ID and command code and checks each command's length before the handler
runs.

This project models three source files:

- `common_fnc.dfy` (module `CommonFnc`) covers `common_fnc.c`:
  - the padding `pad_data`;
  - the unpadding `unpad_data`;
  - the hex text read back by `read_encrypted_data`, decoded two characters at a time with `strtol`;
  - the `%02x` text that the worker writes.
- `cam_app_cmds.dfy` (module `CamCmds`) covers `cam_app_cmds.c`:
  - every ground-command handler;
  - the key dump of the security-key command;
  - one iteration of the capture worker `startloop`.

  The globals the handlers update are fields of the class `CamApp`. The same state as a value is `Ctl`. Each handler method is proved to take the state to the value of a specification function (`Noop`, `ShotStart`, `SetKey`, `Cycle`, ...), and the lemmas state the properties of those functions.
- `cam_app_dispatch.dfy` (module `CamDispatch`) covers `cam_app_dispatch.c`: `CAM_APP_VerifyCmdLength`, `CAM_APP_ProcessGroundCommand` and `CAM_APP_TaskPipe`. They are methods over a `CamApp`, proved against `TaskPipeSpec`, and the routing decision is the function `Route`.
- `bytes.dfy` (module `Bytes`) holds the C integer widths (`byte`, `uint16`, the `uint8` increment). `cam_events.dfy` (module `CamEvents`) holds the event identifiers.

The worker thread is modelled by two things:
- `workers`, the number of threads started and not yet joined;
- `handleLive`, whether the single global `thread` handle still names one of them.

The files the worker writes and reads form a map from path to contents. Three things are parameters of an iteration:
- the camera program's output;
- the timestamp;
- whether each `fopen` for writing succeeds.

The block cipher of `security.h` is a pair of functions passed in as `Cipher`. That its decryption undoes its encryption is the stated assumption `RoundTrips`, not a proved fact.

The model follows the code, including these behaviours:
- `CAM_APP_ShotStartCmd` has no running-guard. A second start launches another worker and overwrites the handle (`DoubleStartLeaksWorker`).
- `CAM_APP_ShotStopCmd` always sets the stop flag and joins the handle.
- A security-key command of the wrong length is rejected by the length check before any key byte is read.
- `unpad_data` does not check the pad byte. One larger than the buffer leaves a null buffer, and the iteration still sleeps unless the decrypted file opens (`CycleOversizedPad`).

## Model

| member | source | states |
|---|---|---|
| Bytes.Inc8 | cam_app/fsw/src/cam_app.h:53-54 | incrementing a `uint8` counter adds one modulo 256; the result is 0 exactly when the counter was 255 |
| Bytes.ToByte | cam_app/fsw/src/common_fnc.c:87 | the `(byte)` cast keeps values in 0..255 and adds 256 to values in -255..-1 |
| CamEvents.Code | cam_app/fsw/inc/cam_app_eventids.h:28-47 | each identifier's code is below 20 |
| CamEvents.CodeInjective | cam_app/fsw/inc/cam_app_eventids.h:28-47 | no two identifiers share a code, so the twenty identifiers are exactly the numbers 0 to 19 |
| CommonFnc.PadLength | cam_app/fsw/src/common_fnc.c:51 | the pad length is 1 to 16, brings the size to a multiple of 16, and is a whole block exactly when the size already is a multiple |
| CommonFnc.Pad | cam_app/fsw/src/common_fnc.c:49-60 | the padded buffer keeps the data as its prefix, has a length that is a multiple of 16, and every added byte holds the pad length |
| CommonFnc.Unpad | cam_app/fsw/src/common_fnc.c:62-67 | an empty buffer is read before its start, which is undefined. A last byte larger than the size wraps the `size_t` subtraction, and `realloc` then leaves a null buffer. Otherwise the result is the prefix shorter by the value of the last byte |
| CommonFnc.UnpadPad | cam_app/fsw/src/common_fnc.c:49-67 | unpadding undoes padding for every buffer, the empty one and exact multiples of 16 included |
| CommonFnc.UnpadTrustsLastByte | cam_app/fsw/src/common_fnc.c:64-65 | any tail whose last byte equals its length is stripped, whatever its other bytes are (the padding is not validated) |
| CommonFnc.PadData | cam_app/fsw/src/common_fnc.c:49-60 | a failed reallocation leaves a null buffer and the old size; otherwise the new buffer holds `Pad` of the old contents and the size is its length |
| CommonFnc.UnpadData | cam_app/fsw/src/common_fnc.c:62-67 | no result exactly on the empty buffer; a null buffer exactly when the last byte exceeds the size; otherwise a fresh buffer holding the contents that `Unpad` keeps |
| CommonFnc.DigitValue | cam_app/fsw/src/common_fnc.c:87 | a base-16 digit of either case has a value below 16, and every lower-case digit has one |
| CommonFnc.HexDigit | cam_app/fsw/src/cam_app_cmds.c:256 | `%02x` prints a lower-case digit that reads back as its value |
| CommonFnc.HexByte | cam_app/fsw/src/cam_app_cmds.c:256 | `%02x` of a byte is two characters: the digit of the high nibble, then the digit of the low nibble |
| CommonFnc.HexEncode | cam_app/fsw/src/cam_app_cmds.c:254-257 | the hex text of n bytes has 2n characters, all lower-case hex digits |
| CommonFnc.HexEncodeAppend | cam_app/fsw/src/cam_app_cmds.c:254-257 | printing one more byte appends exactly its two digits to the text written so far |
| CommonFnc.StrtolHex2 | cam_app/fsw/src/common_fnc.c:83-87 | `strtol` in base 16 of a two-character string is between -15 and 255 |
| CommonFnc.StrtolOfHexByte | cam_app/fsw/src/common_fnc.c:87 | `strtol` reads the two digits printed for a byte back as that byte |
| CommonFnc.HexDecode | cam_app/fsw/src/common_fnc.c:79-88 | n characters decode to n div 2 bytes, and byte i is the `(byte)strtol` of characters 2i and 2i+1 |
| CommonFnc.HexDecodeEncode | cam_app/fsw/src/common_fnc.c:79-88 | decoding the text written for a buffer gives the buffer back |
| CommonFnc.HexEncodeDecode | cam_app/fsw/src/common_fnc.c:79-88 | on the texts `%02x` produces (even length, lower-case digits), encoding the decoded bytes gives the text back |
| CommonFnc.LowerHexPair | cam_app/fsw/src/common_fnc.c:87 | a pair of lower-case digits is printed back exactly by `%02x` of its `strtol` value |
| CommonFnc.ReadEncryptedData | cam_app/fsw/src/common_fnc.c:69-90 | a file that cannot be opened leaves no buffer; otherwise the new buffer holds `HexDecode` of the file's text, filled by the loop |
| CamCmds.Initial | cam_app/fsw/src/cam_app_cmds.c:171-193 | at start-up the period is 10, both flags are 0, the key is all zeros and no worker runs, which is a consistent state; the photo files are whatever the directory already holds |
| CamCmds.HandlersPreserveConsistent | cam_app/fsw/src/cam_app_cmds.c:86-400 | every handler keeps the key at 32 bytes, both flags at 0 or 1, and the handle naming a worker only while one is unjoined |
| CamCmds.NoopOnlyCounts | cam_app/fsw/src/cam_app_cmds.c:86-94 | the no-op command adds one to the command counter modulo 256 (255 wraps to 0) and changes nothing else but the event log |
| CamCmds.CounterHandlers | cam_app/fsw/src/cam_app_cmds.c:54-111 | reset (lines 103-111) zeroes both counters; housekeeping (lines 54-79) copies the error and command counters into its payload and changes nothing else |
| CamCmds.SecurityFlagHandlers | cam_app/fsw/src/cam_app_cmds.c:346-360 | the security commands set or clear the security flag whatever the capture state, and change nothing else but the event log |
| CamCmds.StartStopJoinsWorker | cam_app/fsw/src/cam_app_cmds.c:313-344 | a start followed by a stop sets the stop flag and joins the worker just started |
| CamCmds.DoubleStartLeaksWorker | cam_app/fsw/src/cam_app_cmds.c:322-344 | from any state, two starts and a stop leave one more worker unjoined than before, and a second stop cannot reach it |
| CamCmds.SetKeyAlwaysVerified | cam_app/fsw/src/cam_app_cmds.c:376-397 | after the command the stored key is the payload; three events are raised, and the third is always the success report because the comparison follows the copy |
| CamCmds.KeyString | cam_app/fsw/src/cam_app_cmds.c:367-371 | the key-dump text has three characters per key byte |
| CamCmds.SprintfKeyDump | cam_app/fsw/src/cam_app_cmds.c:367-371 | the `sprintf` loop as written: a call stores outside the buffer exactly when the buffer is shorter than 3n+1 bytes; otherwise the buffer keeps its length |
| CamCmds.KeyDumpOverflows | cam_app/fsw/src/cam_app_cmds.c:367-371 | over the 96-byte buffer as written, the last `sprintf` writes outside the buffer for every 32-byte key |
| CamCmds.KeyDumpFits | cam_app/fsw/src/cam_app_cmds.c:379-383 | over a 97-byte buffer, the loop leaves exactly the key text followed by its NUL |
| CamCmds.KeyStringAt | cam_app/fsw/src/cam_app_cmds.c:368-371 | key byte i is dumped at characters 3i, 3i+1 and 3i+2: its two digits, then a space |
| CamCmds.FormatKey | cam_app/fsw/src/cam_app_cmds.c:367-371 | the key-dump loop over a buffer of 3n+1 bytes fills it with the key text and a terminating NUL |
| CamCmds.ZeroKey | cam_app/fsw/src/cam_app_cmds.c:237 | the worker encrypts under a local all-zero key of the cipher's key length |
| CamCmds.PathsDistinct | cam_app/fsw/src/cam_app_cmds.c:214-296 | the original (line 214), encrypted (line 249) and decrypted (line 296) files of one timestamp are three different paths |
| CamCmds.CycleStopExits | cam_app/fsw/src/cam_app_cmds.c:199-204 | when the stop flag is set, an iteration leaves the loop and changes nothing |
| CamCmds.CyclePlainCapture | cam_app/fsw/src/cam_app_cmds.c:207-223 | with security off, an iteration only stores the picture and then sleeps for the period |
| CamCmds.CycleTouchesOnlyFiles | cam_app/fsw/src/cam_app_cmds.c:197-311 | an iteration changes only the files and the event log |
| CamCmds.CycleIgnoresStoredKey | cam_app/fsw/src/cam_app_cmds.c:237-241 | the key stored by the security-key command has no effect on an iteration |
| CamCmds.CycleCiphertextFile | cam_app/fsw/src/cam_app_cmds.c:228-262 | the ciphertext file holds the lower-case hex of the padded picture encrypted under the zero key: 2(n+p) characters, so 32 for a 10-byte picture |
| CamCmds.CycleRoundTrip | cam_app/fsw/src/cam_app_cmds.c:223-307 | if the cipher round-trips, the decrypted file equals the picture and the worker sleeps for the period |
| CamCmds.CycleOversizedPad | cam_app/fsw/src/cam_app_cmds.c:272-307 | when the decrypted text ends in a pad byte larger than the buffer, the iteration stores nothing more and sleeps for the period if the decrypted file does not open; if it does open, the write from the null buffer is undefined |
| CamCmds.AllOnesTextHasOversizedPad | cam_app/fsw/src/common_fnc.c:62-87 | a ciphertext file of 32 'f' characters decodes to sixteen bytes of 0xff, whose pad byte is larger than the buffer |
| CamCmds.CycleReloadFailureSkipsSleep | cam_app/fsw/src/cam_app_cmds.c:274-284 | when the ciphertext file can neither be written nor found, the iteration ends with `continue` and does not sleep |
| CamCmds.EncryptData | cam_app/fsw/src/cam_app_cmds.c:241 | encryption replaces the buffer in place with the cipher's output |
| CamCmds.DecryptData | cam_app/fsw/src/cam_app_cmds.c:287 | decryption replaces the buffer in place with the cipher's output |
| CamCmds.WriteCiphertextHex | cam_app/fsw/src/cam_app_cmds.c:254-257 | the `fprintf` loop writes `HexEncode` of the buffer |
| CamCmds.RestoreKeepsOtherFiles | cam_app/fsw/src/cam_app_cmds.c:272-298 | the reload-and-decrypt half writes only the decrypted copy; every other file is left as it was |
| CamCmds.SecureStoresCiphertext | cam_app/fsw/src/cam_app_cmds.c:247-262 | when its file opens, the ciphertext file holds the hex text of the encrypted padded picture at the end of the secured part |
| CamCmds.EncryptPicture | cam_app/fsw/src/cam_app_cmds.c:226-241 | after reading, padding and encrypting in place, the buffer holds the padded picture encrypted under the all-zero key |
| CamCmds.StoreCiphertext | cam_app/fsw/src/cam_app_cmds.c:226-268 | the files and events after the hex text is written (or its file fails to open) are those `Store` and `SecureEvents` give |
| CamCmds.RestorePicture | cam_app/fsw/src/cam_app_cmds.c:272-298 | reloading, decrypting, unpadding and writing the copy give the files and ending `Restore` gives. A failed reload ends with no sleep. An empty buffer is undefined. A null buffer from an oversized pad byte writes nothing, and is undefined only when the decrypted file opens (`fwrite` from null) |
| CamCmds.SecureCapture | cam_app/fsw/src/cam_app_cmds.c:223-304 | the secured part of an iteration (read, pad, encrypt, write the hex, reload, decrypt, unpad, write) is the store half followed by the restore half, and leaves the files, events and ending `Secure` gives |
| CamCmds.CamApp.constructor | cam_app/fsw/src/cam_app_cmds.c:171-193 | the globals start in the initial state, over the photo files already present |
| CamCmds.CamApp.NoopCmd | cam_app/fsw/src/cam_app_cmds.c:86-94 | adds one to the command counter, raises the no-op event and returns success |
| CamCmds.CamApp.ResetCountersCmd | cam_app/fsw/src/cam_app_cmds.c:103-111 | zeroes both counters, raises the reset event and returns success |
| CamCmds.CamApp.SendHkCmd | cam_app/fsw/src/cam_app_cmds.c:54-79 | copies the counters into the housekeeping payload and returns success |
| CamCmds.CamApp.ProcessCmd | cam_app/fsw/src/cam_app_cmds.c:119-149 | changes no modelled state and returns success |
| CamCmds.CamApp.DisplayParamCmd | cam_app/fsw/src/cam_app_cmds.c:156-163 | raises the value event and returns success |
| CamCmds.CamApp.ShotPeriodCmd | cam_app/fsw/src/cam_app_cmds.c:171-182 | sets the period and returns the period itself, not success |
| CamCmds.CamApp.ShotStartCmd | cam_app/fsw/src/cam_app_cmds.c:322-335 | clears the stop flag and starts one more worker, which the handle then names |
| CamCmds.CamApp.ShotStopCmd | cam_app/fsw/src/cam_app_cmds.c:337-344 | sets the stop flag and joins the worker the handle names, if there is one |
| CamCmds.CamApp.SecurityStartCmd | cam_app/fsw/src/cam_app_cmds.c:346-352 | sets the security flag |
| CamCmds.CamApp.SecurityStopCmd | cam_app/fsw/src/cam_app_cmds.c:354-360 | clears the security flag |
| CamCmds.CamApp.SecurityKeyCmd | cam_app/fsw/src/cam_app_cmds.c:364-400 | dumps the received key, copies it into the global key, dumps the stored key and reports the comparison, as `SetKey` gives; both dumps are built with the corrected 97-byte `FormatKey`, not the overflowing 96-byte buffers of the code as written (see Findings) |
| CamCmds.CamApp.StartLoopIteration | cam_app/fsw/src/cam_app_cmds.c:197-311 | one iteration of the worker's loop leaves the state and step that `Cycle` gives |
| CamDispatch.Route | cam_app/fsw/src/cam_app_dispatch.c:74-193 | each message gets exactly one action: a handler only for a command message of known code and matching length; housekeeping whatever the length; a rejection otherwise |
| CamDispatch.VerifyLength | cam_app/fsw/src/cam_app_dispatch.c:39-67 | the check passes exactly when the lengths agree; a pass changes nothing; a failure adds one to the error counter modulo 256 and raises the length-error event |
| CamDispatch.TaskPipeFollowsRoute | cam_app/fsw/src/cam_app_dispatch.c:74-193 | a message's effect is that of its routed action: the one handler, or the counted length error, or the code or message-ID error event, or housekeeping |
| CamDispatch.WrongLengthOnlyCountsError | cam_app/fsw/src/cam_app_dispatch.c:51-64 | a command of wrong length changes only the error counter and the events: no handler runs |
| CamDispatch.UnknownCodeCountsNothing | cam_app/fsw/src/cam_app_dispatch.c:157-160 | an unknown command code raises an error event and changes no counter |
| CamDispatch.UnknownMidCountsNothing | cam_app/fsw/src/cam_app_dispatch.c:188-191 | an unknown message ID raises an error event and changes no counter |
| CamDispatch.HousekeepingSkipsLengthCheck | cam_app/fsw/src/cam_app_dispatch.c:184-186 | the housekeeping request is served whatever its length |
| CamDispatch.ShotPeriodNeverCountsError | cam_app/fsw/src/cam_app_dispatch.c:113-118 | the non-zero status of the period command is discarded: the period is set and the error counter does not move |
| CamDispatch.CmdCounterMovers | cam_app/fsw/src/cam_app_dispatch.c:74-163 | only a no-op or a reset command changes the command counter |
| CamDispatch.ErrCounterMovers | cam_app/fsw/src/cam_app_dispatch.c:39-163 | only a length error or a reset command changes the error counter |
| CamDispatch.TaskPipePreservesConsistent | cam_app/fsw/src/cam_app_dispatch.c:172-193 | dispatching any message keeps the state consistent |
| CamDispatch.VerifyCmdLength | cam_app/fsw/src/cam_app_dispatch.c:39-67 | the method's result and new state are those of `VerifyLength` |
| CamDispatch.InvokeHandler | cam_app/fsw/src/cam_app_dispatch.c:85-153 | calls the handler of the command, discarding its status |
| CamDispatch.ProcessGroundCommand | cam_app/fsw/src/cam_app_dispatch.c:74-163 | the new state is `ProcessGroundCommandSpec` of the old: length check, then the handler or the code error |
| CamDispatch.TaskPipe | cam_app/fsw/src/cam_app_dispatch.c:172-193 | the new state is `TaskPipeSpec` of the old, and the state stays consistent |

## Left out

- Input and output are not modelled as effects. Reading and writing files become updates of a path-to-contents map. `printf`, `perror` and `CFE_ES_WriteToSysLog` are left out.
- The camera program (`system("libcamera-still ...")`), the clock and `strftime` are left out. The picture and the timestamp are parameters of an iteration.
- Threads are not modelled as concurrency. The worker's loop runs one iteration at a time, and nothing models its racing with the handlers on the unsynchronised flags.
- `pthread_create` failure is not modelled: the C code calls `exit`.
- A join on a handle that is already joined, or was never set, is treated as reaping nothing. In C it is undefined.
- Allocation failures inside the worker are assumed not to happen: `malloc` in `read_image_data` and `read_encrypted_data`, `realloc` in `pad_data`, and the shrinking `realloc` in `unpad_data`. `PadData` models the `realloc` failure of `pad_data` itself. The `realloc` of `unpad_data` after an oversized pad byte always fails, and that failure is modelled (`NullBuffer`).
- CommonFnc.UnpadData: after an oversized pad byte the wrapped `size_t` is not returned beside the null buffer. Its width is platform-dependent, and only its being nonzero matters: it makes the later `fwrite` read from null.
- An empty ciphertext file is treated as read back successfully. In C, `malloc(0)` may return null, and that would take the `continue` branch.
- The block cipher of `security.h` is not part of this model, and its mode and key schedule are unknown. It is a parameter, and its round trip is the assumption `RoundTrips`.
- The housekeeping packet transmission, `CFE_TBL_Manage` and the spare words of the housekeeping payload are left out.
- The table lookup, the system-log output and the CRC in `CAM_APP_ProcessCmd` are left out. Their failure statuses are not modelled: the dispatcher discards every handler status anyway.
- Event texts are left out, except the two key dumps. Events carry their identifier and type.
- The numeric values of the message IDs and command codes are left out, and so are the `sizeof` of each command structure. Their headers are not part of this model, so `sizes` is a parameter.
- The key payload is modelled as unsigned bytes, as `char` is on the ARM Linux target. Where `char` is signed, `%02x` of a byte of 128 or more prints eight digits.
- The app's entry point and initialisation (`cam_app.c`) and the EDS dispatcher (`cam_app_eds_dispatch.c`) are not part of this model.

## Findings

| source | as written | input that shows it | evidently intended | confidence | as-written member | corrected member |
|---|---|---|---|---|---|---|
| cam_app/fsw/src/cam_app_cmds.c:367-371 (and 379-383) | each key dump uses a `char[96]` buffer, and `sprintf(&buf[i*3], "%02x ", ...)` writes four bytes (two digits, a space, the NUL), so for i = 31 the NUL lands at index 96, one past the end | any 32-byte key payload, e.g. all zeros | a buffer of 3 * 32 + 1 = 97 bytes holding the 96-character dump and its terminator | not executed | CamCmds.KeyDumpOverflows | CamCmds.FormatKey |
