# MIDI output engine, modelled in Dafny

This project models the MIDI playback engine of `src/MidiOutput.cpp` and proves properties of the model. Five parts are covered:

- **The Standard MIDI File parser.** `ParseFile` reads the `MThd` header chunk (format, track count and division as big-endian 16-bit fields) and the `MTrk` track chunks (big-endian 32-bit lengths). It uses the byte swaps `Ntohs` and `InlineNtohl`, and `SkipVariableLength` decodes the variable-length delta-times.
- **The track table.** `ClearTracks` drops it, `ParseFile` fills it, and `LoadTracks` primes it for playback.
- **The long-message header table.** `UnprepareHeader` releases a header slot, and `StopPlayback` runs a reclaim loop over the table.
- **The device and timer wrappers.** `MidiDevice` has `Close`, `OpenDevice`, `SendShortMsg` and `SendLongMsg`. `MidiTimer` has `StartTimer` and `StopTimer`.
- **The engine's entry points.** These are `ReadFileData`, `ReleaseFileData`, `LoadFile`, `Play` and `SetFadeOut`.

Modules, one per file:

- `zun.dfy` (`Zun`): the fixed-width integer types, `ZunResult` and `Option`.
- `byte_order.dfy` (`ByteOrder`): host (little-endian) loads and stores, the big-endian field readers, `Ntohs` and `InlineNtohl`.
- `vlq.dfy` (`Vlq`): `SkipVariableLength`, the 32-bit fold it computes, and a base-128 encoder it inverts.
- `smf.dfy` (`Smf`): the file layout as a function of the bytes (where each chunk starts, and the record built for it). It also holds a reference writer, the round trip from the writer through the parser, and the priming of a track.
- `devices.dfy` (`Devices`): `MidiTimer` and `MidiDevice` as classes.
  - The Windows multimedia API is modelled as a ghost log of the calls the engine makes.
  - Each result the API would return is a parameter of the method making the call.
- `header_pool.dfy` (`HeaderPool`): the 32 header slots as a sequence. It holds the search by identity and the reclaim loop's passes, and proves what 32 passes achieve.
- `engine.dfy` (`Engine`): the `MidiOutput` class.
  - The track table is an `array`.
  - The 32 file slots and 32 header slots are arrays.
  - The device and timer are objects it owns.

Modelling choices:

- **Bytes** are integers in 0..255 (`u8`). 16- and 32-bit words are `u16` and `u32`. The 32-bit wrap-around of the variable-length decoder is written out as `% 0x1_0000_0000`.
- **Pointers into buffers** are offsets. A track's cursor is `At(offset)` into its own buffer, or `Null`.
- **Headers** are objects of class `MidiHdr`, compared by identity as the source compares pointers.
- **Inputs from outside.** The music-mode setting, the bytes a file read returns, and every result of `midiOutOpen`, `midiOutShortMsg`, `midiOutPrepareHeader`, `midiOutLongMsg` and `timeSetEvent` are method parameters.
- **Return conventions.** A `ZunBool` result is true exactly when the device call failed. "No handle" returns false.
- **Unchecked reads.** The parser reads whatever lengths the file declares, and the decoder reads until a byte with a clear high bit. Neither checks bounds. Their callers therefore require that the reads stay inside the data:
  - `Parsable`: every declared chunk fits;
  - `Terminated`: a terminating byte exists.
  - No error path was invented for these cases.

Three behaviours of the code deserve a note:

- **The reclaim cursor never moves.** `StopPlayback`'s reclaim loop runs 32 times but always inspects `midiHeaders[midiHeadersCursor]`, a cursor nothing advances. It is not a round-robin walk over all slots.
  - When no earlier slot holds the cursor's header, the loop releases exactly the cursor slot, with at most one unprepare call (`ReclaimOneSlot`).
  - When the header also sits in earlier slots, `UnprepareHeader` clears the *first* slot holding it on each pass, and the cursor slot only on the last. In the C code this hands an already freed header back to the device on every later pass and frees it again: a use-after-free and a double free. `StopPlaybackReclaim` and `ReclaimAll` record only the slot and call effects of that case; see "## Left out".
- **Zero-length tracks are not safe to play.** A zero-length track is accepted by `ParseFile` (`ParseWrittenFile` covers an empty body). `LoadTracks`, however, decodes a delta-time from every track without a bound. `Play` therefore requires each track to hold a terminated quantity, and a zero-length track does not.
- **Opening a different device.** `OpenDevice` on an open handle with a different id closes it first. With the same id it returns false and changes nothing.

## Model

| member | source | states |
|---|---|---|
| ByteOrder.NtohsSwaps | src/MidiOutput.cpp:435-443 | the result's two bytes in memory are the argument's two bytes in the other order |
| ByteOrder.NtohsInvolutive | src/MidiOutput.cpp:435-443 | swapping twice gives the value back |
| ByteOrder.NtohsReadsBigEndian | src/MidiOutput.cpp:276-282 | a 16-bit host load followed by `Ntohs` yields the big-endian field at that offset |
| ByteOrder.InlineNtohlReverses | src/MidiOutput.cpp:225-233 | the result's four bytes in memory are the argument's four bytes reversed |
| ByteOrder.InlineNtohlInvolutive | src/MidiOutput.cpp:225-233 | reversing twice gives the value back |
| ByteOrder.NtohlReadsBigEndian | src/MidiOutput.cpp:261-265 | a 32-bit host load followed by `InlineNtohl` yields the big-endian field at that offset |
| Vlq.QuantityEnd | src/MidiOutput.cpp:451-456 | the end of a quantity lies one past the first byte whose high bit is clear, and every byte before it has the bit set |
| Vlq.SkipVariableLength | src/MidiOutput.cpp:445-459 | it consumes the bytes up to and including the first byte with a clear high bit and nothing more; the cursor ends just past them; the result is the 32-bit wrapping fold `v * 128 + (b & 0x7F)` over them |
| Vlq.AccumulateIsFoldModulo | src/MidiOutput.cpp:455 | wrapping at every step of the fold equals wrapping the unbounded fold once |
| Vlq.DecodeEncode | src/MidiOutput.cpp:445-459 | every 32-bit value, written base-128 with continuation bits, decodes back to itself |
| Vlq.EncodeLength | src/MidiOutput.cpp:445-459 | the encoding is at most four bytes (the Standard MIDI Files limit) exactly when the value is below 2^28 |
| Vlq.QuantityWithin | src/MidiOutput.cpp:445-459 | an encoded quantity anywhere in a buffer is terminated there; the cursor advances by exactly its length, and it decodes to its value |
| Smf.ChunkWalk | src/MidiOutput.cpp:288-302 | if `n` chunks fit then chunk `i < n` fits; chunk `i + 1` starts 8 + chunk `i`'s declared length after it; the records for `i + 1` chunks extend those for `i` by chunk `i`'s record |
| Smf.ParsedTrackAt | src/MidiOutput.cpp:296-301 | record `k` of the parse holds chunk `k`'s declared length and a copy of the bytes 8 after its start, and is marked playing |
| Smf.ParseStep | src/MidiOutput.cpp:288-302 | one iteration of the track loop: the preamble and body at the cursor fit, the next chunk starts past them, and the record the iteration builds is record `i` of the parse |
| Smf.WrittenHeader | src/MidiOutput.cpp:261-282 | a header chunk at the start of the data yields header length 6 and the format, track count and division written there |
| Smf.ParseTrackChunk | src/MidiOutput.cpp:288-302 | a written track chunk anywhere in the data fits and parses back to a record holding its body |
| Smf.ParseTrackChunks | src/MidiOutput.cpp:288-302 | consecutive written track chunks all fit and parse back to one record per body |
| Smf.ParseLaidOut | src/MidiOutput.cpp:259-303 | bytes laid out as a six-byte header chunk followed by track chunks parse back to the fields and the bodies laid out |
| Smf.ParseWrittenFile | src/MidiOutput.cpp:237-306 | parsing a written file gives back its format, track count and division; the first chunk sits at offset 14; each record holds a copy of its body |
| Smf.QuantityFirst | src/MidiOutput.cpp:199-202 | a quantity at the start of a track's buffer is terminated there, ends at its encoded length, and decodes to its value |
| Smf.PrimedFirstDelta | src/MidiOutput.cpp:197-203 | priming a track whose events start with delta-time `d` sets the countdown to `d`; the cursor lands just past the quantity, the start goes to the buffer's first byte, and the track is playing; length and buffer are untouched |
| Smf.PrimeWrittenFile | src/MidiOutput.cpp:186-204 | after parsing a written file, priming a track whose body starts with delta-time `d` gives that track the countdown `d` |
| Devices.MidiTimer.constructor | src/MidiOutput.cpp:14-18 | a new timer has no event running |
| Devices.MidiTimer.StopTimer | src/MidiOutput.cpp:24-35 | returns 1 and leaves no event running; it kills the old event only if there was one, so a second call does nothing more |
| Devices.MidiTimer.StartTimer | src/MidiOutput.cpp:37-53 | stops any running event, then starts a periodic one with the given delay and callback (or the default); it keeps and returns the id the system hands back |
| Devices.Closing | src/MidiOutput.cpp:74-86 | after `Close` the handle is NULL and the device id is kept; a closed device is unchanged |
| Devices.CloseIdempotent | src/MidiOutput.cpp:74-86 | closing twice is closing once |
| Devices.ReopenSameDevice | src/MidiOutput.cpp:88-106 | once a device opened with a handle, opening it again changes nothing, whatever the system would answer |
| Devices.SwitchDevice | src/MidiOutput.cpp:90-95 | opening another device than the open one resets and closes the open handle before the open |
| Devices.PackShortMsg | src/MidiOutput.cpp:108-117 | the message word's bytes in memory are status, first, second, then the never-written top byte |
| Devices.ShortMsgFields | src/MidiOutput.cpp:129-132 | the status is the lowest byte of the word; the first and second data bytes sit 8 and 16 bits above it |
| Devices.MidiDevice.constructor | src/MidiOutput.cpp:68-72 | a new device is closed, with id 0, and has made no call |
| Devices.MidiDevice.Close | src/MidiOutput.cpp:74-86 | a closed device is an error that changes nothing; an open one is reset and closed, ending with handle 0 |
| Devices.MidiDevice.OpenDevice | src/MidiOutput.cpp:88-106 | with the same device open nothing changes; otherwise any open handle is reset and closed, the id recorded and the open attempted with the handle the system stores; the result is true exactly when an open was attempted and failed |
| Devices.MidiDevice.SendShortMsg | src/MidiOutput.cpp:119-134 | with no handle, false and no call; otherwise one short message with the packed word, and true exactly when the send failed |
| Devices.MidiDevice.SendLongMsg | src/MidiOutput.cpp:136-151 | with no handle, false and no call; a failed prepare gives true and no send; otherwise prepare then send, and true exactly when the send failed |
| HeaderPool.FirstIndexFinds | src/MidiOutput.cpp:321-328 | the search stops at the first slot holding the header; no earlier slot holds it; it runs off the end exactly when no slot does |
| HeaderPool.FirstIndexAt | src/MidiOutput.cpp:321-328 | a slot holding the header with no earlier slot holding it is the one the search finds |
| HeaderPool.UnpreparedSlots | src/MidiOutput.cpp:321-330 | unpreparing empties the first slot holding the header and keeps every other slot; with no slot holding it nothing changes |
| HeaderPool.ReclaimAdvance | src/MidiOutput.cpp:353-359 | `n + 1` passes of the reclaim loop leave the slots as `n` passes followed by one more |
| HeaderPool.PassCallsAdvance | src/MidiOutput.cpp:353-359 | the calls of `n + 1` passes are those of `n` passes followed by those of one more pass |
| HeaderPool.ReclaimedSlots | src/MidiOutput.cpp:353-359 | the loop's target, slot by slot: the cursor slot and every earlier slot holding the cursor's header are empty; every other slot is unchanged |
| HeaderPool.ReclaimEmptyCursor | src/MidiOutput.cpp:355-358 | passes over an empty cursor slot change nothing and make no call |
| HeaderPool.ReclaimAll | src/MidiOutput.cpp:353-359 | enough passes over a cursor holding a header empty every copy of it up to the cursor, with one unprepare call per copy |
| HeaderPool.StopPlaybackReclaim | src/MidiOutput.cpp:353-359 | the 32 passes reach the target above; with a header at the cursor they make one call per copy up to the cursor, and with none they do nothing |
| HeaderPool.ReclaimOneSlot | src/MidiOutput.cpp:353-359 | when no earlier slot holds the cursor's header, the 32 passes release exactly the cursor slot, with at most one call |
| HeaderPool.ReclaimIdempotent | src/MidiOutput.cpp:353-359 | running the reclaim loop again releases nothing and makes no call |
| Engine.ReadChunkLength | src/MidiOutput.cpp:296-297 | the length read through `InlineNtohl` is the chunk's big-endian declared length |
| Engine.ReadTrackChunks | src/MidiOutput.cpp:285-303 | the track loop returns a fresh table of `n` records equal to the parse of the `n` chunks from the cursor |
| Engine.MidiOutput.constructor | src/MidiOutput.cpp:158-184 | no tracks, every file slot and header slot empty, cursor 0, fade multiplier 0, a closed device and no timer event |
| Engine.MidiOutput.ClearTracks | src/MidiOutput.cpp:207-223 | leaves no track table and a count of 0, whatever the state before, so a second call changes nothing |
| Engine.MidiOutput.ParseFile | src/MidiOutput.cpp:237-306 | always clears the tracks first; an empty slot is an error leaving no tracks and the header fields unchanged; otherwise a fresh table holds the parse, with format, division and tempo 1000000 |
| Engine.MidiOutput.LoadTracks | src/MidiOutput.cpp:186-204 | every track becomes `Primed` of what it was; the fade multiplier is 1.0 and the fade flag and counters are 0 |
| Engine.MidiOutput.UnprepareHeader | src/MidiOutput.cpp:308-343 | success exactly when some slot holds the header; then only its first slot is emptied and one unprepare call made, whatever the device answers; otherwise no slot and no call changes |
| Engine.MidiOutput.ReclaimCursorSlot | src/MidiOutput.cpp:353-359 | the loop leaves the slots and the call log as 32 passes over the cursor slot define them |
| Engine.MidiOutput.StopPlayback | src/MidiOutput.cpp:345-366 | with no tracks, an error that changes nothing; otherwise the slots are reclaimed as above, no timer event is running, and the device is closed; the tracks are untouched |
| Engine.MidiOutput.ReleaseFileData | src/MidiOutput.cpp:389-395 | empties the one file slot and no other |
| Engine.MidiOutput.ReadFileData | src/MidiOutput.cpp:368-387 | outside MIDI mode, success with no change; otherwise playback is stopped and the slot holds what the read returned, and a failed read is an error |
| Engine.MidiOutput.LoadFile | src/MidiOutput.cpp:397-408 | reads into slot 0x1f, parses it and empties it again; a failed read is an error that keeps the tracks, format, division and tempo; outside MIDI mode with slot 0x1f empty the tracks are cleared and those fields kept |
| Engine.MidiOutput.Play | src/MidiOutput.cpp:410-422 | with no tracks, an error that changes nothing; otherwise the tracks are primed, the MIDI mapper is opened and the 1 ms default-callback timer started |
| Engine.MidiOutput.SetFadeOut | src/MidiOutput.cpp:424-433 | returns 0; the multiplier is 0, the interval is `ms`, the elapsed time 0 and the fade flag 1 |

## Left out

- Destructors (`~MidiTimer`, `~MidiDevice`, `~MidiOutput`): object teardown is not modelled.
- The timer callback thread, `DefaultTimerCallback` and `OnTimerElapsed`: concurrency. The callback's body is empty, and the per-tick event dispatch is not part of this model.
- Devices.MidiTimer.StopTimer: the `timeBeginPeriod`/`timeEndPeriod` resolution reservations are not modelled (nor is `timeGetDevCaps`), because they have no effect the engine observes.
- Devices.MidiDevice.OpenDevice: the window handle passed to `midiOutOpen` and the callback flag are not modelled, because the engine never reads them back.
- Engine.MidiOutput.UnprepareHeader: the debug messages are not modelled, nor is the freeing of the header and its data buffer, because memory release is not modelled.
- Engine.MidiOutput.ClearTracks: the loop freeing each track buffer is not modelled, because memory release is not modelled. Dropping the table reference stands for it.
- Engine.MidiOutput.constructor: the fields `unk2c4`, `fadeOutLastSetVolume`, `unk2d0`, `unk2d4` and `unk2d8` are not modelled, because no modelled operation reads them. `format` is left unset, as in the source.
- Engine.MidiOutput.ReadFileData: the file system read and the error-context log are outside the model. The read's result is a parameter.
- The uninitialised top byte of a short message is a parameter (`unused`). Nothing is claimed about its value.
- The scratch buffers `InlineNtohl` and `Ntohs` write through are local and not modelled.
- `malloc`/`free`: ownership is modelled with fresh arrays, sequences and `None`/`null` slots.
- Engine.ReadTrackChunks and Engine.MidiOutput.ReclaimCursorSlot: these are the loops of `ParseFile` and `StopPlayback`, written as methods of their own. Each is called once, at the point where its loop sits.
- Out-of-bounds reads are preconditions (`Parsable`, `Terminated`, a non-NULL header when some slot is empty). What the source would do with such inputs is undefined behaviour and is not modelled.
- HeaderPool.StopPlaybackReclaim, HeaderPool.ReclaimAll: when the cursor's header also sits in an earlier slot, the C code frees the header on the first pass and passes the freed pointer to `midiOutUnprepareHeader` and `free` again on later passes (a use-after-free and a double free). The model records only which slots are emptied and which unprepare calls are made; the freed memory is not modelled.
- Engine.MidiOutput.SetFadeOut: the fade multiplier is a `real` that only ever holds 0.0 or 1.0 here. The fade controller that updates it per tick is not part of this model.
- `src/ZunMath.hpp` (floating-point vector math) and `scripts/generate_objdiff_objs.py` (build tooling) are not part of this model.
