/**
 * `MidiOutput`, the game's MIDI music player: 32 slots of loaded file bytes, the parsed
 * track table, the table of long-message headers, the fade-out fields, the output device and
 * the playback timer (which the engine owns by derivation in the source and by composition
 * here). The music mode setting and the bytes a file read yields are parameters.
 */
module Engine {
  import opened Zun
  import opened ByteOrder
  import opened Vlq
  import opened Smf
  import opened Devices
  import opened HeaderPool

  /** The number of loaded-file slots. */
  const FileSlots := 32

  /** The file slot `LoadFile` reads into. */
  const LoadSlot := 0x1f

  /** The device id `Play` opens, `MIDI_MAPPER`. */
  const MidiMapper := 0xFFFF_FFFF

  /** The period, in milliseconds, of the timer `Play` starts. */
  const PlayTimerDelay := 1

  /** Reads the length word of the chunk preamble at `off` in host order and swaps it, giving its big-endian value. */
  method ReadChunkLength(data: seq<u8>, off: nat) returns (len: u32)
    requires off + 8 <= |data|
    ensures len == ChunkLength(data, off)
  {
    len := InlineNtohl(LoadU32(data, off + 4));
    NtohlReadsBigEndian(data, off + 4);
  }

  /**
   * The track loop of `ParseFile`: a fresh table of `n` records, zeroed and then filled
   * chunk by chunk from `cursor`, each with its chunk's declared length and a copy of its
   * body, marked playing.
   */
  method ReadTrackChunks(data: seq<u8>, cursor: nat, n: nat) returns (table: array<MidiTrack>)
    requires ChunksFit(data, cursor, n)
    ensures fresh(table) && table.Length == n && table[..] == ParsedTracks(data, cursor, n)
  {
    table := new MidiTrack[n](_ => ZeroTrack);
    ghost var parsed := ParsedTracks(data, cursor, n);
    var at: nat := cursor;
    var trackIdx := 0;
    while trackIdx < n
      invariant 0 <= trackIdx <= n == table.Length
      invariant ChunksFit(data, cursor, trackIdx) && at == ChunkOffset(data, cursor, trackIdx)
      invariant forall k :: 0 <= k < n ==> table[k] == if k < trackIdx then parsed[k] else ZeroTrack
      modifies table
    {
      ParseStep(data, cursor, trackIdx, n, at);
      var chunkStart := at;
      at := at + 8;
      var trackLength := ReadChunkLength(data, chunkStart);
      var record := ZeroTrack.(trackLength := trackLength,
                               trackData := data[at..at + trackLength],
                               trackPlaying := 1);
      assert record == parsed[trackIdx];
      table[trackIdx] := record;
      at := at + trackLength;
      trackIdx := trackIdx + 1;
    }
    assert table[..] == parsed;
  }

  class MidiOutput {
    const timer: MidiTimer
    const midiOutDev: MidiDevice

    /** The track table: NULL, or an array of `numTracks` records. */
    var tracks: array?<MidiTrack>
    var numTracks: nat
    var format: u16
    var divisions: u16
    var tempo: int

    /** The fade-out state. The multiplier is only ever set to 0.0 or 1.0 here. */
    var fadeOutVolumeMultiplier: real
    var fadeOutInterval: u32
    var fadeOutElapsedMS: u32
    var fadeOutFlag: int
    var unk2dc: int
    var unk128: int
    var unk130: int

    /** The bytes of each loaded file, or NULL. */
    const midiFileData: array<Option<seq<u8>>>
    /** The long-message header slots and the slot the reclaim loop inspects. */
    const midiHeaders: array<MidiHdr?>
    var midiHeadersCursor: nat

    ghost predicate Valid()
      reads this
    {
      midiFileData.Length == FileSlots && midiHeaders.Length == Slots && midiHeadersCursor < Slots
      && (tracks == null ==> numTracks == 0)
      && (tracks != null ==> tracks.Length == numTracks)
    }

    /** A new engine: no tracks, no files, no headers, fade multiplier 0, a closed device and no timer. */
    constructor ()
      ensures Valid() && fresh(timer) && fresh(midiOutDev) && fresh(midiFileData) && fresh(midiHeaders)
      ensures tracks == null && numTracks == 0 && divisions == 0 && tempo == 0
      ensures fadeOutVolumeMultiplier == 0.0 && unk2dc == 0 && fadeOutFlag == 0
      ensures forall i :: 0 <= i < FileSlots ==> midiFileData[i] == None
      ensures forall i :: 0 <= i < Slots ==> midiHeaders[i] == null
      ensures midiHeadersCursor == 0
      ensures timer.timerId == 0 && timer.timerCalls == []
      ensures midiOutDev.State() == DeviceState(0, 0, [])
    {
      timer := new MidiTimer();
      midiOutDev := new MidiDevice();
      tracks := null;
      divisions := 0;
      tempo := 0;
      numTracks := 0;
      fadeOutVolumeMultiplier := 0.0;
      unk2dc := 0;
      fadeOutFlag := 0;
      var files := new Option<seq<u8>>[FileSlots];
      var i := 0;
      while i < FileSlots
        invariant 0 <= i <= FileSlots
        invariant forall j :: 0 <= j < i ==> files[j] == None
        modifies files
      {
        files[i] := None;
        i := i + 1;
      }
      midiFileData := files;
      var headers := new MidiHdr?[Slots];
      i := 0;
      while i < Slots
        invariant 0 <= i <= Slots
        invariant forall j :: 0 <= j < i ==> headers[j] == null
        modifies headers
      {
        headers[i] := null;
        i := i + 1;
      }
      midiHeaders := headers;
      midiHeadersCursor := 0;
    }

    // -------------------------------------------------------------- the track table

    /** Drops the track table: no tracks, and the count is 0. */
    method ClearTracks()
      requires Valid()
      modifies this`tracks, this`numTracks
      ensures Valid() && tracks == null && numTracks == 0
    {
      tracks := null;
      numTracks := 0;
    }

    /** The track table and header fields hold the parse of `data`. */
    ghost predicate HoldsParse(data: seq<u8>)
      requires Parsable(data)
      reads this, tracks
    {
      tracks != null && numTracks == NumTracks(data)
      && tracks[..] == ParsedTracks(data, FirstChunk(data), NumTracks(data))
      && format == Format(data) && divisions == Division(data) && tempo == DefaultTempo
    }

    /**
     * Parses the file in slot `fileIdx` into a fresh track table. An empty slot is an error
     * that leaves no tracks. The source trusts every length the file declares, so the file
     * must hold every chunk it declares.
     */
    method ParseFile(fileIdx: nat) returns (r: ZunResult)
      requires Valid() && fileIdx < FileSlots
      requires midiFileData[fileIdx].Some? ==> Parsable(midiFileData[fileIdx].value)
      modifies this`tracks, this`numTracks, this`format, this`divisions, this`tempo
      ensures Valid()
      ensures r == (if midiFileData[fileIdx].None? then Error else Success)
      ensures midiFileData[fileIdx].None? ==>
                tracks == null && numTracks == 0
                && format == old(format) && divisions == old(divisions) && tempo == old(tempo)
      ensures midiFileData[fileIdx].Some? ==> fresh(tracks)
      ensures midiFileData[fileIdx].Some? ==> HoldsParse(midiFileData[fileIdx].value)
    {
      ClearTracks();
      var file := midiFileData[fileIdx];
      if file.None? {
        return Error;
      }
      var data := file.value;
      var hdrLength := InlineNtohl(LoadU32(data, 4));
      NtohlReadsBigEndian(data, 4);
      var cursor: nat := 8 + hdrLength as int;
      format := Ntohs(LoadU16(data, 8));
      NtohsReadsBigEndian(data, 8);
      divisions := Ntohs(LoadU16(data, 12));
      NtohsReadsBigEndian(data, 12);
      numTracks := Ntohs(LoadU16(data, 10));
      NtohsReadsBigEndian(data, 10);
      tracks := ReadTrackChunks(data, cursor, numTracks);
      tempo := DefaultTempo;
      return Success;
    }

    /**
     * Rewinds every track for playback and resets the fade-out state to full volume. Each
     * track's cursor and remembered start go to its first byte, it is marked playing, and its
     * leading delta-time is decoded with the cursor left just past it. The decoder reads
     * without a bound, so every track must hold a terminated quantity.
     */
    method LoadTracks()
      requires Valid()
      requires tracks != null ==> forall k :: 0 <= k < tracks.Length ==> Terminated(tracks[k].trackData, 0)
      modifies this`fadeOutVolumeMultiplier, this`unk2dc, this`fadeOutFlag, this`unk128, this`unk130, tracks
      ensures Valid()
      ensures fadeOutVolumeMultiplier == 1.0 && unk2dc == 0 && fadeOutFlag == 0 && unk128 == 0 && unk130 == 0
      ensures tracks != null ==> forall k :: 0 <= k < tracks.Length ==> tracks[k] == Primed(old(tracks[k]))
    {
      fadeOutVolumeMultiplier := 1.0;
      unk2dc := 0;
      fadeOutFlag := 0;
      unk128 := 0;
      unk130 := 0;
      var trackIndex := 0;
      while trackIndex < numTracks
        invariant 0 <= trackIndex <= numTracks && Valid()
        modifies tracks
        invariant tracks != null ==> forall k :: 0 <= k < trackIndex ==> tracks[k] == Primed(old(tracks[k]))
        invariant tracks != null ==> forall k :: trackIndex <= k < tracks.Length ==> tracks[k] == old(tracks[k])
      {
        var track := tracks[trackIndex];
        var length, next := SkipVariableLength(track.trackData, 0);
        tracks[trackIndex] := track.(curTrackDataCursor := At(next),
                                     startTrackDataMaybe := At(0),
                                     trackPlaying := 1,
                                     trackLengthOther := length);
        trackIndex := trackIndex + 1;
      }
    }

    // -------------------------------------------------------------- the header table

    /**
     * Releases the first header slot holding `pmh` and unprepares `pmh` on the device,
     * succeeding whatever the device answers; with no slot holding `pmh` it is an error and
     * nothing changes. A NULL `pmh` matches an empty slot and is then dereferenced, so NULL is
     * only allowed when no slot is empty.
     */
    method UnprepareHeader(pmh: MidiHdr?) returns (r: ZunResult)
      requires Valid()
      requires pmh != null || null !in midiHeaders[..]
      modifies midiHeaders, midiOutDev`deviceCalls
      ensures midiHeaders[..] == Unprepared(old(midiHeaders[..]), pmh)
      ensures r == (if pmh in old(midiHeaders[..]) then Success else Error)
      ensures midiOutDev.deviceCalls
           == old(midiOutDev.deviceCalls)
              + (if pmh in old(midiHeaders[..]) then [OutUnprepareHeader(midiOutDev.handle, pmh)] else [])
    {
      var i := 0;
      while i < Slots
        invariant 0 <= i <= Slots
        invariant forall j :: 0 <= j < i ==> midiHeaders[j] != pmh
      {
        if midiHeaders[i] == pmh {
          FirstIndexAt(midiHeaders[..], pmh, i);
          midiHeaders[i] := null;
          midiOutDev.deviceCalls := midiOutDev.deviceCalls + [OutUnprepareHeader(midiOutDev.handle, pmh)];
          return Success;
        }
        i := i + 1;
      }
      FirstIndexFinds(midiHeaders[..], pmh);
      return Error;
    }

    /**
     * The reclaim loop of `StopPlayback`: 32 passes over the header slot at the cursor, each
     * unpreparing the header found there, if any.
     */
    method ReclaimCursorSlot()
      requires Valid()
      modifies midiHeaders, midiOutDev`deviceCalls
      ensures midiHeaders[..] == ReclaimPasses(old(midiHeaders[..]), midiHeadersCursor, Slots)
      ensures midiOutDev.deviceCalls
           == old(midiOutDev.deviceCalls) + PassCalls(old(midiHeaders[..]), midiHeadersCursor, midiOutDev.handle, Slots)
    {
      var c := midiHeadersCursor;
      ghost var s0 := midiHeaders[..];
      ghost var calls0 := midiOutDev.deviceCalls;
      ghost var h := midiOutDev.handle;
      var i := 0;
      while i < Slots
        invariant 0 <= i <= Slots
        invariant midiHeaders[..] == ReclaimPasses(s0, c, i)
        invariant midiOutDev.deviceCalls == calls0 + PassCalls(s0, c, h, i)
        modifies midiHeaders, midiOutDev`deviceCalls
      {
        ghost var cur := midiHeaders[..];
        ReclaimAdvance(s0, c, i);
        PassCallsAdvance(s0, c, h, i);
        if midiHeaders[c] != null {
          var hdr := midiHeaders[c];
          assert hdr == cur[c] && hdr in cur;
          var _ := UnprepareHeader(hdr);
        }
        i := i + 1;
      }
    }

    /** The device, timer and header slots as `StopPlayback` leaves them, from what they were. */
    ghost predicate Stopped(slots: seq<MidiHdr?>, cursor: nat, device: DeviceState, id: u32, timerLog: seq<TimerCall>)
      reads midiHeaders, midiOutDev, timer
    {
      |slots| == Slots && cursor < Slots
      && midiHeaders[..] == Reclaimed(slots, cursor)
      && midiOutDev.State()
         == Closing(device.(calls := device.calls + PassCalls(slots, cursor, device.handle, Slots)))
      && timer.timerId == 0 && timer.timerCalls == timerLog + StopCalls(id)
    }

    /**
     * With no track table, an error that changes nothing. Otherwise 32 passes over the
     * header slot at the cursor, unpreparing whatever header sits there, then the timer is
     * stopped and the device closed. The cursor never moves, so the slots reclaimed are the
     * cursor slot and earlier copies of its header.
     */
    method StopPlayback() returns (r: ZunResult)
      requires Valid()
      modifies midiHeaders, midiOutDev, timer
      ensures r == (if tracks == null then Error else Success)
      ensures tracks == null ==> unchanged(midiHeaders, midiOutDev, timer)
      ensures tracks != null ==>
                Stopped(old(midiHeaders[..]), midiHeadersCursor, old(midiOutDev.State()),
                        old(timer.timerId), old(timer.timerCalls))
    {
      if tracks == null {
        return Error;
      }
      var c := midiHeadersCursor;
      ghost var s0 := midiHeaders[..];
      ghost var h := midiOutDev.handle;
      ReclaimCursorSlot();
      StopPlaybackReclaim(s0, c, h);
      ghost var dev := midiOutDev.State();
      assert dev == old(midiOutDev.State()).(calls := old(midiOutDev.deviceCalls) + PassCalls(s0, c, h, Slots));
      var _ := timer.StopTimer();
      var _ := midiOutDev.Close();
      assert midiOutDev.State() == Closing(dev);
      return Success;
    }

    // -------------------------------------------------------------- file slots and playback

    /** Frees the file in slot `idx`, leaving it empty. */
    method ReleaseFileData(idx: nat)
      requires Valid() && idx < FileSlots
      modifies midiFileData
      ensures midiFileData[..] == old(midiFileData[..])[idx := None]
    {
      midiFileData[idx] := None;
    }

    /**
     * Outside MIDI music mode, a success that does nothing. Otherwise stops playback, empties
     * slot `idx` and stores the bytes the file read yields there; a failed read is an error
     * and leaves the slot empty.
     */
    method ReadFileData(idx: nat, midiMusic: bool, loaded: Option<seq<u8>>) returns (r: ZunResult)
      requires Valid() && idx < FileSlots
      modifies midiHeaders, midiOutDev, timer, midiFileData
      ensures !midiMusic ==> r == Success && unchanged(midiHeaders, midiOutDev, timer, midiFileData)
      ensures midiMusic ==> r == (if loaded.None? then Error else Success)
      ensures midiMusic ==> midiFileData[..] == old(midiFileData[..])[idx := loaded]
      ensures midiMusic && tracks == null ==> unchanged(midiHeaders, midiOutDev, timer)
      ensures midiMusic && tracks != null ==>
                Stopped(old(midiHeaders[..]), midiHeadersCursor, old(midiOutDev.State()),
                        old(timer.timerId), old(timer.timerCalls))
    {
      if !midiMusic {
        return Success;
      }
      var _ := StopPlayback();
      ReleaseFileData(idx);
      midiFileData[idx] := loaded;
      if midiFileData[idx].None? {
        return Error;
      }
      return Success;
    }

    /**
     * Reads a file into slot 0x1f, parses it into the track table and empties the slot
     * again. A failed read is an error that parses nothing. Outside MIDI music mode nothing
     * is read and whatever slot 0x1f held is parsed; the result of the parse is ignored.
     */
    method LoadFile(midiMusic: bool, loaded: Option<seq<u8>>) returns (r: ZunResult)
      requires Valid()
      requires midiMusic && loaded.Some? ==> Parsable(loaded.value)
      requires !midiMusic && midiFileData[LoadSlot].Some? ==> Parsable(midiFileData[LoadSlot].value)
      modifies this`tracks, this`numTracks, this`format, this`divisions, this`tempo
      modifies midiHeaders, midiOutDev, timer, midiFileData
      ensures Valid()
      ensures r == (if midiMusic && loaded.None? then Error else Success)
      ensures midiFileData[..] == old(midiFileData[..])[LoadSlot := None]
      ensures !midiMusic ==> unchanged(midiHeaders, midiOutDev, timer)
      ensures midiMusic && old(tracks) == null ==> unchanged(midiHeaders, midiOutDev, timer)
      ensures midiMusic && old(tracks) != null ==>
                Stopped(old(midiHeaders[..]), midiHeadersCursor, old(midiOutDev.State()),
                        old(timer.timerId), old(timer.timerCalls))
      ensures midiMusic && loaded.None? ==>
                tracks == old(tracks) && numTracks == old(numTracks)
                && format == old(format) && divisions == old(divisions) && tempo == old(tempo)
      ensures midiMusic && loaded.Some? ==> fresh(tracks) && HoldsParse(loaded.value)
      ensures !midiMusic && old(midiFileData[LoadSlot]).Some? ==>
                fresh(tracks) && HoldsParse(old(midiFileData[LoadSlot]).value)
      ensures !midiMusic && old(midiFileData[LoadSlot]).None? ==>
                tracks == null && numTracks == 0
                && format == old(format) && divisions == old(divisions) && tempo == old(tempo)
    {
      var read := ReadFileData(LoadSlot, midiMusic, loaded);
      if read != Success {
        return Error;
      }
      var _ := ParseFile(LoadSlot);
      ReleaseFileData(LoadSlot);
      return Success;
    }

    /**
     * With no track table, an error that changes nothing. Otherwise rewinds the tracks,
     * opens the MIDI mapper (ignoring whether that worked) and starts the 1 ms playback timer
     * with the default callback; `openStatus`, `openedHandle` and `newTimerId` are what the
     * system answers.
     */
    method Play(openStatus: MMResult, openedHandle: Handle, newTimerId: u32) returns (r: ZunResult)
      requires Valid()
      requires tracks != null ==> forall k :: 0 <= k < tracks.Length ==> Terminated(tracks[k].trackData, 0)
      modifies this`fadeOutVolumeMultiplier, this`unk2dc, this`fadeOutFlag, this`unk128, this`unk130, tracks
      modifies midiOutDev, timer
      ensures Valid()
      ensures r == (if tracks == null then Error else Success)
      ensures tracks == null ==>
                unchanged(this, midiOutDev, timer)
      ensures tracks != null ==>
                fadeOutVolumeMultiplier == 1.0 && unk2dc == 0 && fadeOutFlag == 0 && unk128 == 0 && unk130 == 0
                && (forall k :: 0 <= k < tracks.Length ==> tracks[k] == Primed(old(tracks[k])))
                && midiOutDev.State() == Opening(old(midiOutDev.State()), MidiMapper, openedHandle)
                && timer.timerId == newTimerId
                && timer.timerCalls
                   == old(timer.timerCalls) + StopCalls(old(timer.timerId))
                      + [TimeSetEvent(PlayTimerDelay, DefaultCallback)]
    {
      if tracks == null {
        return Error;
      }
      LoadTracks();
      var _ := midiOutDev.OpenDevice(MidiMapper, openStatus, openedHandle);
      var _ := timer.StartTimer(PlayTimerDelay, 0, 0, newTimerId);
      return Success;
    }

    /** Starts a fade-out over `ms` milliseconds from silence, and returns 0. */
    method SetFadeOut(ms: u32) returns (r: u32)
      modifies this`fadeOutVolumeMultiplier, this`fadeOutInterval, this`fadeOutElapsedMS, this`unk2dc, this`fadeOutFlag
      ensures r == 0
      ensures fadeOutVolumeMultiplier == 0.0 && fadeOutInterval == ms && fadeOutElapsedMS == 0
      ensures unk2dc == 0 && fadeOutFlag == 1
    {
      fadeOutVolumeMultiplier := 0.0;
      fadeOutInterval := ms;
      fadeOutElapsedMS := 0;
      unk2dc := 0;
      fadeOutFlag := 1;
      return 0;
    }
  }
}
