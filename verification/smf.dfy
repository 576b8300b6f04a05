/**
 * The Standard MIDI File layout as `MidiOutput::ParseFile` walks it (an `MThd` header
 * chunk followed by `MTrk` track chunks, each introduced by a 4-byte tag and a big-endian
 * 32-bit length), the `MidiTrack` records it builds, and the state
 * `MidiOutput::LoadTracks` primes each record to.
 */
module Smf {
  import opened Zun
  import opened ByteOrder
  import opened Vlq

  /** A pointer into a track's own buffer: NULL, or the offset from the buffer's start. */
  datatype Cursor = Null | At(offset: nat)

  /**
   * A `MidiTrack` record: the declared chunk length, the track's private copy of the chunk
   * body, the read cursor, the remembered start of the events, the playing flag and the
   * decoded delta-time before the next event.
   */
  datatype MidiTrack = MidiTrack(
    trackLength: u32,
    trackData: seq<u8>,
    curTrackDataCursor: Cursor,
    startTrackDataMaybe: Cursor,
    trackPlaying: int,
    trackLengthOther: u32)

  /** A record as `memset` to zero leaves it: no buffer, null pointers, not playing. */
  const ZeroTrack := MidiTrack(0, [], Null, Null, 0, 0)

  /** The playback tempo `ParseFile` sets, in microseconds per quarter note. */
  const DefaultTempo := 1000000

  // ---------------------------------------------------------------- the header chunk

  /** The length of the header chunk's body, from bytes 4..7. */
  function HeaderLength(data: seq<u8>): (len: u32)
    requires |data| >= 8
  {
    BigEndian32(data, 4)
  }

  /** The three big-endian fields at the start of the header chunk's body. */
  function Format(data: seq<u8>): (f: u16)
    requires |data| >= 14
  {
    BigEndian16(data, 8)
  }

  function NumTracks(data: seq<u8>): (n: u16)
    requires |data| >= 14
  {
    BigEndian16(data, 10)
  }

  function Division(data: seq<u8>): (d: u16)
    requires |data| >= 14
  {
    BigEndian16(data, 12)
  }

  /** The first track chunk follows the header chunk's declared body, whatever its length. */
  function FirstChunk(data: seq<u8>): (off: nat)
    requires |data| >= 8
  {
    8 + HeaderLength(data)
  }

  // ---------------------------------------------------------------- the track chunks

  /** The body length declared by the chunk preamble at `off`. */
  function ChunkLength(data: seq<u8>, off: nat): (len: u32)
    requires off + 8 <= |data|
  {
    BigEndian32(data, off + 4)
  }

  /** Where the chunk after the one at `off` starts: past its preamble and its declared body. */
  function NextChunk(data: seq<u8>, off: nat): (next: nat)
    requires off + 8 <= |data|
  {
    off + 8 + ChunkLength(data, off)
  }

  /** The chunk at `off` has its preamble and its declared body inside `data`. */
  predicate ChunkFits(data: seq<u8>, off: nat)
  {
    off + 8 <= |data| && NextChunk(data, off) <= |data|
  }

  /** `n` consecutive chunks starting at `off` all fit. */
  predicate ChunksFit(data: seq<u8>, off: nat, n: nat)
    decreases n
  {
    n == 0 || (ChunkFits(data, off) && ChunksFit(data, NextChunk(data, off), n - 1))
  }

  /**
   * Every read `ParseFile` makes lies inside `data`: the 8-byte header preamble, the six
   * bytes of header fields, and each declared track chunk. The source checks none of this.
   */
  predicate Parsable(data: seq<u8>)
  {
    |data| >= 14 && ChunksFit(data, FirstChunk(data), NumTracks(data))
  }

  /** Where chunk `k` starts when chunk 0 starts at `off`. */
  function ChunkOffset(data: seq<u8>, off: nat, k: nat): (at: nat)
    requires ChunksFit(data, off, k)
    decreases k
  {
    if k == 0 then off else ChunkOffset(data, NextChunk(data, off), k - 1)
  }

  /** The record `ParseFile` fills in for the chunk at `off`: its length, a copy of its body, playing. */
  function ParsedTrack(data: seq<u8>, off: nat): (t: MidiTrack)
    requires ChunkFits(data, off)
  {
    ZeroTrack.(trackLength := ChunkLength(data, off),
               trackData := data[off + 8..NextChunk(data, off)],
               trackPlaying := 1)
  }

  /** The records for `n` consecutive chunks starting at `off`. */
  function ParsedTracks(data: seq<u8>, off: nat, n: nat): (ts: seq<MidiTrack>)
    requires ChunksFit(data, off, n)
    ensures |ts| == n
    decreases n
  {
    if n == 0 then [] else [ParsedTrack(data, off)] + ParsedTracks(data, NextChunk(data, off), n - 1)
  }

  /**
   * One step of the parse loop: if `n` chunks fit then so do the first `i` and `i + 1`
   * for `i < n`, chunk `i` fits, chunk `i + 1` starts 8 + its declared length after it,
   * and the records for `i + 1` chunks extend those for `i` by chunk `i`'s record.
   */
  lemma {:induction false} ChunkWalk(data: seq<u8>, off: nat, i: nat, n: nat)
    requires i < n && ChunksFit(data, off, n)
    ensures ChunksFit(data, off, i) && ChunksFit(data, off, i + 1)
    ensures ChunkFits(data, ChunkOffset(data, off, i))
    ensures ChunkOffset(data, off, i + 1) == NextChunk(data, ChunkOffset(data, off, i))
    ensures ParsedTracks(data, off, i + 1)
         == ParsedTracks(data, off, i) + [ParsedTrack(data, ChunkOffset(data, off, i))]
    decreases i
  {
    if i > 0 {
      var next := NextChunk(data, off);
      ChunkWalk(data, next, i - 1, n - 1);
      assert ParsedTracks(data, off, i + 1) == [ParsedTrack(data, off)] + ParsedTracks(data, next, i);
      assert ParsedTracks(data, off, i) == [ParsedTrack(data, off)] + ParsedTracks(data, next, i - 1);
    }
  }

  /**
   * The parse loop's step at the start `cursor` of chunk `i` of `n`: the chunk's preamble
   * and body fit, chunk `i + 1` starts past them, and record `i` of the parse is this
   * chunk's declared length and body.
   */
  lemma ParseStep(data: seq<u8>, first: nat, i: nat, n: nat, cursor: nat)
    requires i < n && ChunksFit(data, first, n) && ChunksFit(data, first, i)
    requires cursor == ChunkOffset(data, first, i)
    ensures cursor + 8 <= |data| && cursor + 8 + BigEndian32(data, cursor + 4) <= |data|
    ensures ChunksFit(data, first, i + 1)
    ensures ChunkOffset(data, first, i + 1) == cursor + 8 + BigEndian32(data, cursor + 4)
    ensures ParsedTracks(data, first, n)[i]
         == ZeroTrack.(trackLength := BigEndian32(data, cursor + 4),
                       trackData := data[cursor + 8..cursor + 8 + BigEndian32(data, cursor + 4)],
                       trackPlaying := 1)
  {
    ChunkWalk(data, first, i, n);
    ParsedTrackAt(data, first, n, i);
  }

  /** Record `k` of a parse is the copy of the `trackLength` bytes 8 after chunk `k`'s start. */
  lemma {:induction false} ParsedTrackAt(data: seq<u8>, off: nat, n: nat, k: nat)
    requires k < n && ChunksFit(data, off, n)
    ensures ChunksFit(data, off, k) && ChunkFits(data, ChunkOffset(data, off, k))
    ensures ParsedTracks(data, off, n)[k] == ParsedTrack(data, ChunkOffset(data, off, k))
    decreases k
  {
    if k == 0 {
    } else {
      ParsedTrackAt(data, NextChunk(data, off), n - 1, k - 1);
    }
  }

  // ---------------------------------------------------------------- a reference writer

  /** The chunk tags. The parser reads past them without looking at them. */
  const HeaderTag: seq<u8> := [0x4D, 0x54, 0x68, 0x64]
  const TrackTag: seq<u8> := [0x4D, 0x54, 0x72, 0x6B]

  predicate BodiesFit(bodies: seq<seq<u8>>)
  {
    forall k :: 0 <= k < |bodies| ==> |bodies[k]| < 0x1_0000_0000
  }

  /** The track chunks holding `bodies`, one after another. */
  function TrackChunks(bodies: seq<seq<u8>>): (b: seq<u8>)
    requires BodiesFit(bodies)
  {
    if bodies == [] then []
    else TrackTag + BigEndianBytes32(|bodies[0]|) + bodies[0] + TrackChunks(bodies[1..])
  }

  /** A Standard MIDI File with a six-byte header chunk and one track chunk per body. */
  function WriteFile(format: u16, division: u16, bodies: seq<seq<u8>>): (data: seq<u8>)
    requires |bodies| < 0x1_0000 && BodiesFit(bodies)
  {
    HeaderChunk(format, |bodies|, division) + TrackChunks(bodies)
  }

  /** The header chunk: its tag, the body length 6, and the three fields. */
  function HeaderChunk(format: u16, ntrks: u16, division: u16): (h: seq<u8>)
    ensures |h| == 14
  {
    HeaderTag + BigEndianBytes32(6) + HeaderFields(format, ntrks, division)
  }

  function HeaderFields(format: u16, ntrks: u16, division: u16): (b: seq<u8>)
  {
    BigEndianBytes16(format) + BigEndianBytes16(ntrks) + BigEndianBytes16(division)
  }

  /** The record a parse should produce for a track holding `body`. */
  function LoadedTrack(body: seq<u8>): (t: MidiTrack)
    requires |body| < 0x1_0000_0000
  {
    ZeroTrack.(trackLength := |body|, trackData := body, trackPlaying := 1)
  }

  /** One written track chunk, wherever it sits, parses back to its body. */
  lemma ParseTrackChunk(data: seq<u8>, off: nat, body: seq<u8>)
    requires |body| < 0x1_0000_0000 && off + 8 + |body| <= |data|
    requires data[off..off + 8 + |body|] == TrackTag + BigEndianBytes32(|body|) + body
    ensures ChunkFits(data, off) && NextChunk(data, off) == off + 8 + |body|
    ensures ParsedTrack(data, off) == LoadedTrack(body)
  {
    var chunk := TrackTag + BigEndianBytes32(|body|) + body;
    forall j | 0 <= j < 4
      ensures data[off + 4 + j] == BigEndianBytes32(|body|)[j]
    {
      assert data[off + 4 + j] == chunk[4 + j];
    }
    assert ChunkLength(data, off) == BigEndian32(BigEndianBytes32(|body|), 0);
    assert data[off + 8..off + 8 + |body|] == chunk[8..];
  }

  /** The records a parse should produce for tracks holding `bodies`. */
  function LoadedTracks(bodies: seq<seq<u8>>): (ts: seq<MidiTrack>)
    requires BodiesFit(bodies)
    ensures |ts| == |bodies|
  {
    if bodies == [] then [] else [LoadedTrack(bodies[0])] + LoadedTracks(bodies[1..])
  }

  lemma {:induction false} LoadedTracksAt(bodies: seq<seq<u8>>, k: nat)
    requires BodiesFit(bodies) && k < |bodies|
    ensures LoadedTracks(bodies)[k] == LoadedTrack(bodies[k])
    decreases k
  {
    if k > 0 {
      LoadedTracksAt(bodies[1..], k - 1);
    }
  }

  /** Two runs of bytes that sit side by side in `data` each sit there on their own. */
  lemma SliceSplit(data: seq<u8>, off: nat, a: seq<u8>, b: seq<u8>)
    requires off + |a| + |b| <= |data| && data[off..off + |a| + |b|] == a + b
    ensures data[off..off + |a|] == a
    ensures data[off + |a|..off + |a| + |b|] == b
  {
    assert data[off..off + |a|] == (a + b)[..|a|];
    assert data[off + |a|..off + |a| + |b|] == (a + b)[|a|..];
  }

  /** Written track chunks, wherever they sit, parse back to their bodies. */
  lemma {:induction false} ParseTrackChunks(data: seq<u8>, off: nat, bodies: seq<seq<u8>>)
    requires BodiesFit(bodies) && off + |TrackChunks(bodies)| <= |data|
    requires data[off..off + |TrackChunks(bodies)|] == TrackChunks(bodies)
    ensures ChunksFit(data, off, |bodies|)
    ensures ParsedTracks(data, off, |bodies|) == LoadedTracks(bodies)
    decreases |bodies|
  {
    if bodies != [] {
      var body, rest := bodies[0], bodies[1..];
      var chunk := TrackTag + BigEndianBytes32(|body|) + body;
      SliceSplit(data, off, chunk, TrackChunks(rest));
      ParseTrackChunk(data, off, body);
      ParseTrackChunks(data, off + |chunk|, rest);
    }
  }

  /**
   * Parsing a written file gives back its format, track count and division, and one
   * record per body holding a copy of that body.
   */
  lemma ParseWrittenFile(format: u16, division: u16, bodies: seq<seq<u8>>)
    requires |bodies| < 0x1_0000 && BodiesFit(bodies)
    ensures Parsable(WriteFile(format, division, bodies))
    ensures Format(WriteFile(format, division, bodies)) == format
    ensures NumTracks(WriteFile(format, division, bodies)) == |bodies|
    ensures Division(WriteFile(format, division, bodies)) == division
    ensures FirstChunk(WriteFile(format, division, bodies)) == 14
    ensures var data := WriteFile(format, division, bodies);
            ParsedTracks(data, FirstChunk(data), |bodies|) == LoadedTracks(bodies)
  {
    var data := WriteFile(format, division, bodies);
    var header := HeaderChunk(format, |bodies|, division);
    assert data == header + TrackChunks(bodies);
    assert data[..14] == header;
    assert data[14..] == TrackChunks(bodies);
    ParseLaidOut(data, format, division, bodies);
  }

  /** Bytes laid out as a header chunk followed by track chunks parse back to what was laid out. */
  lemma ParseLaidOut(data: seq<u8>, format: u16, division: u16, bodies: seq<seq<u8>>)
    requires |bodies| < 0x1_0000 && BodiesFit(bodies) && |data| >= 14
    requires data[..14] == HeaderChunk(format, |bodies|, division) && data[14..] == TrackChunks(bodies)
    ensures Parsable(data) && FirstChunk(data) == 14
    ensures Format(data) == format && NumTracks(data) == |bodies| && Division(data) == division
    ensures ParsedTracks(data, 14, |bodies|) == LoadedTracks(bodies)
  {
    var chunks := TrackChunks(bodies);
    WrittenHeader(data, format, |bodies|, division);
    assert data[14..14 + |chunks|] == chunks;
    ParseTrackChunks(data, 14, bodies);
  }

  /** A header chunk at the start of `data` gives back its body length 6 and its fields. */
  lemma WrittenHeader(data: seq<u8>, format: u16, ntrks: u16, division: u16)
    requires |data| >= 14 && data[..14] == HeaderChunk(format, ntrks, division)
    ensures HeaderLength(data) == 6 && Format(data) == format
    ensures NumTracks(data) == ntrks && Division(data) == division
  {
    var fields := HeaderFields(format, ntrks, division);
    assert data[0..14] == HeaderTag + BigEndianBytes32(6) + fields;
    SliceSplit(data, 0, HeaderTag + BigEndianBytes32(6), fields);
    SliceSplit(data, 0, HeaderTag, BigEndianBytes32(6));
    FieldAt32(data, 4, BigEndianBytes32(6));
    SliceSplit(data, 8, BigEndianBytes16(format), BigEndianBytes16(ntrks) + BigEndianBytes16(division));
    SliceSplit(data, 10, BigEndianBytes16(ntrks), BigEndianBytes16(division));
    FieldAt16(data, 8, BigEndianBytes16(format));
    FieldAt16(data, 10, BigEndianBytes16(ntrks));
    FieldAt16(data, 12, BigEndianBytes16(division));
  }

  /** A field reads the same at `off` as at the start of the bytes found there. */
  lemma FieldAt16(data: seq<u8>, off: nat, b: seq<u8>)
    requires |b| == 2 && off + 2 <= |data| && data[off..off + 2] == b
    ensures BigEndian16(data, off) == BigEndian16(b, 0)
  {
    assert data[off] == b[0] && data[off + 1] == b[1];
  }

  lemma FieldAt32(data: seq<u8>, off: nat, b: seq<u8>)
    requires |b| == 4 && off + 4 <= |data| && data[off..off + 4] == b
    ensures BigEndian32(data, off) == BigEndian32(b, 0)
  {
    assert data[off] == b[0] && data[off + 1] == b[1] && data[off + 2] == b[2] && data[off + 3] == b[3];
  }

  // ---------------------------------------------------------------- priming a track

  /**
   * A track as `LoadTracks` leaves it: the cursor and the remembered start at the buffer's
   * first byte, playing, and the leading delta-time decoded with the cursor just past it.
   */
  function Primed(t: MidiTrack): (p: MidiTrack)
    requires Terminated(t.trackData, 0)
  {
    var e := QuantityEnd(t.trackData, 0);
    t.(curTrackDataCursor := At(e),
       startTrackDataMaybe := At(0),
       trackPlaying := 1,
       trackLengthOther := Accumulate(t.trackData[..e]))
  }

  /**
   * A track whose events begin with the delta-time `delta` is primed to count down `delta`
   * with its cursor on the first event; its length and buffer are untouched.
   */
  lemma PrimedFirstDelta(t: MidiTrack, delta: u32, events: seq<u8>)
    requires t.trackData == Encode(delta) + events
    ensures Terminated(t.trackData, 0)
    ensures Primed(t).trackLengthOther == delta
    ensures Primed(t).curTrackDataCursor == At(|Encode(delta)|)
    ensures Primed(t).startTrackDataMaybe == At(0) && Primed(t).trackPlaying == 1
    ensures Primed(t).trackData == t.trackData && Primed(t).trackLength == t.trackLength
  {
    QuantityFirst(delta, events);
  }

  /** An encoded quantity at the start of a buffer is terminated inside it and decodes to its value. */
  lemma QuantityFirst(v: u32, post: seq<u8>)
    ensures Terminated(Encode(v) + post, 0)
    ensures QuantityEnd(Encode(v) + post, 0) == |Encode(v)|
    ensures Accumulate((Encode(v) + post)[..|Encode(v)|]) == v
  {
    QuantityWithin([], v, post);
    assert [] + Encode(v) + post == Encode(v) + post;
  }

  /**
   * Parsing a written file and priming its tracks gives a track whose body starts with the
   * delta-time `delta` that delta-time.
   */
  lemma PrimeWrittenFile(format: u16, division: u16, bodies: seq<seq<u8>>, k: nat, delta: u32, events: seq<u8>)
    requires |bodies| < 0x1_0000 && BodiesFit(bodies) && k < |bodies|
    requires bodies[k] == Encode(delta) + events
    ensures var data := WriteFile(format, division, bodies);
            Parsable(data)
            && Terminated(ParsedTracks(data, FirstChunk(data), NumTracks(data))[k].trackData, 0)
            && Primed(ParsedTracks(data, FirstChunk(data), NumTracks(data))[k]).trackLengthOther == delta
  {
    ParseWrittenFile(format, division, bodies);
    var data := WriteFile(format, division, bodies);
    var t := ParsedTracks(data, FirstChunk(data), NumTracks(data))[k];
    LoadedTracksAt(bodies, k);
    PrimedFirstDelta(t, delta, events);
  }
}
