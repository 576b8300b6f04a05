/**
 * Byte order on the little-endian host the engine runs on: the value a 16- or 32-bit
 * load reads from a run of bytes, the bytes a value occupies in memory, and the byte
 * swaps `Ntohs` and `InlineNtohl` that turn a loaded big-endian field of a Standard MIDI
 * File into its value.
 */
module ByteOrder {
  import opened Zun

  // ---------------------------------------------------------------- 16 bits

  /** The two bytes a 16-bit value occupies in memory, lowest address first. */
  function StoreU16(v: u16): (b: seq<u8>)
  {
    [v % 0x100, v / 0x100]
  }

  /** The value a 16-bit load reads from `s[off]`, `s[off + 1]`. */
  function LoadU16(s: seq<u8>, off: nat): (v: u16)
    requires off + 2 <= |s|
  {
    s[off] as int + 0x100 * s[off + 1] as int
  }

  /** The big-endian 16-bit field at `off`, as the Standard MIDI File format defines it. */
  function BigEndian16(s: seq<u8>, off: nat): (v: u16)
    requires off + 2 <= |s|
  {
    s[off] as int * 0x100 + s[off + 1] as int
  }

  /** Loading the bytes a value was stored as gives the value back, and conversely. */
  lemma LoadStore16(v: u16)
    ensures LoadU16(StoreU16(v), 0) == v
  {}

  lemma StoreLoad16(s: seq<u8>, off: nat)
    requires off + 2 <= |s|
    ensures StoreU16(LoadU16(s, off)) == s[off..off + 2]
  {
    SplitLowByte(s[off], s[off + 1]);
  }

  /** Division by 256 separates the low byte from the rest. */
  lemma SplitLowByte(lo: int, hi: int)
    requires 0 <= lo < 0x100 && 0 <= hi
    ensures (lo + 0x100 * hi) % 0x100 == lo && (lo + 0x100 * hi) / 0x100 == hi
  {}

  /** `MidiOutput::Ntohs`: the value whose two bytes are those of `v` in the other order. */
  function Ntohs(v: u16): (r: u16)
  {
    var b := StoreU16(v);
    LoadU16([b[1], b[0]], 0)
  }

  /** `Ntohs` swaps the two bytes of its argument. */
  lemma NtohsSwaps(v: u16)
    ensures StoreU16(Ntohs(v)) == [StoreU16(v)[1], StoreU16(v)[0]]
  {
    StoreLoad16([StoreU16(v)[1], StoreU16(v)[0]], 0);
  }

  /** Swapping twice gives the value back. */
  lemma NtohsInvolutive(v: u16)
    ensures Ntohs(Ntohs(v)) == v
  {
    var w := Ntohs(Ntohs(v));
    NtohsSwaps(v);
    NtohsSwaps(Ntohs(v));
    assert StoreU16(w) == StoreU16(v);
    LoadStore16(w);
    LoadStore16(v);
  }

  /** A 16-bit load followed by `Ntohs` reads a big-endian field. */
  lemma NtohsReadsBigEndian(s: seq<u8>, off: nat)
    requires off + 2 <= |s|
    ensures Ntohs(LoadU16(s, off)) == BigEndian16(s, off)
  {
    var r := Ntohs(LoadU16(s, off));
    NtohsSwaps(LoadU16(s, off));
    StoreLoad16(s, off);
    assert StoreU16(r) == [s[off + 1], s[off]];
    LoadStore16(r);
  }

  // ---------------------------------------------------------------- 32 bits

  /** The four bytes a 32-bit value occupies in memory, lowest address first. */
  function StoreU32(v: u32): (b: seq<u8>)
  {
    [v % 0x100, v / 0x100 % 0x100, v / 0x1_0000 % 0x100, v / 0x100_0000]
  }

  /** The value a 32-bit load reads from `s[off..off + 4]`. */
  function LoadU32(s: seq<u8>, off: nat): (v: u32)
    requires off + 4 <= |s|
  {
    s[off] as int + 0x100 * s[off + 1] as int + 0x1_0000 * s[off + 2] as int
      + 0x100_0000 * s[off + 3] as int
  }

  /** The big-endian 32-bit field at `off`, as the Standard MIDI File format defines it. */
  function BigEndian32(s: seq<u8>, off: nat): (v: u32)
    requires off + 4 <= |s|
  {
    s[off] as int * 0x100_0000 + s[off + 1] as int * 0x1_0000 + s[off + 2] as int * 0x100
      + s[off + 3] as int
  }

  /** A 32-bit value is the sum of its four base-256 digits. */
  lemma Digits32(v: u32)
    ensures v == v % 0x100 + 0x100 * (v / 0x100 % 0x100)
                 + 0x1_0000 * (v / 0x1_0000 % 0x100) + 0x100_0000 * (v / 0x100_0000)
  {
    var q1 := v / 0x100;
    var q2 := q1 / 0x100;
    var q3 := q2 / 0x100;
    DivDiv(v);
    assert v == v % 0x100 + 0x100 * q1;
    assert q1 == q1 % 0x100 + 0x100 * q2;
    assert q2 == q2 % 0x100 + 0x100 * q3;
  }

  /** Dividing by 256 twice or three times is dividing by 2^16 or 2^24. */
  lemma DivDiv(v: nat)
    ensures v / 0x100 / 0x100 == v / 0x1_0000
    ensures v / 0x100 / 0x100 / 0x100 == v / 0x100_0000
  {}

  lemma LoadStore32(v: u32)
    ensures LoadU32(StoreU32(v), 0) == v
  {
    Digits32(v);
  }

  lemma StoreLoad32(s: seq<u8>, off: nat)
    requires off + 4 <= |s|
    ensures StoreU32(LoadU32(s, off)) == s[off..off + 4]
  {
    var b0, b1, b2, b3 := s[off] as int, s[off + 1] as int, s[off + 2] as int, s[off + 3] as int;
    var v := LoadU32(s, off);
    assert v == b0 + 0x100 * (b1 + 0x100 * (b2 + 0x100 * b3));
    SplitLowByte(b0, b1 + 0x100 * (b2 + 0x100 * b3));
    SplitLowByte(b1, b2 + 0x100 * b3);
    SplitLowByte(b2, b3);
    DivDiv(v);
  }

  /**
   * `InlineNtohl`: the value whose four bytes are those of `v` in reverse order. The
   * scratch buffer the routine writes through is local to its caller and not modelled.
   */
  function InlineNtohl(v: u32): (r: u32)
  {
    var b := StoreU32(v);
    LoadU32([b[3], b[2], b[1], b[0]], 0)
  }

  /** `InlineNtohl` reverses the four bytes of its argument. */
  lemma InlineNtohlReverses(v: u32)
    ensures StoreU32(InlineNtohl(v)) == [StoreU32(v)[3], StoreU32(v)[2], StoreU32(v)[1], StoreU32(v)[0]]
  {
    var b := StoreU32(v);
    StoreLoad32([b[3], b[2], b[1], b[0]], 0);
  }

  /** Reversing twice gives the value back. */
  lemma InlineNtohlInvolutive(v: u32)
    ensures InlineNtohl(InlineNtohl(v)) == v
  {
    var w := InlineNtohl(InlineNtohl(v));
    InlineNtohlReverses(v);
    InlineNtohlReverses(InlineNtohl(v));
    assert StoreU32(w) == StoreU32(v);
    LoadStore32(w);
    LoadStore32(v);
  }

  /** A 32-bit load followed by `InlineNtohl` reads a big-endian field. */
  lemma NtohlReadsBigEndian(s: seq<u8>, off: nat)
    requires off + 4 <= |s|
    ensures InlineNtohl(LoadU32(s, off)) == BigEndian32(s, off)
  {
    var r := InlineNtohl(LoadU32(s, off));
    InlineNtohlReverses(LoadU32(s, off));
    StoreLoad32(s, off);
    assert StoreU32(r) == [s[off + 3], s[off + 2], s[off + 1], s[off]];
    LoadStore32(r);
  }

  // ---------------------------------------------------------------- writing fields

  /** The two bytes of a big-endian 16-bit field holding `v`. */
  function BigEndianBytes16(v: u16): (b: seq<u8>)
    ensures |b| == 2 && BigEndian16(b, 0) == v
  {
    [v / 0x100, v % 0x100]
  }

  /** The four bytes of a big-endian 32-bit field holding `v`. */
  function BigEndianBytes32(v: u32): (b: seq<u8>)
    ensures |b| == 4 && BigEndian32(b, 0) == v
  {
    Digits32(v);
    [v / 0x100_0000, v / 0x1_0000 % 0x100, v / 0x100 % 0x100, v % 0x100]
  }
}
