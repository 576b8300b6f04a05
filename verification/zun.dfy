/** Fixed-width integer types and result codes shared by the MIDI playback engine. */
module Zun {
  /**
   * An unsigned 8-bit byte as stored in a MIDI file or a MIDI message. Bytes are
   * integers, so the masks `b & 0x7F` and `b & 0x80` are written `b % 0x80` and `b >= 0x80`.
   */
  type u8 = x: int | 0 <= x < 0x100

  /** Unsigned 16- and 32-bit machine integers. */
  type u16 = x: int | 0 <= x < 0x1_0000
  type u32 = x: int | 0 <= x < 0x1_0000_0000

  /** The game's result code: `ZUN_SUCCESS` or `ZUN_ERROR`. */
  datatype ZunResult = Success | Error

  datatype Option<T> = None | Some(value: T)
}
