/**
 * Variable-length quantities of the Standard MIDI File format (delta-times and some
 * lengths): `MidiOutput::SkipVariableLength`, which decodes one and moves a cursor past
 * it, and the base-128 encoding it inverts.
 */
module Vlq {
  import opened Zun

  /** The continuation bit `b & 0x80` is set: more bytes of the quantity follow. */
  predicate Continues(b: u8)
  {
    b >= 0x80
  }

  /** The seven payload bits `b & 0x7F`. */
  function Payload(b: u8): (p: int)
  {
    b % 0x80
  }

  /** Some byte at or after `pos` has its continuation bit clear, so decoding stops inside `data`. */
  predicate Terminated(data: seq<u8>, pos: nat)
  {
    exists k :: pos <= k < |data| && !Continues(data[k])
  }

  /** One past the first byte at or after `pos` whose continuation bit is clear. */
  function QuantityEnd(data: seq<u8>, pos: nat): (e: nat)
    requires Terminated(data, pos)
    ensures pos < e <= |data| && !Continues(data[e - 1])
    ensures forall k :: pos <= k < e - 1 ==> Continues(data[k])
    decreases |data| - pos
  {
    if !Continues(data[pos]) then pos + 1 else QuantityEnd(data, pos + 1)
  }

  /**
   * The value the decoding loop accumulates over `bs`: `v * 128 + (b & 0x7F)` for each
   * byte in turn, starting from 0, in unsigned 32-bit arithmetic.
   */
  function Accumulate(bs: seq<u8>): (v: u32)
  {
    if bs == [] then 0
    else (Accumulate(bs[..|bs| - 1]) * 0x80 + Payload(bs[|bs| - 1])) % 0x1_0000_0000
  }

  /**
   * `MidiOutput::SkipVariableLength`: reads the bytes from `cursor` up to and including
   * the first one whose continuation bit is clear, and returns the value they encode and
   * the cursor just past them. The source reads through the cursor without a bound, so
   * the terminating byte must lie inside `data`.
   */
  method SkipVariableLength(data: seq<u8>, cursor: nat) returns (length: u32, next: nat)
    requires Terminated(data, cursor)
    ensures cursor < next <= |data| && next == QuantityEnd(data, cursor)
    ensures !Continues(data[next - 1]) && forall k :: cursor <= k < next - 1 ==> Continues(data[k])
    ensures length == Accumulate(data[cursor..next])
  {
    length := 0;
    next := cursor;
    while true
      invariant cursor <= next < QuantityEnd(data, cursor)
      invariant forall k :: cursor <= k < next ==> Continues(data[k])
      invariant length == Accumulate(data[cursor..next])
      decreases QuantityEnd(data, cursor) - next
    {
      var tmp := data[next];
      AccumulateStep(data, cursor, next);
      next := next + 1;
      length := (length * 0x80 + Payload(tmp)) % 0x1_0000_0000;
      if !Continues(tmp) {
        break;
      }
    }
  }

  /** Extending the decoded bytes by the next one is one more step of the decoding loop. */
  lemma AccumulateStep(data: seq<u8>, from: nat, to: nat)
    requires from <= to < |data|
    ensures Accumulate(data[from..to + 1])
         == (Accumulate(data[from..to]) * 0x80 + Payload(data[to])) % 0x1_0000_0000
  {
    assert data[from..to + 1][..to - from] == data[from..to];
  }

  /** The same accumulation over unbounded integers. */
  function Fold(bs: seq<u8>): (v: nat)
  {
    if bs == [] then 0 else Fold(bs[..|bs| - 1]) * 0x80 + Payload(bs[|bs| - 1])
  }

  /** Wrapping at every step, as the 32-bit loop does, is wrapping the unbounded value once. */
  lemma {:induction false} AccumulateIsFoldModulo(bs: seq<u8>)
    ensures Accumulate(bs) == Fold(bs) % 0x1_0000_0000
  {
    if bs != [] {
      var init := bs[..|bs| - 1];
      AccumulateIsFoldModulo(init);
      WrapStep(Fold(init), Payload(bs[|bs| - 1]));
    }
  }

  lemma WrapStep(a: nat, c: nat)
    ensures ((a % 0x1_0000_0000) * 0x80 + c) % 0x1_0000_0000 == (a * 0x80 + c) % 0x1_0000_0000
  {
    var m := 0x1_0000_0000;
    var q := a / m;
    assert a == q * m + a % m;
    assert a * 0x80 + c == (a % m) * 0x80 + c + (q * 0x80) * m;
    AddMultiple((a % m) * 0x80 + c, q * 0x80);
  }

  lemma {:induction false} AddMultiple(x: nat, k: nat)
    ensures (x + k * 0x1_0000_0000) % 0x1_0000_0000 == x % 0x1_0000_0000
  {
    if k > 0 {
      var y := x + (k - 1) * 0x1_0000_0000;
      AddMultiple(x, k - 1);
      assert x + k * 0x1_0000_0000 == y + 0x1_0000_0000;
    }
  }

  // ---------------------------------------------------------------- the encoding

  /** The continuation bytes carrying the base-128 digits of `q`, most significant first. */
  function Leading(q: nat): (bs: seq<u8>)
    ensures forall k :: 0 <= k < |bs| ==> Continues(bs[k])
    decreases q
  {
    if q == 0 then [] else Leading(q / 0x80) + [q % 0x80 + 0x80]
  }

  /**
   * The variable-length quantity for `v`: its base-128 digits, most significant first,
   * with the continuation bit set on every byte but the last.
   */
  function Encode(v: nat): (bs: seq<u8>)
    ensures |bs| >= 1 && !Continues(bs[|bs| - 1])
    ensures forall k :: 0 <= k < |bs| - 1 ==> Continues(bs[k])
  {
    Leading(v / 0x80) + [v % 0x80]
  }

  function Pow128(n: nat): (p: nat)
    ensures p >= 1
  {
    if n == 0 then 1 else 0x80 * Pow128(n - 1)
  }

  /** The continuation bytes of `q` decode to `q` while no intermediate value wraps. */
  lemma {:induction false} AccumulateLeading(q: nat)
    requires q < 0x200_0000
    ensures Accumulate(Leading(q)) == q
    decreases q
  {
    if q != 0 {
      var d, r := q / 0x80, q % 0x80 + 0x80;
      AccumulateLeading(d);
      AccumulateSnoc(Leading(d), r);
      assert d * 0x80 + Payload(r) == q;
    }
  }

  /** Decoding an encoded 32-bit value gives it back. */
  lemma DecodeEncode(v: u32)
    ensures Accumulate(Encode(v)) == v
  {
    var q, r := v / 0x80, v % 0x80;
    AccumulateLeading(q);
    AccumulateSnoc(Leading(q), r);
    assert Payload(r) == r;
    WrapBelow(q * 0x80 + r);
  }

  lemma WrapBelow(x: int)
    requires 0 <= x < 0x1_0000_0000
    ensures x % 0x1_0000_0000 == x
  {
  }

  /** Accumulating one more byte is one more step of the loop. */
  lemma AccumulateSnoc(init: seq<u8>, b: u8)
    ensures Accumulate(init + [b]) == (Accumulate(init) * 0x80 + Payload(b)) % 0x1_0000_0000
  {
    assert (init + [b])[..|init|] == init;
  }

  /** `q` needs at most `n` continuation bytes exactly when it is below 128^n. */
  lemma {:induction false} LeadingLength(q: nat, n: nat)
    ensures |Leading(q)| <= n <==> q < Pow128(n)
    decreases q
  {
    if q != 0 && n != 0 {
      LeadingLength(q / 0x80, n - 1);
    }
  }

  /**
   * A quantity is at most four bytes long, the Standard MIDI File limit, exactly when
   * its value is below 0x1000_0000.
   */
  lemma EncodeLength(v: nat)
    ensures |Encode(v)| <= 4 <==> v < 0x1000_0000
  {
    LeadingLength(v / 0x80, 3);
    assert Pow128(3) == 0x20_0000;
  }

  /**
   * An encoded quantity placed anywhere in a buffer is terminated inside it, ends where
   * the encoding ends, and decodes to its value: the cursor moves past exactly
   * `|Encode(v)|` bytes.
   */
  lemma QuantityWithin(pre: seq<u8>, v: u32, post: seq<u8>)
    ensures Terminated(pre + Encode(v) + post, |pre|)
    ensures QuantityEnd(pre + Encode(v) + post, |pre|) == |pre| + |Encode(v)|
    ensures Accumulate((pre + Encode(v) + post)[|pre|..|pre| + |Encode(v)|]) == v
  {
    var bs := Encode(v);
    var data := pre + bs + post;
    var last := |pre| + |bs| - 1;
    assert data[last] == bs[|bs| - 1];
    assert Terminated(data, |pre|);
    assert forall k :: |pre| <= k < last ==> data[k] == bs[k - |pre|];
    assert data[|pre|..|pre| + |bs|] == bs;
    DecodeEncode(v);
  }
}
