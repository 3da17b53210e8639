/** Byte framing of the control modems: bits least-significant first, and the search for
    sync / length / payload frames in a decoded bit stream. */
module Framing {
  import opened Trellis

  type Byte = b: int | 0 <= b < 256

  const SYNC: seq<Byte> := [0x2D, 0xD4]

  /** The `n` low bits of a number, lowest first. */
  function LowBits(b: nat, n: nat): (s: seq<bool>)
    ensures |s| == n
  {
    if n == 0 then [] else [b % 2 == 1] + LowBits(b / 2, n - 1)
  }

  function ByteBits(b: Byte): (s: seq<bool>)
    ensures |s| == 8
  {
    LowBits(b, 8)
  }

  /** `_bits_lsb_first`. */
  function BitsLsbFirst(data: seq<Byte>): (s: seq<bool>)
    ensures |s| == 8 * |data|
  {
    if data == [] then [] else BitsLsbFirst(data[..|data| - 1]) + ByteBits(data[|data| - 1])
  }

  function Pow2(n: nat): (p: nat)
    ensures p > 0
  {
    if n == 0 then 1 else 2 * Pow2(n - 1)
  }

  /** The number whose bits, lowest first, are `s`. */
  function Pack(s: seq<bool>): (b: nat)
    ensures b < Pow2(|s|)
  {
    if s == [] then 0 else BitValue(s[0]) + 2 * Pack(s[1..])
  }

  function PackByte(s: seq<bool>): Byte
    requires |s| == 8
  {
    assert Pow2(8) == 256 by { assert Pow2(4) == 16; }
    Pack(s)
  }

  /** `_bits_to_bytes_lsb_first`: whole bytes, an incomplete last one dropped. */
  function BytesLsbFirst(bits: seq<bool>): (data: seq<Byte>)
    ensures |data| == |bits| / 8
  {
    if |bits| < 8 then [] else
      var n := (|bits| / 8 - 1) * 8;
      BytesLsbFirst(bits[..n]) + [PackByte(bits[n..n + 8])]
  }

  lemma {:induction false} PackUnpack(b: nat, n: nat)
    requires b < Pow2(n)
    ensures Pack(LowBits(b, n)) == b
  {
    if n > 0 {
      PackUnpack(b / 2, n - 1);
      assert LowBits(b, n)[1..] == LowBits(b / 2, n - 1);
    }
  }

  /** Packing the expanded bits gives the bytes back. */
  lemma {:induction false} BytesRoundTrip(data: seq<Byte>)
    ensures BytesLsbFirst(BitsLsbFirst(data)) == data
  {
    hide Pack, LowBits;
    if data != [] {
      var n := |data| - 1;
      BytesRoundTrip(data[..n]);
      assert Pow2(8) == 256 by { assert Pow2(4) == 16; }
      PackUnpack(data[n], 8);
      var s := BitsLsbFirst(data);
      assert s[..8 * n] == BitsLsbFirst(data[..n]) && s[8 * n..8 * n + 8] == ByteBits(data[n]);
    }
  }

  lemma {:induction false} BitsConcat(a: seq<Byte>, b: seq<Byte>)
    ensures BitsLsbFirst(a + b) == BitsLsbFirst(a) + BitsLsbFirst(b)
  {
    hide ByteBits;
    if b == [] {
      assert a + b == a;
    } else {
      var n := |b| - 1;
      BitsConcat(a, b[..n]);
      assert (a + b)[..|a| + n] == a + b[..n];
    }
  }

  // ---------------------------------------------------------------------------------------
  // Frames

  /** `SYNC + length + payload`. */
  function FrameBytes(payload: seq<Byte>): seq<Byte>
    requires |payload| <= 255
  {
    SYNC + [|payload|] + payload
  }

  /** Positions at which the sync word and the stream at `at` disagree. */
  function SyncErrors(bits: seq<bool>, at: nat, n: nat): nat
    requires n <= 16 && at + n <= |bits|
  {
    if n == 0 then 0 else
      SyncErrors(bits, at, n - 1) + BitValue(bits[at + n - 1] != BitsLsbFirst(SYNC)[n - 1])
  }

  /** A whole frame starts at `at`. */
  predicate FrameAt(bits: seq<bool>, at: nat, maxSyncErrors: nat) {
    && at + 24 <= |bits| && SyncErrors(bits, at, 16) <= maxSyncErrors
    && at + 24 + 8 * FrameLength(bits, at) <= |bits|
  }

  function FrameLength(bits: seq<bool>, at: nat): Byte
    requires at + 24 <= |bits|
  {
    BytesLsbFirst(bits[at + 16..at + 24])[0]
  }

  function FramePayload(bits: seq<bool>, at: nat): seq<Byte>
    requires at + 24 <= |bits| && at + 24 + 8 * FrameLength(bits, at) <= |bits|
  {
    BytesLsbFirst(bits[at + 24..at + 24 + 8 * FrameLength(bits, at)])
  }

  /** The frames found from `at` on: the first whole one, then those after its end. */
  function FramesFrom(bits: seq<bool>, at: nat, maxSyncErrors: nat): seq<seq<Byte>>
    decreases |bits| - at
  {
    if at + 16 > |bits| then []
    else if FrameAt(bits, at, maxSyncErrors) then
      [FramePayload(bits, at)] + FramesFrom(bits, at + 24 + 8 * FrameLength(bits, at), maxSyncErrors)
    else FramesFrom(bits, at + 1, maxSyncErrors)
  }

  /** `_extract_legacy_frames`. */
  method ExtractFrames(bits: seq<bool>, maxSyncErrors: nat) returns (results: seq<seq<Byte>>)
    ensures results == FramesFrom(bits, 0, maxSyncErrors)
  {
    hide BytesLsbFirst, SyncErrors, FrameLength, FramePayload;
    results := [];
    var position: nat := 0;
    while position + 16 <= |bits|
      invariant results + FramesFrom(bits, position, maxSyncErrors) == FramesFrom(bits, 0, maxSyncErrors)
      decreases |bits| - position
    {
      if SyncErrors(bits, position, 16) <= maxSyncErrors {
        if position + 24 <= |bits| {
          var needed := 24 + 8 * FrameLength(bits, position);
          if position + needed <= |bits| {
            var rest := FramesFrom(bits, position + needed, maxSyncErrors);
            assert results + ([FramePayload(bits, position)] + rest) == results + [FramePayload(bits, position)] + rest;
            results := results + [FramePayload(bits, position)];
            position := position + needed;
            continue;
          }
        }
      }
      position := position + 1;
    }
  }

  lemma {:induction false} ExactSync(bits: seq<bool>, n: nat)
    requires n <= 16 <= |bits| && bits[..16] == BitsLsbFirst(SYNC)
    ensures SyncErrors(bits, 0, n) == 0
  {
    hide BitsLsbFirst;
    if n > 0 {
      ExactSync(bits, n - 1);
      assert bits[..16][n - 1] == bits[n - 1];
    }
  }

  /** A framed payload is the first frame found in its own bits. */
  lemma FrameRoundTrip(payload: seq<Byte>, maxSyncErrors: nat)
    requires |payload| <= 255
    ensures FramesFrom(BitsLsbFirst(FrameBytes(payload)), 0, maxSyncErrors) != []
    ensures FramesFrom(BitsLsbFirst(FrameBytes(payload)), 0, maxSyncErrors)[0] == payload
  {
    hide BitsLsbFirst, BytesLsbFirst, SyncErrors;
    var bits := BitsLsbFirst(FrameBytes(payload));
    BitsConcat(SYNC + [|payload|], payload);
    BitsConcat(SYNC, [|payload|]);
    BytesRoundTrip([|payload|]);
    BytesRoundTrip(payload);
    assert bits[..16] == BitsLsbFirst(SYNC);
    assert bits[16..24] == BitsLsbFirst([|payload|]);
    assert bits[24..24 + 8 * |payload|] == BitsLsbFirst(payload);
    ExactSync(bits, 16);
    assert FrameLength(bits, 0) == |payload|;
    assert FrameAt(bits, 0, maxSyncErrors);
  }
}
