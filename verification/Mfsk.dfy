/** The MFSK-16 symbol path: four coded bits choose one of sixteen tones, tone energies become soft
    bits, and one frame is decoded again over exactly its own bits. */
module Mfsk {
  import opened Trellis
  import opened Wrappers
  import opened Viterbi
  import opened Correction
  import opened Framing

  const M: nat := 16

  type Tone = t: nat | t < 16

  /** Bitwise exclusive or of two naturals. */
  function XorNat(a: nat, b: nat): nat {
    if a == 0 && b == 0 then 0 else BitValue(Xor(a % 2 == 1, b % 2 == 1)) + 2 * XorNat(a / 2, b / 2)
  }

  /** `_gray(n)`: `n ^ (n >> 1)`. */
  function Gray(n: nat): nat { XorNat(n, n / 2) }

  /** `_GRAY`: symbol value to tone. */
  lemma GrayTable()
    ensures Gray(0) == 0 && Gray(1) == 1 && Gray(2) == 3 && Gray(3) == 2
    ensures Gray(4) == 6 && Gray(5) == 7 && Gray(6) == 5 && Gray(7) == 4
    ensures Gray(8) == 12 && Gray(9) == 13 && Gray(10) == 15 && Gray(11) == 14
    ensures Gray(12) == 10 && Gray(13) == 11 && Gray(14) == 9 && Gray(15) == 8
  {
  }

  /** The value at or after `from` whose tone is `t`. */
  function UngrayFrom(t: Tone, from: nat): nat
    decreases 16 - from
  {
    if from >= 16 then 0 else if Gray(from) == t then from else UngrayFrom(t, from + 1)
  }

  /** `_UNGRAY[t]`: tone to symbol value. */
  function Ungray(t: Tone): (v: nat)
    ensures v < 16 && Gray(v) == t
  {
    UngrayTable(t);
    UngrayFrom(t, 0)
  }

  /** The inverse table written out. */
  function Value(t: Tone): nat {
    [0, 1, 3, 2, 7, 6, 4, 5, 15, 14, 12, 13, 8, 9, 11, 10][t]
  }

  lemma UngrayTable(t: Tone)
    ensures UngrayFrom(t, 0) == Value(t) && Gray(Value(t)) == t
  {
    hide Gray;
    GrayTable();
    FromEight(t);
    if Value(t) < 8 {
      assert UngrayFrom(t, 4) == if Value(t) < 4 then UngrayFrom(t, 8) else Value(t);
    }
  }

  lemma FromEight(t: Tone)
    ensures Value(t) >= 8 ==> UngrayFrom(t, 8) == Value(t)
  {
    hide Gray;
    GrayTable();
    assert UngrayFrom(t, 12) == if Value(t) >= 12 then Value(t) else UngrayFrom(t, 16);
  }

  lemma UngrayIsValue(t: Tone)
    ensures Ungray(t) == Value(t)
  {
    hide Gray;
    UngrayTable(t);
  }

  // ---------------------------------------------------------------------------------------
  // Symbols

  /** `n[0] * 8 + n[1] * 4 + n[2] * 2 + n[3]`. */
  function SymbolValue(b: seq<bool>): (v: nat)
    requires |b| == 4
    ensures v < 16
  {
    BitValue(b[0]) * 8 + BitValue(b[1]) * 4 + BitValue(b[2]) * 2 + BitValue(b[3])
  }

  /** The tone sent for four coded bits. */
  function ToneFor(b: seq<bool>): Tone
    requires |b| == 4
  {
    GrayTable();
    Gray(SymbolValue(b))
  }

  /** The four bits the receiver reads off a tone: `(_UNGRAY[t] >> (3 - b)) & 1`. */
  function ToneBits(t: Tone): (b: seq<bool>)
    ensures |b| == 4
  {
    var v := Ungray(t);
    [v / 8 % 2 == 1, v / 4 % 2 == 1, v / 2 % 2 == 1, v % 2 == 1]
  }

  lemma ValueDigits(t: Tone)
    ensures ToneBits(t) == [Value(t) / 8 % 2 == 1, Value(t) / 4 % 2 == 1, Value(t) / 2 % 2 == 1, Value(t) % 2 == 1]
  {
    hide Value;
    UngrayIsValue(t);
  }

  lemma ToneCarriesBits(b: seq<bool>)
    requires |b| == 4
    ensures ToneBits(ToneFor(b)) == b
  {
    hide Gray, Ungray, Value, SymbolValue, ToneBits;
    ValueOfGray(SymbolValue(b));
    ValueDigits(ToneFor(b));
    Digits(b);
  }

  /** No two values share a tone, so the dictionary of the inverse table keeps them all. */
  lemma ValueOfGray(v: nat)
    requires v < 16
    ensures Gray(v) < 16 && Value(Gray(v)) == v
  {
    hide Gray;
    GrayTable();
  }

  lemma Digits(b: seq<bool>)
    requires |b| == 4
    ensures var v := SymbolValue(b);
            [v / 8 % 2 == 1, v / 4 % 2 == 1, v / 2 % 2 == 1, v % 2 == 1] == b
  {
  }

  /** Slipping to the next tone costs one bit, except across the boundaries 3/4, 7/8 and 11/12,
      where the table as used costs two. */
  lemma AdjacentToneCost(t: Tone)
    requires t < 15
    ensures HammingDistance(ToneBits(t), ToneBits(t + 1)) == if t == 3 || t == 7 || t == 11 then 2 else 1
  {
    hide Ungray, ToneBits;
    ValueDigits(t);
    ValueDigits(t + 1);
    FourBits(ToneBits(t), ToneBits(t + 1));
  }

  lemma FourBits(a: seq<bool>, b: seq<bool>)
    requires |a| == |b| == 4
    ensures HammingDistance(a, b) ==
            BitValue(a[0] != b[0]) + BitValue(a[1] != b[1]) + BitValue(a[2] != b[2]) + BitValue(a[3] != b[3])
  {
    var a3, b3 := a[..3], b[..3];
    var a2, b2 := a3[..2], b3[..2];
    var a1, b1 := a2[..1], b2[..1];
    assert HammingDistance(a1, b1) == BitValue(a[0] != b[0]) by { assert a1[..0] == [] && b1[..0] == []; }
    assert HammingDistance(a2, b2) == HammingDistance(a1, b1) + BitValue(a[1] != b[1]);
    assert HammingDistance(a3, b3) == HammingDistance(a2, b2) + BitValue(a[2] != b[2]);
  }

  // ---------------------------------------------------------------------------------------
  // A whole frame of tones

  /** The data tones of a coded stream whose length is a whole number of symbols. */
  function Tones(coded: seq<bool>): (tones: seq<Tone>)
    requires |coded| % 4 == 0
    ensures |tones| == |coded| / 4
  {
    if coded == [] then [] else
      var n := |coded| - 4;
      Tones(coded[..n]) + [ToneFor(coded[n..])]
  }

  /** The hard decisions of a run of tones. */
  function HardBits(tones: seq<Tone>): (bits: seq<bool>)
    ensures |bits| == 4 * |tones|
  {
    if tones == [] then [] else HardBits(tones[..|tones| - 1]) + ToneBits(tones[|tones| - 1])
  }

  lemma {:induction false} TonesCarryBits(coded: seq<bool>)
    requires |coded| % 4 == 0
    ensures HardBits(Tones(coded)) == coded
  {
    hide ToneFor, ToneBits;
    if coded != [] {
      var n := |coded| - 4;
      TonesCarryBits(coded[..n]);
      ToneCarriesBits(coded[n..]);
      assert Tones(coded)[..|Tones(coded)| - 1] == Tones(coded[..n]);
    }
  }

  lemma {:induction false} DistanceConcat(a: seq<bool>, b: seq<bool>, c: seq<bool>, d: seq<bool>)
    requires |a| == |b| && |c| == |d|
    ensures HammingDistance(a + c, b + d) == HammingDistance(a, b) + HammingDistance(c, d)
  {
    if c == [] {
      assert a + c == a && b + d == b;
    } else {
      var n := |c| - 1;
      DistanceConcat(a, b, c[..n], d[..n]);
      assert (a + c)[..|a| + n] == a + c[..n] && (b + d)[..|b| + n] == b + d[..n];
    }
  }

  /** One symbol read as another tone damages exactly the bits in which the two tones differ. */
  lemma {:induction false} OneSymbolWrong(tones: seq<Tone>, k: nat, t: Tone)
    requires k < |tones|
    ensures HammingDistance(HardBits(tones), HardBits(tones[k := t]))
            == HammingDistance(ToneBits(tones[k]), ToneBits(t))
  {
    hide ToneBits, HammingDistance;
    var n, other := |tones| - 1, tones[k := t];
    DistanceConcat(HardBits(tones[..n]), HardBits(other[..n]), ToneBits(tones[n]), ToneBits(other[n]));
    if k < n {
      OneSymbolWrong(tones[..n], k, t);
      assert other[..n] == tones[..n][k := t];
      SameIsZero(ToneBits(tones[n]));
    } else {
      assert other[..n] == tones[..n];
      SameIsZero(HardBits(tones[..n]));
    }
  }

  /** The coded bits of a framed payload: always whole symbols, so the padding is never needed. */
  function FrameCode(payload: seq<Byte>): (coded: seq<bool>)
    requires |payload| <= 255
    ensures |coded| == 16 * (|payload| + 3) + 12
  {
    ConvEncoded(BitsLsbFirst(FrameBytes(payload)))
  }

  /** `modulate`, up to the tone sequence after preamble and marker. */
  method DataTones(payload: seq<Byte>) returns (r: Result<seq<Tone>>)
    ensures r.Ok? <==> |payload| <= 255
    ensures r.Ok? ==> r.value == Tones(FrameCode(payload))
  {
    if |payload| > 255 {
      return Err("control payload must be <= 255 bytes");
    }
    var coded := ConvEncode(BitsLsbFirst(FrameBytes(payload)));
    var pad := (4 - |coded| % 4) % 4;
    assert pad == 0;
    r := Ok(Tones(coded));
  }

  // ---------------------------------------------------------------------------------------
  // Soft bits

  /** `1e-12`, which keeps the normalisation away from zero. */
  const TINY: real := 0.000000000001

  /** The largest energy among tones below `n` whose bit `b` is `want`; 0 is below every energy. */
  function MaxEnergy(e: seq<real>, b: nat, want: bool, n: nat): real
    requires |e| == 16 && b < 4 && n <= 16
  {
    if n == 0 then 0.0 else
      var m := MaxEnergy(e, b, want, n - 1);
      if ToneBits(n - 1)[b] == want && e[n - 1] > m then e[n - 1] else m
  }

  function Largest(e: seq<real>, n: nat): real
    requires n <= |e|
  {
    if n == 0 then 0.0 else
      var m := Largest(e, n - 1);
      if e[n - 1] > m then e[n - 1] else m
  }

  function SoftBit(e: seq<real>, b: nat): real
    requires |e| == 16 && b < 4 && Largest(e, 16) + TINY > 0.0
  {
    (MaxEnergy(e, b, true, 16) - MaxEnergy(e, b, false, 16)) / (Largest(e, 16) + TINY)
  }

  /** All the energy of a symbol on one tone. */
  ghost predicate OneHot(e: seq<real>, t: Tone, a: real) {
    |e| == 16 && forall i :: 0 <= i < 16 ==> e[i] == if i == t then a else 0.0
  }

  lemma {:induction false} OneHotMaxima(e: seq<real>, t: Tone, a: real, b: nat, want: bool, n: nat)
    requires OneHot(e, t, a) && a > 0.0 && b < 4 && n <= 16
    ensures MaxEnergy(e, b, want, n) == if t < n && ToneBits(t)[b] == want then a else 0.0
    ensures Largest(e, n) == if t < n then a else 0.0
  {
    hide ToneBits;
    if n > 0 { OneHotMaxima(e, t, a, b, want, n - 1); }
  }

  /** How sure a bit of a one-tone symbol is. */
  function Confidence(a: real): real
    requires a > 0.0
  {
    a / (a + TINY)
  }

  lemma OneHotSoftBit(e: seq<real>, t: Tone, a: real, b: nat)
    requires OneHot(e, t, a) && a > 0.0 && b < 4
    ensures Largest(e, 16) == a && SoftBit(e, b) == if ToneBits(t)[b] then Confidence(a) else -Confidence(a)
    ensures Confidence(a) > 0.0
  {
    hide ToneBits, MaxEnergy, Largest, OneHot;
    OneHotMaxima(e, t, a, b, true, 16);
    OneHotMaxima(e, t, a, b, false, 16);
    Quotient(a, a + TINY);
  }

  lemma Quotient(a: real, d: real)
    requires a > 0.0 && d > 0.0
    ensures a / d > 0.0 && (0.0 - a) / d == -(a / d) && (a - 0.0) / d == a / d
  {
  }

  /** Each symbol's energy is on the tone given, with an amplitude of its own. */
  ghost predicate AllOneHot(energies: seq<seq<real>>, tones: seq<Tone>, amplitudes: seq<real>) {
    |energies| == |tones| == |amplitudes| &&
    forall k :: 0 <= k < |tones| ==> amplitudes[k] > 0.0 && OneHot(energies[k], tones[k], amplitudes[k])
  }

  ghost predicate Energies(energies: seq<seq<real>>) {
    forall k :: 0 <= k < |energies| ==> |energies[k]| == 16 && Largest(energies[k], 16) + TINY > 0.0
  }

  /** The soft bits of a run of symbols. */
  function SoftBits(energies: seq<seq<real>>): (soft: seq<real>)
    requires Energies(energies)
    ensures |soft| == 4 * |energies|
  {
    if energies == [] then [] else
      var e := energies[|energies| - 1];
      SoftBits(energies[..|energies| - 1]) + [SoftBit(e, 0), SoftBit(e, 1), SoftBit(e, 2), SoftBit(e, 3)]
  }

  /** The data part of `demodulate`: four soft bits a symbol, until the window ends. */
  method ExtractSoft(energies: seq<seq<real>>) returns (soft: seq<real>)
    requires Energies(energies)
    ensures soft == SoftBits(energies)
  {
    hide SoftBit;
    soft := [];
    for k := 0 to |energies|
      invariant soft == SoftBits(energies[..k])
    {
      ghost var before, e := soft, energies[k];
      assert energies[..k + 1][..k] == energies[..k];
      soft := soft + [SoftBit(energies[k], 0)];
      soft := soft + [SoftBit(energies[k], 1)];
      soft := soft + [SoftBit(energies[k], 2)];
      soft := soft + [SoftBit(energies[k], 3)];
      assert soft == before + [SoftBit(e, 0), SoftBit(e, 1), SoftBit(e, 2), SoftBit(e, 3)];
    }
    assert energies[..|energies|] == energies;
  }

  /** The confidences of all symbols lie between `lo` and `hi`. */
  ghost predicate Within(amplitudes: seq<real>, lo: real, hi: real) {
    forall k :: 0 <= k < |amplitudes| ==> amplitudes[k] > 0.0 && lo <= Confidence(amplitudes[k]) <= hi
  }

  /** One-hot symbols say their tones' bits, each symbol with its own confidence. */
  lemma {:induction false} OneHotDecided(energies: seq<seq<real>>, tones: seq<Tone>, amplitudes: seq<real>, lo: real,
                                         hi: real)
    requires AllOneHot(energies, tones, amplitudes) && Energies(energies) && Within(amplitudes, lo, hi)
    ensures Decided(SoftBits(energies), HardBits(tones), lo, hi)
  {
    hide SoftBit, ToneBits, OneHot, Confidence, Largest;
    if tones != [] {
      var n := |tones| - 1;
      OneHotDecided(energies[..n], tones[..n], amplitudes[..n], lo, hi);
      OneHotSoftBit(energies[n], tones[n], amplitudes[n], 0);
      OneHotSoftBit(energies[n], tones[n], amplitudes[n], 1);
      OneHotSoftBit(energies[n], tones[n], amplitudes[n], 2);
      OneHotSoftBit(energies[n], tones[n], amplitudes[n], 3);
    }
  }

  /** However the symbols' energies differ, `wrong` wrong bits weigh less than the right ones left. */
  ghost predicate Balanced(amplitudes: seq<real>, wrong: nat) {
    && (forall i :: 0 <= i < |amplitudes| ==> amplitudes[i] > 0.0)
    && forall i, j :: 0 <= i < |amplitudes| && 0 <= j < |amplitudes| ==>
         Outweighed(wrong, Lesser(Confidence(amplitudes[i]), Confidence(amplitudes[j])), Confidence(amplitudes[j]))
  }

  function Lesser(x: real, y: real): real { if x <= y then x else y }

  lemma ConfidenceBounds(a: real)
    requires a > 0.0
    ensures 0.0 < Confidence(a) < 1.0
    ensures a > 2.0 * TINY ==> 3.0 * Confidence(a) > 2.0
  {
    Quotient(a, a + TINY);
    var c := Confidence(a);
    assert c * (a + TINY) == a;
    if c >= 1.0 {
      Times(1.0, c, a + TINY);
    }
    if 3.0 * c <= 2.0 {
      Times(3.0 * c, 2.0, a + TINY);
      assert 3.0 * c * (a + TINY) == 3.0 * (c * (a + TINY));
    }
  }

  lemma Times(x: real, y: real, z: real)
    requires x <= y && z > 0.0
    ensures x * z <= y * z
  {
  }

  /** Symbols above twice the constant that keeps the normalisation finite tolerate two wrong bits,
      whatever their energies are. */
  lemma LoudBalanced(amplitudes: seq<real>, wrong: nat)
    requires wrong <= 2 && forall k :: 0 <= k < |amplitudes| ==> amplitudes[k] > 2.0 * TINY
    ensures Balanced(amplitudes, wrong)
  {
    hide Confidence;
    forall k | 0 <= k < |amplitudes|
      ensures 0.0 < Confidence(amplitudes[k]) < 1.0 && 3.0 * Confidence(amplitudes[k]) > 2.0 {
      ConfidenceBounds(amplitudes[k]);
    }
    forall i, j | 0 <= i < |amplitudes| && 0 <= j < |amplitudes|
      ensures Outweighed(wrong, Lesser(Confidence(amplitudes[i]), Confidence(amplitudes[j])), Confidence(amplitudes[j]))
    {
      TwoOutweighed(wrong, Lesser(Confidence(amplitudes[i]), Confidence(amplitudes[j])), Confidence(amplitudes[j]));
    }
  }

  lemma TwoOutweighed(wrong: nat, lo: real, hi: real)
    requires wrong <= 2 && 0.0 < lo <= hi < 1.0 && 3.0 * lo > 2.0
    ensures Outweighed(wrong, lo, hi)
  {
    assert wrong == 0 || wrong == 1 || wrong == 2;
  }

  /** With no wrong bit the energies do not matter at all. */
  lemma UnharmedBalanced(amplitudes: seq<real>)
    requires forall k :: 0 <= k < |amplitudes| ==> amplitudes[k] > 0.0
    ensures Balanced(amplitudes, 0)
  {
    hide Confidence;
    forall k | 0 <= k < |amplitudes| ensures 0.0 < Confidence(amplitudes[k]) < 1.0 {
      ConfidenceBounds(amplitudes[k]);
    }
  }

  /** The symbol with the least confidence, and the one with the greatest. */
  lemma {:induction false} Extremes(amplitudes: seq<real>) returns (least: nat, greatest: nat)
    requires amplitudes != [] && forall k :: 0 <= k < |amplitudes| ==> amplitudes[k] > 0.0
    ensures least < |amplitudes| && greatest < |amplitudes|
    ensures Within(amplitudes, Confidence(amplitudes[least]), Confidence(amplitudes[greatest]))
  {
    hide Confidence;
    var n := |amplitudes| - 1;
    least, greatest := n, n;
    if n > 0 {
      least, greatest := Extremes(amplitudes[..n]);
      assert forall k :: 0 <= k < n ==> amplitudes[k] == amplitudes[..n][k];
      if Confidence(amplitudes[n]) < Confidence(amplitudes[least]) { least := n; }
      if Confidence(amplitudes[n]) > Confidence(amplitudes[greatest]) { greatest := n; }
    }
  }

  // ---------------------------------------------------------------------------------------
  // The bounded decode

  /** Coded bits of a frame with `length` payload bytes. */
  function FrameCodedBits(length: nat): nat { 2 * ((2 + 1 + length) * 8 + (K - 1)) }

  /** From information bit `infoStart` on, the soft stream carries the payload's frame: confidences
      between `lo` and `hi`, with wrong signs that the right ones outweigh. */
  ghost predicate Carries(soft: seq<real>, infoStart: nat, payload: seq<Byte>, lo: real, hi: real, hard: seq<bool>) {
    && |payload| <= 255
    && var need := FrameCodedBits(|payload|);
    && 2 * infoStart + need <= |soft| && |hard| == need
    && Decided(soft[2 * infoStart..2 * infoStart + need], hard, lo, hi)
    && Outweighed(HammingDistance(FrameCode(payload), hard), lo, hi)
  }

  /** `_decode_bounded`: the frame, if the window holds all of it. */
  method DecodeBounded(soft: seq<real>, infoStart: nat, length: nat) returns (frame: Option<seq<Byte>>)
    ensures 2 * infoStart + FrameCodedBits(length) > |soft| ==> frame == None
    ensures forall payload, lo, hi, hard :: Carries(soft, infoStart, payload, lo, hi, hard) && |payload| == length ==>
              frame == Some(payload)
  {
    hide Carries, FramesFrom, Encoded, BitsLsbFirst, HammingDistance, Decided;
    var need := FrameCodedBits(length);
    if 2 * infoStart + need > |soft| {
      frame := None;
      forall payload, lo, hi, hard | Carries(soft, infoStart, payload, lo, hi, hard) && |payload| == length
        ensures false
      {
        CarriesFits(soft, infoStart, payload, lo, hi, hard);
      }
      return;
    }
    var chunk := soft[2 * infoStart..2 * infoStart + need];
    var info := ViterbiDecodeSoft(chunk);
    ghost var path :| BestSoft(chunk, path) && info == DropFlush(path);
    var found := ExtractFrames(info, 0);
    frame := if found != [] then Some(found[0]) else None;
    forall payload, lo, hi, hard | Carries(soft, infoStart, payload, lo, hi, hard) && |payload| == length
      ensures frame == Some(payload)
    {
      CarriedFrameDecoded(soft, infoStart, payload, lo, hi, hard, path);
      FrameRoundTrip(payload, 0);
    }
  }

  lemma CarriesFits(soft: seq<real>, infoStart: nat, payload: seq<Byte>, lo: real, hi: real, hard: seq<bool>)
    requires Carries(soft, infoStart, payload, lo, hi, hard)
    ensures 2 * infoStart + FrameCodedBits(|payload|) <= |soft|
  {
  }

  lemma CarriedFrameDecoded(soft: seq<real>, infoStart: nat, payload: seq<Byte>, lo: real, hi: real, hard: seq<bool>,
                            path: seq<bool>)
    requires Carries(soft, infoStart, payload, lo, hi, hard)
    requires var need := FrameCodedBits(|payload|);
             |path| == need / 2 && MostCorrelated(soft[2 * infoStart..2 * infoStart + need], path)
    ensures |payload| <= 255 && DropFlush(path) == BitsLsbFirst(FrameBytes(payload))
  {
    hide Decided, MostCorrelated, HammingDistance, Encoded, BitsLsbFirst, Outweighed;
    var need := FrameCodedBits(|payload|);
    SoftCorrection(BitsLsbFirst(FrameBytes(payload)), soft[2 * infoStart..2 * infoStart + need], hard, lo, hi, path);
  }

  /** Coded bits damaged when tone `s` is read as tone `t`. */
  function ToneCost(s: Tone, t: Tone): nat { HammingDistance(ToneBits(s), ToneBits(t)) }

  /** Two tones one step apart. */
  predicate Adjacent(s: Tone, t: Tone) { s == t + 1 || t == s + 1 }

  /** A slip to an adjacent tone damages at most two coded bits, so loud symbols tolerate it. */
  lemma SlipBalanced(amplitudes: seq<real>, s: Tone, t: Tone)
    requires s == t || Adjacent(s, t)
    requires forall k :: 0 <= k < |amplitudes| ==> amplitudes[k] > 2.0 * TINY
    ensures ToneCost(s, t) <= 2 && Balanced(amplitudes, ToneCost(s, t))
  {
    hide HammingDistance, ToneBits, Balanced;
    if s == t { SameIsZero(ToneBits(t)); }
    else if t > s { AdjacentToneCost(s); }
    else { AdjacentToneCost(t); Triangle(ToneBits(t), ToneBits(s), ToneBits(t)); }
    LoudBalanced(amplitudes, ToneCost(s, t));
  }

  /** A frame with one symbol misread is still carried if its symbols' energies balance the damage. */
  lemma SlippedFrameCarried(payload: seq<Byte>, sent: seq<Tone>, k: nat, t: Tone, energies: seq<seq<real>>,
                            amplitudes: seq<real>, before: seq<real>, after: seq<real>)
    returns (lo: real, hi: real)
    requires |payload| <= 255 && |before| % 2 == 0 && Energies(energies)
    requires sent == Tones(FrameCode(payload))
    requires k < |sent| && AllOneHot(energies, sent[k := t], amplitudes) && Balanced(amplitudes, ToneCost(sent[k], t))
    ensures Carries(before + SoftBits(energies) + after, |before| / 2, payload, lo, hi, HardBits(sent[k := t]))
  {
    hide HammingDistance, Encoded, BitsLsbFirst, ToneBits, Tones, SoftBits, HardBits, Confidence, Decided, OneHot,
        Outweighed;
    var coded := FrameCode(payload);
    TonesCarryBits(coded);
    OneSymbolWrong(sent, k, t);
    var least, greatest := Extremes(amplitudes);
    lo, hi := Confidence(amplitudes[least]), Confidence(amplitudes[greatest]);
    assert lo <= hi;
    assert Outweighed(ToneCost(sent[k], t), Lesser(lo, hi), hi);
    OneHotDecided(energies, sent[k := t], amplitudes, lo, hi);
    var soft := before + SoftBits(energies) + after;
    assert soft[|before|..|before| + |SoftBits(energies)|] == SoftBits(energies);
  }

  /** The symbol path end to end: whatever surrounds the frame, however the symbols' energies differ, and
      even if one data symbol was read as another tone, the payload is recovered while the wrong bits are
      outweighed; for a slip to an adjacent tone that is every frame of loud symbols (`SlipBalanced`). */
  method SlippedRoundTrip(payload: seq<Byte>, k: nat, t: Tone, energies: seq<seq<real>>, ghost amplitudes: seq<real>,
                          before: seq<real>, after: seq<real>) returns (frame: Option<seq<Byte>>)
    requires |payload| <= 255 && |before| % 2 == 0 && Energies(energies)
    requires var sent := Tones(FrameCode(payload));
             k < |sent| && AllOneHot(energies, sent[k := t], amplitudes) && Balanced(amplitudes, ToneCost(sent[k], t))
    ensures frame == Some(payload)
  {
    hide *;
    ghost var lo, hi := SlippedFrameCarried(payload, Tones(FrameCode(payload)), k, t, energies, amplitudes, before,
                                            after);
    var soft := ExtractSoft(energies);
    frame := DecodeBounded(before + soft + after, |before| / 2, |payload|);
  }
}
