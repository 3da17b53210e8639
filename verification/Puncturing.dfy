/** The convolutional code rates: a periodic mask thins the rate-1/2 mother code, and the receiver
    puts zero-confidence erasures back before the soft decoder runs. */
module Puncturing {
  import opened Arithmetic
  import opened Wrappers
  import opened Trellis
  import opened Viterbi
  import opened Correction

  /** The five convolutional profiles. */
  datatype ConvRate = Rate12 | Rate23 | Rate34 | Rate56 | Rate78

  /** The mask of one period over the serial mother code; a zero is not transmitted. */
  function Pattern(rate: ConvRate): (p: seq<bool>)
    ensures |p| > 0
  {
    match rate
    case Rate12 => [true, true]
    case Rate23 => [true, true, true, false]
    case Rate34 => [true, true, true, false, false, true]
    case Rate56 => [true, true, true, false, false, true, true, false, false, true]
    case Rate78 => [true, true, true, false, false, true, true, false, false, true, true, false, false, true]
  }

  /** `np.resize(pattern, n)[k]`. */
  predicate Kept(rate: ConvRate, k: nat) { Pattern(rate)[k % |Pattern(rate)|] }

  /** `mother_bits`, for a byte count that is not negative. */
  function MotherBits(byteCount: nat): nat { 2 * (byteCount * 8 + K - 1) }

  /** Transmitted positions among the first `n`. */
  function KeptCount(rate: ConvRate, n: nat): (c: nat)
    ensures c <= n
  {
    if n == 0 then 0 else KeptCount(rate, n - 1) + BitValue(Kept(rate, n - 1))
  }

  /** `puncture`: the values the mask keeps, in order. */
  function Puncture<T>(coded: seq<T>, rate: ConvRate): (p: seq<T>)
    ensures |p| == KeptCount(rate, |coded|)
  {
    if coded == [] then [] else
      var n := |coded| - 1;
      Puncture(coded[..n], rate) + if Kept(rate, n) then [coded[n]] else []
  }

  /** `restored[mask] = soft` on a zero array of length `n`. */
  function Restored(soft: seq<real>, n: nat, rate: ConvRate): (r: seq<real>)
    requires |soft| == KeptCount(rate, n)
    ensures |r| == n
    decreases n
  {
    if n == 0 then []
    else if Kept(rate, n - 1) then Restored(soft[..|soft| - 1], n - 1, rate) + [soft[|soft| - 1]]
    else Restored(soft, n - 1, rate) + [0.0]
  }

  /** `depuncture`: erasures put back, or an error when the section has the wrong length. */
  function Depuncture(soft: seq<real>, motherCount: nat, rate: ConvRate): (r: Result<seq<real>>)
    ensures r.Ok? <==> |soft| == KeptCount(rate, motherCount)
    ensures r.Ok? ==> |r.value| == motherCount && Puncture(r.value, rate) == soft
  {
    if |soft| != KeptCount(rate, motherCount) then Err("punctured section has the wrong length")
    else
      PunctureUndoesRestore(soft, motherCount, rate);
      Ok(Restored(soft, motherCount, rate))
  }

  /** Removing the erased positions again gives back what was received. */
  lemma {:induction false} PunctureUndoesRestore(soft: seq<real>, n: nat, rate: ConvRate)
    requires |soft| == KeptCount(rate, n)
    ensures Puncture(Restored(soft, n, rate), rate) == soft
    decreases n
  {
    hide Kept, Puncture;
    if n == 0 {
      PunctureNothing(rate);
    } else {
      hide Restored;
      var kept := Kept(rate, n - 1);
      var init := if kept then soft[..|soft| - 1] else soft;
      RestoredStep(soft, n, rate);
      PunctureUndoesRestore(init, n - 1, rate);
      PunctureAppend(Restored(init, n - 1, rate), if kept then soft[|soft| - 1] else 0.0, rate);
      assert kept ==> soft == init + [soft[|soft| - 1]];
    }
  }

  lemma PunctureNothing(rate: ConvRate)
    ensures Puncture<real>([], rate) == []
  {
  }

  lemma RestoredStep(soft: seq<real>, n: nat, rate: ConvRate)
    requires n > 0 && |soft| == KeptCount(rate, n)
    ensures var kept := Kept(rate, n - 1);
            var init := if kept then soft[..|soft| - 1] else soft;
            Restored(soft, n, rate) == Restored(init, n - 1, rate) + [if kept then soft[|soft| - 1] else 0.0]
  {
    hide Kept;
  }

  lemma PunctureAppend<T>(coded: seq<T>, x: T, rate: ConvRate)
    ensures Puncture(coded + [x], rate) == Puncture(coded, rate) + if Kept(rate, |coded|) then [x] else []
  {
    hide Kept;
    assert (coded + [x])[..|coded|] == coded;
  }

  /** Where a kept position lands, and what stands at an erased one. */
  lemma {:induction false} RestoredAt(coded: seq<bool>, soft: seq<real>, rate: ConvRate, k: nat)
    requires k < |coded| && |soft| == KeptCount(rate, |coded|)
    ensures Kept(rate, k) ==>
              var j := KeptCount(rate, k);
              j < |soft| && Puncture(coded, rate)[j] == coded[k] && Restored(soft, |coded|, rate)[k] == soft[j]
    ensures !Kept(rate, k) ==> Restored(soft, |coded|, rate)[k] == 0.0
  {
    hide Kept;
    var n := |coded| - 1;
    var init := if Kept(rate, n) then soft[..|soft| - 1] else soft;
    if k < n {
      RestoredAt(coded[..n], init, rate, k);
    }
  }

  // ---------------------------------------------------------------------------------------
  // Lengths

  function Ones(p: seq<bool>): nat {
    if p == [] then 0 else Ones(p[..|p| - 1]) + BitValue(p[|p| - 1])
  }

  /** `punctured_bits`: whole periods, then the part of a period that is left. */
  function PuncturedBits(motherCount: nat, rate: ConvRate): nat {
    var pattern := Pattern(rate);
    motherCount / |pattern| * Ones(pattern) + Ones(pattern[..motherCount % |pattern|])
  }

  /** The closed form counts exactly the positions the mask keeps. */
  lemma {:induction false} PuncturedBitsExact(n: nat, rate: ConvRate)
    ensures PuncturedBits(n, rate) == KeptCount(rate, n)
  {
    hide Pattern, Kept;
    if n == 0 {
      DivModUnique(0, |Pattern(rate)|, 0, 0);
      assert Pattern(rate)[..0] == [];
    } else {
      hide PuncturedBits;
      PuncturedBitsExact(n - 1, rate);
      PuncturedBitsNext(n - 1, rate);
    }
  }

  lemma PuncturedBitsNext(n: nat, rate: ConvRate)
    ensures PuncturedBits(n + 1, rate) == PuncturedBits(n, rate) + BitValue(Kept(rate, n))
  {
    hide Pattern, Ones;
    var pattern := Pattern(rate);
    var q, r := n / |pattern|, n % |pattern|;
    DivModNext(n, |pattern|);
    OnesAppend(pattern, r);
    if r + 1 == |pattern| {
      assert pattern[..r + 1] == pattern;
      OneMore(q, Ones(pattern));
    }
  }

  lemma OnesAppend(p: seq<bool>, r: nat)
    requires r < |p|
    ensures Ones(p[..r + 1]) == Ones(p[..r]) + BitValue(p[r]) && Ones(p[..0]) == 0
  {
    assert p[..r + 1][..r] == p[..r];
  }

  lemma OneMore(q: nat, x: nat)
    ensures (q + 1) * x == q * x + x
  {
  }

  // ---------------------------------------------------------------------------------------
  // The punctured round trip

  /** Every pattern transmits at least one of the two bits of each trellis step. */
  lemma EveryStepTransmitted(rate: ConvRate, t: nat)
    ensures Kept(rate, 2 * t) || Kept(rate, 2 * t + 1)
  {
    match rate
    case Rate12 =>
    case Rate23 => PairAt(t, 2);
    case Rate34 => PairAt(t, 3);
    case Rate56 => PairAt(t, 5);
    case Rate78 => PairAt(t, 7);
  }

  /** The pair of step `t` lies in one pair of the period of `2 * h` positions. */
  lemma PairAt(t: nat, h: nat)
    requires h > 0
    ensures 2 * t % (2 * h) == 2 * (t % h) && (2 * t + 1) % (2 * h) == 2 * (t % h) + 1
  {
    var q, r := t / h, t % h;
    assert t == q * h + r;
    assert q * (2 * h) == 2 * (q * h);
    DivModUnique(2 * t, 2 * h, q, 2 * r);
    DivModUnique(2 * t + 1, 2 * h, q, 2 * r + 1);
  }

  /** Each received confidence is nonzero and has the sign of the bit that was sent. */
  ghost predicate RightSigns(soft: seq<real>, sent: seq<bool>) {
    |soft| == |sent| && forall k :: 0 <= k < |soft| ==> if sent[k] then soft[k] > 0.0 else soft[k] < 0.0
  }

  lemma RestoredIsClean(coded: seq<bool>, soft: seq<real>, rate: ConvRate)
    requires RightSigns(soft, Puncture(coded, rate))
    ensures NoWrongSign(Restored(soft, |coded|, rate), coded)
    ensures EveryStepHeard(Restored(soft, |coded|, rate))
  {
    hide Puncture, Restored, Kept;
    var r := Restored(soft, |coded|, rate);
    forall k | 0 <= k < |r|
      ensures if coded[k] then r[k] >= 0.0 else r[k] <= 0.0
      ensures Kept(rate, k) ==> r[k] != 0.0
    {
      RestoredAt(coded, soft, rate, k);
    }
    forall t | 0 <= 2 * t && 2 * t + 1 < |r|
      ensures r[2 * t] != 0.0 || r[2 * t + 1] != 0.0
    {
      EveryStepTransmitted(rate, t);
    }
  }

  /** `encode_bits` for the convolutional family. */
  method EncodeConv(bits: seq<bool>, rate: ConvRate) returns (sent: seq<bool>)
    ensures sent == Puncture(ConvEncoded(bits), rate)
  {
    var coded := ConvEncode(bits);
    sent := Puncture(coded, rate);
  }

  /** `decode_soft` for the convolutional family.  The message is recovered from any confidences
      of the right sign, at every rate and every length. */
  method DecodeConv(soft: seq<real>, byteCount: nat, rate: ConvRate) returns (r: Result<seq<bool>>)
    ensures r.Ok? <==> |soft| == KeptCount(rate, MotherBits(byteCount))
    ensures forall bits: seq<bool> ::
              |bits| == 8 * byteCount && RightSigns(soft, Puncture(ConvEncoded(bits), rate)) ==> r == Ok(bits)
  {
    hide ConvEncoded, Puncture, Restored, KeptCount, RightSigns, MostCorrelated;
    var restored := Depuncture(soft, MotherBits(byteCount), rate);
    if restored.Err? {
      LengthFits(soft, byteCount, rate);
      return Err(restored.error);
    }
    var info := ViterbiDecodeSoft(restored.value);
    ghost var path :| BestSoft(restored.value, path) && info == DropFlush(path);
    RestoredDecodes(soft, byteCount, rate, path);
    r := Ok(info);
  }

  /** Only a section of the right length can carry a message. */
  lemma LengthFits(soft: seq<real>, byteCount: nat, rate: ConvRate)
    ensures forall bits: seq<bool> ::
              |bits| == 8 * byteCount && RightSigns(soft, Puncture(ConvEncoded(bits), rate)) ==>
                |soft| == KeptCount(rate, MotherBits(byteCount))
  {
    hide KeptCount, Puncture, ConvEncoded;
  }

  lemma RestoredDecodes(soft: seq<real>, byteCount: nat, rate: ConvRate, path: seq<bool>)
    requires |soft| == KeptCount(rate, MotherBits(byteCount))
    requires BestSoft(Restored(soft, MotherBits(byteCount), rate), path)
    ensures forall bits: seq<bool> ::
              |bits| == 8 * byteCount && RightSigns(soft, Puncture(ConvEncoded(bits), rate)) ==> DropFlush(path) == bits
  {
    hide Restored, Puncture, Encoded, KeptCount, RightSigns, MostCorrelated;
    forall bits: seq<bool> | |bits| == 8 * byteCount && RightSigns(soft, Puncture(ConvEncoded(bits), rate))
      ensures DropFlush(path) == bits
    {
      RestoredIsClean(ConvEncoded(bits), soft, rate);
      ErasuresRepaired(Restored(soft, MotherBits(byteCount), rate), Flushed(bits), path);
    }
  }
}
