/** What the code and its decoders guarantee together: up to two flipped coded bits anywhere are
    always repaired, three can always defeat the last message bit, and soft values with no wrong
    sign are decoded to the path that was sent even when one coded bit of every step is erased. */
module Correction {
  import opened Trellis
  import opened Viterbi

  lemma {:induction false} Triangle(a: seq<bool>, b: seq<bool>, c: seq<bool>)
    requires |a| == |b| == |c|
    ensures HammingDistance(a, c) <= HammingDistance(a, b) + HammingDistance(b, c)
    ensures HammingDistance(a, b) == HammingDistance(b, a)
  {
    if a != [] {
      var n := |a| - 1;
      Triangle(a[..n], b[..n], c[..n]);
    }
  }

  /** The distance of two coded streams is the weight of the coded difference. */
  lemma {:induction false} DistanceIsWeight(xs: seq<bool>, ys: seq<bool>, n: nat)
    requires |xs| == |ys| && n <= |xs|
    ensures HammingDistance(Encoded(xs[..n]), Encoded(ys[..n])) == Weight(Difference(xs, ys), 0, n)
  {
    hide Out1, Out2;
    if n > 0 {
      var t := n - 1;
      DistanceIsWeight(xs, ys, t);
      var xs', ys' := xs[..n], ys[..n];
      assert xs'[..t] == xs[..t] && ys'[..t] == ys[..t];
      assert xs'[..n] == xs[..n] && ys'[..n] == ys[..n];
      Causal(xs', xs, t);
      Causal(ys', ys, t);
      Linear(xs, ys, t);
      DistancePair(Encoded(xs[..t]), Encoded(ys[..t]), Out1(xs, t), Out2(xs, t), Out1(ys, t), Out2(ys, t));
    }
  }

  lemma DistancePair(a: seq<bool>, b: seq<bool>, a1: bool, a2: bool, b1: bool, b2: bool)
    requires |a| == |b|
    ensures HammingDistance(a + [a1, a2], b + [b1, b2]) ==
            HammingDistance(a, b) + BitValue(Xor(a1, b1)) + BitValue(Xor(a2, b2))
  {
    var a', b' := a + [a1, a2], b + [b1, b2];
    var a'', b'' := a'[..|a| + 1], b'[..|a| + 1];
    assert a''[..|a|] == a && b''[..|a|] == b;
    assert HammingDistance(a', b') == HammingDistance(a'', b'') + BitValue(a2 != b2);
  }

  /** The first position at which two different sequences part. */
  ghost function FirstDifference(xs: seq<bool>, ys: seq<bool>): (p: nat)
    requires |xs| == |ys| && xs != ys
    ensures p < |xs| && xs[p] != ys[p] && xs[..p] == ys[..p]
  {
    if xs[0] != ys[0] then 0 else
      assert xs == [xs[0]] + xs[1..] && ys == [ys[0]] + ys[1..];
      var q := FirstDifference(xs[1..], ys[1..]);
      assert xs[..q + 1] == [xs[0]] + xs[1..][..q] && ys[..q + 1] == [ys[0]] + ys[1..][..q];
      q + 1
  }

  /** Paths that part at least seven steps before their end are at distance five or more. */
  lemma FreeDistance(xs: seq<bool>, ys: seq<bool>)
    requires |xs| == |ys| && xs != ys && FirstDifference(xs, ys) + 7 <= |xs|
    ensures HammingDistance(Encoded(xs), Encoded(ys)) >= 5
  {
    var p, n, e := FirstDifference(xs, ys), |xs|, Difference(xs, ys);
    assert xs[..n] == xs && ys[..n] == ys;
    DistanceIsWeight(xs, ys, n);
    assert forall i :: 0 <= i < p ==> !e[i] by {
      forall i | 0 <= i < p ensures !e[i] { assert xs[..p][i] == ys[..p][i]; }
    }
    DivergenceWeight(e, p);
    WeightSplit(e, 0, p, n);
    WeightSplit(e, p, p + 7, n);
  }

  /** Guaranteed correction: whenever the received stream is within two bits of a message's code
      word, the nearest path carries exactly that message. */
  lemma GuaranteedCorrection(message: seq<bool>, coded: seq<bool>, path: seq<bool>)
    requires |coded| == 2 * (|message| + K - 1) && HammingDistance(ConvEncoded(message), coded) <= 2
    requires |path| == |coded| / 2 && Nearest(coded, path)
    ensures DropFlush(path) == message
  {
    hide Encoded, HammingDistance;
    var sent := Flushed(message);
    assert coded[..2 * |sent|] == coded;
    assert Errors(coded, sent) <= 2;
    assert Errors(coded, path) <= 2;
    Triangle(Encoded(sent), coded, Encoded(path));
    Triangle(Encoded(path), coded, Encoded(sent));
    assert HammingDistance(Encoded(sent), Encoded(path)) <= 4;
    if sent != path {
      if FirstDifference(sent, path) >= |message| {
        PartingInTheFlush(message, path);
      } else {
        FreeDistance(sent, path);
        assert false;
      }
    }
  }

  /** Paths that part only in the flush bits carry the same message. */
  lemma PartingInTheFlush(message: seq<bool>, path: seq<bool>)
    requires |path| == |message| + K - 1 && Flushed(message) != path
    requires FirstDifference(Flushed(message), path) >= |message|
    ensures DropFlush(path) == message
  {
    var sent := Flushed(message);
    var p := FirstDifference(sent, path);
    assert path[..|message|] == path[..p][..|message|];
    assert sent[..|message|] == sent[..p][..|message|];
  }

  /** Flipping two positions (or one, twice over) moves a stream by at most two. */
  lemma TwoFlips(a: seq<bool>, i: nat, j: nat)
    requires i < |a| && j < |a|
    ensures HammingDistance(a, a[i := !a[i]]) == 1
    ensures i != j ==> HammingDistance(a, a[i := !a[i]][j := !a[j]]) == 2
  {
    OneFlip(a, i);
    if i != j {
      var b := a[i := !a[i]];
      FlipTwice(a, i, j);
    }
  }

  lemma {:induction false} SameIsZero(a: seq<bool>)
    ensures HammingDistance(a, a) == 0
  {
    if a != [] { SameIsZero(a[..|a| - 1]); }
  }

  lemma {:induction false} OneFlip(a: seq<bool>, i: nat)
    requires i < |a|
    ensures HammingDistance(a, a[i := !a[i]]) == 1
  {
    var n, b := |a| - 1, a[i := !a[i]];
    if i < n {
      assert b[..n] == a[..n][i := !a[..n][i]];
      OneFlip(a[..n], i);
    } else {
      assert b[..n] == a[..n];
      SameIsZero(a[..n]);
    }
  }

  lemma {:induction false} FlipTwice(a: seq<bool>, i: nat, j: nat)
    requires i < |a| && j < |a| && i != j
    ensures HammingDistance(a, a[i := !a[i]][j := !a[j]]) == 2
  {
    var n, b := |a| - 1, a[i := !a[i]][j := !a[j]];
    var a' := a[..n];
    if i < n && j < n {
      assert b[..n] == a'[i := !a'[i]][j := !a'[j]];
      FlipTwice(a', i, j);
    } else {
      var k := if i < n then i else j;
      assert b[..n] == a'[k := !a'[k]];
      OneFlip(a', k);
    }
  }

  /** Encode, flip any two coded bits, decode: the message comes back. */
  method SendWithTwoErrors(message: seq<bool>, i: nat, j: nat) returns (received: seq<bool>)
    requires i < 2 * (|message| + K - 1) && j < 2 * (|message| + K - 1)
    ensures received == message
  {
    var coded := ConvEncode(message);
    TwoFlips(coded, i, j);
    var noisy := coded[i := !coded[i]][j := !coded[j]];
    if i == j {
      SameIsZero(coded);
      assert noisy == coded[i := !coded[i]];
    }
    received := ViterbiDecode(noisy);
    ghost var path :| BestHard(noisy, path) && received == DropFlush(path);
    GuaranteedCorrection(message, noisy, path);
  }

  // ---------------------------------------------------------------------------------------
  // Two is the exact radius: three errors at the last message bit defeat every message

  /** The error pattern: both coded bits of step `p` and the first one of step `p + 4`. */
  predicate Hit1(p: nat, t: nat) { t == p || t == p + 4 }

  predicate Hit2(p: nat, t: nat) { t == p }

  function ThreeFlips(coded: seq<bool>, p: nat): (c: seq<bool>)
    requires 2 * p + 8 < |coded|
    ensures |c| == |coded|
  {
    coded[2 * p := !coded[2 * p]][2 * p + 1 := !coded[2 * p + 1]][2 * p + 8 := !coded[2 * p + 8]]
  }

  lemma ThreeFlipsAt(coded: seq<bool>, p: nat, t: nat)
    requires 2 * p + 8 < |coded| && 2 * t + 1 < |coded|
    ensures ThreeFlips(coded, p)[2 * t] == Xor(coded[2 * t], Hit1(p, t))
    ensures ThreeFlips(coded, p)[2 * t + 1] == Xor(coded[2 * t + 1], Hit2(p, t))
  {
  }

  /** Errors a path at difference `d` from the sent one sees in step `t` of the damaged stream. */
  function StepMisfit(d: seq<bool>, p: nat, t: nat): nat {
    BitValue(Xor(Out1(d, t), Hit1(p, t))) + BitValue(Xor(Out2(d, t), Hit2(p, t)))
  }

  function Misfit(d: seq<bool>, p: nat, lo: nat, hi: nat): nat
    requires lo <= hi
    decreases hi - lo
  {
    if lo == hi then 0 else Misfit(d, p, lo, hi - 1) + StepMisfit(d, p, hi - 1)
  }

  lemma {:induction false} MisfitSplit(d: seq<bool>, p: nat, lo: nat, mid: nat, hi: nat)
    requires lo <= mid <= hi
    ensures Misfit(d, p, lo, hi) == Misfit(d, p, lo, mid) + Misfit(d, p, mid, hi)
    decreases hi - mid
  {
    if mid < hi { MisfitSplit(d, p, lo, mid, hi - 1); }
  }

  lemma {:induction false} ErrorsAsMisfit(sent: seq<bool>, ys: seq<bool>, p: nat, n: nat)
    requires |sent| == |ys| && n <= |sent| && 2 * p + 8 < 2 * |sent|
    ensures HammingDistance(Encoded(ys[..n]), ThreeFlips(Encoded(sent), p)[..2 * n]) ==
            Misfit(Difference(sent, ys), p, 0, n)
  {
    hide Out1, Out2, HammingDistance, Difference, ThreeFlips, Hit1, Hit2;
    if n == 0 {
      assert Encoded(ys[..0]) == [] && ThreeFlips(Encoded(sent), p)[..0] == [];
      SameIsZero([]);
    } else {
      var t, c := n - 1, ThreeFlips(Encoded(sent), p);
      ErrorsAsMisfit(sent, ys, p, t);
      var ys' := ys[..n];
      assert ys'[..t] == ys[..t] && ys'[..n] == ys[..n];
      Causal(ys', ys, t);
      Linear(sent, ys, t);
      EncodedAt(sent, t);
      ThreeFlipsAt(Encoded(sent), p, t);
      assert c[..2 * n] == c[..2 * t] + [c[2 * t], c[2 * t + 1]];
      DistancePair(Encoded(ys[..t]), c[..2 * t], Out1(ys, t), Out2(ys, t), c[2 * t], c[2 * t + 1]);
    }
  }

  lemma MisfitWindow(d: seq<bool>, p: nat)
    ensures Misfit(d, p, p, p + 7) ==
            StepMisfit(d, p, p) + StepMisfit(d, p, p + 1) + StepMisfit(d, p, p + 2) + StepMisfit(d, p, p + 3)
            + StepMisfit(d, p, p + 4) + StepMisfit(d, p, p + 5) + StepMisfit(d, p, p + 6)
  {
    hide StepMisfit;
    assert Misfit(d, p, p, p + 2) == StepMisfit(d, p, p) + StepMisfit(d, p, p + 1) by {
      assert Misfit(d, p, p, p + 1) == StepMisfit(d, p, p);
    }
    assert Misfit(d, p, p, p + 4) == Misfit(d, p, p, p + 2) + StepMisfit(d, p, p + 2) + StepMisfit(d, p, p + 3) by {
      assert Misfit(d, p, p, p + 3) == Misfit(d, p, p, p + 2) + StepMisfit(d, p, p + 2);
    }
    assert Misfit(d, p, p, p + 6) == Misfit(d, p, p, p + 4) + StepMisfit(d, p, p + 4) + StepMisfit(d, p, p + 5) by {
      assert Misfit(d, p, p, p + 5) == Misfit(d, p, p, p + 4) + StepMisfit(d, p, p + 4);
    }
  }

  /** A path that keeps the message sees all three errors, whatever it does in the flush. */
  lemma KeepingSeesThree(d: seq<bool>, p: nat)
    requires |d| == p + 7 && forall i :: 0 <= i <= p ==> !d[i]
    ensures Misfit(d, p, p, p + 7) >= 3
  {
    var b1, b2, b3, b4, b5, b6 := d[p + 1], d[p + 2], d[p + 3], d[p + 4], d[p + 5], d[p + 6];
    assert StepMisfit(d, p, p) == 2;
    assert StepMisfit(d, p, p + 1) == BitValue(b1) + BitValue(b1);
    assert StepMisfit(d, p, p + 2) == BitValue(b2) + BitValue(Xor(b2, b1));
    assert StepMisfit(d, p, p + 3) == BitValue(b3) + BitValue(Xor(b3, b2));
    assert StepMisfit(d, p, p + 4) == BitValue(!Xor(b4, b1)) + BitValue(Xor(b4, Xor(b3, b1)));
    MisfitWindow(d, p);
  }

  /** The rival that differs in the last message bit and one flush bit sees only two. */
  lemma RivalSeesTwo(d: seq<bool>, p: nat)
    requires |d| == p + 7 && forall i :: 0 <= i < p + 7 ==> d[i] == (i == p || i == p + 3)
    ensures Misfit(d, p, 0, p + 7) == 2
  {
    forall t | 0 <= t < p ensures StepMisfit(d, p, t) == 0 { }
    NoMisfitBefore(d, p, p);
    MisfitSplit(d, p, 0, p, p + 7);
    MisfitWindow(d, p);
    assert StepMisfit(d, p, p) == 0 && StepMisfit(d, p, p + 1) == 1 && StepMisfit(d, p, p + 2) == 0;
    assert StepMisfit(d, p, p + 3) == 0 && StepMisfit(d, p, p + 4) == 0;
    assert StepMisfit(d, p, p + 5) == 1 && StepMisfit(d, p, p + 6) == 0;
  }

  lemma {:induction false} NoMisfitBefore(d: seq<bool>, p: nat, n: nat)
    requires forall t :: 0 <= t < n ==> StepMisfit(d, p, t) == 0
    ensures Misfit(d, p, 0, n) == 0
  {
    if n > 0 { NoMisfitBefore(d, p, n - 1); }
  }

  /** The radius is exactly two: every nonempty message has a code word with three flipped bits
      from which no nearest path carries the message. */
  lemma ThreeErrorsDefeat(message: seq<bool>, path: seq<bool>)
    requires message != [] && |path| == |message| + K - 1
    requires Nearest(ThreeFlips(ConvEncoded(message), |message| - 1), path)
    ensures DropFlush(path) != message
  {
    hide Encoded, HammingDistance, Misfit;
    var sent, p := Flushed(message), |message| - 1;
    var coded := ThreeFlips(Encoded(sent), p);
    var n := |sent|;
    var rival := sent[p := !sent[p]][p + 3 := !sent[p + 3]];
    assert sent[..n] == sent && rival[..n] == rival && path[..n] == path;
    ErrorsAsMisfit(sent, rival, p, n);
    RivalSeesTwo(Difference(sent, rival), p);
    assert Errors(coded, rival) == 2;
    ErrorsAsMisfit(sent, path, p, n);
    if DropFlush(path) == message {
      var d := Difference(sent, path);
      assert forall i :: 0 <= i <= p ==> !d[i] by {
        forall i | 0 <= i <= p ensures !d[i] { assert path[..|message|][i] == message[i] == sent[i]; }
      }
      KeepingSeesThree(d, p);
      MisfitSplit(d, p, 0, p, n);
      assert false;
    }
  }

  // ---------------------------------------------------------------------------------------
  // Soft values

  /** Every confidence is an erasure or has the sign of its coded bit. */
  ghost predicate NoWrongSign(soft: seq<real>, coded: seq<bool>)
    requires |soft| == |coded|
  {
    forall k :: 0 <= k < |soft| ==> if coded[k] then soft[k] >= 0.0 else soft[k] <= 0.0
  }

  /** Of the two coded bits of each step at least one was received. */
  ghost predicate EveryStepHeard(soft: seq<real>) {
    forall t :: 0 <= 2 * t && 2 * t + 1 < |soft| ==> soft[2 * t] != 0.0 || soft[2 * t + 1] != 0.0
  }

  lemma {:induction false} RightSignsAgreeBest(soft: seq<real>, coded: seq<bool>, other: seq<bool>)
    requires |coded| == |other| <= |soft| && NoWrongSign(soft[..|coded|], coded)
    ensures Correlation(soft, other) <= Correlation(soft, coded)
    ensures forall k :: 0 <= k < |coded| && coded[k] != other[k] && soft[k] != 0.0 ==>
              Correlation(soft, other) < Correlation(soft, coded)
  {
    if coded != [] {
      var n := |coded| - 1;
      assert forall k :: 0 <= k < |coded| ==> soft[..|coded|][k] == soft[k];
      RightSignsAgreeBest(soft, coded[..n], other[..n]);
    }
  }

  /** Any other path agrees strictly worse: both coded bits of the parting step differ. */
  lemma OtherPathsWorse(soft: seq<real>, sent: seq<bool>, path: seq<bool>)
    requires |soft| == 2 * |sent| == 2 * |path| && path != sent
    requires NoWrongSign(soft, Encoded(sent)) && EveryStepHeard(soft)
    ensures Correlation(soft, Encoded(path)) < Correlation(soft, Encoded(sent))
  {
    hide Encoded, Correlation, Out1, Out2;
    var c := Encoded(sent);
    assert soft[..|c|] == soft;
    RightSignsAgreeBest(soft, c, Encoded(path));
    var p := FirstDifference(sent, path);
    var d := Difference(sent, path);
    assert forall i :: 0 <= i < p ==> !d[i] by {
      forall i | 0 <= i < p ensures !d[i] { assert sent[..p][i] == path[..p][i]; }
    }
    DivergenceFlipsBoth(d, p);
    Linear(sent, path, p);
    EncodedAt(sent, p);
    EncodedAt(path, p);
    assert soft[2 * p] != 0.0 || soft[2 * p + 1] != 0.0;
  }

  /** Erasures are repaired without limit: if no confidence has the wrong sign and each step kept
      one of its coded bits, the only best path is the one that was sent. */
  lemma ErasuresRepaired(soft: seq<real>, sent: seq<bool>, path: seq<bool>)
    requires |soft| == 2 * |sent| == 2 * |path|
    requires NoWrongSign(soft, Encoded(sent)) && EveryStepHeard(soft)
    requires MostCorrelated(soft, path)
    ensures path == sent
  {
    if path != sent {
      OtherPathsWorse(soft, sent, path);
      assert false;
    }
  }

  /** Confidences of one magnitude: a hard decision written as a soft one. */
  ghost predicate Uniform(soft: seq<real>, c: real, hard: seq<bool>)
    requires |soft| == |hard|
  {
    forall k :: 0 <= k < |soft| ==> soft[k] == if hard[k] then c else -c
  }

  lemma {:induction false} UniformCorrelation(soft: seq<real>, c: real, hard: seq<bool>, coded: seq<bool>)
    requires |soft| == |hard| && Uniform(soft, c, hard) && |coded| <= |soft|
    ensures Correlation(soft, coded) == Scaled(c, |coded| - 2 * HammingDistance(coded, hard[..|coded|]))
  {
    hide Scaled;
    if coded == [] {
      ScaledAdd(c, 0, 0);
    } else {
      var n := |coded| - 1;
      UniformCorrelation(soft, c, hard, coded[..n]);
      assert hard[..|coded|][..n] == hard[..n];
      var h := HammingDistance(coded[..n], hard[..n]);
      if coded[n] == hard[n] {
        assert HammingDistance(coded, hard[..|coded|]) == h;
        ScaledAdd(c, n - 2 * h, 1);
      } else {
        assert HammingDistance(coded, hard[..|coded|]) == h + 1;
        ScaledAdd(c, n - 2 * h, -1);
      }
    }
  }

  function Scaled(c: real, k: int): real { c * k as real }

  lemma ScaledAdd(c: real, a: int, b: int)
    ensures Scaled(c, a + b) == Scaled(c, a) + Scaled(c, b)
    ensures Scaled(c, 0) == 0.0 && Scaled(c, 1) == c && Scaled(c, -1) == -c
  {
  }

  lemma ScaledMonotone(c: real, a: int, b: int)
    requires c > 0.0 && a < b
    ensures Scaled(c, a) < Scaled(c, b)
  {
    ScaledAdd(c, a, b - a);
  }

  /** On confidences of one magnitude the soft decoder finds a nearest path. */
  lemma UniformSoftIsHard(soft: seq<real>, c: real, hard: seq<bool>, path: seq<bool>)
    requires |soft| == |hard| == 2 * |path| && c > 0.0 && Uniform(soft, c, hard)
    requires MostCorrelated(soft, path)
    ensures Nearest(hard, path)
  {
    hide Correlation, HammingDistance, Scaled;
    assert hard[..|hard|] == hard;
    UniformCorrelation(soft, c, hard, Encoded(path));
    forall ys: seq<bool> | |ys| == |path|
      ensures Errors(hard, path) <= Errors(hard, ys)
    {
      UniformCorrelation(soft, c, hard, Encoded(ys));
      if Errors(hard, path) > Errors(hard, ys) {
        ScaledMonotone(c, |hard| - 2 * Errors(hard, path), |hard| - 2 * Errors(hard, ys));
        assert false;
      }
    }
  }

  // ---------------------------------------------------------------------------------------
  // Wrong signs among unequal confidences

  /** `hard` is what the signs say, and no magnitude lies outside `lo` to `hi`. */
  ghost predicate Decided(soft: seq<real>, hard: seq<bool>, lo: real, hi: real) {
    |soft| == |hard| && forall k :: 0 <= k < |soft| ==> lo <= (if hard[k] then soft[k] else -soft[k]) <= hi
  }

  /** How far a code word is ahead of another: at least `2 lo` for every position in which they differ,
      less what the wrong signs can take back. */
  lemma {:induction false} Lead(soft: seq<real>, hard: seq<bool>, c: seq<bool>, d: seq<bool>, lo: real, hi: real)
    requires Decided(soft, hard, lo, hi) && 0.0 < lo <= hi && |c| == |d| <= |soft|
    ensures Correlation(soft, c) - Correlation(soft, d)
            >= Scaled(2.0 * lo, HammingDistance(c, d)) - Scaled(2.0 * (lo + hi), HammingDistance(c, hard[..|c|]))
  {
    hide Scaled;
    if c == [] {
      ScaledAdd(2.0 * lo, 0, 0);
      ScaledAdd(2.0 * (lo + hi), 0, 0);
    } else {
      var n := |c| - 1;
      Lead(soft, hard, c[..n], d[..n], lo, hi);
      assert hard[..|c|][..n] == hard[..n];
      ScaledAdd(2.0 * lo, HammingDistance(c[..n], d[..n]), BitValue(c[n] != d[n]));
      ScaledAdd(2.0 * (lo + hi), HammingDistance(c[..n], hard[..n]), BitValue(c[n] != hard[n]));
      ScaledAdd(2.0 * lo, 0, 0);
      ScaledAdd(2.0 * (lo + hi), 0, 0);
    }
  }

  lemma {:induction false} ScaledNotLess(c: real, a: int, b: int)
    requires c > 0.0 && a <= b
    ensures Scaled(c, a) <= Scaled(c, b)
  {
    if a < b { ScaledMonotone(c, a, b); }
  }

  /** `wrong` wrong signs among confidences between `lo` and `hi` weigh less than the right ones that
      the free distance leaves: two wrong ones while the confidences stay within a factor below 3/2, one
      within a factor below 4, none whatever they are. */
  predicate Outweighed(wrong: nat, lo: real, hi: real) {
    0.0 < lo <= hi && wrong <= 5 && wrong as real * hi < (5 - wrong) as real * lo
  }

  /** Guaranteed correction on soft values: outweighed wrong signs, wherever they are, do not change the
      message of any best-correlated path. */
  lemma SoftCorrection(message: seq<bool>, soft: seq<real>, hard: seq<bool>, lo: real, hi: real, path: seq<bool>)
    requires |soft| == 2 * (|message| + K - 1) && Decided(soft, hard, lo, hi)
    requires Outweighed(HammingDistance(ConvEncoded(message), hard), lo, hi)
    requires |path| == |soft| / 2 && MostCorrelated(soft, path)
    ensures DropFlush(path) == message
  {
    assert |soft| == |hard|;
    hide Encoded, HammingDistance, Correlation, Scaled, Decided;
    var sent := Flushed(message);
    if sent != path {
      if FirstDifference(sent, path) >= |message| {
        PartingInTheFlush(message, path);
      } else {
        FreeDistance(sent, path);
        var d, e := HammingDistance(Encoded(sent), Encoded(path)), HammingDistance(Encoded(sent), hard);
        assert hard[..|Encoded(sent)|] == hard;
        Lead(soft, hard, Encoded(sent), Encoded(path), lo, hi);
        ScaledNotLess(2.0 * lo, 5, d);
        RightOutweigh(e, lo, hi);
        assert false;
      }
    }
  }

  lemma RightOutweigh(e: nat, lo: real, hi: real)
    requires Outweighed(e, lo, hi)
    ensures Scaled(2.0 * (lo + hi), e) < Scaled(2.0 * lo, 5)
  {
    assert (5 - e) as real * lo == 5.0 * lo - e as real * lo;
    assert Scaled(2.0 * (lo + hi), e) == 2.0 * (e as real * lo + e as real * hi);
  }
}
