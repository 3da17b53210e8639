/** The K=7, 171/133 convolutional code: its shift-register trellis, the encoder, and the
    linear description of the coded stream on which the decoders' guarantees rest.

    A bit is a `bool`.  A sequence of trellis inputs is a `path`; the encoder's path is the
    message followed by K-1 flush bits. */
module Trellis {

  const K: nat := 7
  const G1: nat := 121  // octal 171
  const G2: nat := 91   // octal 133
  const NUM_STATES: nat := 64

  function Xor(a: bool, b: bool): bool { a != b }

  function BitValue(b: bool): nat { if b then 1 else 0 }

  /** Whether the binary numeral of `x` has an odd number of ones. */
  function Parity(x: nat): bool {
    if x == 0 then false else Xor(x % 2 == 1, Parity(x / 2))
  }

  /** Bitwise conjunction of two naturals. */
  function And(x: nat, y: nat): nat {
    if x == 0 || y == 0 then 0 else BitValue(x % 2 == 1 && y % 2 == 1) + 2 * And(x / 2, y / 2)
  }

  /** One trellis step: the next state and the two coded bits. */
  function Outputs(prev: nat, bit: bool): (r: (nat, bool, bool))
    requires prev < NUM_STATES
    ensures r.0 < NUM_STATES
  {
    var sr := 2 * prev + BitValue(bit);
    (sr % NUM_STATES, Parity(And(sr, G1)), Parity(And(sr, G2)))
  }

  function Next(s: nat, b: bool): nat
    requires s < NUM_STATES
  {
    Outputs(s, b).0
  }

  /** The state the shift register is in after the inputs `xs`, starting from zero. */
  function StateAfter(xs: seq<bool>): (s: nat)
    ensures s < NUM_STATES
  {
    if xs == [] then 0 else Outputs(StateAfter(xs[..|xs| - 1]), xs[|xs| - 1]).0
  }

  // ---------------------------------------------------------------------------------------
  // The same code, described without a state: each coded bit is a sum of taps on the input.

  function Sum5(a: bool, b: bool, c: bool, d: bool, e: bool): bool {
    Xor(a, Xor(b, Xor(c, Xor(d, e))))
  }

  /** Input `i` of the path, with zeros before its start. */
  function In(xs: seq<bool>, i: int): bool { 0 <= i < |xs| && xs[i] }

  function Out1(xs: seq<bool>, t: int): bool {
    Sum5(In(xs, t), In(xs, t - 3), In(xs, t - 4), In(xs, t - 5), In(xs, t - 6))
  }

  function Out2(xs: seq<bool>, t: int): bool {
    Sum5(In(xs, t), In(xs, t - 1), In(xs, t - 3), In(xs, t - 4), In(xs, t - 6))
  }

  /** The coded stream of a path: two bits per step. */
  function Encoded(xs: seq<bool>): (c: seq<bool>)
    ensures |c| == 2 * |xs|
  {
    if xs == [] then [] else
      var t := |xs| - 1;
      Encoded(xs[..t]) + [Out1(xs, t), Out2(xs, t)]
  }

  lemma {:induction false} EncodedAt(xs: seq<bool>, t: nat)
    requires t < |xs|
    ensures Encoded(xs)[2 * t] == Out1(xs, t) && Encoded(xs)[2 * t + 1] == Out2(xs, t)
  {
    var n := |xs| - 1;
    if t < n {
      EncodedAt(xs[..n], t);
      assert xs[..n][..t + 1] == xs[..t + 1];
      Causal(xs[..n], xs, t);
    }
  }

  const FLUSH: seq<bool> := [false, false, false, false, false, false]

  /** The path the encoder drives for a message. */
  function Flushed(bits: seq<bool>): (xs: seq<bool>)
    ensures |xs| == |bits| + K - 1
  {
    bits + FLUSH
  }

  function ConvEncoded(bits: seq<bool>): (c: seq<bool>)
    ensures |c| == 2 * (|bits| + K - 1)
  {
    Encoded(Flushed(bits))
  }

  /** The low bit of both operands contributes its product to the parity of the conjunction. */
  lemma ParityAndStep(h: nat, l: bool, g: nat, m: bool)
    ensures Parity(And(2 * h + BitValue(l), 2 * g + BitValue(m))) == Xor(l && m, Parity(And(h, g)))
  {
    var x, y := 2 * h + BitValue(l), 2 * g + BitValue(m);
    assert x / 2 == h && y / 2 == g && (x % 2 == 1) == l && (y % 2 == 1) == m;
    if x != 0 && y != 0 {
      var low := BitValue(l && m);
      assert And(x, y) == low + 2 * And(h, g);
      ParityStep(And(h, g), l && m);
    } else {
      assert And(x, y) == 0 && (h == 0 || g == 0);
    }
  }

  lemma ParityOfNothing()
    ensures !Parity(And(0, 0))
  {
  }

  lemma ParityStep(h: nat, l: bool)
    ensures Parity(2 * h + BitValue(l)) == Xor(l, Parity(h))
  {
    var x := 2 * h + BitValue(l);
    assert x / 2 == h && (x % 2 == 1) == l;
  }

  /** The numeral with bits `b0` (lowest) to `b6`. */
  function Numeral(b0: bool, b1: bool, b2: bool, b3: bool, b4: bool, b5: bool, b6: bool): nat {
    BitValue(b0) + 2 * (BitValue(b1) + 2 * (BitValue(b2) + 2 * (BitValue(b3)
    + 2 * (BitValue(b4) + 2 * (BitValue(b5) + 2 * BitValue(b6))))))
  }

  lemma G1Taps(b0: bool, b1: bool, b2: bool, b3: bool, b4: bool, b5: bool, b6: bool)
    ensures Parity(And(Numeral(b0, b1, b2, b3, b4, b5, b6), G1)) == Sum5(b0, b3, b4, b5, b6)
  {
    hide And, Parity;
    var h5: nat := BitValue(b5) + 2 * BitValue(b6);
    var h4: nat := BitValue(b4) + 2 * h5;
    var h3: nat := BitValue(b3) + 2 * h4;
    var h2: nat := BitValue(b2) + 2 * h3;
    var h1: nat := BitValue(b1) + 2 * h2;
    ParityAndStep(h1, b0, 60, true);
    ParityAndStep(h2, b1, 30, false);
    ParityAndStep(h3, b2, 15, false);
    ParityAndStep(h4, b3, 7, true);
    ParityAndStep(h5, b4, 3, true);
    ParityAndStep(BitValue(b6), b5, 1, true);
    ParityAndStep(0, b6, 0, true);
    ParityOfNothing();
  }

  lemma G2Taps(b0: bool, b1: bool, b2: bool, b3: bool, b4: bool, b5: bool, b6: bool)
    ensures Parity(And(Numeral(b0, b1, b2, b3, b4, b5, b6), G2)) == Sum5(b0, b1, b3, b4, b6)
  {
    hide And, Parity;
    var h5: nat := BitValue(b5) + 2 * BitValue(b6);
    var h4: nat := BitValue(b4) + 2 * h5;
    var h3: nat := BitValue(b3) + 2 * h4;
    var h2: nat := BitValue(b2) + 2 * h3;
    var h1: nat := BitValue(b1) + 2 * h2;
    ParityAndStep(h1, b0, 45, true);
    ParityAndStep(h2, b1, 22, true);
    ParityAndStep(h3, b2, 11, false);
    ParityAndStep(h4, b3, 5, true);
    ParityAndStep(h5, b4, 2, true);
    ParityAndStep(BitValue(b6), b5, 1, false);
    ParityAndStep(0, b6, 0, true);
    ParityOfNothing();
  }

  /** The state holds exactly the last six inputs, newest in the low bit. */
  lemma {:induction false} StateHoldsLastSix(xs: seq<bool>)
    ensures var n := |xs|;
            StateAfter(xs) == Numeral(In(xs, n - 1), In(xs, n - 2), In(xs, n - 3), In(xs, n - 4),
                                      In(xs, n - 5), In(xs, n - 6), false)
  {
    if xs != [] {
      var n, init := |xs|, xs[..|xs| - 1];
      StateHoldsLastSix(init);
      assert forall i :: i < n - 1 ==> In(init, i) == In(xs, i);
      ShiftRegister(In(xs, n - 1), In(xs, n - 2), In(xs, n - 3), In(xs, n - 4), In(xs, n - 5),
                    In(xs, n - 6), In(xs, n - 7));
    }
  }

  lemma ShiftRegister(b0: bool, b1: bool, b2: bool, b3: bool, b4: bool, b5: bool, b6: bool)
    ensures 2 * Numeral(b1, b2, b3, b4, b5, b6, false) + BitValue(b0) == Numeral(b0, b1, b2, b3, b4, b5, b6)
    ensures Numeral(b0, b1, b2, b3, b4, b5, b6) % NUM_STATES == Numeral(b0, b1, b2, b3, b4, b5, false)
  {
    var r := Numeral(b0, b1, b2, b3, b4, b5, false);
    assert Numeral(b0, b1, b2, b3, b4, b5, b6) == r + 64 * BitValue(b6) && r < 64;
  }

  /** One step of the trellis from the state of `xs` produces the tap sums at the new position. */
  lemma StepOutputs(xs: seq<bool>, b: bool)
    ensures Outputs(StateAfter(xs), b) ==
            (StateAfter(xs + [b]), Out1(xs + [b], |xs|), Out2(xs + [b], |xs|))
  {
    hide Outputs, StateAfter, Numeral, Sum5, In;
    var n, ys := |xs|, xs + [b];
    StateHoldsLastSix(xs);
    StateHoldsLastSix(ys);
    InPrefix(xs, [b], n - 1); InPrefix(xs, [b], n - 2); InPrefix(xs, [b], n - 3);
    InPrefix(xs, [b], n - 4); InPrefix(xs, [b], n - 5); InPrefix(xs, [b], n - 6);
    InLast(xs, b);
    ShiftAndTap(b, In(xs, n - 1), In(xs, n - 2), In(xs, n - 3), In(xs, n - 4), In(xs, n - 5), In(xs, n - 6));
  }

  lemma ShiftAndTap(b0: bool, b1: bool, b2: bool, b3: bool, b4: bool, b5: bool, b6: bool)
    ensures Numeral(b1, b2, b3, b4, b5, b6, false) < NUM_STATES
    ensures Outputs(Numeral(b1, b2, b3, b4, b5, b6, false), b0) ==
            (Numeral(b0, b1, b2, b3, b4, b5, false), Sum5(b0, b3, b4, b5, b6), Sum5(b0, b1, b3, b4, b6))
  {
    hide And, Parity, Sum5;
    ShiftRegister(b0, b1, b2, b3, b4, b5, b6);
    assert Numeral(b1, b2, b3, b4, b5, b6, false) < NUM_STATES;
    G1Taps(b0, b1, b2, b3, b4, b5, b6);
    G2Taps(b0, b1, b2, b3, b4, b5, b6);
  }

  lemma InPrefix(xs: seq<bool>, ys: seq<bool>, k: int)
    requires k < |xs|
    ensures In(xs + ys, k) == In(xs, k)
  {
  }

  lemma InLast(xs: seq<bool>, b: bool)
    ensures In(xs + [b], |xs|) == b
  {
  }

  /** A coded bit depends only on inputs up to its own step. */
  lemma Causal(xs: seq<bool>, ys: seq<bool>, t: nat)
    requires t < |xs| && t < |ys| && xs[..t + 1] == ys[..t + 1]
    ensures Out1(xs, t) == Out1(ys, t) && Out2(xs, t) == Out2(ys, t)
  {
    assert forall i :: i <= t ==> In(xs, i) == In(ys, i) by {
      forall i | 0 <= i <= t ensures xs[i] == ys[i] { assert xs[..t + 1][i] == ys[..t + 1][i]; }
    }
  }

  // ---------------------------------------------------------------------------------------
  // The encoder

  lemma EncodedStep(path: seq<bool>, t: nat)
    requires t < |path|
    ensures Outputs(StateAfter(path[..t]), path[t]).0 == StateAfter(path[..t + 1])
    ensures var step := Outputs(StateAfter(path[..t]), path[t]);
            Encoded(path[..t + 1]) == Encoded(path[..t]) + [step.1, step.2]
  {
    hide And, Parity, Sum5, In;
    var prefix := path[..t + 1];
    StepOutputs(path[..t], path[t]);
    assert prefix == path[..t] + [path[t]] && prefix[..t] == path[..t];
  }

  /** `conv_encode`: drive the trellis through the message and the flush bits. */
  method ConvEncode(bits: seq<bool>) returns (out: seq<bool>)
    ensures out == ConvEncoded(bits)
  {
    hide Outputs, Out1, Out2;
    var state: nat := 0;
    out := [];
    var path := bits + FLUSH;
    for t := 0 to |path|
      invariant state == StateAfter(path[..t])
      invariant out == Encoded(path[..t])
    {
      var step := Outputs(state, path[t]);
      EncodedStep(path, t);
      state := step.0;
      out := out + [step.1];
      out := out + [step.2];
    }
    assert path[..|path|] == path;
    assert path == Flushed(bits);
  }

  // ---------------------------------------------------------------------------------------
  // Linearity and the distance of diverging paths

  /** Where two paths of one length differ. */
  function Difference(xs: seq<bool>, ys: seq<bool>): (e: seq<bool>)
    requires |xs| == |ys|
    ensures |e| == |xs|
    ensures forall i :: 0 <= i < |e| ==> e[i] == Xor(xs[i], ys[i])
  {
    seq(|xs|, i requires 0 <= i < |xs| => Xor(xs[i], ys[i]))
  }

  /** The code is linear: the coded streams of two paths differ exactly where the coded stream
      of their difference is one. */
  lemma Linear(xs: seq<bool>, ys: seq<bool>, t: nat)
    requires |xs| == |ys|
    ensures Out1(Difference(xs, ys), t) == Xor(Out1(xs, t), Out1(ys, t))
    ensures Out2(Difference(xs, ys), t) == Xor(Out2(xs, t), Out2(ys, t))
  {
    hide Xor, Sum5, In;
    InDifference(xs, ys, t); InDifference(xs, ys, t - 1); InDifference(xs, ys, t - 3);
    InDifference(xs, ys, t - 4); InDifference(xs, ys, t - 5); InDifference(xs, ys, t - 6);
    Sum5Linear(In(xs, t), In(xs, t - 3), In(xs, t - 4), In(xs, t - 5), In(xs, t - 6),
               In(ys, t), In(ys, t - 3), In(ys, t - 4), In(ys, t - 5), In(ys, t - 6));
    Sum5Linear(In(xs, t), In(xs, t - 1), In(xs, t - 3), In(xs, t - 4), In(xs, t - 6),
               In(ys, t), In(ys, t - 1), In(ys, t - 3), In(ys, t - 4), In(ys, t - 6));
  }

  lemma InDifference(xs: seq<bool>, ys: seq<bool>, i: int)
    requires |xs| == |ys|
    ensures In(Difference(xs, ys), i) == Xor(In(xs, i), In(ys, i))
  {
  }

  lemma Sum5Linear(a: bool, b: bool, c: bool, d: bool, e: bool,
                   a': bool, b': bool, c': bool, d': bool, e': bool)
    ensures Sum5(Xor(a, a'), Xor(b, b'), Xor(c, c'), Xor(d, d'), Xor(e, e'))
         == Xor(Sum5(a, b, c, d, e), Sum5(a', b', c', d', e'))
  {
  }

  /** Number of ones among the two coded bits of step `t`. */
  function StepWeight(e: seq<bool>, t: nat): nat {
    BitValue(Out1(e, t)) + BitValue(Out2(e, t))
  }

  /** Number of ones in coded steps [lo, hi). */
  function Weight(e: seq<bool>, lo: nat, hi: nat): nat
    requires lo <= hi
    decreases hi - lo
  {
    if lo == hi then 0 else Weight(e, lo, hi - 1) + StepWeight(e, hi - 1)
  }

  lemma {:induction false} WeightSplit(e: seq<bool>, lo: nat, mid: nat, hi: nat)
    requires lo <= mid <= hi
    ensures Weight(e, lo, hi) == Weight(e, lo, mid) + Weight(e, mid, hi)
    decreases hi - mid
  {
    if mid < hi { WeightSplit(e, lo, mid, hi - 1); }
  }

  /** Both coded bits flip in the very step at which two paths part. */
  lemma DivergenceFlipsBoth(e: seq<bool>, p: nat)
    requires p < |e| && e[p]
    requires forall i :: 0 <= i < p ==> !e[i]
    ensures Out1(e, p) && Out2(e, p)
  {
  }

  /** The code's distance: two paths differ in at least five of the fourteen coded bits of the
      seven steps that start where they part. */
  lemma DivergenceWeight(e: seq<bool>, p: nat)
    requires p + 7 <= |e| && e[p]
    requires forall i :: 0 <= i < p ==> !e[i]
    ensures Weight(e, p, p + 7) >= 5
  {
    var b1, b2, b3, b4, b5, b6 := e[p + 1], e[p + 2], e[p + 3], e[p + 4], e[p + 5], e[p + 6];
    assert StepWeight(e, p) == 2;
    assert StepWeight(e, p + 1) == BitValue(b1) + BitValue(Xor(b1, true));
    assert StepWeight(e, p + 2) == BitValue(b2) + BitValue(Xor(b2, b1));
    assert StepWeight(e, p + 3) == BitValue(Xor(b3, true)) + BitValue(Xor(b3, Xor(b2, true)));
    assert StepWeight(e, p + 4) ==
           BitValue(Xor(b4, Xor(b1, true))) + BitValue(Xor(b4, Xor(b3, Xor(b1, true))));
    assert StepWeight(e, p + 5) ==
           BitValue(Xor(b5, Xor(b2, Xor(b1, true)))) + BitValue(Xor(b5, Xor(b4, Xor(b2, b1))));
    assert StepWeight(e, p + 6) ==
           BitValue(Xor(b6, Xor(b3, Xor(b2, Xor(b1, true))))) + BitValue(Xor(b6, Xor(b5, Xor(b3, Xor(b2, true)))));
    Window(e, p);
  }

  lemma Window(e: seq<bool>, p: nat)
    ensures Weight(e, p, p + 7) ==
            StepWeight(e, p) + StepWeight(e, p + 1) + StepWeight(e, p + 2) + StepWeight(e, p + 3)
            + StepWeight(e, p + 4) + StepWeight(e, p + 5) + StepWeight(e, p + 6)
  {
    assert Weight(e, p, p + 2) == StepWeight(e, p) + StepWeight(e, p + 1) by {
      assert Weight(e, p, p + 1) == StepWeight(e, p);
    }
    assert Weight(e, p, p + 4) == Weight(e, p, p + 2) + StepWeight(e, p + 2) + StepWeight(e, p + 3) by {
      assert Weight(e, p, p + 3) == Weight(e, p, p + 2) + StepWeight(e, p + 2);
    }
    assert Weight(e, p, p + 6) == Weight(e, p, p + 4) + StepWeight(e, p + 4) + StepWeight(e, p + 5) by {
      assert Weight(e, p, p + 5) == Weight(e, p, p + 4) + StepWeight(e, p + 4);
    }
  }
}
