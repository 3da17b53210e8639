/** The multiplicative-stride bit interleaver: transmitted position `i * s mod n` for source `i`,
    with `s` coprime to the block length `n`. */
module Interleaving {
  import opened Arithmetic

  /** `math.gcd`. */
  function Gcd(a: nat, b: nat): nat
    decreases b
  {
    if b == 0 then a else Gcd(b, a % b)
  }

  /** The greatest common divisor as a combination of its arguments. */
  lemma {:induction false} Bezout(a: nat, b: nat) returns (u: int, v: int)
    ensures u * a + v * b == Gcd(a, b)
    decreases b
  {
    if b == 0 {
      u, v := 1, 0;
    } else {
      var u', v' := Bezout(b, a % b);
      var q := a / b;
      assert a % b == a - q * b;
      u, v := v', u' - q * v';
      Recombine(u', v', a, b, q);
    }
  }

  lemma Recombine(u: int, v: int, a: int, b: int, q: int)
    ensures v * a + (u - q * v) * b == u * b + v * (a - q * b)
  {
    assert (u - q * v) * b == u * b - q * v * b;
    assert v * (a - q * b) == v * a - v * (q * b);
    assert v * (q * b) == q * v * b;
  }

  lemma NeighboursCoprime(n: nat)
    requires n > 2
    ensures Gcd(n - 1, n) == 1
  {
    hide Gcd;
    DivModUnique(n - 1, n, 0, n - 1);
    DivModUnique(n, n - 1, 1, 1);
    GcdStep(n - 1, n);
    GcdStep(n, n - 1);
    GcdStep(n - 1, 1);
    GcdStep(1, 0);
  }

  lemma GcdStep(a: nat, b: nat)
    ensures b > 0 ==> Gcd(a, b) == Gcd(b, a % b)
    ensures b == 0 ==> Gcd(a, b) == a
  {
  }

  /** `stride_for`, from any rounding of the golden-ratio start: the first coprime stride.  The exit
      taken when the search reaches the block length is dead. */
  method StrideFor(length: nat, start: nat) returns (stride: nat)
    requires length > 2 ==> 2 <= start < length
    ensures length <= 2 ==> stride == 1
    ensures length > 2 ==> start <= stride < length && forall s :: start <= s < stride ==> Gcd(s, length) != 1
    ensures Gcd(stride, length) == 1
  {
    hide Gcd;
    if length <= 2 {
      SmallStride(length);
      return 1;
    }
    stride := start;
    NeighboursCoprime(length);
    while Gcd(stride, length) != 1
      invariant start <= stride < length
      invariant forall s :: start <= s < stride ==> Gcd(s, length) != 1
      decreases length - stride
    {
      stride := stride + 1;
      if stride >= length {
        assert false;
      }
    }
  }

  lemma SmallStride(length: nat)
    requires length <= 2
    ensures Gcd(1, length) == 1
  {
    GcdStep(1, length);
    if length == 2 { GcdStep(2, 1); }
  }

  // ---------------------------------------------------------------------------------------
  // Congruences

  lemma SameRemainder(a: nat, b: nat, n: nat) returns (k: int)
    requires n > 0 && a % n == b % n
    ensures a - b == n * k
  {
    k := a / n - b / n;
    assert n * k == n * (a / n) - n * (b / n);
  }

  lemma RemainderSame(a: nat, b: nat, n: nat, k: int)
    requires n > 0 && a - b == n * k
    ensures a % n == b % n
  {
    var q, r := a / n, a % n;
    assert b == n * (q - k) + r by { assert n * (q - k) == n * q - n * k; }
    NotNegative(n, q - k, r);
    assert (q - k) * n == n * (q - k);
    DivModUnique(b, n, q - k, r);
  }

  lemma NotNegative(n: nat, d: int, r: nat)
    requires r < n && n * d + r >= 0
    ensures d >= 0
  {
    if d < 0 {
      AtLeastOnce(n, -d);
      assert false;
    }
  }

  lemma AtLeastOnce(n: int, m: int)
    requires n >= 0 && m >= 1
    ensures n * m >= n && n * (-m) <= -n
  {
    assert n * m == n + n * (m - 1);
  }

  /** A factor coprime to the modulus can be cancelled. */
  lemma Cancel(s: nat, n: nat, d: int, k: int) returns (m: int)
    requires Gcd(s, n) == 1 && s * d == n * k
    ensures d == n * m
  {
    var u, v := Bezout(s, n);
    m := u * k + v * d;
    CancelArithmetic(s, n, d, k, u, v);
  }

  lemma CancelArithmetic(s: int, n: int, d: int, k: int, u: int, v: int)
    requires u * s + v * n == 1 && s * d == n * k
    ensures d == n * (u * k + v * d)
  {
    assert (u * s + v * n) * d == u * (s * d) + v * n * d;
    assert u * (n * k) == n * (u * k);
    assert v * n * d == n * (v * d);
  }

  // ---------------------------------------------------------------------------------------
  // The permutation

  /** `_permutation(length)[i]`. */
  function Destination(i: nat, stride: nat, n: nat): (d: nat)
    requires n > 0
    ensures d < n
  {
    i * stride % n
  }

  lemma Injective(i: nat, j: nat, stride: nat, n: nat)
    requires i < n && j < n && Gcd(stride, n) == 1
    requires Destination(i, stride, n) == Destination(j, stride, n)
    ensures i == j
  {
    hide Gcd;
    var k := SameRemainder(i * stride, j * stride, n);
    Factor(stride, i, j);
    var m := Cancel(stride, n, i - j, k);
    SmallMultiple(n, m, i - j);
  }

  lemma Factor(s: int, i: int, j: int)
    ensures s * (i - j) == i * s - j * s
  {
  }

  lemma SmallMultiple(n: nat, m: int, d: int)
    requires d == n * m && d < n && -d < n
    ensures d == 0
  {
    if m > 0 { AtLeastOnce(n, m); assert false; }
    if m < 0 { AtLeastOnce(n, -m); assert false; }
    assert m == 0;
  }

  /** Every transmitted position is some bit's destination. */
  lemma Surjective(p: nat, stride: nat, n: nat) returns (i: nat)
    requires p < n && Gcd(stride, n) == 1
    ensures i < n && Destination(i, stride, n) == p
  {
    hide Gcd;
    var u, v := Bezout(stride, n);
    var c := if u >= 0 then 0 else -u;
    var u' := u + n * c;
    assert u' >= 0 by { if u < 0 { AtLeastOnce(c, n); assert n * c == c * n; } }
    assert p * u' >= 0;
    i := p * u' % n;
    var w := p * u' / n;
    SurjectiveArithmetic(p, stride, n, u, v, c, w, i);
    RemainderSame(i * stride, p, n, (p * c - w) * stride - v * p);
    DivModUnique(p, n, 0, p);
  }

  lemma SurjectiveArithmetic(p: int, s: int, n: int, u: int, v: int, c: int, w: int, i: int)
    requires u * s + v * n == 1 && p * (u + n * c) == n * w + i
    ensures i * s - p == n * ((p * c - w) * s - v * p)
  {
    var x, y := (p * c - w) * s, v * p;
    assert i == p * u + n * (p * c - w) by { Distribute(p, u, n * c); Distribute(n, p * c, -w); Swap(p, n, c); }
    assert i * s == p * u * s + n * x by { Distribute(s, p * u, n * (p * c - w)); Swap(s, n, p * c - w); }
    assert p * u * s == p - n * y by { Distribute(p, u * s, v * n); Swap(p, n, v); assert n * (p * v) == n * y; }
    Distribute(n, x, -y);
  }

  lemma Swap(a: int, b: int, c: int)
    ensures a * (b * c) == b * (a * c) == b * (c * a) && a * (c * b) == b * (a * c)
  {
  }

  lemma Distribute(a: int, b: int, c: int)
    ensures a * (b + c) == a * b + a * c
  {
  }

  // ---------------------------------------------------------------------------------------
  // Interleaving and its inverse

  /** `out` holds each source value at its destination. */
  ghost predicate IsInterleaving<T>(values: seq<T>, out: seq<T>, stride: nat) {
    |out| == |values| && forall i :: 0 <= i < |values| ==> out[Destination(i, stride, |values|)] == values[i]
  }

  /** `interleave`: `out[_permutation(len(values))] = values`. */
  method Interleave<T(0)>(values: seq<T>, stride: nat) returns (out: array<T>)
    requires Gcd(stride, |values|) == 1
    ensures fresh(out) && IsInterleaving(values, out[..], stride)
  {
    hide Gcd, Destination;
    out := new T[|values|];
    for i := 0 to |values|
      invariant forall j :: 0 <= j < i ==> out[Destination(j, stride, |values|)] == values[j]
    {
      var d := Destination(i, stride, |values|);
      forall j | 0 <= j < i
        ensures Destination(j, stride, |values|) != d
      {
        if Destination(j, stride, |values|) == d { Injective(i, j, stride, |values|); }
      }
      out[d] := values[i];
    }
  }

  /** `deinterleave`: `values[_permutation(len(values))]`. */
  function Deinterleave<T>(values: seq<T>, stride: nat): (out: seq<T>)
    ensures |out| == |values|
  {
    seq(|values|, i requires 0 <= i < |values| => values[Destination(i, stride, |values|)])
  }

  /** The round trip, from the source side and from the transmitted side: `out` is the
      interleaving of `values` exactly when deinterleaving it gives `values` back. */
  lemma RoundTrip<T>(values: seq<T>, out: seq<T>, stride: nat)
    ensures IsInterleaving(values, out, stride) <==> |out| == |values| && Deinterleave(out, stride) == values
  {
    if |out| == |values| && Deinterleave(out, stride) == values {
      forall i | 0 <= i < |values|
        ensures out[Destination(i, stride, |values|)] == values[i]
      {
        assert Deinterleave(out, stride)[i] == values[i];
      }
    }
  }

  /** No transmitted position is left over: a block has one interleaving. */
  lemma InterleavingUnique<T>(values: seq<T>, a: seq<T>, b: seq<T>, stride: nat)
    requires Gcd(stride, |values|) == 1 && IsInterleaving(values, a, stride) && IsInterleaving(values, b, stride)
    ensures a == b
  {
    forall p | 0 <= p < |a|
      ensures a[p] == b[p]
    {
      var i := Surjective(p, stride, |values|);
    }
  }

  // ---------------------------------------------------------------------------------------
  // What a damaged carrier destroys

  /** Transmitted positions share a residue modulo a divisor `C` of the block exactly when their
      source positions do. */
  lemma ResidueClasses(i: nat, j: nat, stride: nat, n: nat, C: nat, m: nat)
    requires n > 0 && C > 0 && n == C * m && Gcd(stride, n) == 1
    ensures Destination(i, stride, n) % C == Destination(j, stride, n) % C <==> i % C == j % C
  {
    hide Gcd;
    InnerRemainder(i * stride, n, C, m);
    InnerRemainder(j * stride, n, C, m);
    if i * stride % C == j * stride % C {
      ResidueBack(i, j, stride, n, C, m);
    }
    if i % C == j % C {
      ResidueForth(i, j, stride, C);
    }
  }

  lemma ResidueBack(i: nat, j: nat, stride: nat, n: nat, C: nat, m: nat)
    requires n > 0 && C > 0 && n == C * m && Gcd(stride, n) == 1
    requires i * stride % C == j * stride % C
    ensures i % C == j % C
  {
    hide Gcd;
    var k := SameRemainder(i * stride, j * stride, C);
    Factor(stride, i, j);
    var w := CancelDivisor(stride, n, C, m, i - j, k);
    RemainderSame(i, j, C, w);
  }

  lemma ResidueForth(i: nat, j: nat, stride: nat, C: nat)
    requires C > 0 && i % C == j % C
    ensures i * stride % C == j * stride % C
  {
    var k := SameRemainder(i, j, C);
    assert i * stride - j * stride == (i - j) * stride;
    assert C * k * stride == C * (k * stride);
    RemainderSame(i * stride, j * stride, C, k * stride);
  }

  lemma InnerRemainder(a: nat, n: nat, C: nat, m: nat)
    requires n > 0 && C > 0 && n == C * m
    ensures a % n % C == a % C
  {
    var q := a / n;
    assert a == n * q + a % n;
    assert C * m * q == C * (m * q);
    RemainderSame(a, a % n, C, m * q);
  }

  lemma CancelDivisor(s: nat, n: nat, C: nat, m: nat, d: int, k: int) returns (w: int)
    requires n == C * m && Gcd(s, n) == 1 && s * d == C * k
    ensures d == C * w
  {
    hide Gcd;
    var u, v := Bezout(s, n);
    assert v * (C * m) == v * m * C;
    w := u * k + v * m * d;
    CancelArithmetic(s, C, d, k, u, v * m);
  }

  /** The code bits a notch destroys lie at least a symbol length apart. */
  lemma DamageSpread(i: nat, j: nat, stride: nat, n: nat, C: nat, m: nat)
    requires n > 0 && C > 0 && n == C * m && Gcd(stride, n) == 1 && i < j < n
    requires Destination(i, stride, n) % C == Destination(j, stride, n) % C
    ensures j - i >= C
  {
    hide Gcd, Destination;
    ResidueClasses(i, j, stride, n, C, m);
    var k := SameRemainder(j, i, C);
    if j - i < C {
      SmallMultiple(C, k, j - i);
      assert false;
    }
  }
}
