/** Quotients and remainders of naturals by a variable divisor. */
module Arithmetic {
  lemma DivModNext(n: nat, L: nat)
    requires L > 0
    ensures n % L + 1 < L ==> (n + 1) / L == n / L && (n + 1) % L == n % L + 1
    ensures n % L + 1 == L ==> (n + 1) / L == n / L + 1 && (n + 1) % L == 0
  {
    var q, r := n / L, n % L;
    assert n == q * L + r;
    if r + 1 < L {
      DivModUnique(n + 1, L, q, r + 1);
    } else {
      assert (q + 1) * L == q * L + L;
      DivModUnique(n + 1, L, q + 1, 0);
    }
  }

  lemma DivModUnique(n: nat, L: nat, q: nat, r: nat)
    requires L > 0 && r < L && n == q * L + r
    ensures n / L == q && n % L == r
  {
    var q', r' := n / L, n % L;
    assert n == q' * L + r' && 0 <= r' < L;
    if q' < q { Spread(q', q, L); assert false; }
    if q < q' { Spread(q, q', L); assert false; }
  }

  lemma Spread(a: nat, b: nat, L: nat)
    requires a < b
    ensures a * L + L <= b * L
  {
    assert b * L == a * L + (b - a) * L;
    assert (b - a) * L == L + (b - a - 1) * L;
  }

  lemma RemainderNext(n: nat, L: nat)
    requires L > 0
    ensures (n % L + 1) % L == (n + 1) % L
    ensures (n % L + 1) % L == if n % L + 1 == L then 0 else n % L + 1
  {
    var r := n % L;
    DivModNext(n, L);
    DivModNext(r, L);
    DivModUnique(r, L, 0, r);
  }
}
