/** The systematic accumulate encoder, and code words as words with zero syndrome. */
module LdpcEncoder {
  import opened Trellis
  import opened LdpcGraph

  /** The parity of the bits a check covers. */
  function CheckSum(word: seq<bool>, vars: seq<nat>): bool {
    if vars == [] then false else Xor(CheckSum(word, vars[..|vars| - 1]), In(word, vars[|vars| - 1]))
  }

  /** All checks are satisfied: the syndrome is zero. */
  predicate ZeroSyndrome(g: Graph, word: seq<bool>) {
    forall c :: 0 <= c < |g.checks| ==> !CheckSum(word, g.checks[c])
  }

  predicate IsCodeword(g: Graph, word: seq<bool>) {
    |word| == g.information + g.parity && ZeroSyndrome(g, word)
  }

  /** The parity, over data bits below `n`, of those that touch check `c`. */
  ghost function DataSyndrome(data: seq<bool>, dataChecks: seq<seq<nat>>, c: nat, n: nat): bool
    requires n <= |data| == |dataChecks|
  {
    if n == 0 then false else
      Xor(DataSyndrome(data, dataChecks, c, n - 1), data[n - 1] && c in dataChecks[n - 1])
  }

  /** The parity of the bits below `n` whose positions are in `vars`. */
  ghost function MemberSum(word: seq<bool>, vars: seq<nat>, n: nat): bool {
    if n == 0 then false else Xor(MemberSum(word, vars, n - 1), In(word, n - 1) && (n - 1) in vars)
  }

  lemma {:induction false} MemberSumAppend(word: seq<bool>, vars: seq<nat>, x: nat, n: nat)
    requires x !in vars
    ensures MemberSum(word, vars + [x], n) == if x < n then Xor(MemberSum(word, vars, n), In(word, x))
            else MemberSum(word, vars, n)
  {
    if n > 0 {
      MemberSumAppend(word, vars, x, n - 1);
    }
  }

  /** A sum along a list without repetitions is a sum over its members. */
  lemma {:induction false} CheckSumOverMembers(word: seq<bool>, vars: seq<nat>, n: nat)
    requires NoDuplicates(vars) && AllBelow(vars, n)
    ensures CheckSum(word, vars) == MemberSum(word, vars, n)
  {
    if vars == [] {
      NoMembers(word, n);
    } else {
      var init, x := vars[..|vars| - 1], vars[|vars| - 1];
      CheckSumOverMembers(word, init, n);
      MemberSumAppend(word, init, x, n);
      assert vars == init + [x];
    }
  }

  lemma {:induction false} NoMembers(word: seq<bool>, n: nat)
    ensures !MemberSum(word, [], n)
  {
    if n > 0 { NoMembers(word, n - 1); }
  }

  lemma {:induction false} MembersAreData(g: Graph, dataParts: seq<seq<nat>>, word: seq<bool>, data: seq<bool>,
                                          c: nat, n: nat)
    requires Valid(g, dataParts) && c < g.parity && |data| == g.information && n <= |data| <= |word|
             && word[..|data|] == data
    ensures MemberSum(word, dataParts[c], n) == DataSyndrome(data, g.dataChecks, c, n)
  {
    if n > 0 {
      MembersAreData(g, dataParts, word, data, c, n - 1);
      assert word[..|data|][n - 1] == word[n - 1];
      assert (n - 1) in dataParts[c] <==> c in g.dataChecks[n - 1];
    }
  }

  lemma DataPartSum(g: Graph, dataParts: seq<seq<nat>>, word: seq<bool>, data: seq<bool>, c: nat)
    requires Valid(g, dataParts) && c < g.parity && |data| == g.information <= |word| && word[..|data|] == data
    ensures CheckSum(word, dataParts[c]) == DataSyndrome(data, g.dataChecks, c, |data|)
    ensures g.checks[c] == dataParts[c] + Accumulator(g.information, c)
  {
    assert NoDuplicates(dataParts[c]) && AllBelow(dataParts[c], g.information);
    CheckSumOverMembers(word, dataParts[c], g.information);
    MembersAreData(g, dataParts, word, data, c, g.information);
  }

  /** What check `c` sums: the data bits that touch it and two neighbouring accumulator bits. */
  lemma CheckSumSplits(g: Graph, dataParts: seq<seq<nat>>, word: seq<bool>, data: seq<bool>, c: nat)
    requires Valid(g, dataParts) && c < g.parity && |data| == g.information
    requires |word| == g.information + g.parity && word[..|data|] == data
    ensures CheckSum(word, g.checks[c]) ==
            Xor(DataSyndrome(data, g.dataChecks, c, |data|),
                Xor(word[|data| + c], c > 0 && word[|data| + c - 1]))
  {
    hide CheckSum, DataSyndrome, Accumulator;
    DataPartSum(g, dataParts, word, data, c);
    hide Valid;
    AccumulatorSum(word, dataParts[c], g.information, c);
  }

  lemma AccumulatorSum(word: seq<bool>, part: seq<nat>, information: nat, c: nat)
    ensures CheckSum(word, part + Accumulator(information, c)) ==
            Xor(CheckSum(word, part), Xor(In(word, information + c), c > 0 && In(word, information + c - 1)))
  {
    hide CheckSum, In;
    CheckSumAppend(word, part, information + c);
    if c > 0 {
      CheckSumAppend(word, part + [information + c], information + c - 1);
      assert part + Accumulator(information, c) == part + [information + c] + [information + c - 1];
    }
  }

  lemma CheckSumAppend(word: seq<bool>, vars: seq<nat>, v: nat)
    ensures CheckSum(word, vars + [v]) == Xor(CheckSum(word, vars), In(word, v))
  {
    assert (vars + [v])[..|vars|] == vars;
  }

  /** A code word is determined by its data bits. */
  lemma CodewordUnique(g: Graph, dataParts: seq<seq<nat>>, a: seq<bool>, b: seq<bool>)
    requires Valid(g, dataParts) && IsCodeword(g, a) && IsCodeword(g, b)
    requires a[..g.information] == b[..g.information]
    ensures a == b
  {
    ParityAgrees(g, dataParts, a, b, g.parity);
    assert a == a[..g.information + g.parity] && b == b[..g.information + g.parity];
  }

  lemma {:induction false} ParityAgrees(g: Graph, dataParts: seq<seq<nat>>, a: seq<bool>, b: seq<bool>, n: nat)
    requires Valid(g, dataParts) && IsCodeword(g, a) && IsCodeword(g, b)
    requires a[..g.information] == b[..g.information] && n <= g.parity
    ensures a[..g.information + n] == b[..g.information + n]
  {
    if n > 0 {
      var c, k := n - 1, g.information;
      ParityAgrees(g, dataParts, a, b, c);
      CheckSumSplits(g, dataParts, a, a[..k], c);
      CheckSumSplits(g, dataParts, b, a[..k], c);
      assert c > 0 ==> a[..k + c][k + c - 1] == b[..k + c][k + c - 1];
      assert a[..k + n] == a[..k + c] + [a[k + c]] && b[..k + n] == b[..k + c] + [b[k + c]];
    }
  }

  /** `syndrome[checks] ^= 1`: each listed check is toggled once. */
  method Toggle(syndrome: array<bool>, checks: seq<nat>)
    requires NoDuplicates(checks) && AllBelow(checks, syndrome.Length)
    modifies syndrome
    ensures forall c :: 0 <= c < syndrome.Length ==> syndrome[c] == Xor(old(syndrome[c]), c in checks)
  {
    for k := 0 to |checks|
      invariant forall c :: 0 <= c < syndrome.Length ==> syndrome[c] == Xor(old(syndrome[c]), c in checks[..k])
    {
      assert checks[k] !in checks[..k] && checks[..k + 1] == checks[..k] + [checks[k]];
      syndrome[checks[k]] := !syndrome[checks[k]];
    }
    assert checks[..|checks|] == checks;
  }

  /** `_ldpc_encode`: systematic, and every check sums to zero. */
  method Encode(data: seq<bool>, g: Graph, ghost dataParts: seq<seq<nat>>) returns (word: seq<bool>)
    requires Valid(g, dataParts) && |data| == g.information
    ensures IsCodeword(g, word) && word[..|data|] == data
  {
    var syndrome := new bool[g.parity](_ => false);
    for variable := 0 to g.information
      invariant forall c :: 0 <= c < g.parity ==> syndrome[c] == DataSyndrome(data, g.dataChecks, c, variable)
    {
      if data[variable] {
        Toggle(syndrome, g.dataChecks[variable]);
      }
    }
    var parityBits := new bool[g.parity](_ => false);
    ghost var s := syndrome[..];
    var previous := false;
    for check := 0 to g.parity
      invariant syndrome[..] == s
      invariant previous == (check > 0 && parityBits[check - 1])
      invariant Accumulated(s, parityBits[..], check)
    {
      ghost var before := parityBits[..];
      AccumulatedNext(s, before, check, previous);
      parityBits[check] := Xor(syndrome[check], previous);
      assert parityBits[..] == before[check := Xor(s[check], previous)];
      previous := parityBits[check];
    }
    word := data + parityBits[..];
    forall c | 0 <= c < g.parity
      ensures !CheckSum(word, g.checks[c])
    {
      CheckSumSplits(g, dataParts, word, data, c);
      assert s[c] == syndrome[c] && AccumulatedAt(s, parityBits[..], c);
    }
  }

  /** Parity bit `c` closes check `c`: it is the syndrome plus the previous parity bit. */
  predicate AccumulatedAt(syndrome: seq<bool>, parityBits: seq<bool>, c: nat)
    requires c < |syndrome| == |parityBits|
  {
    parityBits[c] == Xor(syndrome[c], c > 0 && parityBits[c - 1])
  }

  predicate Accumulated(syndrome: seq<bool>, parityBits: seq<bool>, n: nat) {
    n <= |syndrome| == |parityBits| && forall c :: 0 <= c < n ==> AccumulatedAt(syndrome, parityBits, c)
  }

  lemma AccumulatedNext(syndrome: seq<bool>, parityBits: seq<bool>, n: nat, previous: bool)
    requires Accumulated(syndrome, parityBits, n) && n < |syndrome|
    requires previous == (n > 0 && parityBits[n - 1])
    ensures Accumulated(syndrome, parityBits[n := Xor(syndrome[n], previous)], n + 1)
  {
    var after := parityBits[n := Xor(syndrome[n], previous)];
    forall c | 0 <= c < n + 1
      ensures AccumulatedAt(syndrome, after, c)
    {
      if c < n { assert AccumulatedAt(syndrome, parityBits, c); }
    }
  }
}
