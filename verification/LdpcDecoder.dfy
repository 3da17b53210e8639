/** Flooding normalized min-sum decoding on the graph of the code. */
module LdpcDecoder {
  import opened Wrappers
  import opened Puncturing
  import opened LdpcGraph
  import opened LdpcEncoder
  import opened MinSum

  /** `np.clip(x, -80.0, 80.0)`. */
  function Clip(x: real): real { if x < -80.0 then -80.0 else if x > 80.0 then 80.0 else x }

  function Channel(soft: seq<real>): (r: seq<real>)
    ensures |r| == |soft| && forall v :: 0 <= v < |r| ==> r[v] == -Clip(soft[v])
  {
    seq(|soft|, v requires 0 <= v < |soft| => -Clip(soft[v]))
  }

  /** Every check covers existing variables, at least two of them. */
  ghost predicate Checks(checks: seq<seq<nat>>, n: nat) {
    forall c :: 0 <= c < |checks| ==> |checks[c]| >= 2 && forall k :: 0 <= k < |checks[c]| ==> checks[c][k] < n
  }

  /** Messages: one value per edge. */
  ghost predicate Messages(ms: seq<seq<real>>, checks: seq<seq<nat>>) {
    |ms| == |checks| && forall c :: 0 <= c < |checks| ==> |ms[c]| == |checks[c]|
  }

  /** `values[edge_var]`, per check. */
  function Gather(values: seq<real>, vars: seq<nat>): (r: seq<real>)
    requires forall k :: 0 <= k < |vars| ==> vars[k] < |values|
    ensures |r| == |vars| && forall k :: 0 <= k < |r| ==> r[k] == values[vars[k]]
  {
    seq(|vars|, k requires 0 <= k < |vars| => values[vars[k]])
  }

  function GatherAll(values: seq<real>, checks: seq<seq<nat>>): (r: seq<seq<real>>)
    requires Checks(checks, |values|)
    ensures Messages(r, checks) && forall c :: 0 <= c < |r| ==> r[c] == Gather(values, checks[c])
  {
    seq(|checks|, c requires 0 <= c < |checks| => Gather(values, checks[c]))
  }

  function ReturnAll(ms: seq<seq<real>>, checks: seq<seq<nat>>, n: nat): (r: seq<seq<real>>)
    requires Checks(checks, n) && Messages(ms, checks)
    ensures Messages(r, checks) && forall c :: 0 <= c < |r| ==> r[c] == CheckToVariable(ms[c])
  {
    seq(|checks|, c requires 0 <= c < |checks| => CheckToVariable(ms[c]))
  }

  /** What one check sends to variable `v`. */
  function FromCheck(ms: seq<real>, vars: seq<nat>, v: nat): real
    requires |ms| == |vars|
  {
    if vars == [] then 0.0 else
      var n := |vars| - 1;
      FromCheck(ms[..n], vars[..n], v) + if vars[n] == v then ms[n] else 0.0
  }

  /** `np.bincount` with weights: what the first `n` checks send to variable `v`. */
  function Incoming(ms: seq<seq<real>>, checks: seq<seq<nat>>, v: nat, n: nat): real
    requires Messages(ms, checks) && n <= |checks|
  {
    if n == 0 then 0.0 else Incoming(ms, checks, v, n - 1) + FromCheck(ms[n - 1], checks[n - 1], v)
  }

  function Posterior(channel: seq<real>, ms: seq<seq<real>>, checks: seq<seq<nat>>): (r: seq<real>)
    requires Messages(ms, checks)
    ensures |r| == |channel| && forall v :: 0 <= v < |r| ==> r[v] == channel[v] + Incoming(ms, checks, v, |checks|)
  {
    seq(|channel|, v requires 0 <= v < |channel| => channel[v] + Incoming(ms, checks, v, |checks|))
  }

  function HardDecision(posterior: seq<real>): (r: seq<bool>)
    ensures |r| == |posterior| && forall v :: 0 <= v < |r| ==> r[v] == (posterior[v] < 0.0)
  {
    seq(|posterior|, v requires 0 <= v < |posterior| => posterior[v] < 0.0)
  }

  /** `posterior[edge_var] - check_to_variable`: each edge forgets what it was just told. */
  function Subtract(a: seq<seq<real>>, b: seq<seq<real>>, checks: seq<seq<nat>>): (r: seq<seq<real>>)
    requires Messages(a, checks) && Messages(b, checks)
    ensures Messages(r, checks)
  {
    seq(|checks|, c requires 0 <= c < |checks| =>
      seq(|checks[c]|, k requires 0 <= k < |checks[c]| => a[c][k] - b[c][k]))
  }

  // ---------------------------------------------------------------------------------------
  // A right answer is kept

  ghost predicate AllSigned(values: seq<real>, word: seq<bool>) {
    |values| == |word| && forall v :: 0 <= v < |values| ==> Signed(values[v], word[v])
  }

  lemma {:induction false} SignParityIsCheckSum(values: seq<real>, word: seq<bool>, vars: seq<nat>)
    requires AllSigned(values, word) && forall k :: 0 <= k < |vars| ==> vars[k] < |values|
    ensures NegativeParity(Gather(values, vars)) == CheckSum(word, vars)
  {
    if vars != [] {
      var n := |vars| - 1;
      SignParityIsCheckSum(values, word, vars[..n]);
      assert Gather(values, vars)[..n] == Gather(values, vars[..n]);
    }
  }

  /** A message never pulls towards the wrong bit. */
  predicate Supports(x: real, b: bool) { if b then x <= 0.0 else x >= 0.0 }

  lemma {:induction false} FromCheckSupports(ms: seq<real>, vars: seq<nat>, word: seq<bool>, v: nat)
    requires |ms| == |vars| && v < |word|
    requires forall k :: 0 <= k < |vars| ==> vars[k] < |word| && Signed(ms[k], word[vars[k]])
    ensures Supports(FromCheck(ms, vars, v), word[v])
  {
    if vars != [] {
      var n := |vars| - 1;
      FromCheckSupports(ms[..n], vars[..n], word, v);
    }
  }

  /** All messages of a satisfied check carry the right signs. */
  lemma CheckSupports(values: seq<real>, word: seq<bool>, vars: seq<nat>, v: nat)
    requires AllSigned(values, word) && v < |word| && |vars| >= 2
    requires forall k :: 0 <= k < |vars| ==> vars[k] < |values|
    requires !CheckSum(word, vars)
    ensures Supports(FromCheck(CheckToVariable(Gather(values, vars)), vars, v), word[v])
  {
    hide CheckToVariable, FromCheck, CheckSum, NegativeParity;
    var ms := Gather(values, vars);
    SignParityIsCheckSum(values, word, vars);
    var bits := seq(|vars|, k requires 0 <= k < |vars| => word[vars[k]]);
    forall k | 0 <= k < |vars|
      ensures Signed(CheckToVariable(ms)[k], word[vars[k]])
    {
      SatisfiedCheckConfirms(ms, bits, k);
    }
    FromCheckSupports(CheckToVariable(ms), vars, word, v);
  }

  lemma {:induction false} IncomingSupports(values: seq<real>, word: seq<bool>, checks: seq<seq<nat>>, v: nat, n: nat)
    requires AllSigned(values, word) && v < |word| && Checks(checks, |values|) && n <= |checks|
    requires forall c :: 0 <= c < |checks| ==> !CheckSum(word, checks[c])
    ensures Supports(Incoming(ReturnAll(GatherAll(values, checks), checks, |values|), checks, v, n), word[v])
  {
    hide CheckToVariable, FromCheck, CheckSum;
    if n > 0 {
      IncomingSupports(values, word, checks, v, n - 1);
      CheckSupports(values, word, checks[n - 1], v);
    }
  }

  /** Min-sum keeps a right answer: if every channel value has the sign of a code word, one round
      leaves every sign in place, whatever the magnitudes. */
  lemma FirstRoundKeepsSigns(channel: seq<real>, word: seq<bool>, g: Graph)
    requires AllSigned(channel, word) && IsCodeword(g, word) && Checks(g.checks, |channel|)
    ensures HardDecision(Posterior(channel, ReturnAll(GatherAll(channel, g.checks), g.checks, |channel|), g.checks))
            == word
  {
    hide CheckToVariable, Incoming, GatherAll, ReturnAll;
    var ms := ReturnAll(GatherAll(channel, g.checks), g.checks, |channel|);
    forall v | 0 <= v < |channel|
      ensures HardDecision(Posterior(channel, ms, g.checks))[v] == word[v]
    {
      IncomingSupports(channel, word, g.checks, v, |g.checks|);
    }
  }

  lemma ChannelSigns(soft: seq<real>, word: seq<bool>)
    requires RightSigns(soft, word)
    ensures AllSigned(Channel(soft), word)
  {
  }

  lemma ValidChecks(g: Graph, dataParts: seq<seq<nat>>)
    requires Valid(g, dataParts) && g.information > 0
    ensures Checks(g.checks, g.information + g.parity)
  {
    forall c | 0 <= c < |g.checks|
      ensures |g.checks[c]| >= 2 && forall k :: 0 <= k < |g.checks[c]| ==> g.checks[c][k] < g.information + g.parity
    {
      DegreeAtLeastTwo(g, dataParts, c);
    }
  }

  /** `_ldpc_decode`.  `hard` is the last hard decision and `early` tells whether its syndrome was
      zero, that is, whether the decoder stopped before its iterations ran out. */
  method Decode(soft: seq<real>, g: Graph, maxIterations: int, ghost dataParts: seq<seq<nat>>)
    returns (r: Result<seq<bool>>, ghost hard: seq<bool>, ghost early: bool)
    requires Valid(g, dataParts) && g.information > 0
    ensures r.Ok? <==> |soft| == g.information + g.parity
    ensures r.Ok? ==> |hard| == |soft| && r.value == hard[..g.information]
    ensures r.Ok? ==> (early <==> IsCodeword(g, hard))
    ensures forall word: seq<bool> :: IsCodeword(g, word) && RightSigns(soft, word) ==>
              r == Ok(word[..g.information]) && early
  {
    hide Valid, HardDecision, Posterior, GatherAll, ReturnAll, Subtract, RightSigns;
    early, hard := false, [];
    if |soft| != g.information + g.parity {
      r := Err("LDPC section has the wrong length");
      forall word: seq<bool> | IsCodeword(g, word) && RightSigns(soft, word) ensures false { SameLength(soft, word); }
      return;
    }
    ValidChecks(g, dataParts);
    var channel := Channel(soft);
    var variableToCheck := GatherAll(channel, g.checks);
    var decision := seq(|soft|, _ => false);
    var rounds := if maxIterations > 1 then maxIterations else 1;
    for round := 0 to rounds
      invariant Messages(variableToCheck, g.checks) && |decision| == |soft|
      invariant round > 0 ==> !ZeroSyndrome(g, decision)
      invariant round == 0 ==> variableToCheck == GatherAll(channel, g.checks)
      invariant round > 0 ==> forall word: seq<bool> :: IsCodeword(g, word) ==> !RightSigns(soft, word)
    {
      var checkToVariable := ReturnAll(variableToCheck, g.checks, |soft|);
      var posterior := Posterior(channel, checkToVariable, g.checks);
      decision := HardDecision(posterior);
      forall word: seq<bool> | round == 0 && IsCodeword(g, word) && RightSigns(soft, word)
        ensures decision == word
      {
        ChannelSigns(soft, word);
        FirstRoundKeepsSigns(channel, word, g);
      }
      if ZeroSyndrome(g, decision) {
        early, hard := true, decision;
        return Ok(decision[..g.information]), hard, early;
      }
      variableToCheck := Subtract(GatherAll(posterior, g.checks), checkToVariable, g.checks);
    }
    hard := decision;
    r := Ok(decision[..g.information]);
  }

  lemma SameLength(soft: seq<real>, word: seq<bool>)
    requires RightSigns(soft, word)
    ensures |soft| == |word|
  {
  }
}
