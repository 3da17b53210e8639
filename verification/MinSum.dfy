/** The normalized min-sum decoder of the sparse accumulate code, over real-valued messages. */
module MinSum {
  import opened Trellis
  import opened Wrappers

  function Abs(x: real): real { if x < 0.0 then -x else x }

  function Magnitudes(ms: seq<real>): (r: seq<real>)
    ensures |r| == |ms| && forall k :: 0 <= k < |r| ==> r[k] == Abs(ms[k])
  {
    seq(|ms|, k requires 0 <= k < |ms| => Abs(ms[k]))
  }

  /** `np.minimum.reduceat` over one check. */
  function Least(mags: seq<real>): (m: real)
    requires mags != []
    ensures m in mags && forall k :: 0 <= k < |mags| ==> m <= mags[k]
  {
    var n := |mags| - 1;
    if n == 0 then mags[0] else
      var m := Least(mags[..n]);
      if mags[n] < m then mags[n] else m
  }

  /** How many entries equal `m`. */
  function CountOf(mags: seq<real>, m: real): nat {
    if mags == [] then 0 else CountOf(mags[..|mags| - 1], m) + BitValue(mags[|mags| - 1] == m)
  }

  /** The least entry once those equal to `m` count as infinite; `None` is infinity. */
  function LeastWithout(mags: seq<real>, m: real): (r: Option<real>)
    ensures r.None? ==> forall k :: 0 <= k < |mags| ==> mags[k] == m
    ensures r.Some? ==> && r.value in mags && r.value != m
                        && forall k :: 0 <= k < |mags| && mags[k] != m ==> r.value <= mags[k]
  {
    if mags == [] then None else
      var n := |mags| - 1;
      var r := LeastWithout(mags[..n], m);
      if mags[n] == m then r
      else if r.Some? && r.value <= mags[n] then r
      else Some(mags[n])
  }

  lemma {:induction false} CountTwo(mags: seq<real>, m: real, i: nat, j: nat)
    requires i < j < |mags| && mags[i] == mags[j] == m
    ensures CountOf(mags, m) >= 2
  {
    var n := |mags| - 1;
    if j < n { CountTwo(mags[..n], m, i, j); } else { CountOne(mags[..n], m, i); }
  }

  lemma {:induction false} CountOne(mags: seq<real>, m: real, i: nat)
    requires i < |mags| && mags[i] == m
    ensures CountOf(mags, m) >= 1
  {
    var n := |mags| - 1;
    if i < n { CountOne(mags[..n], m, i); }
  }

  lemma {:induction false} CountGivesOther(mags: seq<real>, m: real, i: nat) returns (j: nat)
    requires i < |mags| && CountOf(mags, m) >= 2
    ensures j < |mags| && j != i && mags[j] == m
  {
    var n := |mags| - 1;
    if mags[n] == m && i != n {
      j := n;
    } else if i < n {
      j := CountGivesOther(mags[..n], m, i);
    } else {
      j := CountGivesAny(mags[..n], m);
    }
  }

  lemma {:induction false} CountGivesAny(mags: seq<real>, m: real) returns (j: nat)
    requires CountOf(mags, m) >= 1
    ensures j < |mags| && mags[j] == m
  {
    var n := |mags| - 1;
    if mags[n] == m { j := n; } else { j := CountGivesAny(mags[..n], m); }
  }

  /** The magnitude sent back along edge `k`, from the two least magnitudes of the check. */
  function Outgoing(mags: seq<real>, k: nat): real
    requires |mags| >= 2 && k < |mags|
  {
    var m := Least(mags);
    if mags[k] == m && CountOf(mags, m) == 1 then
      match LeastWithout(mags, m)
      case Some(second) => second
      case None => 0.0
    else m
  }

  /** The rule the two-minima shortcut stands for: the least magnitude of all the other edges. */
  ghost predicate LeastOfOthers(mags: seq<real>, k: nat, x: real) {
    && (exists j :: 0 <= j < |mags| && j != k && mags[j] == x)
    && (forall j :: 0 <= j < |mags| && j != k ==> x <= mags[j])
  }

  lemma OutgoingIsLeastOfOthers(mags: seq<real>, k: nat)
    requires |mags| >= 2 && k < |mags|
    ensures LeastOfOthers(mags, k, Outgoing(mags, k))
  {
    hide Least, CountOf, LeastWithout;
    var m := Least(mags);
    if mags[k] == m && CountOf(mags, m) == 1 {
      forall j | 0 <= j < |mags| && j != k
        ensures mags[j] != m
      {
        if mags[j] == m { CountTwo(mags, m, if j < k then j else k, if j < k then k else j); }
      }
      var other := if k == 0 then 1 else 0;
      assert mags[other] != m;
    } else if mags[k] == m {
      CountOne(mags, m, k);
      var j := CountGivesOther(mags, m, k);
    }
  }

  /** `np.bitwise_xor.reduceat` of the signs of one check. */
  function NegativeParity(ms: seq<real>): bool {
    if ms == [] then false else Xor(NegativeParity(ms[..|ms| - 1]), ms[|ms| - 1] < 0.0)
  }

  /** The messages one check returns on its edges. */
  function CheckToVariable(ms: seq<real>): (r: seq<real>)
    requires |ms| >= 2
    ensures |r| == |ms|
  {
    seq(|ms|, k requires 0 <= k < |ms| =>
      var magnitude := Outgoing(Magnitudes(ms), k);
      0.80 * if Xor(NegativeParity(ms), ms[k] < 0.0) then -magnitude else magnitude)
  }

  /** A value is nonzero and has the sign of bit `b`: negative for one, positive for zero. */
  predicate Signed(x: real, b: bool) { if b then x < 0.0 else x > 0.0 }

  /** A check whose incoming messages all carry the signs of bits that sum to zero confirms each. */
  lemma SatisfiedCheckConfirms(ms: seq<real>, bits: seq<bool>, k: nat)
    requires |ms| == |bits| >= 2 && k < |ms|
    requires forall j :: 0 <= j < |ms| ==> Signed(ms[j], bits[j])
    requires !NegativeParity(ms)
    ensures Signed(CheckToVariable(ms)[k], bits[k])
  {
    hide Outgoing, NegativeParity;
    var mags := Magnitudes(ms);
    OutgoingIsLeastOfOthers(mags, k);
    assert Outgoing(mags, k) > 0.0;
  }
}
