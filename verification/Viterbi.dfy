/** Both Viterbi decoders: methods that keep the survivor tables step by step, over hard decisions and
    over soft confidences. */
module Viterbi {
  import opened Trellis
  import opened Survivors

  /** `info[: max(0, len(info) - (K - 1))]`: the flush bits are dropped. */
  function DropFlush(xs: seq<bool>): seq<bool> {
    if |xs| < K - 1 then [] else xs[..|xs| - (K - 1)]
  }

  /** `bits[::-1]`. */
  function Reversed(s: seq<bool>): (r: seq<bool>)
    ensures |r| == |s|
  {
    if s == [] then [] else [s[|s| - 1]] + Reversed(s[..|s| - 1])
  }

  /** The survivor tables in memory, as the ghost tables describe them. */
  ghost predicate Stored(back: array2<bool>, prev: array2<nat>, T: Tables)
    reads back, prev
  {
    && back.Length0 == prev.Length0 && back.Length1 == prev.Length1 == NUM_STATES
    && |T.B| == |T.P| <= back.Length0
    && forall i :: 0 <= i < |T.B| ==> StoredRow(back, prev, i, T.B[i], T.P[i])
  }

  ghost predicate StoredRow(back: array2<bool>, prev: array2<nat>, i: nat, b: seq<bool>, p: seq<nat>)
    requires back.Length0 == prev.Length0 && back.Length1 == prev.Length1 == NUM_STATES
    requires i < back.Length0
    reads back, prev
  {
    && |b| == |p| == NUM_STATES
    && forall s :: 0 <= s < NUM_STATES ==> back[i, s] == b[s] && prev[i, s] == p[s] && p[s] < NUM_STATES
  }

  /** Some path survives in state `s` before step `t`. */
  ghost predicate Survives(T: Tables, t: nat, s: nat) {
    t < |T.M| && s < NUM_STATES && |T.M[t]| == NUM_STATES && T.M[t][s].Reached?
  }

  /** One survivor pointer back. */
  lemma TraceUnfold(w: Branch, ceiling: Metric, T: Tables, t: nat, s: nat)
    requires Forward(w, ceiling, T) && t < |T.B| && Survives(T, t + 1, s)
    ensures |T.B[t]| == |T.P[t]| == NUM_STATES && Survives(T, t, T.P[t][s])
    ensures Trace(w, ceiling, T, t + 1, s) == Trace(w, ceiling, T, t, T.P[t][s]) + [T.B[t][s]]
  {
    hide Outputs;
    assert StepDone(w, ceiling, T, t);
    assert Justified(w, t, T.M[t], T.M[t + 1], T.B[t], T.P[t], s);
  }

  /** What the traceback loop keeps if its start state was reached: the bits read so far, reversed,
      complete the trace of the state it has walked back to. */
  ghost predicate TracedTo(w: Branch, ceiling: Metric, T: Tables, start: nat, t: nat, state: nat, bitsRev: seq<bool>) {
    Forward(w, ceiling, T) && t <= |T.B| && (Survives(T, |T.B|, start) ==>
      && Survives(T, t, state)
      && Trace(w, ceiling, T, |T.B|, start) == Trace(w, ceiling, T, t, state) + Reversed(bitsRev))
  }

  lemma TraceBackOne(w: Branch, ceiling: Metric, T: Tables, start: nat, t: nat, state: nat, bitsRev: seq<bool>)
    requires t < |T.B| == |T.P| && |T.B[t]| == |T.P[t]| == NUM_STATES && state < NUM_STATES
    requires TracedTo(w, ceiling, T, start, t + 1, state, bitsRev)
    ensures TracedTo(w, ceiling, T, start, t, T.P[t][state], bitsRev + [T.B[t][state]])
  {
    hide Trace, PathCost, StateAfter, Reversed, Forward;
    if Survives(T, |T.B|, start) {
      assert Forward(w, ceiling, T);
      TraceUnfold(w, ceiling, T, t, state);
      ReversedAppend(bitsRev, T.B[t][state]);
      assert (Trace(w, ceiling, T, t, T.P[t][state]) + [T.B[t][state]]) + Reversed(bitsRev) ==
             Trace(w, ceiling, T, t, T.P[t][state]) + ([T.B[t][state]] + Reversed(bitsRev));
    }
  }

  lemma ReversedAppend(s: seq<bool>, b: bool)
    ensures Reversed(s + [b]) == [b] + Reversed(s)
  {
    assert (s + [b])[..|s|] == s;
  }

  /** Walk the survivor pointers back from the chosen end state and reverse the bits read. */
  method Traceback(back: array2<bool>, prev: array2<nat>, nSteps: nat, start: nat,
                   ghost w: Branch, ghost ceiling: Metric, ghost T: Tables)
    returns (info: seq<bool>)
    requires Forward(w, ceiling, T) && |T.B| == nSteps && Stored(back, prev, T)
    requires start < NUM_STATES
    ensures |info| == nSteps
    ensures Survives(T, nSteps, start) ==> info == Trace(w, ceiling, T, nSteps, start)
  {
    hide TracedTo, Forward, Survives, Trace, Reversed;
    var state: nat := start;
    var bitsRev: seq<bool> := [];
    var t: nat := nSteps;
    TraceStarts(w, ceiling, T, start);
    while t > 0
      invariant t <= nSteps && state < NUM_STATES && |bitsRev| == nSteps - t
      invariant TracedTo(w, ceiling, T, start, t, state, bitsRev)
    {
      t := t - 1;
      assert StoredRow(back, prev, t, T.B[t], T.P[t]);
      TraceBackOne(w, ceiling, T, start, t, state, bitsRev);
      bitsRev := bitsRev + [back[t, state]];
      state := prev[t, state];
    }
    info := Reversed(bitsRev);
    TraceEnds(w, ceiling, T, start, state, bitsRev);
  }

  lemma TraceStarts(w: Branch, ceiling: Metric, T: Tables, start: nat)
    requires Forward(w, ceiling, T)
    ensures TracedTo(w, ceiling, T, start, |T.B|, start, [])
  {
    hide Trace, Forward;
  }

  lemma TraceEnds(w: Branch, ceiling: Metric, T: Tables, start: nat, state: nat, bitsRev: seq<bool>)
    requires TracedTo(w, ceiling, T, start, 0, state, bitsRev)
    ensures Forward(w, ceiling, T)
    ensures Survives(T, |T.B|, start) ==> Reversed(bitsRev) == Trace(w, ceiling, T, |T.B|, start)
  {
    hide Reversed, Forward;
    if Survives(T, |T.B|, start) {
      assert Trace(w, ceiling, T, 0, state) == [];
    }
  }

  // ---------------------------------------------------------------------------------------
  // Soft decisions

  /** Disagreement of the two coded bits of step `t` with the confidences received for them. */
  ghost function SoftCost(soft: seq<real>, t: nat, o1: bool, o2: bool): real {
    if 2 * t + 1 < |soft| then
      - (if o1 then soft[2 * t] else -soft[2 * t]) - (if o2 then soft[2 * t + 1] else -soft[2 * t + 1])
    else 0.0
  }

  ghost function SoftBranch(soft: seq<real>): Branch {
    (t: nat, o1: bool, o2: bool) => SoftCost(soft, t, o1, o2)
  }

  /** Row `t` of the survivor tables. */
  ghost function BackRow(back: array2<bool>, t: nat): (b: seq<bool>)
    requires t < back.Length0
    reads back
    ensures |b| == back.Length1 && forall s :: 0 <= s < |b| ==> b[s] == back[t, s]
  {
    seq(back.Length1, s requires 0 <= s < back.Length1 reads back => back[t, s])
  }

  ghost function PrevRow(prev: array2<nat>, t: nat): (p: seq<nat>)
    requires t < prev.Length0
    reads prev
    ensures |p| == prev.Length1 && forall s :: 0 <= s < |p| ==> p[s] == prev[t, s]
  {
    seq(prev.Length1, s requires 0 <= s < prev.Length1 reads prev => prev[t, s])
  }

  /** The arrays of one step: tables of the right shape, none of them shared. */
  ghost predicate Shapes<M>(row: array<M>, back: array2<bool>, prev: array2<nat>, t: nat) {
    && row.Length == NUM_STATES
    && back.Length0 == prev.Length0 && back.Length1 == prev.Length1 == NUM_STATES && t < back.Length0
  }

  /** Record `cost` as the new metric of `ns`, reached from `s` on `input`. */
  method Record<M>(row: array<M>, back: array2<bool>, prev: array2<nat>, t: nat, ns: nat, cost: M, s: nat, input: bool)
    requires Shapes(row, back, prev, t) && ns < NUM_STATES
    modifies row, back, prev
    ensures row[..] == old(row[..])[ns := cost]
    ensures BackRow(back, t) == old(BackRow(back, t))[ns := input]
    ensures PrevRow(prev, t) == old(PrevRow(prev, t))[ns := s]
    ensures forall i, j :: 0 <= i < back.Length0 && i != t && 0 <= j < NUM_STATES ==>
              back[i, j] == old(back[i, j]) && prev[i, j] == old(prev[i, j])
  {
    row[ns] := cost;
    back[t, ns] := input;
    prev[t, ns] := s;
  }

  /** The innermost loop body of the soft decoder: one edge of the trellis. */
  method RelaxSoft(soft: seq<real>, t: nat, s: nat, input: bool, from: real, ghost m: seq<Metric>,
                   newMetrics: array<Metric>, back: array2<bool>, prev: array2<nat>)
    requires Shapes(newMetrics, back, prev, t) && 2 * t + 1 < |soft|
    requires |m| == NUM_STATES && s < NUM_STATES && m[s] == Reached(from)
    requires Relaxed(SoftBranch(soft), t, Unreached, m, newMetrics[..], BackRow(back, t), PrevRow(prev, t),
                     2 * s + BitValue(input))
    modifies newMetrics, back, prev
    ensures Relaxed(SoftBranch(soft), t, Unreached, m, newMetrics[..], BackRow(back, t), PrevRow(prev, t),
                    2 * s + BitValue(input) + 1)
    ensures forall i, j :: 0 <= i < back.Length0 && i != t && 0 <= j < NUM_STATES ==>
              back[i, j] == old(back[i, j]) && prev[i, j] == old(prev[i, j])
  {
    hide Relaxed, Outputs;
    ghost var w := SoftBranch(soft);
    var r1, r2 := soft[2 * t], soft[2 * t + 1];
    var step := Outputs(s, input);
    var ns := step.0;
    var cost := from - (if step.1 then r1 else -r1) - (if step.2 then r2 else -r2);
    ghost var e: nat := 2 * s + BitValue(input);
    assert EdgeState(e) == s && EdgeBit(e) == input && cost == Extended(w, t, from, s, input);
    if newMetrics[ns].Unreached? || cost < newMetrics[ns].cost {
      Take(w, t, Unreached, m, newMetrics[..], BackRow(back, t), PrevRow(prev, t), e);
      Record(newMetrics, back, prev, t, ns, Reached(cost), s, input);
    } else {
      Skip(w, t, Unreached, m, newMetrics[..], BackRow(back, t), PrevRow(prev, t), e);
    }
  }

  /** One add-compare-select step of the soft decoder. */
  method StepSoft(soft: seq<real>, t: nat, metrics: array<Metric>, back: array2<bool>, prev: array2<nat>)
    returns (newMetrics: array<Metric>)
    requires Shapes(metrics, back, prev, t) && 2 * t + 1 < |soft|
    requires forall j :: 0 <= j < NUM_STATES ==> prev[t, j] == 0
    modifies back, prev
    ensures fresh(newMetrics)
    ensures Relaxed(SoftBranch(soft), t, Unreached, metrics[..], newMetrics[..], BackRow(back, t), PrevRow(prev, t),
                    NUM_EDGES)
    ensures forall i, j :: 0 <= i < back.Length0 && i != t && 0 <= j < NUM_STATES ==>
              back[i, j] == old(back[i, j]) && prev[i, j] == old(prev[i, j])
  {
    hide SoftBranch;
    ghost var w, m := SoftBranch(soft), metrics[..];
    newMetrics := new Metric[NUM_STATES](_ => Unreached);
    for s := 0 to NUM_STATES
      invariant fresh(newMetrics) && Shapes(newMetrics, back, prev, t) && metrics[..] == m
      invariant Relaxed(w, t, Unreached, m, newMetrics[..], BackRow(back, t), PrevRow(prev, t), 2 * s)
      invariant forall i, j :: 0 <= i < back.Length0 && i != t && 0 <= j < NUM_STATES ==>
                  back[i, j] == old(back[i, j]) && prev[i, j] == old(prev[i, j])
    {
      hide Relaxed, Outputs, BackRow, PrevRow;
      var from := metrics[s];
      assert m[s] == from;
      if from.Unreached? {
        Skip(w, t, Unreached, m, newMetrics[..], BackRow(back, t), PrevRow(prev, t), 2 * s);
        Skip(w, t, Unreached, m, newMetrics[..], BackRow(back, t), PrevRow(prev, t), 2 * s + 1);
      } else {
        RelaxSoft(soft, t, s, false, from.cost, m, newMetrics, back, prev);
        RelaxSoft(soft, t, s, true, from.cost, m, newMetrics, back, prev);
      }
    }
  }

  /** `np.argmin`: the first state whose metric none undercuts. */
  method ArgMin(metrics: array<Metric>) returns (best: nat)
    requires metrics.Length == NUM_STATES
    ensures best < NUM_STATES && Best(metrics[..], best)
    ensures forall i :: 0 <= i < best ==>
              metrics[i].Unreached? || (metrics[best].Reached? && metrics[best].cost < metrics[i].cost)
  {
    best := 0;
    for i := 1 to NUM_STATES
      invariant best < i
      invariant forall j :: 0 <= j < i && metrics[j].Reached? ==>
                  metrics[best].Reached? && metrics[best].cost <= metrics[j].cost
      invariant forall j :: 0 <= j < best ==>
                  metrics[j].Unreached? || (metrics[best].Reached? && metrics[best].cost < metrics[j].cost)
    {
      if metrics[i].Reached? && (metrics[best].Unreached? || metrics[i].cost < metrics[best].cost) {
        best := i;
      }
    }
  }

  /** How well a coded stream agrees with the confidences: what the soft decoder maximises. */
  ghost function Correlation(soft: seq<real>, coded: seq<bool>): real
    requires |coded| <= |soft|
  {
    if coded == [] then 0.0 else
      var k := |coded| - 1;
      Correlation(soft, coded[..k]) + (if coded[k] then soft[k] else -soft[k])
  }

  /** No path of this length agrees better with the received confidences. */
  ghost predicate MostCorrelated(soft: seq<real>, path: seq<bool>)
    requires 2 * |path| <= |soft|
  {
    forall ys: seq<bool> :: |ys| == |path| ==> Correlation(soft, Encoded(ys)) <= Correlation(soft, Encoded(path))
  }

  /** An input for the whole stream that agrees best with it. */
  ghost predicate BestSoft(soft: seq<real>, path: seq<bool>) {
    |path| == |soft| / 2 && MostCorrelated(soft, path)
  }

  lemma {:induction false} SoftPathCost(soft: seq<real>, xs: seq<bool>)
    requires 2 * |xs| <= |soft|
    ensures PathCost(SoftBranch(soft), xs) == -Correlation(soft, Encoded(xs))
  {
    hide Out1, Out2;
    if xs != [] {
      var t := |xs| - 1;
      SoftPathCost(soft, xs[..t]);
      var a := Encoded(xs);
      var a' := a[..2 * t + 1];
      assert a'[..2 * t] == Encoded(xs[..t]);
      assert Correlation(soft, a) == Correlation(soft, a')
             + (if Out2(xs, t) then soft[2 * t + 1] else -soft[2 * t + 1]);
      assert Correlation(soft, a') == Correlation(soft, Encoded(xs[..t]))
             + (if Out1(xs, t) then soft[2 * t] else -soft[2 * t]);
    }
  }

  /** `viterbi_decode_soft`: the information part of a path no other path of its length beats. */
  method ViterbiDecodeSoft(soft: seq<real>) returns (info: seq<bool>)
    ensures exists path :: BestSoft(soft, path) && info == DropFlush(path)
  {
    var nSteps := |soft| / 2;
    if nSteps == 0 {
      assert BestSoft(soft, []);
      return [];
    }
    hide SoftBranch, MostCorrelated;
    ghost var w := SoftBranch(soft);
    var metrics := new Metric[NUM_STATES](s => if s == 0 then Reached(0.0) else Unreached);
    var back := new bool[nSteps, NUM_STATES]((_, _) => false);
    var prev := new nat[nSteps, NUM_STATES]((_, _) => 0);
    ghost var T := Tables([metrics[..]], [], []);
    for t := 0 to nSteps
      invariant fresh(back) && fresh(prev)
      invariant metrics.Length == NUM_STATES
      invariant Forward(w, Unreached, T) && |T.B| == t && T.M[t] == metrics[..]
      invariant Stored(back, prev, T)
      invariant forall i, j :: t <= i < nSteps && 0 <= j < NUM_STATES ==> prev[i, j] == 0
    {
      hide Dominated, Justified;
      var newMetrics := StepSoft(soft, t, metrics, back, prev);
      Append(w, Unreached, T, newMetrics[..], BackRow(back, t), PrevRow(prev, t));
      T := Tables(T.M + [newMetrics[..]], T.B + [BackRow(back, t)], T.P + [PrevRow(prev, t)]);
      metrics := newMetrics;
    }
    var state := ArgMin(metrics);
    var bits := Traceback(back, prev, nSteps, state, w, Unreached, T);
    SoftOptimal(soft, T, state);
    assert BestSoft(soft, bits);
    info := DropFlush(bits);
  }

  lemma SoftOptimal(soft: seq<real>, T: Tables, state: nat)
    requires Forward(SoftBranch(soft), Unreached, T) && |T.B| == |soft| / 2
    requires state < NUM_STATES && Best(T.M[|T.B|], state)
    ensures Survives(T, |T.B|, state)
    ensures MostCorrelated(soft, Trace(SoftBranch(soft), Unreached, T, |T.B|, state))
  {
    hide Trace, PathCost;
    var w := SoftBranch(soft);
    SoftReachesSomewhere(w, T);
    TracebackOptimal(w, Unreached, T, state);
    var path := Trace(w, Unreached, T, |T.B|, state);
    forall ys: seq<bool> | |ys| == |T.B|
      ensures Correlation(soft, Encoded(ys)) <= Correlation(soft, Encoded(path))
    {
      assert Admissible(w, Unreached, ys);
      SoftPathCost(soft, ys);
      SoftPathCost(soft, path);
    }
  }

  lemma SoftReachesSomewhere(w: Branch, T: Tables)
    requires Forward(w, Unreached, T)
    ensures |T.M[|T.B|]| == NUM_STATES
    ensures exists s :: 0 <= s < NUM_STATES && T.M[|T.B|][s].Reached?
  {
    var zeros := seq(|T.B|, _ => false);
    assert Admissible(w, Unreached, zeros);
    LowerBound(w, Unreached, T, zeros);
  }

  // ---------------------------------------------------------------------------------------
  // Hard decisions

  /** The metric that stands for "not reached". */
  const INF: int := 0x4000_0000

  const CEILING: Metric := Reached(INF as real)

  /** Number of coded bits of step `t` that differ from the received ones. */
  function HardCost(coded: seq<bool>, t: nat, o1: bool, o2: bool): nat {
    if 2 * t + 1 < |coded| then BitValue(o1 != coded[2 * t]) + BitValue(o2 != coded[2 * t + 1]) else 0
  }

  ghost function HardBranch(coded: seq<bool>): Branch {
    (t: nat, o1: bool, o2: bool) => HardCost(coded, t, o1, o2) as real
  }

  ghost function HardMetric(m: int): Metric {
    if m >= INF then Unreached else Reached(m as real)
  }

  /** An integer metric row, with its sentinel read as infinity. */
  ghost function HardRow(row: seq<int>): (m: seq<Metric>)
    ensures |m| == |row| && forall s :: 0 <= s < |m| ==> m[s] == HardMetric(row[s])
  {
    seq(|row|, s requires 0 <= s < |row| => HardMetric(row[s]))
  }

  ghost predicate Capped(row: seq<int>) {
    forall i :: 0 <= i < |row| ==> row[i] <= INF
  }

  /** The innermost loop body of the hard decoder: one edge of the trellis. */
  method RelaxHard(coded: seq<bool>, t: nat, s: nat, input: bool, from: int, ghost m: seq<Metric>,
                   newMetrics: array<int>, back: array2<bool>, prev: array2<nat>)
    requires Shapes(newMetrics, back, prev, t) && 2 * t + 1 < |coded|
    requires |m| == NUM_STATES && s < NUM_STATES && from < INF && m[s] == Reached(from as real)
    requires Capped(newMetrics[..])
    requires Relaxed(HardBranch(coded), t, CEILING, m, HardRow(newMetrics[..]), BackRow(back, t), PrevRow(prev, t),
                     2 * s + BitValue(input))
    modifies newMetrics, back, prev
    ensures Capped(newMetrics[..])
    ensures Relaxed(HardBranch(coded), t, CEILING, m, HardRow(newMetrics[..]), BackRow(back, t), PrevRow(prev, t),
                    2 * s + BitValue(input) + 1)
    ensures forall i, j :: 0 <= i < back.Length0 && i != t && 0 <= j < NUM_STATES ==>
              back[i, j] == old(back[i, j]) && prev[i, j] == old(prev[i, j])
  {
    hide Relaxed, Outputs;
    ghost var w := HardBranch(coded);
    var r1, r2 := coded[2 * t], coded[2 * t + 1];
    var step := Outputs(s, input);
    var ns := step.0;
    var cost := from + BitValue(step.1 != r1) + BitValue(step.2 != r2);
    ghost var e: nat := 2 * s + BitValue(input);
    assert EdgeState(e) == s && EdgeBit(e) == input && cost as real == Extended(w, t, from as real, s, input);
    if cost < newMetrics[ns] {
      Take(w, t, CEILING, m, HardRow(newMetrics[..]), BackRow(back, t), PrevRow(prev, t), e);
      ghost var was := HardRow(newMetrics[..]);
      Record(newMetrics, back, prev, t, ns, cost, s, input);
      assert HardRow(newMetrics[..]) == was[ns := Reached(cost as real)];
    } else {
      Skip(w, t, CEILING, m, HardRow(newMetrics[..]), BackRow(back, t), PrevRow(prev, t), e);
    }
  }

  /** One add-compare-select step of the hard decoder. */
  method StepHard(coded: seq<bool>, t: nat, metrics: array<int>, back: array2<bool>, prev: array2<nat>)
    returns (newMetrics: array<int>)
    requires Shapes(metrics, back, prev, t) && 2 * t + 1 < |coded|
    requires forall j :: 0 <= j < NUM_STATES ==> prev[t, j] == 0
    modifies back, prev
    ensures fresh(newMetrics) && newMetrics.Length == NUM_STATES
    ensures Relaxed(HardBranch(coded), t, CEILING, HardRow(metrics[..]), HardRow(newMetrics[..]), BackRow(back, t),
                    PrevRow(prev, t), NUM_EDGES)
    ensures forall i, j :: 0 <= i < back.Length0 && i != t && 0 <= j < NUM_STATES ==>
              back[i, j] == old(back[i, j]) && prev[i, j] == old(prev[i, j])
  {
    hide HardBranch;
    ghost var w, m := HardBranch(coded), HardRow(metrics[..]);
    newMetrics := new int[NUM_STATES](_ => INF);
    for s := 0 to NUM_STATES
      invariant fresh(newMetrics) && Shapes(newMetrics, back, prev, t) && HardRow(metrics[..]) == m
      invariant Capped(newMetrics[..])
      invariant Relaxed(w, t, CEILING, m, HardRow(newMetrics[..]), BackRow(back, t), PrevRow(prev, t), 2 * s)
      invariant forall i, j :: 0 <= i < back.Length0 && i != t && 0 <= j < NUM_STATES ==>
                  back[i, j] == old(back[i, j]) && prev[i, j] == old(prev[i, j])
    {
      hide Relaxed, Outputs, BackRow, PrevRow, HardRow, Capped;
      var from := metrics[s];
      assert m[s] == HardMetric(from);
      if from >= INF {
        Skip(w, t, CEILING, m, HardRow(newMetrics[..]), BackRow(back, t), PrevRow(prev, t), 2 * s);
        Skip(w, t, CEILING, m, HardRow(newMetrics[..]), BackRow(back, t), PrevRow(prev, t), 2 * s + 1);
      } else {
        RelaxHard(coded, t, s, false, from, m, newMetrics, back, prev);
        RelaxHard(coded, t, s, true, from, m, newMetrics, back, prev);
      }
    }
  }

  /** `np.argmin` on an integer row: the first least entry. */
  method ArgMinHard(metrics: array<int>) returns (best: nat)
    requires metrics.Length == NUM_STATES
    ensures best < NUM_STATES && Best(HardRow(metrics[..]), best)
    ensures forall i :: 0 <= i < best ==> metrics[best] < metrics[i]
  {
    best := 0;
    for i := 1 to NUM_STATES
      invariant best < i
      invariant forall j :: 0 <= j < i ==> metrics[best] <= metrics[j]
      invariant forall j :: 0 <= j < best ==> metrics[best] < metrics[j]
    {
      if metrics[i] < metrics[best] { best := i; }
    }
  }

  /** Positions at which two streams of one length differ. */
  function HammingDistance(a: seq<bool>, b: seq<bool>): nat
    requires |a| == |b|
  {
    if a == [] then 0 else
      HammingDistance(a[..|a| - 1], b[..|a| - 1]) + BitValue(a[|a| - 1] != b[|a| - 1])
  }

  /** Errors a path would have to assume in the received stream. */
  function Errors(coded: seq<bool>, xs: seq<bool>): nat
    requires 2 * |xs| <= |coded|
  {
    HammingDistance(Encoded(xs), coded[..2 * |xs|])
  }

  /** No path of this length that needs fewer than `INF` errors explains the stream better. */
  ghost predicate Nearest(coded: seq<bool>, path: seq<bool>)
    requires 2 * |path| <= |coded|
  {
    forall ys: seq<bool> :: |ys| == |path| && Errors(coded, ys) < INF ==> Errors(coded, path) <= Errors(coded, ys)
  }

  /** An input for the whole stream nearest to it. */
  ghost predicate BestHard(coded: seq<bool>, path: seq<bool>) {
    |path| == |coded| / 2 && Nearest(coded, path)
  }

  lemma {:induction false} HardPathCost(coded: seq<bool>, xs: seq<bool>)
    requires 2 * |xs| <= |coded|
    ensures PathCost(HardBranch(coded), xs) == Errors(coded, xs) as real
  {
    hide Out1, Out2;
    if xs != [] {
      var t := |xs| - 1;
      HardPathCost(coded, xs[..t]);
      var a, b := Encoded(xs), coded[..2 * |xs|];
      var a', b' := a[..2 * t + 1], b[..2 * t + 1];
      assert a'[..2 * t] == Encoded(xs[..t]) && b'[..2 * t] == coded[..2 * t];
      assert HammingDistance(a, b) == HammingDistance(a', b') + BitValue(Out2(xs, t) != coded[2 * t + 1]);
      assert HammingDistance(a', b') == Errors(coded, xs[..t]) + BitValue(Out1(xs, t) != coded[2 * t]);
    }
  }

  lemma {:induction false} ErrorsOfPrefix(coded: seq<bool>, xs: seq<bool>, k: nat)
    requires 2 * |xs| <= |coded| && k <= |xs|
    ensures Errors(coded, xs[..k]) <= Errors(coded, xs)
  {
    if k < |xs| {
      var init := xs[..|xs| - 1];
      ErrorsOfPrefix(coded, init, k);
      assert init[..k] == xs[..k];
      HardPathCost(coded, init);
      HardPathCost(coded, xs);
    } else {
      assert xs[..k] == xs;
    }
  }

  /** `viterbi_decode`: the information part of the path nearest to the received stream. */
  method ViterbiDecode(coded: seq<bool>) returns (info: seq<bool>)
    ensures exists path :: BestHard(coded, path) && info == DropFlush(path)
  {
    var nSteps := |coded| / 2;
    if nSteps == 0 {
      assert BestHard(coded, []);
      return [];
    }
    hide HardBranch, Nearest;
    ghost var w := HardBranch(coded);
    var metrics := new int[NUM_STATES](s => if s == 0 then 0 else INF);
    var back := new bool[nSteps, NUM_STATES]((_, _) => false);
    var prev := new nat[nSteps, NUM_STATES]((_, _) => 0);
    ghost var T := Tables([HardRow(metrics[..])], [], []);
    for t := 0 to nSteps
      invariant fresh(back) && fresh(prev)
      invariant metrics.Length == NUM_STATES
      invariant Forward(w, CEILING, T) && |T.B| == t && T.M[t] == HardRow(metrics[..])
      invariant Stored(back, prev, T)
      invariant forall i, j :: t <= i < nSteps && 0 <= j < NUM_STATES ==> prev[i, j] == 0
    {
      hide Dominated, Justified, HardRow;
      var newMetrics := StepHard(coded, t, metrics, back, prev);
      Append(w, CEILING, T, HardRow(newMetrics[..]), BackRow(back, t), PrevRow(prev, t));
      T := Tables(T.M + [HardRow(newMetrics[..])], T.B + [BackRow(back, t)], T.P + [PrevRow(prev, t)]);
      metrics := newMetrics;
    }
    var state := ArgMinHard(metrics);
    var bits := Traceback(back, prev, nSteps, state, w, CEILING, T);
    HardNearest(coded, T, state, bits);
    assert BestHard(coded, bits);
    info := DropFlush(bits);
  }

  lemma HardNearest(coded: seq<bool>, T: Tables, state: nat, path: seq<bool>)
    requires Forward(HardBranch(coded), CEILING, T) && |path| == |T.B| == |coded| / 2
    requires state < NUM_STATES && Best(T.M[|T.B|], state)
    requires Survives(T, |T.B|, state) ==> path == Trace(HardBranch(coded), CEILING, T, |T.B|, state)
    ensures Nearest(coded, path)
  {
    hide Trace, PathCost;
    var w := HardBranch(coded);
    forall ys: seq<bool> | |ys| == |path| && Errors(coded, ys) < INF
      ensures Errors(coded, path) <= Errors(coded, ys)
    {
      forall k | 0 <= k <= |ys|
        ensures Below(PathCost(w, ys[..k]), CEILING)
      {
        ErrorsOfPrefix(coded, ys, k);
        HardPathCost(coded, ys[..k]);
      }
      assert Admissible(w, CEILING, ys);
      LowerBound(w, CEILING, T, ys);
      assert Survives(T, |T.B|, state);
      HardPathCost(coded, ys);
      HardPathCost(coded, path);
    }
  }
}
