/** What both Viterbi decoders share: the add-compare-select recursion over the 64-state trellis with some
    branch cost, what its tables mean, and why tracing them back is optimal. */
module Survivors {
  import opened Trellis

  /** The cost of leaving step `t` with the two coded bits given. */
  type Branch = (nat, bool, bool) -> real

  /** A path metric: infinite while no path reaches the state. */
  datatype Metric = Unreached | Reached(cost: real)

  /** The total cost of a path: what a decoder minimises over all paths of a length. */
  ghost function PathCost(w: Branch, xs: seq<bool>): real {
    if xs == [] then 0.0 else
      var t := |xs| - 1;
      PathCost(w, xs[..t]) + w(t, Out1(xs, t), Out2(xs, t))
  }

  /** The metric of extending a path of cost `m` by input `b` from state `s` at step `t`. */
  ghost function Extended(w: Branch, t: nat, m: real, s: nat, b: bool): real
    requires s < NUM_STATES
  {
    m + w(t, Outputs(s, b).1, Outputs(s, b).2)
  }

  /** Costs that reach the ceiling (the hard decoder's stand-in for infinity) are dropped. */
  ghost predicate Below(c: real, ceiling: Metric) {
    ceiling.Reached? ==> c < ceiling.cost
  }

  /** The trellis edges in the order the decoders visit them. */
  function EdgeState(e: nat): nat { e / 2 }

  function EdgeBit(e: nat): bool { e % 2 == 1 }

  const NUM_EDGES: nat := 128

  /** A metric row is full-width, and so are the survivor rows beside it; the predecessors are states. */
  ghost predicate Rows(m: seq<Metric>, back: seq<bool>, prev: seq<nat>) {
    |m| == |back| == |prev| == NUM_STATES && forall s :: 0 <= s < NUM_STATES ==> prev[s] < NUM_STATES
  }

  /** The survivor pointers of state `ns` account exactly for its new metric. */
  ghost predicate Justified(w: Branch, t: nat, m: seq<Metric>, m': seq<Metric>, back: seq<bool>, prev: seq<nat>,
                            ns: nat)
    requires |m| == NUM_STATES && Rows(m', back, prev) && ns < NUM_STATES
  {
    m'[ns].Reached? ==>
      var s := prev[ns];
      && s < NUM_STATES && m[s].Reached? && Next(s, back[ns]) == ns
      && m'[ns].cost == Extended(w, t, m[s].cost, s, back[ns])
  }

  /** No extension along edge `e` beats the metric kept for the state it leads to. */
  ghost predicate Dominated(w: Branch, t: nat, ceiling: Metric, m: seq<Metric>, m': seq<Metric>, e: nat)
    requires |m| == |m'| == NUM_STATES && e < NUM_EDGES
  {
    var s, b := EdgeState(e), EdgeBit(e);
    m[s].Reached? && Below(Extended(w, t, m[s].cost, s, b), ceiling) ==>
      var ns := Next(s, b);
      m'[ns].Reached? && m'[ns].cost <= Extended(w, t, m[s].cost, s, b)
  }

  /** Step `t` after the first `k` edges have been visited. */
  ghost predicate Relaxed(w: Branch, t: nat, ceiling: Metric, m: seq<Metric>,
                          m': seq<Metric>, back: seq<bool>, prev: seq<nat>, k: nat)
  {
    && |m| == NUM_STATES && Rows(m', back, prev) && k <= NUM_EDGES
    && (forall ns :: 0 <= ns < NUM_STATES ==> Justified(w, t, m, m', back, prev, ns))
    && (forall e :: 0 <= e < k ==> Dominated(w, t, ceiling, m, m', e))
  }

  /** The edge's extension is strictly cheaper, so it becomes the survivor. */
  lemma Take(w: Branch, t: nat, ceiling: Metric, m: seq<Metric>,
             m': seq<Metric>, back: seq<bool>, prev: seq<nat>, k: nat)
    requires k < NUM_EDGES && Relaxed(w, t, ceiling, m, m', back, prev, k)
    requires m[EdgeState(k)].Reached?
    requires var ns := Next(EdgeState(k), EdgeBit(k));
             m'[ns].Reached? ==> Extended(w, t, m[EdgeState(k)].cost, EdgeState(k), EdgeBit(k)) < m'[ns].cost
    ensures var s, b := EdgeState(k), EdgeBit(k);
            var ns := Next(s, b);
            Relaxed(w, t, ceiling, m, m'[ns := Reached(Extended(w, t, m[s].cost, s, b))], back[ns := b],
                    prev[ns := s], k + 1)
  {
    hide Outputs, Extended, Below;
    var s, b := EdgeState(k), EdgeBit(k);
    var ns := Next(s, b);
    var m2, back2, prev2 := m'[ns := Reached(Extended(w, t, m[s].cost, s, b))], back[ns := b], prev[ns := s];
    forall i | 0 <= i < NUM_STATES
      ensures Justified(w, t, m, m2, back2, prev2, i)
    {
      assert Justified(w, t, m, m', back, prev, i);
    }
    forall e | 0 <= e < k + 1
      ensures Dominated(w, t, ceiling, m, m2, e)
    {
      if e < k { assert Dominated(w, t, ceiling, m, m', e); }
    }
  }

  /** The edge's extension is not cheaper, or starts nowhere, or costs too much to record. */
  lemma Skip(w: Branch, t: nat, ceiling: Metric, m: seq<Metric>,
             m': seq<Metric>, back: seq<bool>, prev: seq<nat>, k: nat)
    requires k < NUM_EDGES && Relaxed(w, t, ceiling, m, m', back, prev, k)
    requires var s, b := EdgeState(k), EdgeBit(k);
             m[s].Reached? && Below(Extended(w, t, m[s].cost, s, b), ceiling) ==>
               var ns := Next(s, b);
               m'[ns].Reached? && m'[ns].cost <= Extended(w, t, m[s].cost, s, b)
    ensures Relaxed(w, t, ceiling, m, m', back, prev, k + 1)
  {
    hide Outputs, Extended, Below;
    forall e | 0 <= e < k + 1
      ensures Dominated(w, t, ceiling, m, m', e)
    {
      if e < k { assert Dominated(w, t, ceiling, m, m', e); }
    }
  }

  // ---------------------------------------------------------------------------------------
  // The whole run

  /** The tables of a finished forward pass: `M[t]` are the metrics before step `t`. */
  datatype Tables = Tables(M: seq<seq<Metric>>, B: seq<seq<bool>>, P: seq<seq<nat>>)

  ghost predicate Initial(m: seq<Metric>) {
    |m| == NUM_STATES && forall s :: 0 <= s < NUM_STATES ==> m[s] == if s == 0 then Reached(0.0) else Unreached
  }

  ghost predicate Forward(w: Branch, ceiling: Metric, T: Tables) {
    && |T.M| == |T.B| + 1 && |T.P| == |T.B|
    && Initial(T.M[0])
    && forall t :: 0 <= t < |T.B| ==> StepDone(w, ceiling, T, t)
  }

  ghost predicate StepDone(w: Branch, ceiling: Metric, T: Tables, t: nat)
    requires |T.M| == |T.B| + 1 && |T.P| == |T.B| && t < |T.B|
  {
    Relaxed(w, t, ceiling, T.M[t], T.M[t + 1], T.B[t], T.P[t], NUM_EDGES)
  }

  lemma Append(w: Branch, ceiling: Metric, T: Tables, m: seq<Metric>, back: seq<bool>, prev: seq<nat>)
    requires Forward(w, ceiling, T)
    requires Relaxed(w, |T.B|, ceiling, T.M[|T.B|], m, back, prev, NUM_EDGES)
    ensures Forward(w, ceiling, Tables(T.M + [m], T.B + [back], T.P + [prev]))
  {
    hide Relaxed;
    var T2 := Tables(T.M + [m], T.B + [back], T.P + [prev]);
    forall t | 0 <= t < |T2.B|
      ensures StepDone(w, ceiling, T2, t)
    {
      if t < |T.B| { assert StepDone(w, ceiling, T, t); }
    }
  }

  /** The inputs read off the survivor pointers backwards from state `s` before step `t`. */
  ghost function Trace(w: Branch, ceiling: Metric, T: Tables, t: nat, s: nat): (xs: seq<bool>)
    requires Forward(w, ceiling, T) && t <= |T.B| && s < NUM_STATES
    requires |T.M[t]| == NUM_STATES && T.M[t][s].Reached?
    ensures |xs| == t && StateAfter(xs) == s && PathCost(w, xs) == T.M[t][s].cost
  {
    hide Outputs;
    if t == 0 then [] else
      assert StepDone(w, ceiling, T, t - 1);
      assert Justified(w, t - 1, T.M[t - 1], T.M[t], T.B[t - 1], T.P[t - 1], s);
      var init := Trace(w, ceiling, T, t - 1, T.P[t - 1][s]);
      TraceStep(w, init, T.B[t - 1][s]);
      init + [T.B[t - 1][s]]
  }

  lemma TraceStep(w: Branch, xs: seq<bool>, b: bool)
    ensures StateAfter(xs + [b]) == Next(StateAfter(xs), b)
    ensures PathCost(w, xs + [b]) == Extended(w, |xs|, PathCost(w, xs), StateAfter(xs), b)
  {
    hide Outputs, Out1, Out2, StateAfter;
    StepOutputs(xs, b);
    assert (xs + [b])[..|xs|] == xs;
  }

  /** Every prefix of the path stays below the ceiling. */
  ghost predicate Admissible(w: Branch, ceiling: Metric, xs: seq<bool>) {
    forall k :: 0 <= k <= |xs| ==> Below(PathCost(w, xs[..k]), ceiling)
  }

  /** No admissible path beats the metric of the state it ends in. */
  lemma {:induction false} LowerBound(w: Branch, ceiling: Metric, T: Tables, xs: seq<bool>)
    requires Forward(w, ceiling, T) && |xs| <= |T.B| && Admissible(w, ceiling, xs)
    ensures |T.M[|xs|]| == NUM_STATES
    ensures var m := T.M[|xs|][StateAfter(xs)];
            m.Reached? && m.cost <= PathCost(w, xs)
  {
    hide Outputs, Below;
    if xs != [] {
      var t, init, b := |xs| - 1, xs[..|xs| - 1], xs[|xs| - 1];
      assert Admissible(w, ceiling, init) by {
        forall k | 0 <= k <= |init| ensures Below(PathCost(w, init[..k]), ceiling) { assert init[..k] == xs[..k]; }
      }
      LowerBound(w, ceiling, T, init);
      assert StepDone(w, ceiling, T, t);
      var s := StateAfter(init);
      var e: nat := 2 * s + BitValue(b);
      assert EdgeState(e) == s && EdgeBit(e) == b;
      assert Dominated(w, t, ceiling, T.M[t], T.M[t + 1], e);
      assert init + [b] == xs;
      TraceStep(w, init, b);
      assert Below(PathCost(w, xs), ceiling) by { assert xs[..|xs|] == xs; }
      CheaperStaysBelow(w, ceiling, t, T.M[t][s].cost, PathCost(w, init), s, b);
    }
  }

  lemma CheaperStaysBelow(w: Branch, ceiling: Metric, t: nat, c: real, c': real, s: nat, b: bool)
    requires s < NUM_STATES && c <= c' && Below(Extended(w, t, c', s, b), ceiling)
    ensures Extended(w, t, c, s, b) <= Extended(w, t, c', s, b)
    ensures Below(Extended(w, t, c, s, b), ceiling)
  {
    hide Outputs;
  }

  /** A state with the least final metric: `argmin`. */
  ghost predicate Best(m: seq<Metric>, s: nat) {
    && s < |m|
    && forall i :: 0 <= i < |m| && m[i].Reached? ==> m[s].Reached? && m[s].cost <= m[i].cost
  }

  /** `xs` costs no more than any admissible path of its length. */
  ghost predicate OptimalBelow(w: Branch, ceiling: Metric, xs: seq<bool>) {
    forall ys: seq<bool> :: |ys| == |xs| && Admissible(w, ceiling, ys) ==> PathCost(w, xs) <= PathCost(w, ys)
  }

  lemma TracebackOptimal(w: Branch, ceiling: Metric, T: Tables, s: nat)
    requires Forward(w, ceiling, T) && Best(T.M[|T.B|], s)
    requires |T.M[|T.B|]| == NUM_STATES && T.M[|T.B|][s].Reached?
    ensures OptimalBelow(w, ceiling, Trace(w, ceiling, T, |T.B|, s))
  {
    forall ys: seq<bool> | |ys| == |T.B| && Admissible(w, ceiling, ys)
      ensures PathCost(w, Trace(w, ceiling, T, |T.B|, s)) <= PathCost(w, ys)
    {
      LowerBound(w, ceiling, T, ys);
    }
  }
}
