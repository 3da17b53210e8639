/** The Tanner graph of the systematic sparse accumulate code.  Edges are kept per check: `checks[c]`
    lists the variables of check `c`. */
module LdpcGraph {
  import opened Arithmetic
  import opened Trellis

  predicate NoDuplicates(s: seq<nat>) {
    forall i, j :: 0 <= i < j < |s| ==> s[i] != s[j]
  }

  predicate AllBelow(s: seq<nat>, n: nat) {
    forall i :: 0 <= i < |s| ==> s[i] < n
  }

  /** The order in which one lane visits the variables; every peer draws it from the same seed. */
  predicate IsPermutation(s: seq<nat>, n: nat) {
    && |s| == n && NoDuplicates(s) && AllBelow(s, n)
    && forall v :: 0 <= v < n ==> v in s
  }

  /** The two adjacency lists describe one set of edges, none of them repeated. */
  ghost predicate Linked(dataChecks: seq<seq<nat>>, checks: seq<seq<nat>>) {
    && (forall v :: 0 <= v < |dataChecks| ==> NoDuplicates(dataChecks[v]) && AllBelow(dataChecks[v], |checks|))
    && (forall c :: 0 <= c < |checks| ==> NoDuplicates(checks[c]) && AllBelow(checks[c], |dataChecks|))
    && (forall v, c :: 0 <= v < |dataChecks| && 0 <= c < |checks| ==> (v in checks[c] <==> c in dataChecks[v]))
  }

  lemma AddEdge(dataChecks: seq<seq<nat>>, checks: seq<seq<nat>>, v: nat, c: nat)
    requires Linked(dataChecks, checks) && v < |dataChecks| && c < |checks| && c !in dataChecks[v]
    ensures Linked(dataChecks[v := dataChecks[v] + [c]], checks[c := checks[c] + [v]])
  {
    var d2, c2 := dataChecks[v := dataChecks[v] + [c]], checks[c := checks[c] + [v]];
    assert v !in checks[c];
    forall u, k | 0 <= u < |d2| && 0 <= k < |c2|
      ensures u in c2[k] <==> k in d2[u]
    {
      assert u in checks[k] <==> k in dataChecks[u];
    }
  }

  /** The check met after `k` steps of the search. */
  function Probe(start: nat, k: nat, parity: nat): (check: nat)
    requires parity > 0
    ensures check < parity
  {
    (start + k) % parity
  }

  lemma ProbeNext(start: nat, k: nat, parity: nat)
    requires parity > 0
    ensures (Probe(start, k, parity) + 1) % parity == Probe(start, k + 1, parity)
  {
    RemainderNext(start + k, parity);
  }

  /** With at most two checks taken, and fewer than there are, one of three steps meets a free one. */
  lemma OneOfThreeIsFree(taken: seq<nat>, start: nat, parity: nat)
    requires parity > 0
    ensures |taken| < parity && |taken| <= 2 ==>
              || Probe(start, 0, parity) !in taken
              || Probe(start, 1, parity) !in taken
              || Probe(start, 2, parity) !in taken
  {
    hide Probe;
    var a, b, c := Probe(start, 0, parity), Probe(start, 1, parity), Probe(start, 2, parity);
    ProbeNext(start, 0, parity);
    ProbeNext(start, 1, parity);
    RemainderNext(a, parity);
    RemainderNext(b, parity);
    DivModUnique(a, parity, 0, a);
    DivModUnique(b, parity, 0, b);
    if |taken| == 2 && parity > 2 {
      NotAllThree(taken, a, b, c);
    }
  }

  lemma NotAllThree(taken: seq<nat>, a: nat, b: nat, c: nat)
    requires |taken| <= 2 && a != b && b != c && a != c
    ensures a !in taken || b !in taken || c !in taken
  {
  }

  /** From `start` on, the first check not taken yet, when at most two are. */
  function FirstFree(taken: seq<nat>, start: nat, parity: nat): (check: nat)
    requires parity > 0
    ensures check < parity
    ensures |taken| < parity && |taken| <= 2 ==> check !in taken
  {
    OneOfThreeIsFree(taken, start, parity);
    if Probe(start, 0, parity) !in taken then Probe(start, 0, parity)
    else if Probe(start, 1, parity) !in taken then Probe(start, 1, parity)
    else Probe(start, 2, parity)
  }

  /** The search for a free check terminates, at the first one. */
  method FreeCheck(taken: seq<nat>, start: nat, parity: nat) returns (check: nat)
    requires |taken| < parity && |taken| <= 2
    ensures check == FirstFree(taken, start, parity)
    ensures check < parity && check !in taken
  {
    check := start % parity;
    ghost var k: nat := 0;
    assert check == Probe(start, k, parity);
    while check in taken
      invariant k < 3 && check == Probe(start, k, parity)
      invariant k >= 1 ==> Probe(start, 0, parity) in taken
      invariant k >= 2 ==> Probe(start, 1, parity) in taken
      decreases 3 - k
    {
      hide Probe;
      ProbeNext(start, k, parity);
      OneOfThreeIsFree(taken, start, parity);
      check := (check + 1) % parity;
      k := k + 1;
    }
  }

  datatype Graph = Graph(information: nat, parity: nat, dataChecks: seq<seq<nat>>, checks: seq<seq<nat>>)

  /** The variables that the accumulator adds to check `c`. */
  function Accumulator(information: nat, c: nat): seq<nat> {
    if c > 0 then [information + c, information + c - 1] else [information]
  }

  /** What the construction delivers: information bits in exactly three distinct checks, a
      dual-diagonal parity part, and the data lists agreeing with the check lists. */
  ghost predicate Valid(g: Graph, dataParts: seq<seq<nat>>) {
    && |g.dataChecks| == g.information && |g.checks| == |dataParts| == g.parity
    && Linked(g.dataChecks, dataParts)
    && (forall v :: 0 <= v < g.information ==> |g.dataChecks[v]| == 3)
    && (forall c :: 0 <= c < g.parity ==> g.checks[c] == dataParts[c] + Accumulator(g.information, c))
    && (g.information > 0 && g.parity > 0 ==> dataParts[0] != [])
  }

  /** Every check of a graph with information bits has degree two or more. */
  lemma DegreeAtLeastTwo(g: Graph, dataParts: seq<seq<nat>>, c: nat)
    requires Valid(g, dataParts) && g.information > 0 && c < g.parity
    ensures |g.checks[c]| >= 2
    ensures forall k :: 0 <= k < |g.checks[c]| ==> g.checks[c][k] < g.information + g.parity
  {
    assert NoDuplicates(dataParts[c]) && AllBelow(dataParts[c], g.information);
  }

  /** Variables visited before `position` in lane `lane` have one check more than the others. */
  ghost predicate Degrees(dataChecks: seq<seq<nat>>, order: seq<nat>, lane: nat, position: nat)
    requires position <= |order|
  {
    forall v :: 0 <= v < |dataChecks| ==> |dataChecks[v]| == lane + BitValue(v in order[..position])
  }

  function LaneOffset(lane: nat, parity: nat): nat
    requires parity > 0
  {
    (lane * (if parity / 3 > 1 then parity / 3 else 1) + lane) % parity
  }

  lemma DegreesNext(dataChecks: seq<seq<nat>>, order: seq<nat>, lane: nat, position: nat, c: nat)
    requires IsPermutation(order, |dataChecks|) && position < |order|
    requires Degrees(dataChecks, order, lane, position)
    ensures var v := order[position];
            |dataChecks[v]| == lane && Degrees(dataChecks[v := dataChecks[v] + [c]], order, lane, position + 1)
  {
    var v := order[position];
    assert v !in order[..position];
    assert order[..position + 1] == order[..position] + [v];
  }

  // ---------------------------------------------------------------------------------------
  // The construction as a function of the lane orders

  /** The two adjacency lists while data edges are added. */
  datatype Lists = Lists(data: seq<seq<nat>>, checks: seq<seq<nat>>)

  function WithEdge(l: Lists, v: nat, c: nat): Lists
    requires v < |l.data| && c < |l.checks|
  {
    Lists(l.data[v := l.data[v] + [c]], l.checks[c := l.checks[c] + [v]])
  }

  /** The lists after the first `n` variables of a lane took the next balanced check they lack. */
  function Lane(l: Lists, order: seq<nat>, lane: nat, n: nat): (r: Lists)
    requires n <= |order| && AllBelow(order, |l.data|) && |l.checks| > 0
    ensures |r.data| == |l.data| && |r.checks| == |l.checks|
  {
    if n == 0 then l else
      var before, v, parity := Lane(l, order, lane, n - 1), order[n - 1], |l.checks|;
      WithEdge(before, v, FirstFree(before.data[v], n - 1 + LaneOffset(lane, parity), parity))
  }

  ghost predicate Orders(orders: seq<seq<nat>>, information: nat) {
    |orders| == 3 && forall lane :: 0 <= lane < 3 ==> IsPermutation(orders[lane], information)
  }

  function NoEdges(information: nat, parity: nat): Lists {
    Lists(seq(information, _ => []), seq(parity, _ => []))
  }

  function Lanes(information: nat, parity: nat, orders: seq<seq<nat>>, lanes: nat): (r: Lists)
    requires Orders(orders, information) && parity > 0 && lanes <= 3
    ensures |r.data| == information && |r.checks| == parity
  {
    if lanes == 0 then NoEdges(information, parity) else
      Lane(Lanes(information, parity, orders, lanes - 1), orders[lanes - 1], lanes - 1, information)
  }

  /** The graph of one pair of dimensions: three data lanes, then the accumulator. */
  function GraphOf(information: nat, parity: nat, orders: seq<seq<nat>>): Graph
    requires Orders(orders, information) && parity > 0
  {
    var l := Lanes(information, parity, orders, 3);
    Graph(information, parity, l.data,
          seq(parity, c requires 0 <= c < parity => l.checks[c] + Accumulator(information, c)))
  }

  /** The lists in the middle of a lane. */
  ghost predicate InLane(l: Lists, order: seq<nat>, lane: nat, position: nat) {
    && position <= |order| && IsPermutation(order, |l.data|)
    && Linked(l.data, l.checks) && Degrees(l.data, order, lane, position)
    && |l.checks| > 0 && (lane > 0 || position > 0 ==> |order| > 0 ==> l.checks[0] != [])
  }

  lemma InLaneNext(l: Lists, order: seq<nat>, lane: nat, position: nat, check: nat)
    requires InLane(l, order, lane, position) && position < |order|
    requires check < |l.checks| && check !in l.data[order[position]]
    requires lane == position == 0 ==> check == 0
    ensures InLane(WithEdge(l, order[position], check), order, lane, position + 1)
  {
    hide Linked, Degrees;
    AddEdge(l.data, l.checks, order[position], check);
    DegreesNext(l.data, order, lane, position, check);
  }

  /** The very first edge goes to check 0. */
  lemma FirstCheck(lane: nat, position: nat, parity: nat)
    requires parity > 0
    ensures lane == position == 0 ==> FirstFree([], position + LaneOffset(lane, parity), parity) == 0
  {
  }

  lemma {:induction false} LaneKeeps(l: Lists, order: seq<nat>, lane: nat, n: nat)
    requires InLane(l, order, lane, 0) && lane < 3 && n <= |order| && lane < |l.checks|
    ensures InLane(Lane(l, order, lane, n), order, lane, n)
  {
    hide FirstFree, Linked, Degrees, LaneOffset;
    if n > 0 {
      LaneKeeps(l, order, lane, n - 1);
      var before := Lane(l, order, lane, n - 1);
      DegreesNext(before.data, order, lane, n - 1, 0);
      FirstCheck(lane, n - 1, |l.checks|);
      assert lane == 0 ==> before.data[order[n - 1]] == [];
      InLaneNext(before, order, lane, n - 1,
                 FirstFree(before.data[order[n - 1]], n - 1 + LaneOffset(lane, |l.checks|), |l.checks|));
    }
  }

  lemma {:induction false} LanesKeep(information: nat, parity: nat, orders: seq<seq<nat>>, lanes: nat)
    requires Orders(orders, information) && lanes <= parity && lanes <= 3 && parity > 0
    ensures var l := Lanes(information, parity, orders, lanes);
            && Linked(l.data, l.checks)
            && (forall v :: 0 <= v < information ==> |l.data[v]| == lanes)
            && (lanes > 0 && information > 0 ==> l.checks[0] != [])
  {
    if lanes > 0 {
      LanesKeep(information, parity, orders, lanes - 1);
      var l, order := Lanes(information, parity, orders, lanes - 1), orders[lanes - 1];
      assert order[..0] == [] && order[..|order|] == order;
      LaneKeeps(l, order, lanes - 1, information);
    }
  }

  /** The construction delivers a valid graph whenever its searches can end: with no information
      bits, or with at least three checks. */
  lemma ConstructionValid(information: nat, parity: nat, orders: seq<seq<nat>>)
    requires Orders(orders, information) && parity >= 1 && (information == 0 || parity >= 3)
    ensures Valid(GraphOf(information, parity, orders), Lanes(information, parity, orders, 3).checks)
  {
    if information == 0 {
      NoLanes(parity, orders, 3);
    } else {
      LanesKeep(information, parity, orders, 3);
    }
  }

  // ---------------------------------------------------------------------------------------
  // Which constructions end

  /** A search that met a free check within some number of steps. */
  ghost predicate SearchEnds(taken: seq<nat>, start: nat, parity: nat)
    requires parity > 0
  {
    exists k: nat :: Probe(start, k, parity) !in taken
  }

  /** The search of the `n`th variable of a lane ends, all searches before it having ended. */
  ghost predicate EndsAt(information: nat, parity: nat, orders: seq<seq<nat>>, lane: nat, n: nat)
    requires Orders(orders, information) && parity > 0 && lane < 3 && n < information
  {
    var l := Lane(Lanes(information, parity, orders, lane), orders[lane], lane, n);
    SearchEnds(l.data[orders[lane][n]], n + LaneOffset(lane, parity), parity)
  }

  ghost predicate ConstructionEnds(information: nat, parity: nat, orders: seq<seq<nat>>)
    requires Orders(orders, information) && parity > 0
  {
    forall lane: nat, n: nat :: lane < 3 && n < information ==> EndsAt(information, parity, orders, lane, n)
  }

  /** In the first `parity` lanes every search meets a free check. */
  lemma SearchMeetsFree(information: nat, parity: nat, orders: seq<seq<nat>>, lane: nat, n: nat)
    requires Orders(orders, information) && lane < 3 && lane < parity && n < information
    ensures EndsAt(information, parity, orders, lane, n)
  {
    LanesKeep(information, parity, orders, lane);
    var l, order := Lanes(information, parity, orders, lane), orders[lane];
    assert order[..0] == [];
    LaneKeeps(l, order, lane, n);
    var taken, start := Lane(l, order, lane, n).data[order[n]], n + LaneOffset(lane, parity);
    DegreesNext(Lane(l, order, lane, n).data, order, lane, n, 0);
    OneOfThreeIsFree(taken, start, parity);
    hide Probe, LaneOffset;
  }

  /** With one or two checks, a variable that has been through as many lanes holds every check, so no
      step of its next search meets a free one. */
  lemma SearchStuck(information: nat, parity: nat, orders: seq<seq<nat>>, k: nat)
    requires Orders(orders, information) && information > 0 && 1 <= parity <= 2
    ensures var taken := Lanes(information, parity, orders, parity).data[orders[parity][0]];
            |taken| == parity && NoDuplicates(taken) && Probe(LaneOffset(parity, parity), k, parity) in taken
  {
    LanesKeep(information, parity, orders, parity);
    var taken := Lanes(information, parity, orders, parity).data[orders[parity][0]];
    assert NoDuplicates(taken) && AllBelow(taken, parity);
    var r := Probe(LaneOffset(parity, parity), k, parity);
    assert taken[0] == r || taken[|taken| - 1] == r;
  }

  /** The construction ends if and only if there are no information bits or at least three checks. */
  lemma EndsExactly(information: nat, parity: nat, orders: seq<seq<nat>>)
    requires Orders(orders, information) && parity > 0
    ensures ConstructionEnds(information, parity, orders) <==> information == 0 || parity >= 3
  {
    if information > 0 && parity < 3 {
      var taken := Lanes(information, parity, orders, parity).data[orders[parity][0]];
      forall k: nat ensures Probe(LaneOffset(parity, parity), k, parity) in taken {
        SearchStuck(information, parity, orders, k);
      }
      assert !EndsAt(information, parity, orders, parity, 0);
    } else {
      forall lane: nat, n: nat | lane < 3 && n < information ensures EndsAt(information, parity, orders, lane, n) {
        SearchMeetsFree(information, parity, orders, lane, n);
      }
    }
  }

  lemma {:induction false} NoLanes(parity: nat, orders: seq<seq<nat>>, lanes: nat)
    requires Orders(orders, 0) && parity > 0 && lanes <= 3
    ensures Lanes(0, parity, orders, lanes) == NoEdges(0, parity)
  {
    if lanes > 0 { NoLanes(parity, orders, lanes - 1); }
  }

  // ---------------------------------------------------------------------------------------
  // The construction in place

  /** `_ldpc_graph`. */
  method BuildGraph(information: nat, parity: nat, orders: seq<seq<nat>>) returns (g: Graph)
    requires parity >= 1 && (information == 0 || parity >= 3)
    requires Orders(orders, information)
    ensures g == GraphOf(information, parity, orders)
  {
    hide Lane, Linked;
    var dataChecks := new seq<nat>[information](_ => []);
    var checks := new seq<nat>[parity](_ => []);
    assert Lists(dataChecks[..], checks[..]) == NoEdges(information, parity);
    for lane := 0 to 3
      invariant Lists(dataChecks[..], checks[..]) == Lanes(information, parity, orders, lane)
    {
      if information > 0 { LanesKeep(information, parity, orders, lane); }
      AddLane(orders[lane], lane, dataChecks, checks);
    }
    Accumulate(information, checks);
    g := Graph(information, parity, dataChecks[..], checks[..]);
  }

  method Accumulate(information: nat, checks: array<seq<nat>>)
    modifies checks
    ensures forall c :: 0 <= c < checks.Length ==> checks[c] == old(checks[c]) + Accumulator(information, c)
  {
    for check := 0 to checks.Length
      invariant forall c :: 0 <= c < check ==> checks[c] == old(checks[c]) + Accumulator(information, c)
      invariant forall c :: check <= c < checks.Length ==> checks[c] == old(checks[c])
    {
      checks[check] := checks[check] + [information + check];
      if check > 0 {
        checks[check] := checks[check] + [information + check - 1];
      }
    }
  }

  /** One lane: every variable, in the lane's order. */
  method AddLane(order: seq<nat>, lane: nat, dataChecks: array<seq<nat>>, checks: array<seq<nat>>)
    requires dataChecks != checks && lane < 3 && checks.Length >= 1 && (dataChecks.Length == 0 || checks.Length >= 3)
    requires IsPermutation(order, dataChecks.Length)
    requires dataChecks.Length > 0 ==> Linked(dataChecks[..], checks[..])
    requires forall v :: 0 <= v < dataChecks.Length ==> |dataChecks[v]| == lane
    requires lane > 0 && dataChecks.Length > 0 ==> checks[0] != []
    modifies dataChecks, checks
    ensures Lists(dataChecks[..], checks[..]) == Lane(old(Lists(dataChecks[..], checks[..])), order, lane, |order|)
  {
    ghost var l := Lists(dataChecks[..], checks[..]);
    if |order| > 0 {
      assert forall v :: 0 <= v < dataChecks.Length ==> |l.data[v]| == lane;
      assert InLane(l, order, lane, 0);
    }
    for position := 0 to |order|
      invariant Lists(dataChecks[..], checks[..]) == Lane(l, order, lane, position)
    {
      hide InLane, Linked, IsPermutation, FirstFree;
      LaneFacts(l, order, lane, position);
      var variable, parity := order[position], checks.Length;
      ghost var before := Lists(dataChecks[..], checks[..]);
      var check := FreeCheck(dataChecks[variable], position + LaneOffset(lane, parity), parity);
      dataChecks[variable] := dataChecks[variable] + [check];
      checks[check] := checks[check] + [variable];
      assert Lists(dataChecks[..], checks[..]) == WithEdge(before, variable, check);
    }
  }

  lemma LaneFacts(l: Lists, order: seq<nat>, lane: nat, position: nat)
    requires InLane(l, order, lane, 0) && lane < 3 && position < |order| && |l.checks| >= 3
    ensures order[position] < |l.data| && |Lane(l, order, lane, position).data[order[position]]| == lane
  {
    LaneKeeps(l, order, lane, position);
    DegreesNext(Lane(l, order, lane, position).data, order, lane, position, 0);
  }
}
