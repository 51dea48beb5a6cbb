/** Flows and cuts of a capacitated network, stated without reference to any algorithm. */
module FlowNetwork {

  datatype Edge = Edge(from: int, to: int, cap: int)

  /** Flow leaving the vertex set `S` minus flow entering it. */
  ghost function NetOut(es: seq<Edge>, f: seq<int>, S: set<int>): int
    requires |f| == |es|
  {
    if es == [] then 0 else
      var k := |es| - 1;
      NetOut(es[..k], f[..k], S) + Crossing(es[k], f[k], S)
  }

  /** What `x` units on edge `e` contribute to the net flow out of `S`. */
  ghost function Crossing(e: Edge, x: int, S: set<int>): int {
    if e.from in S && e.to !in S then x
    else if e.from !in S && e.to in S then -x
    else 0
  }

  /** Capacity of the edges that lead from `S` to its complement. */
  ghost function CutCapacity(es: seq<Edge>, S: set<int>): int {
    if es == [] then 0 else
      var k := |es| - 1;
      CutCapacity(es[..k], S) + if es[k].from in S && es[k].to !in S then es[k].cap else 0
  }

  ghost function TotalCapacity(es: seq<Edge>): int {
    if es == [] then 0 else TotalCapacity(es[..|es| - 1]) + es[|es| - 1].cap
  }

  /** Every edge carries between 0 and its capacity. */
  ghost predicate WithinCapacity(es: seq<Edge>, f: seq<int>) {
    |f| == |es| && forall k :: 0 <= k < |es| ==> 0 <= f[k] <= es[k].cap
  }

  /** A legal flow: within capacity, and conserved at every vertex but the source and the sink. */
  ghost predicate LegalFlow(es: seq<Edge>, f: seq<int>, s: int, t: int) {
    && WithinCapacity(es, f)
    && forall x :: x != s && x != t ==> NetOut(es, f, {x}) == 0
  }

  ghost function Value(es: seq<Edge>, f: seq<int>, s: int): int
    requires |f| == |es|
  {
    NetOut(es, f, {s})
  }

  ghost predicate IsMaximumFlow(es: seq<Edge>, f: seq<int>, s: int, t: int) {
    && LegalFlow(es, f, s, t)
    && forall g :: LegalFlow(es, g, s, t) ==> Value(es, g, s) <= Value(es, f, s)
  }

  ghost predicate IsMinimumCut(es: seq<Edge>, S: set<int>, s: int, t: int) {
    && s in S && t !in S
    && forall S': set<int> :: s in S' && t !in S' ==> CutCapacity(es, S) <= CutCapacity(es, S')
  }

  /** `f'` is `f` with `amount` more units sent from `a` to `b`, as far as vertex balances can tell. */
  ghost predicate Shifted(es: seq<Edge>, f: seq<int>, f': seq<int>, a: int, b: int, amount: int) {
    && |f| == |es| && |f'| == |es|
    && forall x :: NetOut(es, f', {x}) ==
                   NetOut(es, f, {x}) + (if x == a then amount else 0) - (if x == b then amount else 0)
  }

  lemma {:induction false} NetOutInsert(es: seq<Edge>, f: seq<int>, S: set<int>, x: int)
    requires |f| == |es| && x !in S
    ensures NetOut(es, f, S + {x}) == NetOut(es, f, S) + NetOut(es, f, {x})
  {
    if es != [] {
      var k := |es| - 1;
      NetOutInsert(es[..k], f[..k], S, x);
    }
  }

  /** Conservation at single vertices adds up to conservation of sets. */
  lemma {:induction false} NetOutOfConservedSet(es: seq<Edge>, f: seq<int>, S: set<int>, s: int)
    requires |f| == |es|
    requires forall x :: x in S && x != s ==> NetOut(es, f, {x}) == 0
    ensures NetOut(es, f, S) == if s in S then NetOut(es, f, {s}) else 0
    decreases |S|
  {
    if S == {} {
      NetOutEmpty(es, f);
    } else {
      var x :| x in S;
      NetOutOfConservedSet(es, f, S - {x}, s);
      NetOutInsert(es, f, S - {x}, x);
      assert S - {x} + {x} == S;
    }
  }

  lemma {:induction false} NetOutEmpty(es: seq<Edge>, f: seq<int>)
    requires |f| == |es|
    ensures NetOut(es, f, {}) == 0
  {
    if es != [] {
      NetOutEmpty(es[..|es| - 1], f[..|es| - 1]);
    }
  }

  lemma {:induction false} NetOutBoundedByCut(es: seq<Edge>, f: seq<int>, S: set<int>)
    requires WithinCapacity(es, f)
    ensures NetOut(es, f, S) <= CutCapacity(es, S)
  {
    if es != [] {
      NetOutBoundedByCut(es[..|es| - 1], f[..|es| - 1], S);
    }
  }

  /** A flow that fills every edge leaving `S` and leaves every edge entering `S` empty meets the cut. */
  lemma {:induction false} NetOutOfSaturatedCut(es: seq<Edge>, f: seq<int>, S: set<int>)
    requires |f| == |es|
    requires forall k :: 0 <= k < |es| && es[k].from in S && es[k].to !in S ==> f[k] == es[k].cap
    requires forall k :: 0 <= k < |es| && es[k].from !in S && es[k].to in S ==> f[k] == 0
    ensures NetOut(es, f, S) == CutCapacity(es, S)
  {
    if es != [] {
      NetOutOfSaturatedCut(es[..|es| - 1], f[..|es| - 1], S);
    }
  }

  /** Weak duality: no legal flow is worth more than any cut that separates source from sink. */
  lemma FlowAtMostCut(es: seq<Edge>, f: seq<int>, s: int, t: int, S: set<int>)
    requires LegalFlow(es, f, s, t) && s in S && t !in S
    ensures Value(es, f, s) <= CutCapacity(es, S)
  {
    NetOutOfConservedSet(es, f, S, s);
    NetOutBoundedByCut(es, f, S);
  }

  /** A legal flow that saturates a separating cut is a maximum flow, and the cut is a minimum cut. */
  lemma SaturatedCutIsOptimal(es: seq<Edge>, f: seq<int>, s: int, t: int, S: set<int>)
    requires LegalFlow(es, f, s, t) && s in S && t !in S
    requires forall k :: 0 <= k < |es| && es[k].from in S && es[k].to !in S ==> f[k] == es[k].cap
    requires forall k :: 0 <= k < |es| && es[k].from !in S && es[k].to in S ==> f[k] == 0
    ensures CutCapacity(es, S) == Value(es, f, s)
    ensures IsMaximumFlow(es, f, s, t) && IsMinimumCut(es, S, s, t)
  {
    NetOutOfConservedSet(es, f, S, s);
    NetOutOfSaturatedCut(es, f, S);
    forall g | LegalFlow(es, g, s, t)
      ensures Value(es, g, s) <= Value(es, f, s)
    {
      FlowAtMostCut(es, g, s, t, S);
    }
    forall S': set<int> | s in S' && t !in S'
      ensures Value(es, f, s) <= CutCapacity(es, S')
    {
      FlowAtMostCut(es, f, s, t, S');
    }
  }

  lemma {:induction false} CutAtMostTotal(es: seq<Edge>, S: set<int>)
    requires forall k :: 0 <= k < |es| ==> es[k].cap >= 0
    ensures CutCapacity(es, S) <= TotalCapacity(es)
  {
    if es != [] {
      CutAtMostTotal(es[..|es| - 1], S);
    }
  }

  /** Changing the flow of one edge moves only the balances of sets that edge crosses. */
  lemma {:induction false} NetOutUpdate(es: seq<Edge>, f: seq<int>, k: int, d: int, S: set<int>)
    requires |f| == |es| && 0 <= k < |es|
    ensures NetOut(es, f[k := f[k] + d], S) == NetOut(es, f, S) + Crossing(es[k], d, S)
  {
    var m := |es| - 1;
    var g := f[k := f[k] + d];
    if k == m {
      assert g[..m] == f[..m];
    } else {
      NetOutUpdate(es[..m], f[..m], k, d, S);
      assert g[..m] == f[..m][k := f[k] + d];
    }
  }

  lemma ShiftOnEdge(es: seq<Edge>, f: seq<int>, k: int, d: int)
    requires |f| == |es| && 0 <= k < |es|
    ensures Shifted(es, f, f[k := f[k] + d], es[k].from, es[k].to, d)
  {
    forall x {
      NetOutUpdate(es, f, k, d, {x});
    }
  }

  /** More units from source to sink make a legal flow worth that much more. */
  lemma ShiftKeepsLegal(es: seq<Edge>, f: seq<int>, f': seq<int>, s: int, t: int, d: int)
    requires LegalFlow(es, f, s, t) && WithinCapacity(es, f') && Shifted(es, f, f', s, t, d) && s != t
    ensures LegalFlow(es, f', s, t) && Value(es, f', s) == Value(es, f, s) + d
  {
  }

  lemma ValueAtMostTotal(es: seq<Edge>, f: seq<int>, s: int, t: int)
    requires LegalFlow(es, f, s, t) && s != t
    ensures Value(es, f, s) <= TotalCapacity(es)
  {
    FlowAtMostCut(es, f, s, t, {s});
    assert forall k :: 0 <= k < |es| ==> 0 <= f[k] <= es[k].cap;
    CutAtMostTotal(es, {s});
  }

  lemma EdgeWithoutFlow(es: seq<Edge>, f: seq<int>, e: Edge, S: set<int>)
    requires |f| == |es|
    ensures NetOut(es + [e], f + [0], S) == NetOut(es, f, S)
  {
    assert (es + [e])[..|es|] == es && (f + [0])[..|es|] == f;
  }
}
