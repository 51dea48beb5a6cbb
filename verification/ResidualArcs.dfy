/** Residual arcs in pairs: what pushing flow along one does to capacities and to the flow it stands for. */
module ResidualArcs {
  import opened FlowNetwork
  import opened LevelGraph
  import Binary

  /** The arc that runs against arc `i`: `i ^ 1`. */
  function Pair(i: int): int {
    if i % 2 == 0 then i + 1 else i - 1
  }

  lemma PairIndex(i: int)
    ensures Pair(i) != i && Pair(i) / 2 == i / 2 && Pair(Pair(i)) == i
    ensures if i % 2 == 0 then i == 2 * (i / 2) && Pair(i) == i + 1 else i == 2 * (i / 2) + 1 && Pair(i) == i - 1
  {
  }

  lemma PairIsXor(i: nat)
    ensures Pair(i) == Binary.Xor(i, 1)
  {
    assert Binary.Xor(i / 2, 0) == i / 2;
  }

  /** Edge number `k` is stored as arcs `2k+2` (forward) and `2k+3` (backward). */
  ghost predicate Paired(es: seq<Edge>, g: seq<End>) {
    && |g| == 2 * |es| + 2
    && forall k :: 0 <= k < |es| ==>
         g[2 * k + 2] == End(es[k].from, es[k].to) && g[2 * k + 3] == End(es[k].to, es[k].from)
  }

  /** Remaining capacities are never negative, and each pair shares the capacity that was added. */
  ghost predicate Capacities(es: seq<Edge>, arcs: seq<Arc>) {
    && |arcs| == 2 * |es| + 2
    && (forall i :: 2 <= i < |arcs| ==> arcs[i].remain >= 0)
    && (forall k :: 0 <= k < |es| ==> arcs[2 * k + 2].remain + arcs[2 * k + 3].remain == es[k].cap)
  }

  lemma RemainsLeft(es: seq<Edge>, arcs: seq<Arc>, i: int)
    requires Capacities(es, arcs) && 2 <= i < |arcs|
    ensures arcs[i].remain >= 0
  {
  }

  /** The flow an arc array stands for: what the backward arcs can give back. */
  ghost function FlowOf(es: seq<Edge>, arcs: seq<Arc>): (f: seq<int>)
    ensures |f| == |es|
  {
    seq(|es|, k => if 0 <= 2 * k + 3 < |arcs| then arcs[2 * k + 3].remain else 0)
  }

  ghost function AddRemain(arcs: seq<Arc>, i: int, d: int): (arcs': seq<Arc>)
    requires 0 <= i < |arcs|
    ensures |arcs'| == |arcs|
  {
    arcs[i := arcs[i].(remain := arcs[i].remain + d)]
  }

  /** Pushing `d` units along arc `i` takes them from `i` and gives them to its pair. */
  ghost function Push(arcs: seq<Arc>, i: int, d: int): (arcs': seq<Arc>)
    requires 2 <= i < |arcs| && 2 <= Pair(i) < |arcs|
    ensures |arcs'| == |arcs|
  {
    AddRemain(AddRemain(arcs, i, -d), Pair(i), d)
  }

  lemma PairEnds(es: seq<Edge>, g: seq<End>, i: int)
    requires Paired(es, g) && 2 <= i < |g|
    ensures 2 <= Pair(i) < |g| && Pair(i) != i && g[Pair(i)] == End(g[i].tgt, g[i].src)
  {
    PairIndex(i);
    var k := i / 2 - 1;
    assert g[2 * k + 2] == End(es[k].from, es[k].to) && g[2 * k + 3] == End(es[k].to, es[k].from);
  }

  lemma PushSpelledOut(arcs: seq<Arc>, i: int, d: int)
    requires 2 <= i < |arcs| && 2 <= Pair(i) < |arcs|
    ensures d == 0 ==> Push(arcs, i, d) == arcs
    ensures var a := arcs[i := arcs[i].(remain := arcs[i].remain - d)];
            Push(arcs, i, d) == a[Pair(i) := a[Pair(i)].(remain := a[Pair(i)].remain + d)]
    ensures Pair(i) != i ==>
              Push(arcs, i, d)[i].remain == arcs[i].remain - d && Push(arcs, i, d)[i].next == arcs[i].next
  {
    PairIndex(i);
  }

  lemma PushKeepsShape(n: int, es: seq<Edge>, g: seq<End>, graph: seq<Vertex>, arcs: seq<Arc>, i: int, d: int)
    requires Shape(n, g, graph, arcs) && 2 <= i < |arcs| && 2 <= Pair(i) < |arcs|
    requires Capacities(es, arcs) && 0 <= d <= arcs[i].remain
    ensures Shape(n, g, graph, Push(arcs, i, d)) && Capacities(es, Push(arcs, i, d))
  {
    PushKeepsCapacities(es, arcs, i, d);
  }

  lemma PushKeepsCapacities(es: seq<Edge>, arcs: seq<Arc>, i: int, d: int)
    requires Capacities(es, arcs) && 2 <= i < |arcs| && 2 <= Pair(i) < |arcs|
    requires 0 <= d <= arcs[i].remain
    ensures Capacities(es, Push(arcs, i, d))
  {
    var k, arcs' := i / 2 - 1, Push(arcs, i, d);
    PairIndex(i);
    assert arcs'[2 * k + 2].remain + arcs'[2 * k + 3].remain == arcs[2 * k + 2].remain + arcs[2 * k + 3].remain;
    assert arcs[2 * k + 2].remain + arcs[2 * k + 3].remain == es[k].cap;
  }

  lemma PushShiftsFlow(es: seq<Edge>, g: seq<End>, arcs: seq<Arc>, i: int, d: int)
    requires Paired(es, g) && |arcs| == |g| && 2 <= i < |g| && 2 <= Pair(i) < |g|
    ensures Shifted(es, FlowOf(es, arcs), FlowOf(es, Push(arcs, i, d)), g[i].src, g[i].tgt, d)
  {
    var k := i / 2 - 1;
    var f, f' := FlowOf(es, arcs), FlowOf(es, Push(arcs, i, d));
    PairIndex(i);
    assert g[2 * k + 2] == End(es[k].from, es[k].to) && g[2 * k + 3] == End(es[k].to, es[k].from);
    if i % 2 == 0 {
      ShiftOnEdge(es, f, k, d);
      assert f' == f[k := f[k] + d];
    } else {
      ShiftOnEdge(es, f, k, -d);
      assert f' == f[k := f[k] - d];
    }
  }

  lemma FlowWithinCapacity(es: seq<Edge>, arcs: seq<Arc>)
    requires Capacities(es, arcs)
    ensures WithinCapacity(es, FlowOf(es, arcs))
  {
    forall k | 0 <= k < |es|
      ensures 0 <= FlowOf(es, arcs)[k] <= es[k].cap
    {
      assert arcs[2 * k + 2].remain + arcs[2 * k + 3].remain == es[k].cap;
    }
  }

  /**
   * Labels that no residual arc leaves mark a cut that the flow fills to the brim:
   * edges out of it are full, edges into it are empty.
   */
  lemma ClosedCutIsSaturated(n: int, es: seq<Edge>, g: seq<End>, arcs: seq<Arc>, level: seq<int>, S: set<int>)
    requires Paired(es, g) && Capacities(es, arcs) && Closed(n, g, arcs, level)
    requires S == set v | 0 <= v < n && level[v] != -1
    ensures var f := FlowOf(es, arcs);
      && (forall k :: 0 <= k < |es| && es[k].from in S && es[k].to !in S ==> f[k] == es[k].cap)
      && (forall k :: 0 <= k < |es| && es[k].from !in S && es[k].to in S ==> f[k] == 0)
  {
    var f := FlowOf(es, arcs);
    forall k | 0 <= k < |es|
      ensures es[k].from in S && es[k].to !in S ==> f[k] == es[k].cap
      ensures es[k].from !in S && es[k].to in S ==> f[k] == 0
    {
      assert g[2 * k + 2] == End(es[k].from, es[k].to) && g[2 * k + 3] == End(es[k].to, es[k].from);
      assert arcs[2 * k + 2].remain + arcs[2 * k + 3].remain == es[k].cap;
    }
  }

  /** One arc appended in front of its vertex's list. */
  lemma AppendKeepsShape(n: int, g: seq<End>, graph: seq<Vertex>, arcs: seq<Arc>, from: int, to: int, cap: int,
                         graph': seq<Vertex>, arcs': seq<Arc>)
    requires Shape(n, g, graph, arcs) && 0 <= from < n && 0 <= to < n
    requires arcs' == arcs + [Arc(to, graph[from].arcStart, cap)]
    requires graph' == graph[from := graph[from].(arcStart := |arcs|)]
    ensures Shape(n, g + [End(from, to)], graph', arcs')
  {
    var g' := g + [End(from, to)];
    forall i | 2 <= i < |g'|
      ensures IsLastArc(g', g'[i].src, i, arcs'[i].next)
    {
      if i < |g| {
        assert IsLastArc(g, g[i].src, i, arcs[i].next);
      } else {
        assert IsLastArc(g, from, |g|, graph[from].arcStart);
      }
    }
    forall v | 0 <= v < n
      ensures IsLastArc(g', v, |g'|, graph'[v].arcStart)
    {
      assert IsLastArc(g, v, |g|, graph[v].arcStart);
    }
  }

  lemma EdgeKeepsPairs(es: seq<Edge>, g: seq<End>, arcs: seq<Arc>, e: Edge, arcs': seq<Arc>)
    requires Paired(es, g) && Capacities(es, arcs)
    requires |arcs'| == |arcs| + 2 && arcs <= arcs'
    requires arcs'[|arcs|].remain == e.cap >= 0 && arcs'[|arcs| + 1].remain == 0
    ensures Paired(es + [e], g + [End(e.from, e.to)] + [End(e.to, e.from)])
    ensures Capacities(es + [e], arcs')
    ensures FlowOf(es + [e], arcs') == FlowOf(es, arcs) + [0]
  {
    var es' := es + [e];
    forall k | 0 <= k < |es'|
      ensures arcs'[2 * k + 2].remain + arcs'[2 * k + 3].remain == es'[k].cap
    {
      if k < |es| {
        assert arcs[2 * k + 2].remain + arcs[2 * k + 3].remain == es[k].cap;
      }
    }
  }

  lemma LegalWithEmptyEdge(es: seq<Edge>, f: seq<int>, e: Edge, s: int, t: int)
    requires LegalFlow(es, f, s, t) && e.cap >= 0
    ensures LegalFlow(es + [e], f + [0], s, t) && Value(es + [e], f + [0], s) == Value(es, f, s)
  {
    forall x {
      EdgeWithoutFlow(es, f, e, {x});
    }
  }
}
