/** Maximum flow by level graphs, as in slides/tc256/src/network_flow.cc. */
module Dinic {
  import opened FlowNetwork
  import opened LevelGraph
  import opened ResidualArcs
  import opened Phases

  const WEIGHT_MAX := 0x7fff_ffff

  class NetworkFlow {
    const n: nat
    const svtx: int
    const tvtx: int
    var graph: seq<Vertex>
    var dist: seq<int>
    var arcs: seq<Arc>
    ghost var edges: seq<Edge>  // what add_arc was asked for
    ghost var ends: seq<End>    // the ends of each arc
    ghost var level: seq<int>   // labels as the last breadth-first search left them

    ghost predicate Valid()
      reads this
    {
      && 0 <= svtx < n && 0 <= tvtx < n && |dist| == n
      && Paired(edges, ends) && Shape(n, ends, graph, arcs) && Capacities(edges, arcs)
    }

    ghost function Flow(): seq<int>
      reads this`edges, this`arcs
    {
      FlowOf(edges, arcs)
    }

    /** The arcs carry a legal flow from the source to the sink that is worth at least nothing. */
    ghost predicate Balanced()
      reads this
    {
      LegalFlow(edges, Flow(), svtx, tvtx) && (svtx != tvtx ==> 0 <= Value(edges, Flow(), svtx))
    }

    /** The labels are those of a search of the current arcs that did or did not find the sink. */
    ghost predicate Searched(found: bool)
      reads this
    {
      && Valid() && Balanced() && dist == level
      && Reached(n, ends, arcs, svtx, level) && level[tvtx] < n
      && if found then 0 < level[tvtx] && Good(NetNow(), Now())
         else Closed(n, ends, arcs, level) && (svtx != tvtx ==> level[tvtx] == -1)
    }

    ghost function SourceSide(): set<int>
      reads this`dist
    {
      set v | 0 <= v < |dist| && dist[v] != -1
    }

    constructor (nrVtx: nat, srcVtx: int, tgtVtx: int)
      requires 0 <= srcVtx < nrVtx && 0 <= tgtVtx < nrVtx
      ensures n == nrVtx && svtx == srcVtx && tvtx == tgtVtx
      ensures Valid() && Balanced() && edges == []
    {
      n, svtx, tvtx := nrVtx, srcVtx, tgtVtx;
      graph := seq(nrVtx, _ => Vertex(0, 0));
      dist := seq(nrVtx, _ => 0);
      arcs := [Arc(0, 0, 0), Arc(0, 0, 0)];
      edges, ends, level := [], [End(0, 0), End(0, 0)], [];
    }

    /** Put one arc in front of the list of `from`. */
    method DoAddArc(from: int, to: int, cap: int)
      requires Shape(n, ends, graph, arcs) && 0 <= from < n && 0 <= to < n && 0 <= from < |graph|
      modifies this`arcs, this`graph, this`ends
      ensures Shape(n, ends, graph, arcs) && |graph| == n && ends == old(ends) + [End(from, to)]
      ensures arcs == old(arcs) + [Arc(to, old(graph)[from].arcStart, cap)]
    {
      AppendKeepsShape(n, ends, graph, arcs, from, to, cap, graph[from := graph[from].(arcStart := |arcs|)],
                       arcs + [Arc(to, graph[from].arcStart, cap)]);
      arcs := arcs + [Arc(to, graph[from].arcStart, cap)];
      graph := graph[from := graph[from].(arcStart := |arcs| - 1)];
      ends := ends + [End(from, to)];
    }

    /** An arc of capacity 0 is ignored; any other adds an edge that carries no flow yet. */
    method AddArc(from: int, to: int, cap: int)
      requires Valid() && Balanced()
      requires 0 <= from < n && 0 <= to < n && cap >= 0
      modifies this`arcs, this`graph, this`edges, this`ends
      ensures Valid() && Balanced()
      ensures edges == old(edges) + if cap == 0 then [] else [Edge(from, to, cap)]
      ensures Flow() == old(Flow()) + if cap == 0 then [] else [0]
    {
      if cap == 0 {
        return;
      }
      AddEdge(from, to, cap);
    }

    /** `AddArc` with a capacity: the two arcs of a new edge. */
    method AddEdge(from: int, to: int, cap: int)
      requires Valid() && Balanced()
      requires 0 <= from < n && 0 <= to < n && cap > 0
      modifies this`arcs, this`graph, this`edges, this`ends
      ensures Valid() && Balanced()
      ensures edges == old(edges) + [Edge(from, to, cap)] && Flow() == old(Flow()) + [0]
    {
      hide Shape, Capacities, Paired, LegalFlow, FlowOf, Value;
      ghost var es, g, a := edges, ends, arcs;
      LegalWithEmptyEdge(edges, Flow(), Edge(from, to, cap), svtx, tvtx);
      OneVertexEach(n, ends, graph, arcs);
      DoAddArc(from, to, cap);
      DoAddArc(to, from, 0);
      edges := edges + [Edge(from, to, cap)];
      EdgeKeepsPairs(es, g, a, Edge(from, to, cap), arcs);
    }

    method DinicBfs() returns (found: bool)
      requires Valid() && Balanced()
      modifies this`graph, this`dist, this`level
      ensures Searched(found)
    {
      hide Shape, Reached, Searching, Scanning, Tight, Unlabelled, Paired, Capacities, IsLastArc, LegalFlow, FlowOf, Good;
      ghost var was := graph;
      OneVertexEach(n, ends, graph, arcs);
      var queue := [svtx];
      dist := seq(n, _ => -1)[svtx := 0];
      graph := seq(n, v requires 0 <= v < |graph| reads this`graph => graph[v].(arcCur := graph[v].arcStart));
      SearchBegins(n, ends, was, arcs, svtx, dist, graph);
      while queue != []
        invariant Valid() && Balanced() && Reached(n, ends, arcs, svtx, dist) && Labels(n, ends, arcs, dist) && |graph| == n
        invariant forall v :: 0 <= v < n ==> graph[v].arcCur == graph[v].arcStart
        invariant svtx != tvtx ==> dist[tvtx] == -1
        invariant Searching(n, ends, arcs, dist, queue)
        decreases Unlabelled(dist) + |queue|
      {
        FirstArc(n, ends, graph, arcs, queue, dist);
        BeginScan(n, ends, arcs, dist, queue, graph[queue[0]].arcStart);
        var u := queue[0];
        queue, found := ScanArcs(u, queue[1..]);
        if found {
          level := dist;
          PhaseStarts(NetNow(), Now());
          LevelBound(n, ends, arcs, svtx, level, tvtx);
          return true;
        }
        EndScan(n, ends, arcs, dist, queue, u);
      }
      NotFoundIsClosed(n, ends, arcs, dist);
      LevelBound(n, ends, arcs, svtx, dist, tvtx);
      level := dist;
      return false;
    }

    /** The inner loop of the search: label and queue what the arcs of `u` lead to. */
    method ScanArcs(u: int, queue0: seq<int>) returns (queue: seq<int>, found: bool)
      requires Valid() && Reached(n, ends, arcs, svtx, dist) && Labels(n, ends, arcs, dist)
      requires svtx != tvtx ==> dist[tvtx] == -1
      requires 0 <= u < n && Scanning(n, ends, arcs, dist, queue0, u, graph[u].arcStart)
      modifies this`dist
      ensures Labels(n, ends, arcs, dist) && Reached(n, ends, arcs, svtx, dist)
      ensures Unlabelled(dist) + |queue| == old(Unlabelled(dist)) + |queue0|
      ensures found ==> dist[tvtx] > 0 && Tight(n, ends, arcs, tvtx, dist)
      ensures !found ==> Scanning(n, ends, arcs, dist, queue, u, 0) && (svtx != tvtx ==> dist[tvtx] == -1)
    {
      hide Shape, Reached, Scanning, Scanned, Queued, Tight, Unlabelled, Paired, Capacities, IsLastArc;
      queue := queue0;
      ghost var total := Unlabelled(dist) + |queue|;
      ListOfVertex(n, ends, graph, arcs, u);
      var dt := dist[u] + 1;
      var i := graph[u].arcStart;
      while i != 0
        invariant Reached(n, ends, arcs, svtx, dist) && Labels(n, ends, arcs, dist) && dt == dist[u] + 1
        invariant svtx != tvtx ==> dist[tvtx] == -1
        invariant i != 0 ==> 2 <= i < |ends| && ends[i].src == u
        invariant Scanning(n, ends, arcs, dist, queue, u, i)
        invariant Unlabelled(dist) + |queue| == total
        decreases i
      {
        ArcOfVertex(n, ends, graph, arcs, i);
        RemainsLeft(edges, arcs, i);
        var a := arcs[i];
        if a.remain != 0 && dist[a.tvtx] == -1 {
          ghost var before := dist;
          dist := dist[a.tvtx := dt];
          Discover(n, ends, arcs, svtx, before, queue, u, i, dist);
          if a.tvtx == tvtx {
            FoundIsTight(n, ends, arcs, before, tvtx, queue, u, i);
            return queue + [a.tvtx], true;
          }
          queue := queue + [a.tvtx];
        }
        SkipStep(n, ends, arcs, dist, queue, u, i, a.next);
        i := a.next;
      }
      return queue, false;
    }

    /** 0 for the source side and 1 for the sink side of a minimum cut. */
    method GetMinimalCutMap() returns (cut: seq<int>)
      requires Searched(false) && svtx != tvtx
      ensures |cut| == n && forall i :: 0 <= i < n ==> cut[i] == 0 || cut[i] == 1
      ensures cut[svtx] == 0 && cut[tvtx] == 1
      ensures var S := set i | 0 <= i < n && cut[i] == 0;
        IsMinimumCut(edges, S, svtx, tvtx) && CutCapacity(edges, S) == Value(edges, Flow(), svtx)
    {
      cut := seq(n, _ => 0);
      for i := 0 to n
        invariant |cut| == n
        invariant forall j :: 0 <= j < i ==> cut[j] == if dist[j] == -1 then 1 else 0
      {
        cut := cut[i := if dist[i] == -1 then 1 else 0];
      }
      SearchedIsOptimal();
      assert (set i | 0 <= i < n && cut[i] == 0) == SourceSide();
    }

    ghost function NetNow(): Net
      reads this`edges, this`ends, this`level
    {
      Net(n, edges, ends, tvtx, level)
    }

    ghost function Now(): State
      reads this`graph, this`arcs, this`dist
    {
      State(graph, arcs, dist)
    }

    /**
     * Send up to `flow` units from `v0` to the sink along layered arcs.
     * What could not be sent is explained by `v0` losing its label.
     */
    method DinicDfs(v0: int, flow: int) returns (ret: int)
      requires Good(NetNow(), Now())
      requires 0 <= v0 < n && dist[v0] == level[v0] != -1 && flow > 0
      modifies this`graph, this`dist, this`arcs
      ensures Sent(NetNow(), old(Now()), Now(), v0, flow, ret)
      decreases level[tvtx] - level[v0], 2
    {
      ghost var N, S0 := NetNow(), Now();
      GoodFacts(N, S0, v0);
      if v0 == tvtx {
        SentNothing(N, S0, flow);
        return flow;
      }
      var arcCur;
      ret, arcCur := WalkArcs(v0, flow);
      WalkEnd(N, S0, Now(), v0, flow, arcCur, ret);
      hide Good, Sent, Walking, Phase, Below, Moved;
      graph := graph[v0 := graph[v0].(arcCur := arcCur)];
      if arcCur == 0 {
        dist := dist[v0 := -1];
      }
    }

    /** The loop of `DinicDfs`: use the arcs of `v0` from its current arc on, and report where it stopped. */
    method WalkArcs(v0: int, flow: int) returns (ret: int, arcCur: int)
      requires Good(NetNow(), Now())
      requires 0 <= v0 < n && v0 != tvtx && dist[v0] == level[v0] != -1 && flow > 0
      modifies this`graph, this`dist, this`arcs
      ensures Walking(NetNow(), old(Now()), Now(), v0, flow, arcCur, ret) && (ret == flow || arcCur == 0)
      decreases level[tvtx] - level[v0], 1
    {
      ghost var N, S0 := NetNow(), Now();
      GoodFacts(N, S0, v0);
      WalkStart(N, S0, v0, flow);
      hide Walking, Good, Spent, IsLastArc;
      var left := flow;
      arcCur, ret := graph[v0].arcCur, 0;
      while arcCur != 0
        invariant Walking(N, S0, Now(), v0, flow, arcCur, ret) && left == flow - ret > 0
        decreases arcCur
      {
        WalkFacts(N, S0, Now(), v0, flow, arcCur, ret);
        var a := arcs[arcCur];
        if a.remain != 0 && dist[a.tvtx] == dist[v0] + 1 {
          var df := PushThrough(S0, v0, arcCur, ret, left);
          ret, left := ret + df, left - df;
          if left == 0 {
            break;
          }
        } else {
          WalkSkip(N, S0, Now(), v0, flow, arcCur, ret);
        }
        arcCur := a.next;
      }
    }

    /**
     * The loop body of `DinicDfs`: send up to `left` units through the residual, layered arc `i` of `v0`,
     * after the arcs before it have taken `ret` units.
     */
    method PushThrough(ghost S0: State, v0: int, i: int, ghost ret: int, left: int) returns (df: int)
      requires Walking(NetNow(), S0, Now(), v0, ret + left, i, ret) && i != 0 && left > 0
      requires i < |ends| && arcs[i].remain > 0 && 0 <= ends[i].tgt < n && dist[ends[i].tgt] == level[v0] + 1
      modifies this`graph, this`dist, this`arcs
      ensures 0 <= df <= left && Walking(NetNow(), S0, Now(), v0, ret + left, i, ret + df)
      ensures df < left ==> Walking(NetNow(), S0, Now(), v0, ret + left, old(arcs)[i].next, ret + df)
      decreases level[tvtx] - level[v0], 0
    {
      ghost var N, S := NetNow(), Now();
      WalkFacts(N, S0, S, v0, ret + left, i, ret);
      GoodFacts(N, S, ends[i].tgt);
      hide Good, Sent, Through, Spent, IsLastArc, Push, Walking;
      df := DinicDfs(arcs[i].tvtx, if left < arcs[i].remain then left else arcs[i].remain);
      PairOfArc(N, Now(), v0, i);
      ThroughArc(N, S, Now(), Now().(arcs := Push(arcs, i, df)), v0, left, i, df);
      if df != 0 {
        AddFlow(i, df);
      }
      WalkThrough(N, S0, S, Now(), v0, ret + left, i, ret, df);
    }

    /** Move `df` units of remaining capacity from arc `i` to its pair. */
    method AddFlow(i: int, df: int)
      requires 2 <= i < |arcs| && 2 <= Pair(i) < |arcs|
      modifies this`arcs
      ensures arcs == Push(old(arcs), i, df)
    {
      arcs := arcs[i := arcs[i].(remain := arcs[i].remain - df)];
      arcs := arcs[Pair(i) := arcs[Pair(i)].(remain := arcs[Pair(i)].remain + df)];
    }

    /** Labels that no residual arc leaves prove the flow maximal and their cut minimal. */
    lemma SearchedIsOptimal()
      requires Searched(false) && svtx != tvtx
      ensures IsMaximumFlow(edges, Flow(), svtx, tvtx) && IsMinimumCut(edges, SourceSide(), svtx, tvtx)
      ensures CutCapacity(edges, SourceSide()) == Value(edges, Flow(), svtx)
    {
      ClosedCutIsSaturated(n, edges, ends, arcs, level, SourceSide());
      SaturatedCutIsOptimal(edges, Flow(), svtx, tvtx, SourceSide());
    }

    /** One phase: a depth-first search from the source, starting from the labels of a search that found the sink. */
    method RunPhase() returns (df: int)
      requires Searched(true)
      modifies this`graph, this`dist, this`arcs
      ensures Valid() && Balanced() && Good(NetNow(), Now())
      ensures df > 0 && Value(edges, Flow(), svtx) == old(Value(edges, Flow(), svtx)) + df
      ensures Value(edges, Flow(), svtx) <= TotalCapacity(edges)
      ensures df == WEIGHT_MAX || dist[svtx] == -1
    {
      GoodFacts(NetNow(), Now(), svtx);
      df := DinicDfs(svtx, WEIGHT_MAX);
      PhaseProgresses(NetNow(), old(Now()), Now(), svtx, WEIGHT_MAX, df);
      FlowWithinCapacity(edges, arcs);
      ShiftKeepsLegal(edges, old(Flow()), Flow(), svtx, tvtx, df);
      ValueAtMostTotal(edges, Flow(), svtx, tvtx);
    }

    lemma Levels(found: bool)
      requires Searched(found)
      ensures Valid() && Balanced() && |level| == n && level[svtx] == 0 && level[tvtx] < n && 0 < n
      ensures found ==> 0 < level[tvtx] 
    {
    }

    /** If the phase before ran the source dry, this search found the sink further away. */
    lemma FurtherAway(N: Net, S: State)
      requires Searched(true) && Good(N, S) && N == NetNow().(level := N.level) && S.arcs == arcs
      requires N.level[svtx] == 0 && 0 <= N.level[tvtx] && S.dist[svtx] == -1
      ensures N.level[tvtx] < level[tvtx]
    {
      PhaseLengthens(N, S, svtx, level);
    }

    /**
     * Run phases until the sink is out of reach. `sum` is what was added to the flow, which is now a
     * maximum flow, and the vertices that still have a label are the source side of a minimum cut.
     */
    method CalcMaxflow() returns (sum: int, ghost phases: nat)
      requires Valid() && Balanced()
      modifies this`graph, this`dist, this`arcs, this`level
      ensures Searched(false)
      ensures Value(edges, Flow(), svtx) == old(Value(edges, Flow(), svtx)) + sum && sum >= 0
      ensures svtx != tvtx ==> IsMaximumFlow(edges, Flow(), svtx, tvtx) && IsMinimumCut(edges, SourceSide(), svtx, tvtx)
      ensures svtx != tvtx ==> CutCapacity(edges, SourceSide()) == Value(edges, Flow(), svtx)
      ensures TotalCapacity(edges) < WEIGHT_MAX ==> phases < n
    {
      hide Searched, Valid, Balanced, Good, NetOut, Value, FlowOf, CutCapacity, TotalCapacity, IsMaximumFlow, IsMinimumCut;
      sum, phases := 0, 0;
      var found := DinicBfs();
      Levels(found);
      while found
        invariant Searched(found) && |level| == n && level[svtx] == 0 && (found ==> 0 < level[tvtx])
        invariant Value(edges, Flow(), svtx) == old(Value(edges, Flow(), svtx)) + sum && sum >= 0
        invariant TotalCapacity(edges) < WEIGHT_MAX ==> phases < if found then level[tvtx] else n
        decreases TotalCapacity(edges) - Value(edges, Flow(), svtx)
      {
        ghost var N := NetNow();
        Levels(true);
        var df := RunPhase();
        ghost var S := Now();
        sum, phases := sum + df, phases + 1;
        found := DinicBfs();
        Levels(found);
        if found && S.dist[svtx] == -1 {
          FurtherAway(N, S);
        }
      }
      if svtx != tvtx {
        SearchedIsOptimal();
      }
    }
  }
}
