/** What one phase of layered depth-first search keeps, on plain values. */
module Phases {
  import opened FlowNetwork
  import opened LevelGraph
  import opened ResidualArcs

  /** The network as a phase sees it: `level` are the labels its search started from. */
  datatype Net = Net(n: int, es: seq<Edge>, g: seq<End>, t: int, level: seq<int>)

  /** What a phase changes. */
  datatype State = State(graph: seq<Vertex>, arcs: seq<Arc>, dist: seq<int>)

  /** Arc `i` cannot carry layered flow now. */
  ghost predicate Useless(N: Net, S: State, i: int) {
    && Labels(N.n, N.g, S.arcs, N.level) && |S.dist| == N.n && 2 <= i < |N.g|
    && (S.arcs[i].remain == 0 || S.dist[N.g[i].tgt] != N.level[N.g[i].src] + 1)
  }

  /** All arcs of `v` numbered above `i` are useless. */
  ghost predicate Spent(N: Net, S: State, v: int, i: int) {
    forall j {:trigger Useless(N, S, j)} :: 2 <= j < |N.g| && i < j && N.g[j].src == v ==> Useless(N, S, j)
  }

  /** `i` is 0 or an arc of `v`. */
  ghost predicate ArcOf(N: Net, v: int, i: int) {
    i == 0 || (2 <= i < |N.g| && N.g[i].src == v)
  }

  /** The label of `v` is the one the phase started with, or it is gone and so are the arcs of `v`. */
  ghost predicate Intact(N: Net, S: State, v: int)
    requires |S.dist| == |S.graph| == |N.level| && 0 <= v < |N.level|
  {
    && (S.dist[v] == N.level[v] || (S.dist[v] == -1 && S.graph[v].arcCur == 0))
    && ArcOf(N, v, S.graph[v].arcCur)
  }

  /**
   * Labels are only ever erased, erased vertices have used up their arcs, and every arc ahead of
   * a current-arc pointer is useless for the rest of the phase.
   */
  ghost predicate Phase(N: Net, S: State) {
    && Tight(N.n, N.g, S.arcs, N.t, N.level) && |S.dist| == |S.graph| == N.n
    && S.dist[N.t] == N.level[N.t]
    && (forall v {:trigger Intact(N, S, v)} :: 0 <= v < N.n ==> Intact(N, S, v))
    && (forall i {:trigger Useless(N, S, i)} ::
          2 <= i < |N.g| && S.graph[N.g[i].src].arcCur < i ==> Useless(N, S, i))
  }

  ghost predicate Good(N: Net, S: State) {
    && Paired(N.es, N.g) && Shape(N.n, N.g, S.graph, S.arcs) && Capacities(N.es, S.arcs)
    && Phase(N, S)
  }

  /** Labels and arc pointers of vertices no deeper than `v0` are as they were, `v0` excepted. */
  ghost predicate SameAbove(N: Net, S: State, S': State, v0: int)
    requires |N.level| == |S.graph| == |S'.graph| == |S.dist| == |S'.dist| && 0 <= v0 < |N.level|
  {
    forall v {:trigger S'.graph[v]} {:trigger S'.dist[v]} :: 
      0 <= v < |N.level| && N.level[v] <= N.level[v0] && v != v0 ==>
        S'.graph[v] == S.graph[v] && S'.dist[v] == S.dist[v]
  }

  /** Arcs that start above level `l` are as they were. */
  ghost predicate SameArcsAbove(N: Net, S: State, S': State, l: int)
    requires |S.arcs| == |S'.arcs| == |N.g|
    requires forall i :: 2 <= i < |N.g| ==> 0 <= N.g[i].src < |N.level|
  {
    forall i {:trigger S'.arcs[i]} :: 2 <= i < |N.g| && N.level[N.g[i].src] < l ==> S'.arcs[i] == S.arcs[i]
  }

  ghost predicate Erased(dist: seq<int>, dist': seq<int>) {
    |dist| == |dist'| && forall v {:trigger dist'[v]} :: 0 <= v < |dist| ==> dist'[v] == dist[v] || dist'[v] == -1
  }

  /** What one call of the depth-first search from `v` may do to the rest of the network. */
  ghost predicate Below(N: Net, S: State, S': State, v: int) {
    && |N.level| == |S.graph| == |S'.graph| == |S.dist| == |S'.dist| == N.n && 0 <= v < N.n
    && |S.arcs| == |S'.arcs| == |N.g|
    && (forall i :: 2 <= i < |N.g| ==> 0 <= N.g[i].src < N.n)
    && SameAbove(N, S, S', v)
    && SameArcsAbove(N, S, S', N.level[v])
    && Erased(S.dist, S'.dist)
  }

  ghost predicate Moved(N: Net, S: State, S': State, v: int, w: int, d: int) {
    Shifted(N.es, FlowOf(N.es, S.arcs), FlowOf(N.es, S'.arcs), v, w, d)
  }

  /**
   * A call from `v` with `flow` units to spend has taken `S` to `S'` and sent `ret` of them to the sink.
   * What it could not send is explained by `v` losing its label.
   */
  ghost predicate Sent(N: Net, S: State, S': State, v: int, flow: int, ret: int) {
    && Good(N, S') && Below(N, S, S', v)
    && 0 <= ret <= flow && (ret == flow || S'.dist[v] == -1)
    && (ret == 0 ==> S'.arcs == S.arcs)
    && Moved(N, S, S', v, N.t, ret)
  }

  /** The same halfway: the arcs of `v` numbered above `i` are done with. */
  ghost predicate Walking(N: Net, S: State, S': State, v: int, flow: int, i: int, ret: int) {
    && Good(N, S') && Below(N, S, S', v)
    && v != N.t && S'.dist[v] == N.level[v] != -1 
    && ArcOf(N, v, i) && Spent(N, S', v, i)
    && 0 <= ret <= flow
    && (ret == 0 ==> S'.arcs == S.arcs)
    && Moved(N, S, S', v, N.t, ret)
  }

  /** `df` units were sent through arc `i` of `v`. */
  ghost predicate Through(N: Net, S: State, S': State, v: int, flow: int, i: int, df: int) {
    && Good(N, S') && Below(N, S, S', v)
    && S'.dist[v] == S.dist[v] && ArcOf(N, v, i) && i != 0 && S'.arcs[i].next == S.arcs[i].next
    && Spent(N, S', v, i)
    && 0 <= df <= flow && (df == flow || Useless(N, S', i))
    && (df == 0 ==> S'.arcs == S.arcs)
    && Moved(N, S, S', v, N.t, df)
  }

  // ---------- small facts ----------

  lemma GoodFacts(N: Net, S: State, v: int)
    requires Good(N, S) && 0 <= v < N.n
    ensures |N.level| == |S.dist| == |S.graph| == N.n && |S.arcs| == |N.g| && 0 <= N.t < N.n
    ensures S.dist[N.t] == N.level[N.t] && -1 <= N.level[v] <= N.level[N.t]
    ensures S.dist[v] == N.level[v] || S.dist[v] == -1
    ensures ArcOf(N, v, S.graph[v].arcCur) && Spent(N, S, v, S.graph[v].arcCur)
  {
    assert Intact(N, S, v);
  }

  lemma ArcFacts(N: Net, S: State, v: int, i: int)
    requires Good(N, S) && ArcOf(N, v, i) && i != 0
    ensures 2 <= i < |N.g| == |S.arcs| && 0 <= v < N.n == |N.level| == |S.dist|
    ensures 0 <= S.arcs[i].tvtx < N.n && S.arcs[i].tvtx == N.g[i].tgt && S.arcs[i].remain >= 0
    ensures IsLastArc(N.g, v, i, S.arcs[i].next)
  {
  }

  lemma BelowTwice(N: Net, S0: State, S1: State, S2: State, v: int)
    requires Below(N, S0, S1, v) && Below(N, S1, S2, v)
    ensures Below(N, S0, S2, v)
  {
  }

  lemma MovedTwice(N: Net, S0: State, S1: State, S2: State, v: int, t: int, r: int, d: int)
    requires Moved(N, S0, S1, v, t, r) && Moved(N, S1, S2, v, t, d)
    ensures Moved(N, S0, S2, v, t, r + d)
  {
  }

  /** `d` units from `w` to `t` and then `d` units from `v` to `w` are `d` units from `v` to `t`. */
  lemma MovedThrough(N: Net, S0: State, S1: State, S2: State, v: int, w: int, t: int, d: int)
    requires Moved(N, S0, S1, w, t, d) && Moved(N, S1, S2, v, w, d)
    ensures Moved(N, S0, S2, v, t, d)
  {
  }

  // ---------- one arc ----------

  /** What a call from one level below may do, a call from `v` may do, and `v` itself stays put. */
  lemma DeeperIsBelow(N: Net, S: State, S': State, v: int, w: int)
    requires Below(N, S, S', w)
    requires 0 <= v < N.n && N.level[w] == N.level[v] + 1
    ensures Below(N, S, S', v)
    ensures S'.graph[v] == S.graph[v] && S'.dist[v] == S.dist[v]
    ensures forall i :: 2 <= i < |N.g| && N.g[i].src == v ==> S'.arcs[i] == S.arcs[i]
  {
  }

  lemma DeeperKeepsSpent(N: Net, S: State, S': State, v: int, w: int, i: int)
    requires Below(N, S, S', w) && Phase(N, S')
    requires 0 <= v < N.n && 0 <= N.level[v] && N.level[w] == N.level[v] + 1
    requires Spent(N, S, v, i)
    ensures Spent(N, S', v, i)
  {
    forall j | 2 <= j < |N.g| && i < j && N.g[j].src == v
      ensures Useless(N, S', j)
    {
      assert Useless(N, S, j);
    }
  }

  /** Pushing along a layered arc keeps everything a phase keeps. */
  lemma PushKeepsGood(N: Net, S: State, S': State, i: int, d: int)
    requires Good(N, S) && 2 <= i < |N.g| && 2 <= Pair(i) < |N.g|
    requires 0 <= d <= S.arcs[i].remain && S' == S.(arcs := Push(S.arcs, i, d))
    requires 0 <= N.level[N.g[i].src] && N.level[N.g[i].tgt] == N.level[N.g[i].src] + 1
    ensures Good(N, S')
  {
    PairEnds(N.es, N.g, i);
    PushKeepsShape(N.n, N.es, N.g, S.graph, S.arcs, i, d);
    forall j | 2 <= j < |N.g|
      ensures ClimbsOne(N.n, N.g, S'.arcs, N.t, N.level, j)
    {
      assert ClimbsOne(N.n, N.g, S.arcs, N.t, N.level, j);
    }
    forall v | 0 <= v < N.n
      ensures Intact(N, S', v)
    {
      assert Intact(N, S, v);
    }
    assert Intact(N, S, N.g[i].src);
    forall j | 2 <= j < |N.g| && S.graph[N.g[j].src].arcCur < j
      ensures Useless(N, S', j)
    {
      assert Useless(N, S, j);
    }
  }

  lemma PushIsBelow(N: Net, S0: State, S: State, S': State, i: int, d: int)
    requires Good(N, S) && 2 <= i < |N.g| && 2 <= Pair(i) < |N.g| && S' == S.(arcs := Push(S.arcs, i, d))
    requires Below(N, S0, S, N.g[i].src)
    requires N.level[N.g[i].tgt] == N.level[N.g[i].src] + 1
    ensures Below(N, S0, S', N.g[i].src)
  {
    PairEnds(N.es, N.g, i);
  }

  lemma PushKeepsSpent(N: Net, S: State, S': State, i: int, d: int)
    requires Good(N, S) && 2 <= i < |N.g| && 2 <= Pair(i) < |N.g| && S' == S.(arcs := Push(S.arcs, i, d))
    requires N.level[N.g[i].tgt] == N.level[N.g[i].src] + 1
    requires Spent(N, S, N.g[i].src, i)
    ensures Spent(N, S', N.g[i].src, i)
  {
    PairEnds(N.es, N.g, i);
    forall j | 2 <= j < |N.g| && i < j && N.g[j].src == N.g[i].src
      ensures Useless(N, S', j)
    {
      assert Useless(N, S, j);
    }
  }

  lemma UselessAfterPush(N: Net, S: State, S': State, i: int, d: int)
    requires Good(N, S) && 2 <= i < |N.g| && 2 <= Pair(i) < |N.g| && S' == S.(arcs := Push(S.arcs, i, d))
    requires 0 <= N.level[N.g[i].src]
    requires d == S.arcs[i].remain || S.dist[N.g[i].tgt] == -1
    ensures Useless(N, S', i)
  {
    PairIndex(i);
  }

  lemma PairOfArc(N: Net, S: State, v: int, i: int)
    requires Good(N, S) && ArcOf(N, v, i) && i != 0
    ensures 2 <= Pair(i) < |S.arcs| && 2 <= i < |S.arcs|
  {
    PairEnds(N.es, N.g, i);
  }

  /** The call one level down returned `d`, and `d` units are pushed along arc `i` of `v`. */
  lemma ThroughArc(N: Net, S0: State, S: State, S': State, v: int, flow: int, i: int, d: int)
    requires Good(N, S0) && Spent(N, S0, v, i) && ArcOf(N, v, i) && i != 0
    requires S0.arcs[i].remain > 0 && 0 <= v < N.n && 0 <= N.level[v] && N.level[N.g[i].tgt] == N.level[v] + 1
    requires flow > 0
    requires Sent(N, S0, S, N.g[i].tgt, if flow < S0.arcs[i].remain then flow else S0.arcs[i].remain, d)
    requires 2 <= Pair(i) < |S.arcs| && i < |S.arcs| && S' == S.(arcs := Push(S.arcs, i, d))
    ensures Through(N, S0, S', v, flow, i, d) && (d == 0 ==> S' == S)
  {
    var w := N.g[i].tgt;
    DeeperIsBelow(N, S0, S, v, w);
    DeeperKeepsSpent(N, S0, S, v, w, i);
    assert S.arcs[i] == S0.arcs[i];
    PushKeepsGood(N, S, S', i, d);
    PushIsBelow(N, S0, S, S', i, d);
    PushKeepsSpent(N, S, S', i, d);
    PushShiftsFlow(N.es, N.g, S.arcs, i, d);
    MovedThrough(N, S0, S, S', v, w, N.t, d);
    PairIndex(i);
    PushSpelledOut(S.arcs, i, d);
    if d < flow {
      UselessAfterPush(N, S, S', i, d);
    }
  }

  // ---------- all arcs of a vertex ----------

  lemma SentNothing(N: Net, S: State, flow: int)
    requires Good(N, S) && flow >= 0
    ensures Sent(N, S, S, N.t, flow, flow)
  {
  }

  lemma WalkStart(N: Net, S: State, v: int, flow: int)
    requires Good(N, S) && 0 <= v < N.n && v != N.t && S.dist[v] == N.level[v] != -1 && flow > 0
    ensures Walking(N, S, S, v, flow, S.graph[v].arcCur, 0)
  {
    GoodFacts(N, S, v);
  }

  lemma WalkFacts(N: Net, S0: State, S: State, v: int, flow: int, i: int, ret: int)
    requires Walking(N, S0, S, v, flow, i, ret)
    ensures Good(N, S) && Spent(N, S, v, i) && ArcOf(N, v, i)
    ensures 0 <= v < N.n == |N.level| == |S.dist| == |S.graph| && S.dist[v] == N.level[v] >= 0
    ensures i != 0 ==>
              && 2 <= i < |N.g| == |S.arcs| && S.arcs[i].tvtx == N.g[i].tgt && 0 <= N.g[i].tgt < N.n
              && S.arcs[i].remain >= 0 && S.dist[N.g[i].tgt] in {N.level[N.g[i].tgt], -1}
  {
    if i != 0 {
      ArcFacts(N, S, v, i);
      GoodFacts(N, S, N.g[i].tgt);
    }
  }

  lemma SpendArc(N: Net, S: State, v: int, i: int, next: int)
    requires ArcOf(N, v, i) && IsLastArc(N.g, v, i, next) && i <= |N.g|
    requires Spent(N, S, v, i) && Useless(N, S, i)
    ensures Spent(N, S, v, next) && ArcOf(N, v, next)
  {
  }

  /** An arc that is full or leads out of the layering is passed over. */
  lemma WalkSkip(N: Net, S0: State, S: State, v: int, flow: int, i: int, ret: int)
    requires Walking(N, S0, S, v, flow, i, ret) && i != 0
    requires S.arcs[i].remain == 0 || S.dist[N.g[i].tgt] != S.dist[v] + 1
    ensures Walking(N, S0, S, v, flow, S.arcs[i].next, ret)
  {
    ArcFacts(N, S, v, i);
    assert Useless(N, S, i);
    SpendArc(N, S, v, i, S.arcs[i].next);
  }

  lemma WalkThrough(N: Net, S0: State, S: State, S': State, v: int, flow: int, i: int, ret: int, df: int)
    requires Walking(N, S0, S, v, flow, i, ret) && Through(N, S, S', v, flow - ret, i, df)
    ensures 0 <= df <= flow - ret && Walking(N, S0, S', v, flow, i, ret + df)
    ensures i < |S.arcs| && (ret + df < flow ==> Walking(N, S0, S', v, flow, S.arcs[i].next, ret + df))
  {
    BelowTwice(N, S0, S, S', v);
    MovedTwice(N, S0, S, S', v, N.t, ret, df);
    if df < flow - ret {
      ArcFacts(N, S', v, i);
      SpendArc(N, S', v, i, S'.arcs[i].next);
    }
  }

  /** Leaving a vertex with its pointer at `i`, its label erased if the arcs ran out. */
  ghost function Left(S: State, v: int, i: int): State
    requires 0 <= v < |S.graph| == |S.dist|
  {
    S.(graph := S.graph[v := S.graph[v].(arcCur := i)], dist := if i == 0 then S.dist[v := -1] else S.dist)
  }

  lemma LeaveKeepsGood(N: Net, S: State, v: int, i: int)
    requires Good(N, S) && 0 <= v < N.n && v != N.t && S.dist[v] == N.level[v] != -1
    requires ArcOf(N, v, i) && Spent(N, S, v, i)
    ensures Good(N, Left(S, v, i))
  {
    var S' := Left(S, v, i);
    forall u | 0 <= u < N.n
      ensures Intact(N, S', u)
    {
      assert Intact(N, S, u);
    }
    forall j | 2 <= j < |N.g| && S'.graph[N.g[j].src].arcCur < j
      ensures Useless(N, S', j)
    {
      assert Useless(N, S, j);
    }
  }

  lemma WalkEnd(N: Net, S0: State, S: State, v: int, flow: int, i: int, ret: int)
    requires Walking(N, S0, S, v, flow, i, ret) && (i == 0 || ret == flow)
    ensures 0 <= v < |S.graph| == |S.dist| && Sent(N, S0, Left(S, v, i), v, flow, ret)
  {
    LeaveKeepsGood(N, S, v, i);
  }

  // ---------- a whole phase ----------

  lemma PhaseStarts(N: Net, S: State)
    requires Paired(N.es, N.g) && Shape(N.n, N.g, S.graph, S.arcs) && Capacities(N.es, S.arcs)
    requires Tight(N.n, N.g, S.arcs, N.t, N.level) && S.dist == N.level
    requires forall v {:trigger S.graph[v].arcCur} :: 0 <= v < N.n ==> S.graph[v].arcCur == S.graph[v].arcStart
    ensures Good(N, S)
  {
    forall v | 0 <= v < N.n
      ensures Intact(N, S, v)
    {
      assert IsLastArc(N.g, v, |N.g|, S.graph[v].arcStart);
      assert S.graph[v].arcCur == S.graph[v].arcStart;
    }
    forall i | 2 <= i < |N.g|
      ensures i <= S.graph[N.g[i].src].arcCur
    {
      assert IsLastArc(N.g, N.g[i].src, |N.g|, S.graph[N.g[i].src].arcStart);
      assert S.graph[N.g[i].src].arcCur == S.graph[N.g[i].src].arcStart;
    }
  }

  /**
   * If nothing was pushed and the source lost its label, so has every vertex above it:
   * erased labels spread up along every residual arc the search had used.
   */
  lemma {:induction false} ErasureSpreads(N: Net, S: State, s: int, v: int)
    requires Good(N, S) && Reached(N.n, N.g, S.arcs, s, N.level) && S.dist[s] == -1
    requires 0 <= v < N.n && N.level[v] != -1
    ensures S.dist[v] == -1
    decreases N.level[v]
  {
    if v != s {
      assert HasParent(N.n, N.g, S.arcs, N.level, v);
      var i :| IsParentArc(N.n, N.g, S.arcs, N.level, v, i);
      ErasureSpreads(N, S, s, N.g[i].src);
      assert Intact(N, S, N.g[i].src) && Intact(N, S, v);
      assert Useless(N, S, i);
    }
  }

  /** A phase that starts from a search which found the sink sends at least one unit. */
  lemma PhaseProgresses(N: Net, S0: State, S: State, s: int, flow: int, ret: int)
    requires Good(N, S0) && Reached(N.n, N.g, S0.arcs, s, N.level) && 0 < N.level[N.t]
    requires Sent(N, S0, S, s, flow, ret) && flow > 0
    ensures ret > 0
  {
    if ret == 0 {
      ErasureSpreads(N, S, s, N.t);
      assert false;
    }
  }

  /** The labels of the next search are never below the heights of this phase. */
  lemma {:induction false} NextLevelsNotLower(N: Net, S: State, s: int, level': seq<int>, v: int)
    requires Good(N, S) && Reached(N.n, N.g, S.arcs, s, level') && N.level[s] == 0
    requires 0 <= v < N.n && level'[v] != -1
    ensures Height(N.level, N.t, v) <= level'[v]
    decreases level'[v]
  {
    if v != s {
      assert HasParent(N.n, N.g, S.arcs, level', v);
      var i :| IsParentArc(N.n, N.g, S.arcs, level', v, i);
      NextLevelsNotLower(N, S, s, level', N.g[i].src);
      assert ClimbsOne(N.n, N.g, S.arcs, N.t, N.level, i);
    }
  }

  /** A vertex that the next search reaches as early as this phase did has lost its label in this phase. */
  lemma {:induction false} EarlyMeansErased(N: Net, S: State, s: int, level': seq<int>, v: int)
    requires Good(N, S) && Reached(N.n, N.g, S.arcs, s, level') && N.level[s] == 0 && S.dist[s] == -1
    requires 0 <= v < N.n && N.level[v] != -1 && level'[v] == N.level[v]
    ensures S.dist[v] == -1
    decreases level'[v]
  {
    if v != s {
      assert HasParent(N.n, N.g, S.arcs, level', v);
      var i :| IsParentArc(N.n, N.g, S.arcs, level', v, i);
      var u := N.g[i].src;
      NextLevelsNotLower(N, S, s, level', u);
      assert ClimbsOne(N.n, N.g, S.arcs, N.t, N.level, i);
      EarlyMeansErased(N, S, s, level', u);
      assert Intact(N, S, u) && Intact(N, S, v);
      assert Useless(N, S, i);
    }
  }

  /** A phase that ran the source dry moves the sink strictly further away. */
  lemma PhaseLengthens(N: Net, S: State, s: int, level': seq<int>)
    requires Good(N, S) && Reached(N.n, N.g, S.arcs, s, level') && N.level[s] == 0 && S.dist[s] == -1
    requires 0 <= N.level[N.t] && level'[N.t] != -1
    ensures N.level[N.t] < level'[N.t]
  {
    NextLevelsNotLower(N, S, s, level', N.t);
    if level'[N.t] == N.level[N.t] {
      EarlyMeansErased(N, S, s, level', N.t);
      assert false;
    }
  }
}
