/** Arc lists and breadth-first labels of slides/tc256/src/network_flow.cc. */
module LevelGraph {

  datatype Vertex = Vertex(arcStart: int, arcCur: int)

  datatype Arc = Arc(tvtx: int, next: int, remain: int)

  /** Where an arc starts and ends. Arcs are numbered from 2. */
  datatype End = End(src: int, tgt: int)

  // ---------- arc lists ----------

  /** `r` is the newest arc out of `v` with a number below `i`, or 0 if there is none. */
  ghost predicate IsLastArc(g: seq<End>, v: int, i: int, r: int)
    requires i <= |g|
  {
    && (r == 0 || (2 <= r < i && g[r].src == v))
    && (forall j :: 2 <= j < i && r < j ==> g[j].src != v)
  }

  /** Arc targets and the per-vertex arc lists say what `g` says. */
  ghost predicate Shape(n: int, g: seq<End>, graph: seq<Vertex>, arcs: seq<Arc>) {
    && |graph| == n && |arcs| == |g| && 2 <= |g|
    && (forall i {:trigger g[i]} :: 2 <= i < |g| ==> 0 <= g[i].src < n && 0 <= g[i].tgt < n)
    && (forall i :: 2 <= i < |g| ==> arcs[i].tvtx == g[i].tgt)
    && (forall i {:trigger arcs[i].next} :: 2 <= i < |g| ==> IsLastArc(g, g[i].src, i, arcs[i].next))
    && (forall v {:trigger graph[v].arcStart} :: 0 <= v < n ==> IsLastArc(g, v, |g|, graph[v].arcStart))
  }

  // ---------- labels ----------

  ghost predicate Labels(n: int, g: seq<End>, arcs: seq<Arc>, level: seq<int>) {
    && |level| == n && |arcs| == |g|
    && (forall v :: 0 <= v < n ==> level[v] >= -1)
    && (forall i {:trigger g[i]} :: 2 <= i < |g| ==> 0 <= g[i].src < n && 0 <= g[i].tgt < n)
  }

  /** Arc `i` is residual and climbs exactly one level to `v`. */
  ghost predicate IsParentArc(n: int, g: seq<End>, arcs: seq<Arc>, level: seq<int>, v: int, i: int)
    requires Labels(n, g, arcs, level) && 0 <= v < n
  {
    2 <= i < |g| && g[i].tgt == v && arcs[i].remain > 0 && 0 <= level[g[i].src] && level[g[i].src] + 1 == level[v]
  }

  ghost predicate HasParent(n: int, g: seq<End>, arcs: seq<Arc>, level: seq<int>, v: int)
    requires Labels(n, g, arcs, level) && 0 <= v < n
  {
    exists i :: IsParentArc(n, g, arcs, level, v, i)
  }

  /** The source has label 0, every other label is explained by a residual arc from one level below. */
  ghost predicate Reached(n: int, g: seq<End>, arcs: seq<Arc>, s: int, level: seq<int>) {
    && Labels(n, g, arcs, level) && 0 <= s < n && level[s] == 0
    && (forall v {:trigger HasParent(n, g, arcs, level, v)} :: 0 <= v < n && v != s && level[v] != -1 ==>
          HasParent(n, g, arcs, level, v))
  }

  /** Distance potential: the label, or the sink's label for vertices the search did not reach. */
  ghost function Height(level: seq<int>, t: int, v: int): int
    requires 0 <= v < |level| && 0 <= t < |level|
  {
    if level[v] == -1 then level[t] else level[v]
  }

  ghost predicate ClimbsOne(n: int, g: seq<End>, arcs: seq<Arc>, t: int, level: seq<int>, i: int)
    requires Labels(n, g, arcs, level) && 0 <= t < n && 2 <= i < |g|
  {
    arcs[i].remain > 0 ==> Height(level, t, g[i].tgt) <= Height(level, t, g[i].src) + 1
  }

  /** No residual arc climbs more than one level, and the sink has the highest label. */
  ghost predicate Tight(n: int, g: seq<End>, arcs: seq<Arc>, t: int, level: seq<int>) {
    && Labels(n, g, arcs, level) && 0 <= t < n
    && (forall v :: 0 <= v < n ==> level[v] <= level[t])
    && (forall i {:trigger ClimbsOne(n, g, arcs, t, level, i)} :: 2 <= i < |g| ==> ClimbsOne(n, g, arcs, t, level, i))
  }

  /** No residual arc leaves the set of labelled vertices. */
  ghost predicate Closed(n: int, g: seq<End>, arcs: seq<Arc>, level: seq<int>) {
    && Labels(n, g, arcs, level)
    && forall i :: 2 <= i < |g| && arcs[i].remain > 0 && level[g[i].src] != -1 ==> level[g[i].tgt] != -1
  }

  // ---------- breadth-first search ----------

  /** Every residual arc out of `v` numbered above `i` leads at most one level up. */
  ghost predicate Scanned(n: int, g: seq<End>, arcs: seq<Arc>, dist: seq<int>, v: int, i: int)
    requires Labels(n, g, arcs, dist) && 0 <= v < n
  {
    forall j :: 2 <= j < |g| && i < j && g[j].src == v && arcs[j].remain > 0 ==> -1 < dist[g[j].tgt] <= dist[v] + 1
  }

  /** The queue holds labelled vertices in label order. */
  ghost predicate Queued(n: int, dist: seq<int>, queue: seq<int>) {
    && |dist| == n
    && (forall a :: 0 <= a < |queue| ==> 0 <= queue[a] < n && dist[queue[a]] != -1)
    && (forall a, b :: 0 <= a < b < |queue| ==> dist[queue[a]] <= dist[queue[b]])
  }

  /** All labelled vertices but those in `open` have been scanned. */
  ghost predicate Done(n: int, g: seq<End>, arcs: seq<Arc>, dist: seq<int>, open: set<int>)
    requires Labels(n, g, arcs, dist)
  {
    forall v :: 0 <= v < n && dist[v] != -1 && v !in open ==> Scanned(n, g, arcs, dist, v, 0)
  }

  ghost function Members(q: seq<int>): set<int> {
    set v | v in q
  }

  ghost predicate Searching(n: int, g: seq<End>, arcs: seq<Arc>, dist: seq<int>, queue: seq<int>)
    requires Labels(n, g, arcs, dist)
  {
    && Queued(n, dist, queue)
    && (queue != [] ==> forall v :: 0 <= v < n ==> dist[v] <= dist[queue[0]] + 1)
    && Done(n, g, arcs, dist, Members(queue))
  }

  /** As `Searching`, while the arcs of `u` are walked and `i` is the next one. */
  ghost predicate Scanning(n: int, g: seq<End>, arcs: seq<Arc>, dist: seq<int>, queue: seq<int>, u: int, i: int)
    requires Labels(n, g, arcs, dist)
  {
    && 0 <= u < n && dist[u] != -1
    && Queued(n, dist, [u] + queue)
    && (forall v :: 0 <= v < n ==> dist[v] <= dist[u] + 1)
    && Done(n, g, arcs, dist, Members([u] + queue))
    && Scanned(n, g, arcs, dist, u, i)
  }

  ghost function Unlabelled(dist: seq<int>): nat {
    if dist == [] then 0 else Unlabelled(dist[..|dist| - 1]) + if dist[|dist| - 1] == -1 then 1 else 0
  }

  lemma {:induction false} LabelShrinksUnlabelled(dist: seq<int>, w: int, d: int)
    requires 0 <= w < |dist| && dist[w] == -1 && d != -1
    ensures Unlabelled(dist[w := d]) == Unlabelled(dist) - 1
  {
    var m := |dist| - 1;
    if w == m {
      assert dist[w := d][..m] == dist[..m];
    } else {
      assert dist[w := d][..m] == dist[..m][w := d];
      LabelShrinksUnlabelled(dist[..m], w, d);
    }
  }

  /** Labelling the far end of a residual arc keeps every label explained by a parent arc. */
  lemma LabelKeepsReached(n: int, g: seq<End>, arcs: seq<Arc>, dist: seq<int>, s: int, i: int, dist': seq<int>)
    requires Reached(n, g, arcs, s, dist)
    requires 2 <= i < |g| && arcs[i].remain > 0 && dist[g[i].src] != -1 && dist[g[i].tgt] == -1
    requires dist' == dist[g[i].tgt := dist[g[i].src] + 1]
    ensures Reached(n, g, arcs, s, dist')
  {
    assert Labels(n, g, arcs, dist');
    forall v | 0 <= v < n && v != s && dist'[v] != -1
      ensures HasParent(n, g, arcs, dist', v)
    {
      if v == g[i].tgt {
        assert IsParentArc(n, g, arcs, dist', v, i);
      } else {
        assert HasParent(n, g, arcs, dist, v);
        var j :| IsParentArc(n, g, arcs, dist, v, j);
        assert IsParentArc(n, g, arcs, dist', v, j);
      }
    }
  }

  lemma LabelKeepsScanned(n: int, g: seq<End>, arcs: seq<Arc>, dist: seq<int>, w: int, d: int, v: int, i: int)
    requires Labels(n, g, arcs, dist) && 0 <= w < n && dist[w] == -1 && -1 < d
    requires 0 <= v < n && v != w && Scanned(n, g, arcs, dist, v, i)
    ensures Scanned(n, g, arcs, dist[w := d], v, i)
  {
  }

  /** Labelling the vertex that arc `i` of `u` leads to, and queueing it. */
  lemma LabelStep(n: int, g: seq<End>, arcs: seq<Arc>, dist: seq<int>, queue: seq<int>, u: int, w: int, i: int)
    requires Labels(n, g, arcs, dist) && 0 <= w < n && dist[w] == -1
    requires Scanning(n, g, arcs, dist, queue, u, i)
    ensures Scanning(n, g, arcs, dist[w := dist[u] + 1], queue + [w], u, i)
  {
    var dist', queue' := dist[w := dist[u] + 1], queue + [w];
    assert [u] + queue' == ([u] + queue) + [w];
    forall v | 0 <= v < n && dist'[v] != -1 && v !in Members([u] + queue')
      ensures Scanned(n, g, arcs, dist', v, 0)
    {
      assert ([u] + queue')[|queue| + 1] == w;
      LabelKeepsScanned(n, g, arcs, dist, w, dist[u] + 1, v, 0);
    }
    LabelKeepsScanned(n, g, arcs, dist, w, dist[u] + 1, u, i);
  }

  /** Passing over an arc that is full or leads to a vertex with a label. */
  lemma SkipStep(n: int, g: seq<End>, arcs: seq<Arc>, dist: seq<int>, queue: seq<int>, u: int, i: int,
                 next: int)
    requires Labels(n, g, arcs, dist) && 2 <= i < |g| && g[i].src == u && IsLastArc(g, u, i, next)
    requires Scanning(n, g, arcs, dist, queue, u, i)
    requires arcs[i].remain <= 0 || dist[g[i].tgt] != -1
    ensures Scanning(n, g, arcs, dist, queue, u, next)
  {
  }

  /** At first only the source has a label, and the current arcs are the first ones. */
  lemma SearchBegins(n: int, g: seq<End>, graph: seq<Vertex>, arcs: seq<Arc>, s: int, dist: seq<int>, graph': seq<Vertex>)
    requires Shape(n, g, graph, arcs) && 0 <= s < n && dist == seq(n, _ => -1)[s := 0]
    requires |graph'| == n && forall v :: 0 <= v < n ==> graph'[v] == graph[v].(arcCur := graph[v].arcStart)
    ensures Shape(n, g, graph', arcs) && Labels(n, g, arcs, dist)
    ensures Reached(n, g, arcs, s, dist) && Searching(n, g, arcs, dist, [s])
  {
    assert [s][0] == s && s in Members([s]);
  }

  lemma FirstArc(n: int, g: seq<End>, graph: seq<Vertex>, arcs: seq<Arc>, queue: seq<int>, dist: seq<int>)
    requires Shape(n, g, graph, arcs) && Labels(n, g, arcs, dist) && Searching(n, g, arcs, dist, queue) && queue != []
    ensures 0 <= queue[0] < n == |graph| && IsLastArc(g, queue[0], |g|, graph[queue[0]].arcStart)
  {
  }

  lemma BeginScan(n: int, g: seq<End>, arcs: seq<Arc>, dist: seq<int>, queue: seq<int>, first: int)
    requires Labels(n, g, arcs, dist)
    requires queue != [] && Searching(n, g, arcs, dist, queue) && IsLastArc(g, queue[0], |g|, first)
    ensures Scanning(n, g, arcs, dist, queue[1..], queue[0], first)
  {
    assert [queue[0]] + queue[1..] == queue;
  }

  lemma QueuedTail(n: int, dist: seq<int>, u: int, queue: seq<int>)
    requires Queued(n, dist, [u] + queue)
    ensures Queued(n, dist, queue)
    ensures queue != [] ==> 0 <= u < |dist| && 0 <= queue[0] < |dist| && dist[u] <= dist[queue[0]]
  {
    var q := [u] + queue;
    assert forall a :: 0 <= a < |queue| ==> queue[a] == q[a + 1];
    if queue != [] {
      assert dist[q[0]] <= dist[q[1]];
    }
  }

  lemma EndScan(n: int, g: seq<End>, arcs: seq<Arc>, dist: seq<int>, queue: seq<int>, u: int)
    requires Labels(n, g, arcs, dist)
    requires Scanning(n, g, arcs, dist, queue, u, 0)
    ensures Searching(n, g, arcs, dist, queue)
  {
    QueuedTail(n, dist, u, queue);
    forall v | 0 <= v < n && dist[v] != -1 && v !in Members(queue)
      ensures Scanned(n, g, arcs, dist, v, 0)
    {
      assert v in Members([u] + queue) ==> v == u;
    }
  }

  /** Stopping as soon as the sink is labelled leaves labels that no residual arc overshoots. */
  lemma FoundIsTight(n: int, g: seq<End>, arcs: seq<Arc>, dist: seq<int>, t: int, queue: seq<int>, u: int, i: int)
    requires Labels(n, g, arcs, dist) && 0 <= t < n && dist[t] == -1
    requires Scanning(n, g, arcs, dist, queue, u, i)
    ensures Tight(n, g, arcs, t, dist[t := dist[u] + 1])
  {
    var dist' := dist[t := dist[u] + 1];
    forall j | 2 <= j < |g|
      ensures ClimbsOne(n, g, arcs, t, dist', j)
    {
      var v := g[j].src;
      if dist[v] != -1 {
        if v in Members([u] + queue) {
          var a :| 0 <= a <= |queue| && ([u] + queue)[a] == v;
          assert a == 0 || dist[([u] + queue)[0]] <= dist[([u] + queue)[a]];
        } else {
          assert Scanned(n, g, arcs, dist, v, 0);
        }
      }
    }
  }

  lemma NotFoundIsClosed(n: int, g: seq<End>, arcs: seq<Arc>, dist: seq<int>)
    requires Labels(n, g, arcs, dist) && Searching(n, g, arcs, dist, [])
    ensures Closed(n, g, arcs, dist)
  {
    forall i | 2 <= i < |g| && arcs[i].remain > 0 && dist[g[i].src] != -1
      ensures dist[g[i].tgt] != -1
    {
      assert Scanned(n, g, arcs, dist, g[i].src, 0);
    }
  }

  /** Following a residual arc of `u` to a vertex without a label, which gets one and is queued. */
  lemma Discover(n: int, g: seq<End>, arcs: seq<Arc>, s: int, dist: seq<int>, queue: seq<int>, u: int, i: int,
                 dist': seq<int>)
    requires Reached(n, g, arcs, s, dist) && 2 <= i < |g| && g[i].src == u
    requires Scanning(n, g, arcs, dist, queue, u, i)
    requires arcs[i].remain > 0 && dist[g[i].tgt] == -1 && dist' == dist[g[i].tgt := dist[u] + 1]
    ensures Reached(n, g, arcs, s, dist') && Labels(n, g, arcs, dist') && Unlabelled(dist') == Unlabelled(dist) - 1
    ensures 0 < dist'[g[i].tgt] && dist'[u] == dist[u]
    ensures Scanning(n, g, arcs, dist', queue + [g[i].tgt], u, i)
  {
    LabelKeepsReached(n, g, arcs, dist, s, i, dist');
    LabelShrinksUnlabelled(dist, g[i].tgt, dist[u] + 1);
    LabelStep(n, g, arcs, dist, queue, u, g[i].tgt, i);
  }

  lemma OneVertexEach(n: int, g: seq<End>, graph: seq<Vertex>, arcs: seq<Arc>)
    requires Shape(n, g, graph, arcs)
    ensures |graph| == n
  {
  }

  lemma ListOfVertex(n: int, g: seq<End>, graph: seq<Vertex>, arcs: seq<Arc>, u: int)
    requires Shape(n, g, graph, arcs) && 0 <= u < n
    ensures |graph| == n && var i := graph[u].arcStart; i != 0 ==> 2 <= i < |g| && g[i].src == u
  {
    assert IsLastArc(g, u, |g|, graph[u].arcStart);
  }

  lemma ArcOfVertex(n: int, g: seq<End>, graph: seq<Vertex>, arcs: seq<Arc>, i: int)
    requires Shape(n, g, graph, arcs) && 2 <= i < |g|
    ensures |arcs| == |g| && 0 <= g[i].src < n && 0 <= g[i].tgt < n && arcs[i].tvtx == g[i].tgt
    ensures IsLastArc(g, g[i].src, i, arcs[i].next)
    ensures arcs[i].next == 0 || (2 <= arcs[i].next < i && g[arcs[i].next].src == g[i].src)
  {
  }

  // ---------- how far labels go ----------

  /** Below a labelled vertex every level is inhabited. */
  lemma {:induction false} EveryLevelInhabited(n: int, g: seq<End>, arcs: seq<Arc>, s: int, level: seq<int>,
                                               w: int, k: int) returns (v: int)
    requires Reached(n, g, arcs, s, level) && 0 <= w < n && 0 <= k <= level[w]
    ensures 0 <= v < n && level[v] == k
    decreases level[w]
  {
    if level[w] == k {
      return w;
    }
    assert HasParent(n, g, arcs, level, w);
    var i :| IsParentArc(n, g, arcs, level, w, i);
    v := EveryLevelInhabited(n, g, arcs, s, level, g[i].src, k);
  }

  lemma {:induction false} EnoughVertices(n: int, g: seq<End>, arcs: seq<Arc>, s: int, level: seq<int>,
                                          w: int, k: int) returns (A: set<int>)
    requires Reached(n, g, arcs, s, level) && 0 <= w < n && 0 <= k <= level[w]
    ensures |A| == k + 1 && forall v :: v in A ==> 0 <= v < n && level[v] <= k
    decreases k
  {
    var v := EveryLevelInhabited(n, g, arcs, s, level, w, k);
    if k == 0 {
      A := {v};
    } else {
      A := EnoughVertices(n, g, arcs, s, level, w, k - 1);
      A := A + {v};
    }
  }

  lemma {:induction false} RangeSize(n: nat, A: set<int>)
    requires forall v :: v in A ==> 0 <= v < n
    ensures |A| <= n
  {
    if n == 0 {
      assert forall v :: v !in A;
    } else {
      RangeSize(n - 1, A - {n - 1});
    }
  }

  /** Labels are smaller than the number of vertices. */
  lemma LevelBound(n: nat, g: seq<End>, arcs: seq<Arc>, s: int, level: seq<int>, w: int)
    requires Reached(n, g, arcs, s, level) && 0 <= w < n
    ensures level[w] < n && 0 <= s < n == |level| && level[s] == 0
  {
    if level[w] != -1 {
      var A := EnoughVertices(n, g, arcs, s, level, w, level[w]);
      RangeSize(n, A);
    }
  }
}
