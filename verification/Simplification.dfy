/** Flow graphs without empty blocks and blocks that nothing leads to: simplify in decaf/src/decaf/dataflow/FlowGraph.java. */
module Simplification {
  import opened Tac
  import opened Liveness

  /** A block that only leads on to another. */
  predicate Empty(b: Block) {
    b.end.ByBranch? && b.tacs == []
  }

  predicate Edge(b: Block, to: nat) {
    !b.end.ByReturn? && (b.next0 == to || (!b.end.ByBranch? && b.next1 == to))
  }

  /** The entry, or behind another block among the first `k`. */
  predicate Reached(bs: seq<Block>, b: nat, k: nat)
    requires k <= |bs|
  {
    b == 0 || exists j :: 0 <= j < k && Edge(bs[j], b)
  }

  predicate Cancelled(bs: seq<Block>, b: nat)
    requires b < |bs|
  {
    !Reached(bs, b, |bs|) || Empty(bs[b])
  }

  /** Empty blocks do not lead in a circle. */
  predicate Acyclic(bs: seq<Block>, rank: seq<nat>) {
    && |rank| == |bs|
    && forall b :: 0 <= b < |bs| && Empty(bs[b]) ==> bs[b].next0 < |bs| && rank[bs[b].next0] < rank[b]
  }

  /** The first block that is not empty, from `b` on. */
  function Trace(bs: seq<Block>, rank: seq<nat>, b: nat): (t: nat)
    requires Acyclic(bs, rank) && b < |bs|
    ensures t < |bs| && !Empty(bs[t])
    decreases rank[b]
  {
    if Empty(bs[b]) then Trace(bs, rank, bs[b].next0) else b
  }

  lemma {:induction false} TraceReached(bs: seq<Block>, rank: seq<nat>, b: nat)
    requires Acyclic(bs, rank) && b < |bs| && Reached(bs, b, |bs|)
    ensures Reached(bs, Trace(bs, rank, b), |bs|) && !Cancelled(bs, Trace(bs, rank, b))
    decreases rank[b]
  {
    if Empty(bs[b]) {
      assert Edge(bs[b], bs[b].next0);
      TraceReached(bs, rank, bs[b].next0);
    }
  }

  /** The number of blocks before `b` that stay, which is the new number of `b` if it stays itself. */
  function NewNum(bs: seq<Block>, b: nat): nat
    requires b <= |bs|
  {
    if b == 0 then 0 else NewNum(bs, b - 1) + if Cancelled(bs, b - 1) then 0 else 1
  }

  /** The end of a block, with its followers behind all empty blocks. */
  function Retargeted(bs: seq<Block>, rank: seq<nat>, b: nat): Block
    requires WellBuilt(bs) && Acyclic(bs, rank) && b < |bs|
  {
    assert BlockOk(bs[b], |bs|);
    var (x, y) := (Trace(bs, rank, bs[b].next0), Trace(bs, rank, bs[b].next1));
    match bs[b].end
    case ByReturn => bs[b]
    case ByBranch => bs[b].(next0 := x, next1 := x)
    case _ => bs[b].(next0 := x, next1 := y, end := if x == y then ByBranch else bs[b].end)
  }

  function Renamed(bs: seq<Block>, b: Block): Block {
    if b.end.ByReturn? || b.next0 >= |bs| || b.next1 >= |bs| then b
    else b.(next0 := NewNum(bs, b.next0), next1 := NewNum(bs, b.next1))
  }

  /** Those of the first `k` blocks that stay. */
  function Simplified(bs: seq<Block>, rank: seq<nat>, k: nat): (r: seq<Block>)
    requires WellBuilt(bs) && Acyclic(bs, rank) && k <= |bs|
    ensures |r| == NewNum(bs, k)
  {
    if k == 0 then [] else
      Simplified(bs, rank, k - 1)
      + if Cancelled(bs, k - 1) then [] else [Renamed(bs, Retargeted(bs, rank, k - 1))]
  }

  lemma {:induction false} SimplifiedAt(bs: seq<Block>, rank: seq<nat>, k: nat, b: nat)
    requires WellBuilt(bs) && Acyclic(bs, rank) && b < k <= |bs| && !Cancelled(bs, b)
    ensures NewNum(bs, b) < NewNum(bs, k)
    ensures Simplified(bs, rank, k)[NewNum(bs, b)] == Renamed(bs, Retargeted(bs, rank, b))
    decreases k
  {
    if b < k - 1 {
      SimplifiedAt(bs, rank, k - 1, b);
    }
  }

  // ---------- runs ----------

  /** The two graphs are at blocks that mean the same. */
  predicate Same<W(==)>(bs: seq<Block>, rank: seq<nat>, p: Place<W>, q: Place<W>)
    requires Acyclic(bs, rank)
  {
    match p
    case At(b, env, w) =>
      b < |bs| && Reached(bs, b, |bs|) && q == At(NewNum(bs, Trace(bs, rank, b)), env, w)
    case _ => p == q
  }

  /** Through empty blocks nothing changes. */
  lemma {:induction false} SkipsEmpty<W>(M: Machine<W>, bs: seq<Block>, rank: seq<nat>, b: nat, env: Env, w: W)
    returns (n: nat)
    requires WellBuilt(bs) && Acyclic(bs, rank) && b < |bs|
    ensures RunBlocks(M, bs, At(b, env, w), n) == At(Trace(bs, rank, b), env, w)
    decreases rank[b]
  {
    n := 0;
    if Empty(bs[b]) {
      assert BlockOk(bs[b], |bs|);
      n := SkipsEmpty(M, bs, rank, bs[b].next0, env, w);
      n := n + 1;
    }
  }

  /** A block that stays does what it did. */
  lemma StaysSame<W>(M: Machine<W>, bs: seq<Block>, rank: seq<nat>, b: nat, env: Env, w: W)
    requires WellBuilt(bs) && Acyclic(bs, rank) && b < |bs| && !Cancelled(bs, b)
    ensures BlockOk(bs[b], |bs|) && Runnable(Renamed(bs, Retargeted(bs, rank, b)))
    ensures Same(bs, rank, RunBlock(M, bs[b], env, w), RunBlock(M, Renamed(bs, Retargeted(bs, rank, b)), env, w))
  {
    assert BlockOk(bs[b], |bs|);
    hide RunTacs, NewNum;
    if !bs[b].end.ByReturn? {
      assert Edge(bs[b], bs[b].next0) && (bs[b].end.ByBranch? || Edge(bs[b], bs[b].next1));
    }
  }

  lemma {:induction false} RunOn<W>(M: Machine<W>, bs: seq<Block>, p: Place<W>, m: nat, n: nat)
    requires WellBuilt(bs)
    ensures RunBlocks(M, bs, p, m + n) == RunBlocks(M, bs, RunBlocks(M, bs, p, m), n)
    decreases m
  {
    if m > 0 && p.At? && p.b < |bs| {
      assert BlockOk(bs[p.b], |bs|);
      RunOn(M, bs, RunBlock(M, bs[p.b], p.env, p.w), m - 1, n);
    }
  }

  lemma SimplifiedWellBuilt(bs: seq<Block>, rank: seq<nat>)
    requires WellBuilt(bs) && Acyclic(bs, rank) && |bs| > 0 && ReturnsToStart(bs)
    ensures WellBuilt(Simplified(bs, rank, |bs|)) && NewNum(bs, |bs|) > 0
    ensures ReturnsToStart(Simplified(bs, rank, |bs|))
  {
    TraceReached(bs, rank, 0);
    SimplifiedAt(bs, rank, |bs|, Trace(bs, rank, 0));
    AllBuilt(bs, rank, |bs|);
  }

  lemma {:induction false} AllBuilt(bs: seq<Block>, rank: seq<nat>, k: nat)
    requires WellBuilt(bs) && Acyclic(bs, rank) && k <= |bs| && NewNum(bs, |bs|) > 0 && ReturnsToStart(bs)
    ensures forall i :: 0 <= i < NewNum(bs, k) ==> BlockOk(Simplified(bs, rank, k)[i], NewNum(bs, |bs|))
    ensures ReturnsToStart(Simplified(bs, rank, k))
    decreases k
  {
    hide BlockOk, Retargeted, Renamed, Cancelled, Reached, Empty, WellBuilt, Acyclic;
    if k > 0 {
      AllBuilt(bs, rank, k - 1);
      if !Cancelled(bs, k - 1) {
        OneBuilt(bs, rank, k - 1);
        RetargetedReturn(bs, rank, k - 1);
      }
    }
  }

  lemma OneBuilt(bs: seq<Block>, rank: seq<nat>, b: nat)
    requires WellBuilt(bs) && Acyclic(bs, rank) && b < |bs| && NewNum(bs, |bs|) > 0 && !Cancelled(bs, b)
    requires ReturnsToStart(bs)
    ensures BlockOk(Renamed(bs, Retargeted(bs, rank, b)), NewNum(bs, |bs|))
  {
    assert BlockOk(bs[b], |bs|);
    if !bs[b].end.ByReturn? {
      assert Edge(bs[b], bs[b].next0);
      TraceReached(bs, rank, bs[b].next0);
      SimplifiedAt(bs, rank, |bs|, Trace(bs, rank, bs[b].next0));
      if !bs[b].end.ByBranch? {
        assert Edge(bs[b], bs[b].next1);
        TraceReached(bs, rank, bs[b].next1);
        SimplifiedAt(bs, rank, |bs|, Trace(bs, rank, bs[b].next1));
      }
    }
  }

  lemma RetargetedReturn(bs: seq<Block>, rank: seq<nat>, b: nat)
    requires WellBuilt(bs) && Acyclic(bs, rank) && b < |bs| && ReturnsToStart(bs)
    ensures var r := Renamed(bs, Retargeted(bs, rank, b)); r.end.ByReturn? ==> r.next0 == 0 && r.next1 == 0
  {
  }

  /** The graph that is left goes from block to block as the old one does, which takes at least as many blocks. */
  lemma {:induction false} SimplifyFollows<W>(M: Machine<W>, bs: seq<Block>, rank: seq<nat>, p: Place<W>, q: Place<W>,
                                              n: nat)
    returns (m: nat)
    requires WellBuilt(bs) && Acyclic(bs, rank) && WellBuilt(Simplified(bs, rank, |bs|)) && Same(bs, rank, p, q)
    ensures m >= n
    ensures Same(bs, rank, RunBlocks(M, bs, p, m), RunBlocks(M, Simplified(bs, rank, |bs|), q, n))
    decreases n
  {
    hide Simplified, RunBlock, RunBlocks, Same, WellBuilt, Acyclic;
    m := n;
    if n > 0 && p.At? {
      var i, u, v := SimplifyStep(M, bs, rank, p, q);
      var j := SimplifyFollows(M, bs, rank, u, v, n - 1);
      RunOn(M, bs, p, i, j);
      RunOn(M, Simplified(bs, rank, |bs|), q, 1, n - 1);
      m := i + j;
    } else if n > 0 {
      SameEnds(bs, rank, p, q);
      Ended(M, bs, p, n);
      Ended(M, Simplified(bs, rank, |bs|), q, n);
    } else {
      Nothing(M, bs, p);
      Nothing(M, Simplified(bs, rank, |bs|), q);
    }
  }

  lemma SameEnds<W>(bs: seq<Block>, rank: seq<nat>, p: Place<W>, q: Place<W>)
    requires Acyclic(bs, rank) && Same(bs, rank, p, q) && !p.At?
    ensures p == q
  {
  }

  lemma Nothing<W>(M: Machine<W>, bs: seq<Block>, p: Place<W>)
    requires WellBuilt(bs)
    ensures RunBlocks(M, bs, p, 0) == p
  {
  }

  /** One block of the graph that is left. */
  lemma SimplifyStep<W>(M: Machine<W>, bs: seq<Block>, rank: seq<nat>, p: Place<W>, q: Place<W>)
    returns (i: nat, u: Place<W>, v: Place<W>)
    requires WellBuilt(bs) && Acyclic(bs, rank) && WellBuilt(Simplified(bs, rank, |bs|)) && Same(bs, rank, p, q) && p.At?
    ensures i > 0 && RunBlocks(M, bs, p, i) == u && RunBlocks(M, Simplified(bs, rank, |bs|), q, 1) == v
    ensures Same(bs, rank, u, v)
  {
    hide Retargeted, Renamed, RunBlock, NewNum, Cancelled, Edge, Empty, BlockOk, RunBlocks;
    var t := Trace(bs, rank, p.b);
    TraceReached(bs, rank, p.b);
    SimplifiedAt(bs, rank, |bs|, t);
    StaysSame(M, bs, rank, t, p.env, p.w);
    i := SkipsEmpty(M, bs, rank, p.b, p.env, p.w);
    OneBlock(M, bs, t, p.env, p.w);
    OneBlock(M, Simplified(bs, rank, |bs|), NewNum(bs, t), p.env, p.w);
    RunOn(M, bs, p, i, 1);
    i := i + 1;
    u := RunBlock(M, bs[t], p.env, p.w);
    v := RunBlock(M, Renamed(bs, Retargeted(bs, rank, t)), p.env, p.w);
  }

  lemma OneBlock<W>(M: Machine<W>, bs: seq<Block>, b: nat, env: Env, w: W)
    requires WellBuilt(bs) && b < |bs|
    ensures BlockOk(bs[b], |bs|) && RunBlocks(M, bs, At(b, env, w), 1) == RunBlock(M, bs[b], env, w)
  {
    assert BlockOk(bs[b], |bs|);
    var u := RunBlock(M, bs[b], env, w);
    assert RunBlocks(M, bs, u, 0) == u;
  }

  lemma Ended<W>(M: Machine<W>, bs: seq<Block>, p: Place<W>, n: nat)
    requires WellBuilt(bs) && !p.At?
    ensures RunBlocks(M, bs, p, n) == p
  {
  }

  /** The first of the blocks from `b` on that stays. */
  function FirstStaying(bs: seq<Block>, b: nat): (f: nat)
    requires b <= |bs|
    ensures b <= f <= |bs| && (f < |bs| ==> !Cancelled(bs, f)) && NewNum(bs, f) == NewNum(bs, b)
    ensures forall i: nat :: b <= i < f ==> Cancelled(bs, i)
    decreases |bs| - b
  {
    if b == |bs| || !Cancelled(bs, b) then b else FirstStaying(bs, b + 1)
  }

  /** The graph that is left starts with that block: it ends as the old one does from there, or runs on as it does. */
  lemma SimplifyStarts<W>(M: Machine<W>, bs: seq<Block>, rank: seq<nat>, env: Env, w: W, n: nat) returns (m: nat)
    requires WellBuilt(bs) && Acyclic(bs, rank) && |bs| > 0 && ReturnsToStart(bs)
    ensures WellBuilt(Simplified(bs, rank, |bs|)) && FirstStaying(bs, 0) < |bs| && m >= n
    ensures var p := RunBlocks(M, bs, At(FirstStaying(bs, 0), env, w), m);
      var q := RunBlocks(M, Simplified(bs, rank, |bs|), At(0, env, w), n);
      p.At? == q.At? && (!q.At? ==> p == q)
  {
    SimplifiedWellBuilt(bs, rank);
    var f := FirstStaying(bs, 0);
    assert Trace(bs, rank, f) == f;
    m := SimplifyFollows(M, bs, rank, At(f, env, w), At(0, env, w), n);
  }

  /** The first block that stays is the one that the entry leads to through empty blocks. */
  predicate EntryKept(bs: seq<Block>, rank: seq<nat>)
    requires Acyclic(bs, rank) && |bs| > 0
  {
    FirstStaying(bs, 0) == Trace(bs, rank, 0)
  }

  /** So if the entry is kept, the graph that is left ends as the old one does from its own entry. */
  lemma SimplifyPreserves<W>(M: Machine<W>, bs: seq<Block>, rank: seq<nat>, env: Env, w: W, n: nat) returns (m: nat)
    requires WellBuilt(bs) && Acyclic(bs, rank) && |bs| > 0 && ReturnsToStart(bs) && EntryKept(bs, rank)
    ensures WellBuilt(Simplified(bs, rank, |bs|)) && m >= n
    ensures var (p, q) := (RunBlocks(M, bs, At(0, env, w), m), RunBlocks(M, Simplified(bs, rank, |bs|), At(0, env, w), n));
      p.At? == q.At? && (!q.At? ==> p == q)
  {
    hide Simplified, RunBlock, RunBlocks, WellBuilt, Acyclic, Trace;
    m := SimplifyStarts(M, bs, rank, env, w, n);
    var i := SkipsEmpty(M, bs, rank, 0, env, w);
    RunOn(M, bs, At(0, env, w), i, m);
    m := i + m;
  }

  /** It is kept exactly if only cancelled blocks are before that block, as when the entry is not empty. */
  lemma EntryStays(bs: seq<Block>, rank: seq<nat>)
    requires WellBuilt(bs) && Acyclic(bs, rank) && |bs| > 0
    ensures EntryKept(bs, rank) <==> forall b: nat :: b < Trace(bs, rank, 0) ==> Cancelled(bs, b)
    ensures !Empty(bs[0]) ==> EntryKept(bs, rank)
  {
    TraceReached(bs, rank, 0);
  }

  // ---------- what is left ----------

  /** Block numbers of blocks that are led to and do something. */
  function Useful(bs: seq<Block>, k: nat): (S: set<nat>)
    requires k <= |bs|
    ensures forall b: nat :: b in S <==> b < k && !Empty(bs[b]) && (b == 0 || exists j :: 0 <= j < |bs| && Edge(bs[j], b))
  {
    set b: nat | b < k && !Empty(bs[b]) && Reached(bs, b, |bs|)
  }

  lemma {:induction false} UsefulStay(bs: seq<Block>, k: nat)
    requires k <= |bs|
    ensures NewNum(bs, k) == |Useful(bs, k)|
    decreases k
  {
    hide Reached, Empty;
    if k > 0 {
      UsefulStay(bs, k - 1);
      if Cancelled(bs, k - 1) {
        assert Useful(bs, k) == Useful(bs, k - 1);
      } else {
        assert Useful(bs, k) == Useful(bs, k - 1) + {k - 1};
      }
    } else {
      assert Useful(bs, 0) == {};
    }
  }

  /** Blocks that stay keep their order, and so get different numbers. */
  lemma {:induction false} NumsApart(bs: seq<Block>, a: nat, b: nat)
    requires a < b <= |bs| && !Cancelled(bs, a)
    ensures NewNum(bs, a) < NewNum(bs, b)
    decreases b
  {
    if a < b - 1 {
      NumsApart(bs, a, b - 1);
    }
  }

  /** What block `b` has become: it goes on to other blocks, and jumps conditionally only to different ones. */
  lemma BlockTidy(bs: seq<Block>, rank: seq<nat>, b: nat)
    requires WellBuilt(bs) && Acyclic(bs, rank) && b < |bs| && !Cancelled(bs, b)
    ensures var r := Renamed(bs, Retargeted(bs, rank, b));
      && r.tacs == bs[b].tacs && r.source == bs[b].source
      && (r.end.ByBeqz? || r.end.ByBnez? ==> r.next0 != r.next1)
      && (Empty(r) ==> WasTest(bs, rank, b))
  {
    assert BlockOk(bs[b], |bs|);
    if bs[b].end.ByBeqz? || bs[b].end.ByBnez? {
      assert Edge(bs[b], bs[b].next0) && Edge(bs[b], bs[b].next1);
      TraceReached(bs, rank, bs[b].next0);
      TraceReached(bs, rank, bs[b].next1);
      var (x, y) := (Trace(bs, rank, bs[b].next0), Trace(bs, rank, bs[b].next1));
      if x < y {
        NumsApart(bs, x, y);
      } else if y < x {
        NumsApart(bs, y, x);
      }
    }
  }

  lemma {:induction false} OldBlock(bs: seq<Block>, rank: seq<nat>, k: nat, i: nat) returns (b: nat)
    requires WellBuilt(bs) && Acyclic(bs, rank) && k <= |bs| && i < NewNum(bs, k)
    ensures b < k && !Cancelled(bs, b) && NewNum(bs, b) == i
    ensures Simplified(bs, rank, k)[i] == Renamed(bs, Retargeted(bs, rank, b))
    decreases k
  {
    hide Cancelled, Retargeted, Renamed, WellBuilt, Acyclic;
    if !Cancelled(bs, k - 1) && i == NewNum(bs, k - 1) {
      b := k - 1;
    } else {
      b := OldBlock(bs, rank, k - 1, i);
    }
  }

  /**
   * What is left: exactly the blocks that are led to and do something, with their code; no conditional jump with one
   * target only; and no block that only leads on, except a test without code whose two ways have become one.
   */
  lemma SimplifiedIsTidy(bs: seq<Block>, rank: seq<nat>)
    requires WellBuilt(bs) && Acyclic(bs, rank)
    ensures var r := Simplified(bs, rank, |bs|);
      && |r| == |Useful(bs, |bs|)|
      && (forall i :: 0 <= i < |r| && (r[i].end.ByBeqz? || r[i].end.ByBnez?) ==> r[i].next0 != r[i].next1)
      && forall b :: b in Useful(bs, |bs|) ==>
           var i := NewNum(bs, b); i < |r| && r[i].tacs == bs[b].tacs && (Empty(r[i]) ==> WasTest(bs, rank, b))
  {
    hide Retargeted, Renamed, Simplified, WellBuilt, Acyclic;
    UsefulStay(bs, |bs|);
    var r := Simplified(bs, rank, |bs|);
    forall i: nat | i < |r| && (r[i].end.ByBeqz? || r[i].end.ByBnez?) ensures r[i].next0 != r[i].next1 {
      var b := OldBlock(bs, rank, |bs|, i);
      BlockTidy(bs, rank, b);
    }
    forall b | b in Useful(bs, |bs|)
      ensures var i := NewNum(bs, b); i < |r| && r[i].tacs == bs[b].tacs && (Empty(r[i]) ==> WasTest(bs, rank, b))
    {
      SimplifiedAt(bs, rank, |bs|, b);
      BlockTidy(bs, rank, b);
    }
  }

  /** A test without code, both ways of which lead to the same block. */
  predicate WasTest(bs: seq<Block>, rank: seq<nat>, b: nat)
    requires Acyclic(bs, rank) && b < |bs|
  {
    && (bs[b].end.ByBeqz? || bs[b].end.ByBnez?) && bs[b].tacs == [] && bs[b].next0 < |bs| && bs[b].next1 < |bs|
    && Trace(bs, rank, bs[b].next0) == Trace(bs, rank, bs[b].next1)
  }

  // ---------- how the compiler does it ----------

  /** The degrees count the edges from the first `k` blocks, and the entry. */
  predicate Degrees(bs: seq<Block>, inDegree: seq<nat>, k: nat)
    requires k <= |bs|
  {
    |inDegree| == |bs| && forall b: nat :: b < |bs| ==> (inDegree[b] > 0 <==> Reached(bs, b, k))
  }

  lemma OneMoreBlock(bs: seq<Block>, b: nat, k: nat)
    requires k < |bs|
    ensures Reached(bs, b, k + 1) <==> Reached(bs, b, k) || Edge(bs[k], b)
  {
  }

  method CountEdges(bs: seq<Block>) returns (inDegree: seq<nat>)
    requires WellBuilt(bs) && |bs| > 0
    ensures Degrees(bs, inDegree, |bs|)
  {
    inDegree := seq(|bs|, i => if i == 0 then 1 else 0);
    var k := 0;
    while k < |bs|
      invariant 0 <= k <= |bs| && Degrees(bs, inDegree, k)
    {
      var bb := bs[k];
      assert BlockOk(bb, |bs|);
      forall b: nat | b < |bs| ensures Reached(bs, b, k + 1) <==> Reached(bs, b, k) || Edge(bb, b) {
        OneMoreBlock(bs, b, k);
      }
      hide Reached;
      if bb.end.ByBeqz? || bb.end.ByBnez? {
        inDegree := inDegree[bb.next1 := inDegree[bb.next1] + 1];
      }
      if !bb.end.ByReturn? {
        inDegree := inDegree[bb.next0 := inDegree[bb.next0] + 1];
      }
      k := k + 1;
    }
  }

  method FindCancelled(bs: seq<Block>) returns (cancelled: seq<bool>)
    requires WellBuilt(bs) && |bs| > 0
    ensures |cancelled| == |bs| && forall b: nat :: b < |bs| ==> cancelled[b] == Cancelled(bs, b)
  {
    var inDegree := CountEdges(bs);
    cancelled := [];
    while |cancelled| < |bs|
      invariant |cancelled| <= |bs| && forall b: nat :: b < |cancelled| ==> cancelled[b] == Cancelled(bs, b)
      decreases |bs| - |cancelled|
    {
      var b := |cancelled|;
      cancelled := cancelled + [inDegree[b] <= 0 || (bs[b].end.ByBranch? && bs[b].tacs == [])];
    }
  }

  /** The trace through cancelled blocks, which are still as they were. */
  method Follow(bs: seq<Block>, cur: seq<Block>, cancelled: seq<bool>, ghost rank: seq<nat>, b: nat) returns (trace: nat)
    requires WellBuilt(bs) && Acyclic(bs, rank) && |cur| == |cancelled| == |bs| && b < |bs| && Reached(bs, b, |bs|)
    requires forall c: nat :: c < |bs| ==> cancelled[c] == Cancelled(bs, c) && (cancelled[c] ==> cur[c] == bs[c])
    ensures trace == Trace(bs, rank, b)
  {
    trace := b;
    while cancelled[trace]
      invariant trace < |bs| && Reached(bs, trace, |bs|) && Trace(bs, rank, trace) == Trace(bs, rank, b)
      decreases rank[trace]
    {
      assert Edge(bs[trace], bs[trace].next0);
      trace := cur[trace].next0;
    }
    TraceReached(bs, rank, trace);
  }

  method Retarget(bs: seq<Block>, cancelled: seq<bool>, ghost rank: seq<nat>) returns (cur: seq<Block>)
    requires WellBuilt(bs) && Acyclic(bs, rank) && |cancelled| == |bs|
    requires forall c: nat :: c < |bs| ==> cancelled[c] == Cancelled(bs, c)
    ensures |cur| == |bs| && forall c: nat :: c < |bs| && !cancelled[c] ==> cur[c] == Retargeted(bs, rank, c)
  {
    cur := bs;
    var b := 0;
    while b < |bs|
      invariant 0 <= b <= |bs| == |cur|
      invariant forall c: nat :: c < |bs| && (cancelled[c] || c >= b) ==> cur[c] == bs[c]
      invariant forall c: nat :: c < b && !cancelled[c] ==> cur[c] == Retargeted(bs, rank, c)
    {
      var bb := cur[b];
      assert BlockOk(bs[b], |bs|);
      if !cancelled[b] && !bb.end.ByReturn? {
        assert Edge(bs[b], bs[b].next0) && (bb.end.ByBranch? || Edge(bs[b], bs[b].next1));
        var x := Follow(bs, cur, cancelled, rank, bb.next0);
        if bb.end.ByBranch? {
          cur := cur[b := bb.(next0 := x, next1 := x)];
        } else {
          var y := Follow(bs, cur, cancelled, rank, bb.next1);
          cur := cur[b := bb.(next0 := x, next1 := y, end := if x == y then ByBranch else bb.end)];
        }
      }
      b := b + 1;
    }
  }

  method Renumber(bs: seq<Block>, cancelled: seq<bool>) returns (newBBNum: map<nat, nat>)
    requires |cancelled| == |bs| && forall c: nat :: c < |bs| ==> cancelled[c] == Cancelled(bs, c)
    ensures forall c: nat :: c < |bs| && !cancelled[c] ==> c in newBBNum && newBBNum[c] == NewNum(bs, c)
  {
    hide Cancelled;
    newBBNum := map[];
    var sz, i := 0, 0;
    while i < |bs|
      invariant 0 <= i <= |bs| && sz == NewNum(bs, i)
      invariant forall c: nat :: c < i && !cancelled[c] ==> c in newBBNum && newBBNum[c] == NewNum(bs, c)
    {
      if !cancelled[i] {
        newBBNum := newBBNum[i := sz];
        sz := sz + 1;
      }
      i := i + 1;
    }
  }

  /** simplify: the blocks that stay, with new numbers. */
  method Simplify(bs: seq<Block>, ghost rank: seq<nat>) returns (bbs: seq<Block>)
    requires WellBuilt(bs) && Acyclic(bs, rank) && |bs| > 0
    ensures bbs == Simplified(bs, rank, |bs|)
  {
    hide Cancelled, Retargeted, WellBuilt, Acyclic, NewNum;
    var cancelled := FindCancelled(bs);
    var cur := Retarget(bs, cancelled, rank);
    var newBBNum := Renumber(bs, cancelled);
    bbs := [];
    var i := 0;
    assert Simplified(bs, rank, 0) == [];
    while i < |cur|
      invariant 0 <= i <= |cur| == |bs| && bbs == Simplified(bs, rank, i)
    {
      if !cancelled[i] {
        var bb := cur[i];
        if !bb.end.ByReturn? {
          StaysTarget(bs, rank, i);
          bb := bb.(next0 := newBBNum[bb.next0], next1 := newBBNum[bb.next1]);
        }
        bbs := bbs + [bb];
      }
      i := i + 1;
    }
  }

  lemma StaysTarget(bs: seq<Block>, rank: seq<nat>, b: nat)
    requires WellBuilt(bs) && Acyclic(bs, rank) && b < |bs| && !Cancelled(bs, b)
    requires !Retargeted(bs, rank, b).end.ByReturn?
    ensures var r := Retargeted(bs, rank, b);
      && !r.end.ByReturn? && r.next0 < |bs| && r.next1 < |bs| && !Cancelled(bs, r.next0) && !Cancelled(bs, r.next1)
  {
    assert BlockOk(bs[b], |bs|);
    assert Edge(bs[b], bs[b].next0) && (bs[b].end.ByBranch? || Edge(bs[b], bs[b].next1));
    TraceReached(bs, rank, bs[b].next0);
    if !bs[b].end.ByBranch? {
      TraceReached(bs, rank, bs[b].next1);
    }
  }
}
