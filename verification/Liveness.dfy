/** Live temps of basic blocks, and why nothing else matters. */
module Liveness {
  import opened Lists
  import opened Tac

  datatype EndKind = ByBranch | ByBeqz | ByBnez | ByReturn

  /** A basic block: straight code, how it ends, the temp its end looks at, and the blocks behind it. */
  datatype Block = Block(tacs: Code, end: EndKind, source: Option<Temp>, next0: nat, next1: nat)

  /** A block that returns keeps the numbers 0 for its followers, and leaves the blocks all the same. */
  predicate WellBuilt(bs: seq<Block>) {
    forall i :: 0 <= i < |bs| ==> BlockOk(bs[i], |bs|)
  }

  predicate BlockOk(b: Block, n: nat) {
    b.next0 < n && b.next1 < n && Runnable(b)
  }

  predicate Runnable(b: Block) {
    && (b.end.ByBeqz? || b.end.ByBnez? ==> b.source.Some?)
    && forall k :: 0 <= k < |b.tacs| ==> Plain(b.tacs[k])
  }

  /** Returns, branches and tests only end blocks; a call that halts is code like any other. */
  predicate Plain(i: Instr) {
    !i.Return? && !i.Branch? && !i.Beqz? && !i.Bnez?
  }

  // ---------- live temps ----------

  function OptSet(t: Option<Temp>): set<Temp> {
    match t
    case None => {}
    case Some(x) => {x}
  }

  function Uses(i: Instr): set<Temp> {
    match i
    case Binary(_, _, a, b) => {a, b}
    case Unary(_, _, a) => {a}
    case Assign(_, a) => {a}
    case IndirectCall(_, f) => {f}
    case Load(_, a, _) => {a}
    case Store(v, a, _) => {v, a}
    case Parm(a) => {a}
    case _ => {}
  }

  function Defs(i: Instr): set<Temp> {
    match i
    case Binary(_, t, _, _) => {t}
    case Unary(_, t, _) => {t}
    case Assign(t, _) => {t}
    case LoadVtbl(t, _) => {t}
    case IndirectCall(dst, _) => OptSet(dst)
    case DirectCall(dst, _) => OptSet(dst)
    case Load(t, _, _) => {t}
    case LoadImm4(t, _) => {t}
    case LoadStrConst(t, _) => {t}
    case _ => {}
  }

  /** The temps whose values matter before `tacs` when those in `after` matter behind them. */
  function LiveBefore(tacs: Code, after: set<Temp>): set<Temp> {
    if tacs == [] then after
    else Uses(tacs[0]) + (LiveBefore(tacs[1..], after) - Defs(tacs[0]))
  }

  function Touched(tacs: Code): set<Temp> {
    if tacs == [] then {} else Uses(tacs[0]) + Defs(tacs[0]) + Touched(tacs[1..])
  }

  /** The equations of liveness: what a block needs at its start covers what it needs for itself and its followers. */
  ghost predicate Solves(bs: seq<Block>, ins: seq<set<Temp>>) {
    && WellBuilt(bs) && |ins| == |bs|
    && forall i {:trigger Covers(bs, ins, i)} :: 0 <= i < |bs| ==> Covers(bs, ins, i)
  }

  ghost predicate Covers(bs: seq<Block>, ins: seq<set<Temp>>, i: nat)
    requires WellBuilt(bs) && |ins| == |bs| && i < |bs|
  {
    assert BlockOk(bs[i], |bs|);
    LiveIn(bs[i], Out(bs, ins, i)) <= ins[i]
  }

  function Out(bs: seq<Block>, ins: seq<set<Temp>>, i: nat): set<Temp>
    requires i < |bs| && |ins| == |bs| && bs[i].next0 < |bs| && bs[i].next1 < |bs|
  {
    ins[bs[i].next0] + ins[bs[i].next1]
  }

  function LiveIn(b: Block, out: set<Temp>): set<Temp> {
    LiveBefore(b.tacs, out + OptSet(b.source))
  }

  lemma {:induction false} LiveMore(tacs: Code, small: set<Temp>, large: set<Temp>)
    requires small <= large
    ensures LiveBefore(tacs, small) <= LiveBefore(tacs, large)
    decreases tacs
  {
    if tacs != [] {
      LiveMore(tacs[1..], small, large);
    }
  }

  /** The equations as they need to be: nothing comes behind a block that returns. */
  ghost predicate Suffices(bs: seq<Block>, ins: seq<set<Temp>>) {
    && WellBuilt(bs) && |ins| == |bs|
    && forall i {:trigger Enough(bs, ins, i)} :: 0 <= i < |bs| ==> Enough(bs, ins, i)
  }

  ghost predicate Enough(bs: seq<Block>, ins: seq<set<Temp>>, i: nat)
    requires WellBuilt(bs) && |ins| == |bs| && i < |bs|
  {
    assert BlockOk(bs[i], |bs|);
    LiveIn(bs[i], Behind(bs, ins, i)) <= ins[i]
  }

  function Behind(bs: seq<Block>, ins: seq<set<Temp>>, i: nat): set<Temp>
    requires i < |bs| && |ins| == |bs| && bs[i].next0 < |bs| && bs[i].next1 < |bs|
  {
    if bs[i].end.ByReturn? then {} else Out(bs, ins, i)
  }

  /** The compiler's equations ask for more, as blocks that return are followed by block 0. */
  lemma SolvesSuffices(bs: seq<Block>, ins: seq<set<Temp>>)
    requires Solves(bs, ins)
    ensures Suffices(bs, ins)
  {
    forall i | 0 <= i < |bs| ensures Enough(bs, ins, i) {
      assert BlockOk(bs[i], |bs|) && Covers(bs, ins, i);
      LiveMore(bs[i].tacs, Behind(bs, ins, i) + OptSet(bs[i].source), Out(bs, ins, i) + OptSet(bs[i].source));
    }
  }

  // ---------- runs of a flow graph ----------

  datatype Through<W> = Through(env: Env, w: W) | Stopped(w: W)

  function RunTacs<W>(M: Machine<W>, tacs: Code, env: Env, w: W): Through<W>
    requires forall k :: 0 <= k < |tacs| ==> Plain(tacs[k])
    decreases |tacs|
  {
    if tacs == [] then Through(env, w)
    else if IsJump(tacs[0]) then Stopped(w)
    else var r := Do(M, tacs[0], env, w); RunTacs(M, tacs[1..], r.0, r.1)
  }

  /** Control is before block `b`, or the function has returned or halted. */
  datatype Place<W> = At(b: nat, env: Env, w: W) | Back(value: Option<int>, w: W) | Dead(w: W)

  function Leave<W>(b: Block, env: Env, w: W): Place<W>
    requires b.end.ByBeqz? || b.end.ByBnez? ==> b.source.Some?
  {
    match b.end
    case ByBranch => At(b.next0, env, w)
    case ByBeqz => At(if Get(env, b.source.value) == 0 then b.next0 else b.next1, env, w)
    case ByBnez => At(if Get(env, b.source.value) != 0 then b.next0 else b.next1, env, w)
    case ByReturn => Back(if b.source.None? then None else Some(Get(env, b.source.value)), w)
  }

  function RunBlock<W>(M: Machine<W>, b: Block, env: Env, w: W): Place<W>
    requires Runnable(b)
  {
    var r := RunTacs(M, b.tacs, env, w);
    if r.Stopped? then Dead(r.w) else Leave(b, r.env, r.w)
  }

  function RunBlocks<W>(M: Machine<W>, bs: seq<Block>, c: Place<W>, n: nat): Place<W>
    requires WellBuilt(bs)
    decreases n
  {
    if n == 0 || !c.At? || c.b >= |bs| then c else
      assert BlockOk(bs[c.b], |bs|);
      RunBlocks(M, bs, RunBlock(M, bs[c.b], c.env, c.w), n - 1)
  }

  // ---------- soundness ----------

  ghost predicate Agree(S: set<Temp>, a: Env, b: Env) {
    forall t :: t in S ==> Get(a, t) == Get(b, t)
  }

  /** The same place and the same world, and the same values in every temp that matters there. */
  ghost predicate Alike<W>(ins: seq<set<Temp>>, c: Place<W>, d: Place<W>) {
    match c
    case At(i, env, w) => d.At? && d.b == i && d.w == w && (i < |ins| ==> Agree(ins[i], env, d.env))
    case _ => c == d
  }

  lemma AlikeStep<W>(M: Machine<W>, i: Instr, after: set<Temp>, a: Env, b: Env, w: W)
    requires !IsJump(i) && Agree(Uses(i) + (after - Defs(i)), a, b)
    ensures var r := Do(M, i, a, w); var s := Do(M, i, b, w); r.1 == s.1 && Agree(after, r.0, s.0)
  {
    var S := Uses(i) + (after - Defs(i));
    forall t | t in Uses(i) ensures Get(a, t) == Get(b, t) {
      assert t in S;
    }
    forall t | t in after && t !in Defs(i) ensures Get(a, t) == Get(b, t) {
      assert t in S;
    }
  }

  /** Code cannot tell two environments apart that agree on the temps live before it. */
  lemma {:induction false} TacsSound<W>(M: Machine<W>, tacs: Code, after: set<Temp>, a: Env, b: Env, w: W)
    requires forall k :: 0 <= k < |tacs| ==> Plain(tacs[k])
    requires Agree(LiveBefore(tacs, after), a, b)
    ensures var r := RunTacs(M, tacs, a, w); var s := RunTacs(M, tacs, b, w);
      && r.Through? == s.Through? && r.w == s.w
      && (r.Through? ==> Agree(after, r.env, s.env))
    decreases |tacs|
  {
    hide Agree, Do;
    if tacs != [] && !IsJump(tacs[0]) {
      AlikeStep(M, tacs[0], LiveBefore(tacs[1..], after), a, b, w);
      var r := Do(M, tacs[0], a, w);
      var s := Do(M, tacs[0], b, w);
      TacsSound(M, tacs[1..], after, r.0, s.0, r.1);
    }
  }

  lemma BlockSound<W>(M: Machine<W>, bs: seq<Block>, ins: seq<set<Temp>>, i: nat, a: Env, b: Env, w: W)
    requires Suffices(bs, ins) && i < |bs| && Agree(ins[i], a, b)
    ensures BlockOk(bs[i], |bs|) && Alike(ins, RunBlock(M, bs[i], a, w), RunBlock(M, bs[i], b, w))
  {
    assert BlockOk(bs[i], |bs|) && Enough(bs, ins, i);
    var out := Behind(bs, ins, i);
    assert Agree(LiveIn(bs[i], out), a, b);
    TacsSound(M, bs[i].tacs, out + OptSet(bs[i].source), a, b, w);
  }

  /** On every run of the graph, only the live temps matter: parameters, stores, branches and results are the same. */
  lemma {:induction false} LivenessSound<W>(M: Machine<W>, bs: seq<Block>, ins: seq<set<Temp>>, c: Place<W>,
                                            d: Place<W>, n: nat)
    requires Suffices(bs, ins) && Alike(ins, c, d)
    ensures Alike(ins, RunBlocks(M, bs, c, n), RunBlocks(M, bs, d, n))
    decreases n
  {
    hide RunBlock, Enough, Agree;
    if n > 0 && c.At? && c.b < |bs| {
      assert BlockOk(bs[c.b], |bs|);
      BlockSound(M, bs, ins, c.b, c.env, d.env, c.w);
      LivenessSound(M, bs, ins, RunBlock(M, bs[c.b], c.env, c.w), RunBlock(M, bs[c.b], d.env, d.w), n - 1);
    }
  }

  /** The same inside a block: what is live behind an instruction decides how the block goes on. */
  lemma TacLiveSound<W>(M: Machine<W>, bs: seq<Block>, ins: seq<set<Temp>>, i: nat, k: nat, a: Env, b: Env, w: W)
    requires Suffices(bs, ins) && i < |bs| && k <= |bs[i].tacs|
    requires Agree(LiveBefore(bs[i].tacs[k..], Behind(bs, ins, i) + OptSet(bs[i].source)), a, b)
    ensures Runnable(bs[i])
    ensures var rest := bs[i].(tacs := bs[i].tacs[k..]);
      Alike(ins, RunBlock(M, rest, a, w), RunBlock(M, rest, b, w))
  {
    hide LiveBefore, RunTacs;
    assert BlockOk(bs[i], |bs|);
    TacsSound(M, bs[i].tacs[k..], Behind(bs, ins, i) + OptSet(bs[i].source), a, b, w);
  }

  // ---------- the least solution ----------

  ghost predicate Under(ins: seq<set<Temp>>, X: seq<set<Temp>>) {
    |ins| == |X| && forall i :: 0 <= i < |ins| ==> ins[i] <= X[i]
  }

  /** Nothing is live that is not live in every solution. */
  ghost predicate Least(bs: seq<Block>, ins: seq<set<Temp>>) {
    forall X :: Solves(bs, X) ==> Under(ins, X)
  }

  /** What holds between any two steps of the iteration. */
  ghost predicate Between(bs: seq<Block>, ins: seq<set<Temp>>, outs: seq<set<Temp>>) {
    && WellBuilt(bs) && |ins| == |bs| && |outs| == |bs| && Least(bs, ins)
    && forall i {:trigger Approaches(bs, ins, outs, i)} :: 0 <= i < |bs| ==> Approaches(bs, ins, outs, i)
  }

  ghost predicate Approaches(bs: seq<Block>, ins: seq<set<Temp>>, outs: seq<set<Temp>>, i: nat)
    requires WellBuilt(bs) && |ins| == |bs| && |outs| == |bs| && i < |bs|
  {
    assert BlockOk(bs[i], |bs|);
    LiveIn(bs[i], {}) <= ins[i] <= LiveIn(bs[i], Out(bs, ins, i)) && outs[i] <= Out(bs, ins, i)
  }

  /** Block `i` meets its equations. */
  ghost predicate Settled(bs: seq<Block>, ins: seq<set<Temp>>, outs: seq<set<Temp>>, i: nat)
    requires WellBuilt(bs) && |ins| == |bs| && |outs| == |bs| && i < |bs|
  {
    assert BlockOk(bs[i], |bs|);
    outs[i] == Out(bs, ins, i) && ins[i] == LiveIn(bs[i], outs[i])
  }

  ghost predicate IsLeastSolution(bs: seq<Block>, ins: seq<set<Temp>>, outs: seq<set<Temp>>) {
    && WellBuilt(bs) && |ins| == |bs| && |outs| == |bs| && Least(bs, ins)
    && forall i {:trigger Settled(bs, ins, outs, i)} :: 0 <= i < |bs| ==> Settled(bs, ins, outs, i)
  }

  lemma LeastSolves(bs: seq<Block>, ins: seq<set<Temp>>, outs: seq<set<Temp>>)
    requires IsLeastSolution(bs, ins, outs)
    ensures Solves(bs, ins)
  {
    forall i | 0 <= i < |bs| ensures Covers(bs, ins, i) {
      assert Settled(bs, ins, outs, i);
    }
  }

  lemma StartLeast(bs: seq<Block>, ins: seq<set<Temp>>, outs: seq<set<Temp>>)
    requires WellBuilt(bs) && |ins| == |bs| && |outs| == |bs|
    requires forall i :: 0 <= i < |bs| ==> ins[i] == LiveIn(bs[i], {}) && outs[i] == {}
    ensures Between(bs, ins, outs)
  {
    forall X | Solves(bs, X) ensures Under(ins, X) {
      forall i | 0 <= i < |ins| ensures ins[i] <= X[i] {
        assert BlockOk(bs[i], |bs|) && Covers(bs, X, i);
        LiveMore(bs[i].tacs, {} + OptSet(bs[i].source), Out(bs, X, i) + OptSet(bs[i].source));
      }
    }
    forall i | 0 <= i < |bs| ensures Approaches(bs, ins, outs, i) {
      assert BlockOk(bs[i], |bs|);
      LiveMore(bs[i].tacs, {} + OptSet(bs[i].source), Out(bs, ins, i) + OptSet(bs[i].source));
    }
  }

  lemma OutMore(bs: seq<Block>, ins: seq<set<Temp>>, ins2: seq<set<Temp>>, i: nat)
    requires WellBuilt(bs) && |ins| == |bs| && i < |bs| && Under(ins, ins2)
    ensures BlockOk(bs[i], |bs|) && Out(bs, ins, i) <= Out(bs, ins2, i)
    ensures LiveIn(bs[i], Out(bs, ins, i)) <= LiveIn(bs[i], Out(bs, ins2, i))
  {
    assert BlockOk(bs[i], |bs|);
    LiveMore(bs[i].tacs, Out(bs, ins, i) + OptSet(bs[i].source), Out(bs, ins2, i) + OptSet(bs[i].source));
  }

  /** One block takes over what its followers need. */
  lemma StepKeeps(bs: seq<Block>, ins: seq<set<Temp>>, outs: seq<set<Temp>>, b: nat, ins2: seq<set<Temp>>,
                  outs2: seq<set<Temp>>)
    requires Between(bs, ins, outs) && b < |bs| && BlockOk(bs[b], |bs|)
    requires ins2 == ins[b := ins[b] + LiveIn(bs[b], Out(bs, ins, b))] && outs2 == outs[b := Out(bs, ins2, b)]
    ensures Between(bs, ins2, outs2) && Under(ins, ins2)
    ensures ins2 == ins ==> Settled(bs, ins2, outs2, b)
    ensures ins2 == ins ==> forall i {:trigger Settled(bs, ins2, outs2, i)} :: 0 <= i < |bs| && Settled(bs, ins, outs, i) ==> Settled(bs, ins2, outs2, i)
  {
    assert Approaches(bs, ins, outs, b);
    hide LiveIn;
    forall X | Solves(bs, X) ensures Under(ins2, X) {
      assert Covers(bs, X, b);
      OutMore(bs, ins, X, b);
    }
    forall i | 0 <= i < |bs| ensures Approaches(bs, ins2, outs2, i) {
      assert Approaches(bs, ins, outs, i);
      OutMore(bs, ins, ins2, i);
    }
  }

  /** Sets of live temps only grow, inside the temps that are used somewhere. */
  ghost function Missing(ins: seq<set<Temp>>, all: set<Temp>): set<(nat, Temp)> {
    set i: nat, t: Temp | 0 <= i < |ins| && t in all && t !in ins[i] :: (i, t)
  }

  lemma MissingShrinks(ins: seq<set<Temp>>, ins2: seq<set<Temp>>, all: set<Temp>)
    requires Under(ins, ins2) && ins != ins2 && forall i :: 0 <= i < |ins2| ==> ins2[i] <= all
    ensures Missing(ins2, all) < Missing(ins, all)
  {
    var i :| 0 <= i < |ins| && ins[i] != ins2[i];
    var t :| t in ins2[i] && t !in ins[i];
    assert (i, t) in Missing(ins, all) && (i, t) !in Missing(ins2, all);
  }

  // ---------- when the compiler's solution is exact ----------

  /** The least solution of the equations as they need to be: exactly the temps that matter. */
  ghost predicate Exact(bs: seq<Block>, X: seq<set<Temp>>) {
    Suffices(bs, X) && forall Y :: Suffices(bs, Y) ==> Under(X, Y)
  }

  /** Blocks that return keep the edges of a new block. */
  ghost predicate ReturnsToStart(bs: seq<Block>) {
    forall i :: 0 <= i < |bs| && bs[i].end.ByReturn? ==> bs[i].next0 == 0 && bs[i].next1 == 0
  }

  /** Every temp of `S` is used or defined in every block that returns. */
  ghost predicate TouchedAtReturns(bs: seq<Block>, S: set<Temp>) {
    forall i :: 0 <= i < |bs| && bs[i].end.ByReturn? ==> S <= Touched(bs[i].tacs) + OptSet(bs[i].source)
  }

  /** What is live behind a block is live before it unless the block touches it. */
  lemma {:induction false} LiveThrough(tacs: Code, S: set<Temp>)
    ensures LiveBefore(tacs, S) == LiveBefore(tacs, {}) + (S - Touched(tacs))
    ensures LiveBefore(tacs, {}) <= Touched(tacs)
    decreases tacs
  {
    if tacs != [] {
      LiveThrough(tacs[1..], S);
    }
  }

  lemma LiveInThrough(b: Block, out: set<Temp>)
    ensures LiveIn(b, out) == LiveIn(b, {}) + (out - (Touched(b.tacs) + OptSet(b.source)))
    ensures LiveIn(b, {}) <= Touched(b.tacs) + OptSet(b.source)
  {
    LiveThrough(b.tacs, out + OptSet(b.source));
    LiveThrough(b.tacs, {} + OptSet(b.source));
  }

  lemma BehindMore(bs: seq<Block>, X: seq<set<Temp>>, Y: seq<set<Temp>>, i: nat)
    requires WellBuilt(bs) && |X| == |bs| && i < |bs| && Under(X, Y)
    ensures BlockOk(bs[i], |bs|) && LiveIn(bs[i], Behind(bs, X, i)) <= LiveIn(bs[i], Behind(bs, Y, i))
  {
    assert BlockOk(bs[i], |bs|);
    LiveMore(bs[i].tacs, Behind(bs, X, i) + OptSet(bs[i].source), Behind(bs, Y, i) + OptSet(bs[i].source));
  }

  /** Before a block that returns only what the block itself needs matters. */
  lemma ExactAtReturn(bs: seq<Block>, X: seq<set<Temp>>, i: nat)
    requires Exact(bs, X) && i < |bs| && bs[i].end.ByReturn?
    ensures X[i] == LiveIn(bs[i], {})
  {
    assert BlockOk(bs[i], |bs|) && Enough(bs, X, i);
    var Y := X[i := LiveIn(bs[i], {})];
    LiveInThrough(bs[i], {});
    assert Under(Y, X);
    hide LiveIn;
    forall j | 0 <= j < |bs| ensures Enough(bs, Y, j) {
      assert Enough(bs, X, j);
      BehindMore(bs, Y, X, j);
    }
    assert Suffices(bs, Y);
    assert Under(X, Y);
  }

  /**
   * The compiler's solution is exact if and only if every temp that matters at the entry of the function is used or
   * defined in every block that returns.
   */
  lemma ExactIff(bs: seq<Block>, ins: seq<set<Temp>>, X: seq<set<Temp>>)
    requires Solves(bs, ins) && Least(bs, ins) && Exact(bs, X) && |bs| > 0 && ReturnsToStart(bs)
    ensures ins == X <==> TouchedAtReturns(bs, X[0])
  {
    SolvesSuffices(bs, ins);
    if TouchedAtReturns(bs, X[0]) {
      forall i | 0 <= i < |bs| ensures Covers(bs, X, i) {
        assert BlockOk(bs[i], |bs|) && Enough(bs, X, i);
        LiveInThrough(bs[i], X[0] + X[0]);
      }
      assert Under(ins, X) && Under(X, ins);
      forall i | 0 <= i < |bs| ensures ins[i] == X[i] {
        assert ins[i] <= X[i] <= ins[i];
      }
    }
    if ins == X {
      forall i | 0 <= i < |bs| && bs[i].end.ByReturn?
        ensures X[0] <= Touched(bs[i].tacs) + OptSet(bs[i].source)
      {
        assert BlockOk(bs[i], |bs|) && Covers(bs, ins, i);
        ExactAtReturn(bs, X, i);
        LiveInThrough(bs[i], X[0] + X[0]);
      }
    }
  }

  /** A function that needs nothing at its entry gets the exact solution. */
  lemma ExactWithoutInputs(bs: seq<Block>, ins: seq<set<Temp>>, X: seq<set<Temp>>)
    requires Solves(bs, ins) && Least(bs, ins) && Exact(bs, X) && |bs| > 0 && ReturnsToStart(bs) && X[0] == {}
    ensures ins == X
  {
    ExactIff(bs, ins, X);
  }

  /** There is an exact solution: what is live in all that suffice. */
  ghost function Needed(bs: seq<Block>, Y: seq<set<Temp>>): (X: seq<set<Temp>>)
    requires Suffices(bs, Y)
    ensures |X| == |Y|
  {
    seq(|Y|, i requires 0 <= i < |Y| => set t | t in Y[i] && forall Z :: Suffices(bs, Z) ==> t in Z[i])
  }

  lemma NeededIsExact(bs: seq<Block>, Y: seq<set<Temp>>)
    requires Suffices(bs, Y)
    ensures Exact(bs, Needed(bs, Y))
  {
    var X := Needed(bs, Y);
    forall Z | Suffices(bs, Z) ensures Under(X, Z) {
    }
    forall i | 0 <= i < |bs| ensures Enough(bs, X, i) {
      assert BlockOk(bs[i], |bs|);
      forall Z | Suffices(bs, Z) ensures LiveIn(bs[i], Behind(bs, X, i)) <= Z[i] {
        assert Enough(bs, Z, i);
        BehindMore(bs, X, Z, i);
      }
    }
  }

  /** `if (b) return 1; else return 2;`: in the compiler's solution `b` is live in both branches, where nothing is. */
  lemma ReturnsKeepTooMuch(bs: seq<Block>, ins: seq<set<Temp>>, X: seq<set<Temp>>)
    requires bs == [Block([], ByBeqz, Some(5), 2, 1),
                    Block([LoadImm4(6, 1)], ByReturn, Some(6), 0, 0), Block([LoadImm4(7, 2)], ByReturn, Some(7), 0, 0)]
    requires Solves(bs, ins) && Least(bs, ins) && Exact(bs, X)
    ensures ins != X && 5 in ins[1] && 5 in ins[2] && X[1] == X[2] == {}
  {
    assert Covers(bs, ins, 0) && Covers(bs, ins, 1) && Covers(bs, ins, 2) && Enough(bs, X, 0);
    LiveInThrough(bs[0], ins[1] + ins[2]);
    LiveInThrough(bs[0], X[1] + X[2]);
    assert 5 in X[0] && 5 in ins[0];
    OnlyLoads(6, 1, ins[0] + ins[0]);
    OnlyLoads(7, 2, ins[0] + ins[0]);
    ExactAtReturn(bs, X, 1);
    ExactAtReturn(bs, X, 2);
    ExactIff(bs, ins, X);
    assert 5 !in Touched(bs[1].tacs) + OptSet(bs[1].source);
  }

  lemma OnlyLoads(t: Temp, imm: int, out: set<Temp>)
    ensures var b := Block([LoadImm4(t, imm)], ByReturn, Some(t), 0, 0);
      LiveIn(b, {}) == {} && LiveIn(b, out) == out - {t} && Touched(b.tacs) + OptSet(b.source) == {t}
  {
    var tacs, empty: Code := [LoadImm4(t, imm)], [];
    assert tacs[1..] == empty;
    assert LiveBefore(empty, {} + {t}) == {t} && LiveBefore(empty, out + {t}) == out + {t} && Touched(empty) == {};
    assert LiveBefore(tacs, {} + {t}) == {} && LiveBefore(tacs, out + {t}) == out - {t} && Touched(tacs) == {t};
  }
}
