/** How the three-address code of a function becomes basic blocks: decaf/src/decaf/dataflow/FlowGraph.java. */
module BasicBlocks {
  import opened Lists
  import opened Tac
  import opened TacRuns
  import opened Liveness

  // ---------- numbers of blocks ----------

  /** Instructions after which a block ends. */
  predicate Ends(i: Instr) {
    i.Return? || i.Branch? || i.Beqz? || i.Bnez?
  }

  /** A block starts at the first instruction, behind the end of another, and at a mark that follows other code. */
  predicate Starts(C: Code, k: nat)
    requires k < |C|
  {
    k == 0 || Ends(C[k - 1]) || (C[k].Mark? && !C[k - 1].Mark?)
  }

  /** The number of the block of an instruction. */
  function Num(C: Code, k: nat): nat
    requires k < |C|
  {
    if k == 0 then 0 else Num(C, k - 1) + if Starts(C, k) then 1 else 0
  }

  lemma {:induction false} NumGrows(C: Code, j: nat, k: nat)
    requires j <= k < |C|
    ensures Num(C, j) <= Num(C, k)
    ensures j < k && Starts(C, k) ==> Num(C, j) < Num(C, k)
    decreases k
  {
    if j < k {
      NumGrows(C, j, k - 1);
    }
  }

  // ---------- the blocks ----------

  /** The first instruction from `k` on that is no mark. */
  function SkipMarks(C: Code, k: nat): (f: nat)
    requires k <= |C|
    ensures k <= f <= |C| && (f < |C| ==> !C[f].Mark?) && forall j :: k <= j < f ==> C[j].Mark?
    decreases |C| - k
  {
    if k < |C| && C[k].Mark? then SkipMarks(C, k + 1) else k
  }

  /** The end of the block that instruction `k` is in. */
  function EndOf(C: Code, k: nat): (e: nat)
    requires k < |C|
    ensures k < e <= |C| && (e < |C| ==> Starts(C, e)) && forall j :: k < j < e ==> !Starts(C, j)
    decreases |C| - k
  {
    if k + 1 == |C| || Starts(C, k + 1) then k + 1 else EndOf(C, k + 1)
  }

  /** Every jump has its mark, the code starts with one, and no conditional jump is the last instruction. */
  predicate Jumpable(C: Code) {
    && C != [] && C[0].Mark? && !C[|C| - 1].Beqz? && !C[|C| - 1].Bnez?
    && forall k: nat :: k < |C| ==> Aimed(C, C[k])
  }

  predicate Aimed(C: Code, i: Instr) {
    i.Branch? || i.Beqz? || i.Bnez? ==> Target(C, i.target) < |C|
  }

  function NumAt(C: Code, l: Label): nat {
    if Target(C, l) < |C| then Num(C, Target(C, l)) else 0
  }

  /** The block of the instructions from `f` to `e`. */
  function Closed(C: Code, f: nat, e: nat): Block
    requires f < e <= |C|
  {
    var next := if e < |C| then Num(C, e) else 0;
    match C[e - 1]
    case Return(src) => Block(C[f..e - 1], ByReturn, src, 0, 0)
    case Branch(l) => Block(C[f..e - 1], ByBranch, None, NumAt(C, l), NumAt(C, l))
    case Beqz(t, l) => Block(C[f..e - 1], ByBeqz, Some(t), NumAt(C, l), next)
    case Bnez(t, l) => Block(C[f..e - 1], ByBnez, Some(t), NumAt(C, l), next)
    case _ => Block(C[f..e], if e == |C| then ByReturn else ByBranch, None, next, next)
  }

  /** The block that starts at `s`, without its marks. */
  function BlockAt(C: Code, s: nat): Block
    requires s < |C|
  {
    var f := SkipMarks(C, s);
    if f == |C| then Block([], ByReturn, None, 0, 0) else Closed(C, f, EndOf(C, f))
  }

  function NextStart(C: Code, s: nat): (n: nat)
    requires s < |C|
    ensures s < n <= |C|
  {
    var f := SkipMarks(C, s);
    if f == |C| then f else EndOf(C, f)
  }

  /** The blocks from `s` on. */
  function Gathered(C: Code, s: nat): seq<Block>
    requires s <= |C|
    decreases |C| - s
  {
    if s == |C| then [] else [BlockAt(C, s)] + Gathered(C, NextStart(C, s))
  }

  lemma {:induction false} MarksBelong(C: Code, s: nat, j: nat)
    requires s <= j < |C| && forall i :: s <= i < j ==> C[i].Mark?
    ensures Num(C, j) == Num(C, s) && (s < j ==> !Starts(C, j))
    decreases j
  {
    if s < j {
      MarksBelong(C, s, j - 1);
    }
  }

  lemma {:induction false} SameBlock(C: Code, f: nat, j: nat)
    requires f <= j < |C| && forall i :: f < i <= j ==> !Starts(C, i)
    ensures Num(C, j) == Num(C, f)
    decreases j
  {
    if f < j {
      SameBlock(C, f, j - 1);
    }
  }

  /** The next start is the next number. */
  lemma NextNum(C: Code, s: nat)
    requires s < |C| && NextStart(C, s) < |C|
    ensures Starts(C, NextStart(C, s)) && Num(C, NextStart(C, s)) == Num(C, s) + 1
  {
    var f := SkipMarks(C, s);
    MarksBelong(C, s, f);
    SameBlock(C, f, NextStart(C, s) - 1);
  }

  /** Blocks are where their numbers say. */
  lemma {:induction false} GatheredAt(C: Code, s: nat, k: nat)
    requires s <= k < |C| && Starts(C, s) && Starts(C, k)
    ensures Num(C, s) <= Num(C, k) && Num(C, k) - Num(C, s) < |Gathered(C, s)|
    ensures Gathered(C, s)[Num(C, k) - Num(C, s)] == BlockAt(C, k)
    decreases |C| - s
  {
    hide BlockAt, NextStart;
    if s < k {
      var n := NextStart(C, s);
      NoStartBetween(C, s, k);
      NextNum(C, s);
      GatheredAt(C, n, k);
    }
  }

  lemma NoStartBetween(C: Code, s: nat, k: nat)
    requires s < k < |C| && Starts(C, k)
    ensures NextStart(C, s) <= k
  {
    var f := SkipMarks(C, s);
    if k < NextStart(C, s) && k <= f {
      MarksBelong(C, s, k);
    }
  }

  /** The start of the block of an instruction. */
  lemma {:induction false} StartOf(C: Code, k: nat) returns (s: nat)
    requires k < |C|
    ensures s <= k && Starts(C, s) && Num(C, s) == Num(C, k) && forall i :: s < i <= k ==> !Starts(C, i)
    decreases k
  {
    if Starts(C, k) {
      s := k;
    } else {
      s := StartOf(C, k - 1);
    }
  }

  /** A place where a block is entered: its start, or one of the marks it starts with. */
  predicate Entry(C: Code, k: nat) {
    k < |C| && (Starts(C, k) || C[k].Mark?)
  }

  lemma {:induction false} EntryOf(C: Code, k: nat) returns (s: nat)
    requires Entry(C, k)
    ensures s <= k && Starts(C, s) && Num(C, s) == Num(C, k) && SkipMarks(C, s) == SkipMarks(C, k)
    decreases k
  {
    if Starts(C, k) {
      s := k;
    } else {
      s := EntryOf(C, k - 1);
    }
  }

  lemma BlockPlain(C: Code, s: nat)
    requires s < |C|
    ensures Runnable(BlockAt(C, s))
  {
    var f := SkipMarks(C, s);
    if f < |C| {
      var e := EndOf(C, f);
      forall j: nat | f <= j < e - 1 ensures Plain(C[j]) {
        assert !Starts(C, j + 1);
      }
    }
  }

  ghost predicate AllFine(C: Code, bs: seq<Block>, n: nat) {
    forall b: nat :: b < |bs| ==> BlockOk(bs[b], n)
  }

  lemma NumInside(C: Code, k: nat)
    requires k < |C|
    ensures Num(C, k) < |Gathered(C, 0)|
  {
    var s := StartOf(C, k);
    GatheredAt(C, 0, s);
  }

  lemma NextsInside(C: Code, s: nat)
    requires s < |C|
    ensures BlockOk(BlockAt(C, s), |Gathered(C, 0)|)
  {
    hide Num, Gathered, Runnable, EndOf, Closed;
    BlockPlain(C, s);
    NumInside(C, 0);
    var f := SkipMarks(C, s);
    if f < |C| {
      NextsOfClosed(C, f, EndOf(C, f));
    }
  }

  lemma NextsOfClosed(C: Code, f: nat, e: nat)
    requires f < e <= |C|
    ensures var b := Closed(C, f, e); b.next0 < |Gathered(C, 0)| && b.next1 < |Gathered(C, 0)|
  {
    hide Num, Gathered, Target;
    NumInside(C, 0);
    if e < |C| {
      NumInside(C, e);
    }
    var i := C[e - 1];
    if (i.Branch? || i.Beqz? || i.Bnez?) && Target(C, i.target) < |C| {
      NumInside(C, Target(C, i.target));
    }
  }

  lemma {:induction false} AllNextsInside(C: Code, s: nat)
    requires s <= |C|
    ensures AllFine(C, Gathered(C, s), |Gathered(C, 0)|)
    decreases |C| - s
  {
    if s < |C| {
      hide BlockAt, BlockOk, NextStart;
      NextsInside(C, s);
      AllNextsInside(C, NextStart(C, s));
    }
  }

  /** The blocks are a flow graph, in which blocks that return keep the numbers 0. */
  lemma GatheredWellBuilt(C: Code)
    requires C != []
    ensures WellBuilt(Gathered(C, 0)) && ReturnsToStart(Gathered(C, 0)) && |Gathered(C, 0)| > 0
  {
    AllNextsInside(C, 0);
    ReturnsKeepZero(C, 0);
  }

  lemma {:induction false} ReturnsKeepZero(C: Code, s: nat)
    requires s <= |C|
    ensures ReturnsToStart(Gathered(C, s))
    decreases |C| - s
  {
    if s < |C| {
      ReturnsKeepZero(C, NextStart(C, s));
    }
  }

  // ---------- runs ----------

  /** The machine is where the flow graph is. */
  predicate Stands<W(==)>(C: Code, c: Config<W>, p: Place<W>) {
    match p
    case At(b, env, w) => c.Running? && Entry(C, c.pc) && Num(C, c.pc) == b && c.env == env && c.w == w
    case Back(v, w) => c == Returned(v, w)
    case Dead(w) => c == Halted(w)
  }

  lemma {:induction false} SkipsMarks<W>(M: Machine<W>, C: Code, k: nat, env: Env, w: W)
    requires k <= |C|
    ensures Leads(M, C, Running(k, env, w), SkipMarks(C, k) - k, Running(SkipMarks(C, k), env, w))
    decreases |C| - k
  {
    Stays(M, C, Running(k, env, w));
    if k < |C| && C[k].Mark? {
      OneStep(M, C, Running(k, env, w));
      SkipsMarks(M, C, k + 1, env, w);
      Onward(M, C, Running(k, env, w), 1, Running(k + 1, env, w), SkipMarks(C, k + 1) - (k + 1),
             Running(SkipMarks(C, k), env, w));
    }
  }

  lemma {:induction false} RunsTacs<W>(M: Machine<W>, C: Code, a: Config<W>, n: nat, f: nat, tacs: Code, env: Env, w: W)
    requires TacRuns.At(C, f, tacs) && forall k :: 0 <= k < |tacs| ==> Plain(tacs[k])
    requires Leads(M, C, a, n, Running(f, env, w))
    ensures var r := RunTacs(M, tacs, env, w);
      if r.Through? then Leads(M, C, a, n + |tacs|, Running(f + |tacs|, r.env, r.w))
      else Leads(M, C, a, n + 1, Halted(r.w))
    decreases |tacs|
  {
    if tacs != [] {
      assert C[f] == tacs[0];
      AndStep(M, C, a, n, Running(f, env, w));
      if !IsJump(tacs[0]) {
        var r := Do(M, tacs[0], env, w);
        assert TacRuns.At(C, f + 1, tacs[1..]) by {
          forall j | 0 <= j < |tacs| - 1 ensures C[f + 1 + j] == tacs[1..][j] {
            assert C[f + (j + 1)] == tacs[j + 1];
          }
        }
        RunsTacs(M, C, a, n + 1, f + 1, tacs[1..], r.0, r.1);
      }
    }
  }

  /** The machine gets through a block as the flow graph does, in at least one step. */
  lemma BlockRuns<W>(M: Machine<W>, C: Code, k: nat, env: Env, w: W, s: nat) returns (c: Config<W>)
    requires Jumpable(C) && Entry(C, k) && s < |C| && SkipMarks(C, s) == SkipMarks(C, k)
    ensures Runnable(BlockAt(C, s))
    ensures Leads(M, C, Running(k, env, w), 1, c) && Stands(C, c, RunBlock(M, BlockAt(C, s), env, w))
  {
    hide Leads, Num, Aimed;
    BlockPlain(C, s);
    var f := SkipMarks(C, k);
    SkipsMarks(M, C, k, env, w);
    if f == |C| {
      AndStep(M, C, Running(k, env, w), f - k, Running(f, env, w));
      c := Returned(None, w);
      AtLeast(M, C, Running(k, env, w), f - k + 1, 1, c);
    } else {
      var b := BlockAt(C, s);
      RunsTacs(M, C, Running(k, env, w), f - k, f, b.tacs, env, w);
      var r := RunTacs(M, b.tacs, env, w);
      if r.Stopped? {
        c := Halted(r.w);
        AtLeast(M, C, Running(k, env, w), f - k + 1, 1, c);
      } else {
        c := Leaves(M, C, Running(k, env, w), f - k + |b.tacs|, f, r.env, r.w);
      }
    }
  }

  lemma AtLeast<W>(M: Machine<W>, C: Code, a: Config<W>, m: nat, n: nat, c: Config<W>)
    requires Leads(M, C, a, m, c) && n <= m
    ensures Leads(M, C, a, n, c)
  {
    var i: nat :| i >= m && Run(M, C, a, i) == c;
  }

  /** The end of a block. */
  lemma Leaves<W>(M: Machine<W>, C: Code, a: Config<W>, n: nat, f: nat, env: Env, w: W) returns (c: Config<W>)
    requires Jumpable(C) && f < |C| && var b := Closed(C, f, EndOf(C, f)); Leads(M, C, a, n, Running(f + |b.tacs|, env, w))
    requires n >= |Closed(C, f, EndOf(C, f)).tacs|
    ensures Leads(M, C, a, 1, c) && Stands(C, c, Leave(Closed(C, f, EndOf(C, f)), env, w))
  {
    hide Leads, Jumpable, Num;
    var e := EndOf(C, f);
    if Ends(C[e - 1]) {
      AndStep(M, C, a, n, Running(e - 1, env, w));
      JumpStands(M, C, f, e, env, w);
      c := Step(M, C, Running(e - 1, env, w));
      AtLeast(M, C, a, n + 1, 1, c);
    } else if e == |C| {
      AndStep(M, C, a, n, Running(e, env, w));
      c := Returned(None, w);
      AtLeast(M, C, a, n + 1, 1, c);
    } else {
      c := Running(e, env, w);
      AtLeast(M, C, a, n, 1, c);
    }
  }

  /** A jump or a return at the end of a block. */
  lemma JumpStands<W>(M: Machine<W>, C: Code, f: nat, e: nat, env: Env, w: W)
    requires Jumpable(C) && f < e <= |C| && Ends(C[e - 1]) && (e < |C| ==> Starts(C, e))
    ensures var b := Closed(C, f, e); (b.end.ByBeqz? || b.end.ByBnez? ==> b.source.Some?)
    ensures Stands(C, Step(M, C, Running(e - 1, env, w)), Leave(Closed(C, f, e), env, w))
  {
    hide Num;
    assert Aimed(C, C[e - 1]);
  }

  /** Runs of the blocks are runs of the code: the machine follows, for at least as many steps. */
  lemma {:induction false} GatherFollows<W>(M: Machine<W>, C: Code, c: Config<W>, p: Place<W>, n: nat)
    returns (d: Config<W>)
    requires Jumpable(C) && WellBuilt(Gathered(C, 0)) && Stands(C, c, p)
    ensures Stands(C, d, RunBlocks(M, Gathered(C, 0), p, n)) && Leads(M, C, c, if d.Running? then n else 0, d)
    decreases n
  {
    hide RunBlock, BlockAt, Leads;
    Stays(M, C, c);
    d := c;
    if n > 0 && p.At? {
      var bs := Gathered(C, 0);
      var s := EntryOf(C, c.pc);
      GatheredAt(C, 0, s);
      var u := BlockRuns(M, C, c.pc, p.env, p.w, s);
      d := GatherFollows(M, C, u, RunBlock(M, bs[p.b], p.env, p.w), n - 1);
      Onward(M, C, c, 1, u, if d.Running? then n - 1 else 0, d);
      AtLeast(M, C, c, 1 + if d.Running? then n - 1 else 0, if d.Running? then n else 0, d);
    }
  }

  /** From wherever a block is entered the flow graph ends as the code does, and runs on exactly as long as the code does. */
  lemma GatherPreserves<W>(M: Machine<W>, C: Code, k: nat, env: Env, w: W, n: nat)
    requires Jumpable(C) && Entry(C, k)
    ensures WellBuilt(Gathered(C, 0))
    ensures var p := RunBlocks(M, Gathered(C, 0), Place.At(Num(C, k), env, w), n);
      && (p.Back? ==> Leads(M, C, Running(k, env, w), 0, Returned(p.value, p.w)))
      && (p.Dead? ==> Leads(M, C, Running(k, env, w), 0, Halted(p.w)))
      && (p.At? ==> GoesOn(M, C, Running(k, env, w), n))
  {
    GatheredWellBuilt(C);
    var d := GatherFollows(M, C, Running(k, env, w), Place.At(Num(C, k), env, w), n);
    if d.Running? {
      var m: nat :| m >= n && Run(M, C, Running(k, env, w), m) == d;
      assert Run(M, C, Running(k, env, w), m).Running?;
    }
  }

  /** Conversely, where the code ends the flow graph ends, in the same way. */
  lemma GatherReflects<W>(M: Machine<W>, C: Code, k: nat, env: Env, w: W, n: nat)
    requires Jumpable(C) && Entry(C, k) && !Run(M, C, Running(k, env, w), n).Running?
    ensures WellBuilt(Gathered(C, 0))
    ensures var p := RunBlocks(M, Gathered(C, 0), Place.At(Num(C, k), env, w), n);
      !p.At? && Run(M, C, Running(k, env, w), n) == if p.Back? then Returned(p.value, p.w) else Halted(p.w)
  {
    GatherPreserves(M, C, k, env, w, n);
    var p := RunBlocks(M, Gathered(C, 0), Place.At(Num(C, k), env, w), n);
    hide Jumpable, Gathered, WellBuilt, RunBlocks, Leads, GoesOn;
    if p.At? {
      RunningBefore(M, C, Running(k, env, w), n);
    } else if p.Back? {
      SameEnd(M, C, Running(k, env, w), Returned(p.value, p.w), n);
    } else {
      SameEnd(M, C, Running(k, env, w), Halted(p.w), n);
    }
  }

  // ---------- memos and marks that nothing jumps to ----------

  /** What stays of the code: no memos, and of the marks only those of targets. */
  predicate Remains(T: set<Label>, i: Instr) {
    !i.Memo? && (i.Mark? ==> i.target in T)
  }

  function Kept(P: Code, T: set<Label>): (C: Code)
    ensures |C| <= |P|
  {
    if P == [] then [] else if Remains(T, P[0]) then [P[0]] + Kept(P[1..], T) else Kept(P[1..], T)
  }

  /** The labels of jumps are targets. */
  predicate Targets(P: Code, T: set<Label>) {
    forall k: nat :: k < |P| && (P[k].Branch? || P[k].Beqz? || P[k].Bnez?) ==> P[k].target in T
  }

  /** Where an instruction, or the next one that stays, is among those that stay. */
  function Rank(P: Code, T: set<Label>, k: nat): nat
    requires k <= |P|
  {
    |Kept(P[..k], T)|
  }

  lemma {:induction false} KeptParts(P: Code, Q: Code, T: set<Label>)
    ensures Kept(P + Q, T) == Kept(P, T) + Kept(Q, T)
    decreases P
  {
    if P == [] {
      assert P + Q == Q;
    } else {
      assert (P + Q)[1..] == P[1..] + Q;
      KeptParts(P[1..], Q, T);
    }
  }

  lemma RankStep(P: Code, T: set<Label>, k: nat)
    requires k < |P|
    ensures Rank(P, T, k) <= |Kept(P, T)| && Rank(P, T, k + 1) == Rank(P, T, k) + if Remains(T, P[k]) then 1 else 0
    ensures Remains(T, P[k]) ==> Rank(P, T, k) < |Kept(P, T)| && Kept(P, T)[Rank(P, T, k)] == P[k]
  {
    assert P == P[..k] + P[k..] && P[..k + 1] == P[..k] + [P[k]];
    KeptParts(P[..k], P[k..], T);
    KeptParts(P[..k], [P[k]], T);
    assert [P[k]][1..] == [];
    assert Kept([P[k]], T) == if Remains(T, P[k]) then [P[k]] else [];
  }

  lemma RankEnds(P: Code, T: set<Label>)
    ensures Rank(P, T, 0) == 0 && Rank(P, T, |P|) == |Kept(P, T)|
  {
    assert P[..|P|] == P;
  }

  lemma {:induction false} KeptTarget(P: Code, T: set<Label>, l: Label)
    requires l in T
    ensures Target(Kept(P, T), l) == Rank(P, T, Target(P, l))
    decreases P
  {
    if P == [] {
    } else if P[0] == Mark(l) {
      assert P[..0] == [];
    } else {
      KeptTarget(P[1..], T, l);
      var k := Target(P[1..], l);
      assert P[..k + 1] == [P[0]] + P[1..][..k];
      assert ([P[0]] + P[1..][..k])[1..] == P[1..][..k];
      if Remains(T, P[0]) {
        assert Kept(P, T)[1..] == Kept(P[1..], T);
      }
    }
  }

  predicate Follows<W(==)>(P: Code, T: set<Label>, c: Config<W>, d: Config<W>) {
    if c.Running? && c.pc <= |P| then d == Running(Rank(P, T, c.pc), c.env, c.w) else c == d && !c.Running?
  }

  /** A step of the code is a step of what stays of it, or passes something that does not stay. */
  lemma KeptStep<W>(M: Machine<W>, P: Code, T: set<Label>, c: Config<W>, d: Config<W>)
    requires Targets(P, T) && Follows(P, T, c, d)
    ensures Follows(P, T, Step(M, P, c), Step(M, Kept(P, T), d))
         || (c.Running? && c.pc < |P| && !Remains(T, P[c.pc]) && Follows(P, T, Step(M, P, c), d))
  {
    hide Kept, Rank;
    if c.Running? {
      RankEnds(P, T);
      if c.pc < |P| {
        RankStep(P, T, c.pc);
        var i := P[c.pc];
        if i.Branch? || i.Beqz? || i.Bnez? {
          KeptTarget(P, T, i.target);
        }
      }
    }
  }

  /** For every run of the code there is one of what stays, not longer; it is behind by what was passed in vain. */
  lemma {:induction false} KeptRuns<W>(M: Machine<W>, P: Code, T: set<Label>, c: Config<W>, d: Config<W>, n: nat)
    returns (m: nat)
    requires Targets(P, T) && Follows(P, T, c, d)
    ensures m <= n && Follows(P, T, Run(M, P, c, n), Run(M, Kept(P, T), d, m))
    decreases n
  {
    hide Follows, Step;
    m := 0;
    if n > 0 {
      KeptStep(M, P, T, c, d);
      if Follows(P, T, Step(M, P, c), Step(M, Kept(P, T), d)) {
        m := KeptRuns(M, P, T, Step(M, P, c), Step(M, Kept(P, T), d), n - 1);
        m := m + 1;
      } else {
        m := KeptRuns(M, P, T, Step(M, P, c), d, n - 1);
      }
    }
  }

  lemma {:induction false} KeptAdvances<W>(M: Machine<W>, P: Code, T: set<Label>, c: Config<W>, d: Config<W>)
    returns (n: nat)
    requires Targets(P, T) && Follows(P, T, c, d)
    ensures Follows(P, T, Run(M, P, c, n), Step(M, Kept(P, T), d))
    decreases if c.Running? && c.pc <= |P| then |P| - c.pc else 0
  {
    KeptStep(M, P, T, c, d);
    if Follows(P, T, Step(M, P, c), Step(M, Kept(P, T), d)) {
      n := 1;
      assert Run(M, P, Step(M, P, c), 0) == Step(M, P, c);
    } else {
      n := KeptAdvances(M, P, T, Step(M, P, c), d);
      n := n + 1;
    }
  }

  /** Conversely the code gets wherever what stays of it gets. */
  lemma {:induction false} KeptReached<W>(M: Machine<W>, P: Code, T: set<Label>, c: Config<W>, d: Config<W>, m: nat)
    returns (n: nat)
    requires Targets(P, T) && Follows(P, T, c, d)
    ensures Follows(P, T, Run(M, P, c, n), Run(M, Kept(P, T), d, m))
    decreases m
  {
    n := 0;
    if m > 0 {
      var i := KeptAdvances(M, P, T, c, d);
      var j := KeptReached(M, P, T, Run(M, P, c, i), Step(M, Kept(P, T), d), m - 1);
      RunTwice(M, P, c, i, j);
      n := i + j;
    }
  }

  /** From every place, code and what stays of it come to the same end, or to none. */
  lemma KeptPreserves<W>(M: Machine<W>, P: Code, T: set<Label>, k: nat, env: Env, w: W, e: Config<W>)
    requires Targets(P, T) && k <= |P| && !e.Running?
    ensures Leads(M, P, Running(k, env, w), 0, e) <==> Leads(M, Kept(P, T), Running(Rank(P, T, k), env, w), 0, e)
  {
    hide Rank, Kept;
    var (c, d) := (Running(k, env, w), Running(Rank(P, T, k), env, w));
    assert Follows(P, T, c, d);
    if Leads(M, P, c, 0, e) {
      var n: nat :| n >= 0 && Run(M, P, c, n) == e;
      var m := KeptRuns(M, P, T, c, d, n);
      assert Run(M, Kept(P, T), d, m) == e;
    }
    if Leads(M, Kept(P, T), d, 0, e) {
      var m: nat :| m >= 0 && Run(M, Kept(P, T), d, m) == e;
      var n := KeptReached(M, P, T, c, d, m);
      assert Run(M, P, c, n) == e;
    }
  }

  // ---------- how the compiler does it ----------

  lemma {:induction false} NumOfPrefix(C: Code, i: Instr, k: nat)
    requires k < |C|
    ensures Num(C + [i], k) == Num(C, k)
    decreases k
  {
    if k > 0 {
      NumOfPrefix(C, i, k - 1);
      assert (C + [i])[k] == C[k] && (C + [i])[k - 1] == C[k - 1];
    }
  }

  predicate Numbered(C: Code, nums: seq<int>) {
    |nums| == |C| && forall k: nat :: k < |C| ==> nums[k] == Num(C, k)
  }

  /** What the loop of markBasicBlocks knows behind the code `C`. */
  predicate Counted(C: Code, index: int, atStart: bool) {
    if C == [] then index == -1 && !atStart
    else var last := C[|C| - 1];
      && index == Num(C, |C| - 1) + (if Ends(last) then 1 else 0)
      && (atStart <==> Ends(last) || last.Mark?)
  }

  lemma CountOne(C: Code, nums: seq<int>, index: int, atStart: bool, i: Instr)
    requires Numbered(C, nums) && Counted(C, index, atStart) && (C == [] ==> i.Mark?)
    ensures var num := if i.Mark? && !atStart then index + 1 else index;
      && Numbered(C + [i], nums + [num])
      && Counted(C + [i], if Ends(i) then index + 1 else num, Ends(i) || i.Mark?)
  {
    forall k: nat | k < |C| ensures Num(C + [i], k) == Num(C, k) {
      NumOfPrefix(C, i, k);
    }
  }

  /** deleteMemo and markBasicBlocks: what stays of the code, and the numbers of its blocks. */
  method MarkBasicBlocks(P: Code, T: set<Label>) returns (C: Code, nums: seq<int>)
    requires P != [] && P[0].Mark? && P[0].target in T
    ensures C == Kept(P, T) && Numbered(C, nums)
  {
    C, nums := [], [];
    var index, atStart, k := -1, false, 0;
    while k < |P|
      invariant 0 <= k <= |P| && C == Kept(P[..k], T) && Numbered(C, nums) && Counted(C, index, atStart)
      invariant k > 0 ==> C != []
    {
      hide Numbered, Counted, Kept;
      var i := P[k];
      ghost var before := C;
      RankStep(P, T, k);
      KeptOneMore(P, T, k);
      if Remains(T, i) {
        CountOne(C, nums, index, atStart, i);
        var num := index;
        if Ends(i) {
          index, atStart := index + 1, true;
        } else if i.Mark? {
          if !atStart {
            index := index + 1;
            num, atStart := index, true;
          }
        } else {
          atStart := false;
        }
        C, nums := C + [i], nums + [num];
      }
      k := k + 1;
    }
    assert P[..k] == P;
  }

  lemma KeptOneMore(P: Code, T: set<Label>, k: nat)
    requires k < |P|
    ensures Kept(P[..k + 1], T) == Kept(P[..k], T) + if Remains(T, P[k]) then [P[k]] else []
  {
    assert P[..k + 1] == P[..k] + [P[k]];
    KeptParts(P[..k], [P[k]], T);
    assert [P[k]][1..] == [];
  }

  /** gatherBasicBlocks: the blocks in the order of their numbers. */
  method GatherBasicBlocks(C: Code, nums: seq<int>) returns (bbs: seq<Block>)
    requires Jumpable(C) && Numbered(C, nums)
    ensures bbs == Gathered(C, 0)
  {
    bbs := [];
    var start := 0;
    while start < |C|
      invariant 0 <= start <= |C| && bbs + Gathered(C, start) == Gathered(C, 0)
      decreases |C| - start
    {
      var current, next := OneBlock(C, nums, start);
      bbs, start := bbs + [current], next;
    }
  }

  /** One block of gatherBasicBlocks, and where the next one starts. */
  method OneBlock(C: Code, nums: seq<int>, start: nat) returns (current: Block, nextStart: nat)
    requires Jumpable(C) && Numbered(C, nums) && start < |C|
    ensures current == BlockAt(C, start) && nextStart == NextStart(C, start)
  {
    hide Jumpable;
    var s := start;
    while s < |C| && C[s].Mark?
      invariant start <= s <= |C| && SkipMarks(C, start) == SkipMarks(C, s)
    {
      s := s + 1;
    }
    if s == |C| {
      return Block([], ByReturn, None, 0, 0), s;
    }
    var end := s;
    while end + 1 < |C| && nums[end + 1] == nums[s]
      invariant s <= end < |C| && EndOf(C, s) == EndOf(C, end) && nums[end] == nums[s]
    {
      NumGrows(C, end, end + 1);
      end := end + 1;
    }
    nextStart := end + 1;
    if nextStart < |C| {
      NumGrows(C, s, nextStart);
    }
    assert nextStart == EndOf(C, s);
    current := Close(C, nums, s, nextStart);
  }

  method Close(C: Code, nums: seq<int>, f: nat, e: nat) returns (current: Block)
    requires Jumpable(C) && Numbered(C, nums) && f < e <= |C|
    ensures current == Closed(C, f, e)
  {
    var last := C[e - 1];
    assert Aimed(C, last);
    if last.Return? {
      current := Block(C[f..e - 1], ByReturn, last.src, 0, 0);
    } else if last.Branch? {
      var there := nums[Target(C, last.target)];
      current := Block(C[f..e - 1], ByBranch, None, there, there);
    } else if last.Beqz? || last.Bnez? {
      current := Block(C[f..e - 1], if last.Beqz? then ByBeqz else ByBnez, Some(last.op0), nums[Target(C, last.target)], nums[e]);
    } else if e == |C| {
      current := Block(C[f..e], ByReturn, None, 0, 0);
    } else {
      current := Block(C[f..e], ByBranch, None, nums[e], nums[e]);
    }
  }
}
