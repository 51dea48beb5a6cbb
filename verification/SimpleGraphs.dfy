/** What the simplified flow graph of a function does: from a Decaf function through its code and its blocks to simplify. */
module SimpleGraphs {
  import opened Tac
  import opened TacRuns
  import opened DecafTree
  import opened DecafTranslation
  import opened DecafExpressions
  import opened DecafStatements
  import opened DecafLoops
  import opened DecafJumps
  import opened DecafCorrectness
  import opened DecafEntry
  import opened BasicBlocks
  import opened Simplification
  import opened MiddleEnd

  // ---------- the blocks of a function that opens with a jump ----------

  /** What stays of the opening of a function. */
  ghost predicate KeptOpening(C: Code, entry: Label, x: Label, u: Code, rest: Code) {
    && C == [Mark(entry), Branch(x), Mark(x + 1)] + u + [Mark(x)] + rest
    && Begins(u) && Begins(rest) && rest != [] && Branch(x + 1) in rest
    && Target(C, x) == 3 + |u| && Target(C, x + 1) == 2
  }

  lemma KeptBegins(u: Code, T: set<Label>)
    requires Begins(u)
    ensures Begins(Kept(u, T)) && (Kept(u, T) == [] <==> u == [])
  {
  }

  lemma StaysOpening(entry: Label, code: Code, T: set<Label>, x: Label, u: Code, rest: Code)
    requires Opening(code, x, u, rest) && UniqueMarks([Mark(entry)] + code) && entry in T && x in T && x + 1 in T
    ensures KeptOpening(Kept([Mark(entry)] + code, T), entry, x, Kept(u, T), Kept(rest, T))
    ensures Rank([Mark(entry)] + code, T, 2) == 2
  {
    hide Kept, Target;
    var P := [Mark(entry)] + code;
    var head := [Mark(entry), Branch(x), Mark(x + 1)];
    assert P == head + u + [Mark(x)] + rest;
    HeadStays(entry, x, T);
    KeptBegins(u, T);
    KeptBegins(rest, T);
    KeptHas(rest, T, Branch(x + 1));
    KeptParts(head + u + [Mark(x)], rest, T);
    KeptParts(head + u, [Mark(x)], T);
    KeptParts(head, u, T);
    TargetIs(P, 2, x + 1);
    TargetIs(P, 3 + |u|, x);
    KeptTarget(P, T, x + 1);
    KeptTarget(P, T, x);
    assert P[..2] == [Mark(entry), Branch(x)] && P[..3 + |u|] == head + u;
  }

  lemma HeadStays(entry: Label, x: Label, T: set<Label>)
    requires entry in T && x in T && x + 1 in T
    ensures Kept([Mark(entry), Branch(x)], T) == [Mark(entry), Branch(x)] && Kept([Mark(x)], T) == [Mark(x)]
    ensures Kept([Mark(entry), Branch(x), Mark(x + 1)], T) == [Mark(entry), Branch(x), Mark(x + 1)]
  {
    var (a, b, c) := (Mark(entry), Branch(x), Mark(x + 1));
    assert [a, b][1..] == [b] && [b][1..] == [] && [Mark(x)][1..] == [];
    assert [a, b, c][1..] == [b, c] && [b, c][1..] == [c] && [c][1..] == [];
    assert Kept([c], T) == [c];
    assert Kept([b, c], T) == [b, c];
  }

  /** A mark behind an instruction that is none is in a later block. */
  lemma {:induction false} MarkBehind(C: Code, j: nat, k: nat)
    requires j < k < |C| && !C[j].Mark? && C[k].Mark?
    ensures Num(C, j) < Num(C, k)
    decreases k
  {
    if Starts(C, k) {
      NumGrows(C, j, k);
    } else {
      MarkBehind(C, j, k - 1);
      NumGrows(C, k - 1, k);
    }
  }

  /** The entry is a jump to block `q`, the update or the condition is block 1 and the condition is block `q`. */
  predicate OpeningBlocks(bs: seq<L.Block>, q: nat) {
    && 1 <= q < |bs| && bs[0] == L.Block([], L.ByBranch, Lists.None, q, q)
    && !Empty(bs[1]) && !Empty(bs[q]) && exists j :: 0 <= j < |bs| && Edge(bs[j], 1)
  }

  lemma OpeningIsBlocks(C: Code, entry: Label, x: Label, u: Code, rest: Code) returns (q: nat)
    requires Jumpable(C) && KeptOpening(C, entry, x, u, rest)
    ensures OpeningBlocks(Gathered(C, 0), q) && (q == 1 <==> u == [])
    ensures Enters(C, 2, 1)
  {
    hide Gathered, BlockAt, Proceeds, KeptOpening, Jumpable, Num, Starts, Target, SkipMarks, Empty;
    var p := 3 + |u|;
    OpeningAt(C, entry, x, u, rest);
    q := Num(C, p);
    if u != [] {
      MarkBehind(C, 3, p);
      NumGrows(C, 2, 3);
    }
    var s := EntryOf(C, p);
    NotEmpty(C, p, s);
    NotEmpty(C, 2, 2);
    GatheredAt(C, 0, s);
    GatheredAt(C, 0, 0);
    GatheredAt(C, 0, 2);
    EntryIsJump(C, p);
    LoopsBack(C, entry, x, u, rest);
  }

  lemma OpeningAt(C: Code, entry: Label, x: Label, u: Code, rest: Code)
    requires KeptOpening(C, entry, x, u, rest)
    ensures var p := 3 + |u|;
      && p + 1 < |C| && C[0].Mark? && C[1] == Branch(x) && C[2] == Mark(x + 1) && C[p] == Mark(x)
      && Target(C, x) == p && Target(C, x + 1) == 2
      && (u != [] ==> !C[3].Mark?) && Proceeds(C, 2) && Proceeds(C, p)
      && Starts(C, 0) && Num(C, 0) == 0 && Starts(C, 2) && Num(C, 2) == 1 && (u == [] ==> Num(C, p) == 1)
  {
    hide Target;
    var p := 3 + |u|;
    assert C[p + 1] == rest[0];
    assert u != [] ==> C[3] == u[0];
    assert ProceedsTo(C, p, p + 1);
    assert ProceedsTo(C, 2, if u == [] then p + 1 else 3);
    assert !Starts(C, 1) && Starts(C, 2) && (u == [] ==> !Starts(C, 3));
  }

  lemma EntryIsJump(C: Code, p: nat)
    requires |C| > 2 && C[0].Mark? && C[1].Branch? && Target(C, C[1].target) == p < |C|
    ensures BlockAt(C, 0) == L.Block([], L.ByBranch, Lists.None, Num(C, p), Num(C, p))
  {
    hide Num;
    assert SkipMarks(C, 0) == 1 && EndOf(C, 1) == 2;
  }

  /** An unconditional jump ends a block that leads to its target. */
  lemma JumpIsEdge(C: Code, m: nat)
    requires Jumpable(C) && m < |C| && C[m].Branch?
    ensures var bs := Gathered(C, 0); Num(C, m) < |bs| && Edge(bs[Num(C, m)], NumAt(C, C[m].target))
  {
    hide Gathered, Num, Jumpable;
    var s := StartOf(C, m);
    FirstIsZero(C);
    GatheredAt(C, 0, s);
    var f := SkipMarks(C, s);
    assert f <= m;
    assert m < EndOf(C, f);
    assert m + 1 < |C| ==> Starts(C, m + 1);
  }

  lemma LoopsBack(C: Code, entry: Label, x: Label, u: Code, rest: Code)
    requires Jumpable(C) && KeptOpening(C, entry, x, u, rest) && Num(C, 2) == 1
    ensures exists j :: 0 <= j < |Gathered(C, 0)| && Edge(Gathered(C, 0)[j], 1)
  {
    hide Gathered, Num, Jumpable, Target;
    var i: nat :| i < |rest| && rest[i] == Branch(x + 1);
    assert C[4 + |u| + i] == Branch(x + 1);
    JumpIsEdge(C, 4 + |u| + i);
  }

  /** Then block 1 is the first that stays. */
  lemma SecondIsFirst(bs: seq<L.Block>, rank: seq<nat>, q: nat)
    requires L.WellBuilt(bs) && Acyclic(bs, rank) && OpeningBlocks(bs, q)
    ensures FirstStaying(bs, 0) == 1 && Trace(bs, rank, 0) == q
  {
    assert Cancelled(bs, 0);
    assert Reached(bs, 1, |bs|) && !Cancelled(bs, 1);
    assert FirstStaying(bs, 1) == 1;
    assert Trace(bs, rank, q) == q;
  }

  // ---------- functions ----------

  /** Where the simplified flow graph starts is the block that the code of the function without the jump starts with. */
  lemma SimpleStart(entry: Label, body: Stmt, params: Vars, t: nat, l: nat)
    requires FunctionOk(entry, body, params, t, l)
    ensures var bs := Graph(entry, body, params, t, l); var P := FunctionCode(entry, body, params, t, l);
      && |bs| > 0 && Acyclic(bs, Ranks(bs))
      && (EntryKept(bs, Ranks(bs)) <==> !JumpsOverUpdate(body))
      && (JumpsOverUpdate(body) ==> FirstStaying(bs, 0) == 1 && EntersBlock(P, TargetLabels(P, entry), 2, 1))
  {
    hide FunctionCode, Kept, Gathered, L.WellBuilt, EntersBlock, EntryKept, FirstStaying;
    hide TransStmt, Allot, WellFormed, InScope, Below, Acyclic;
    GraphWellBuilt(entry, body, params, t, l);
    GraphAcyclic(entry, body, params, t, l);
    if OpensWithJump(body) {
      OpeningStarts(entry, body, params, t, l);
    } else {
      OthersKeepEntry(entry, body, params, t, l);
    }
  }

  lemma OpeningStarts(entry: Label, body: Stmt, params: Vars, t: nat, l: nat)
    requires FunctionOk(entry, body, params, t, l) && OpensWithJump(body)
    ensures var bs := Graph(entry, body, params, t, l); var P := FunctionCode(entry, body, params, t, l);
      && |bs| > 0 && Acyclic(bs, Ranks(bs))
      && (EntryKept(bs, Ranks(bs)) <==> !JumpsOverUpdate(body))
      && FirstStaying(bs, 0) == 1 && EntersBlock(P, TargetLabels(P, entry), 2, 1)
  {
    hide Kept, Gathered, L.WellBuilt, Opening, KeptOpening, OpeningBlocks, OpensWithJump, Acyclic, FirstStaying, Trace;
    hide TransStmt, Allot, WellFormed, InScope, Below, UniqueMarks, Rank, Entry, Num, Jumpable;
    GraphWellBuilt(entry, body, params, t, l);
    GraphAcyclic(entry, body, params, t, l);
    FunctionJumpable(entry, body, params, t, l);
    var bs := Graph(entry, body, params, t, l);
    var P := FunctionCode(entry, body, params, t, l);
    var T := TargetLabels(P, entry);
    var vars := Allot(body, params, t);
    FunctionMarks(entry, body, vars, t, l);
    var x, u, rest := Opens(body, vars, t, l);
    var code := TransStmt(body, vars, [], t, l).code;
    OpeningTargets(entry, code, x, u, rest);
    StaysOpening(entry, code, T, x, u, rest);
    OpeningBegins(code, x, u, rest);
    KeptBegins(u, T);
    var q := OpeningIsBlocks(Kept(P, T), entry, x, Kept(u, T), Kept(rest, T));
    SecondIsFirst(bs, Ranks(bs), q);
  }

  lemma OpeningBegins(code: Code, x: Label, u: Code, rest: Code)
    requires Opening(code, x, u, rest)
    ensures Begins(u) && |code| > 1
  {
  }

  lemma OpeningTargets(entry: Label, code: Code, x: Label, u: Code, rest: Code)
    requires Opening(code, x, u, rest)
    ensures var T := TargetLabels([Mark(entry)] + code, entry); entry in T && x in T && x + 1 in T
  {
    var P := [Mark(entry)] + code;
    var i: nat :| i < |rest| && rest[i] == Branch(x + 1);
    assert P[1] == Branch(x) && P[4 + |u| + i] == Branch(x + 1);
    assert Jumps(P[1]) && Jumps(P[4 + |u| + i]);
  }

  lemma OthersKeepEntry(entry: Label, body: Stmt, params: Vars, t: nat, l: nat)
    requires FunctionOk(entry, body, params, t, l) && !OpensWithJump(body)
    ensures var bs := Graph(entry, body, params, t, l); |bs| > 0 && Acyclic(bs, Ranks(bs)) && EntryKept(bs, Ranks(bs))
  {
    hide Gathered, L.WellBuilt, OpensWithJump, Acyclic, FirstStaying, Trace, EntryKept, Kept, Rank;
    hide TransStmt, Allot, InScope, Below, Jumpable, BlockAt, Empty, Proceeds;
    GraphWellBuilt(entry, body, params, t, l);
    GraphAcyclic(entry, body, params, t, l);
    FunctionJumpable(entry, body, params, t, l);
    var bs := Graph(entry, body, params, t, l);
    var P := FunctionCode(entry, body, params, t, l);
    var T := TargetLabels(P, entry);
    var vars := Allot(body, params, t);
    var code := TransStmt(body, vars, [], t, l).code;
    QuietCode(body, vars, [], t, l);
    if Quiet(body) {
      JustTheMark(entry, T);
    } else {
      OthersProceed(body, vars, t, l);
      MarkProceeds(entry, code);
      KeptProceeds(P, T, 0);
      RankEnds(P, T);
      MarkFirst(Kept(P, T));
      NotEmpty(Kept(P, T), 0, 0);
    }
    GatheredAt(Kept(P, T), 0, 0);
    EntryStays(bs, Ranks(bs));
  }

  lemma MarkFirst(C: Code)
    requires Jumpable(C)
    ensures C != [] && C[0].Mark?
  {
  }

  lemma JustTheMark(entry: Label, T: set<Label>)
    requires entry in T
    ensures var C := Kept([Mark(entry)] + [], T); C == [Mark(entry)] && !Empty(BlockAt(C, 0))
  {
    assert ([Mark(entry)] + [])[1..] == [];
  }

  lemma MarkProceeds(entry: Label, code: Code)
    requires Proceeds(code, 0)
    ensures Proceeds([Mark(entry)] + code, 0)
  {
    var m: nat :| ProceedsTo(code, 0, m);
    var P := [Mark(entry)] + code;
    forall i: nat | i < m + 1 ensures P[i].Mark? {
      assert i > 0 ==> P[i] == code[i - 1] && code[i - 1].Mark?;
    }
    assert P[m + 1] == code[m];
    assert ProceedsTo(P, 0, m + 1);
  }

  /**
   * The entry of the flow graph of a function is kept exactly unless the first statement that emits code is a for
   * statement whose initialisation emits none and whose update emits some.
   */
  lemma EntryKeptIff(entry: Label, body: Stmt, params: Vars, t: nat, l: nat)
    requires FunctionOk(entry, body, params, t, l)
    ensures var bs := Graph(entry, body, params, t, l);
      |bs| > 0 && Acyclic(bs, Ranks(bs)) && (EntryKept(bs, Ranks(bs)) <==> !JumpsOverUpdate(body))
  {
    SimpleStart(entry, body, params, t, l);
  }

  /** The simplified flow graph of a function ends as its body does, but with that update done first. */
  lemma SimplePreserves<W>(M: Machine<W>, entry: Label, body: Stmt, params: Vars, vals: Env, env: Env, w: W, t: nat, l: nat,
                           n: nat)
    returns (k: nat)
    requires FunctionOk(entry, body, params, t, l) && Ready(Allot(body, params, t), vals, env)
    requires var o := Perform(M, UpdateFirst(body), vals, w, n); o.Normal? || o.Back? || o.Ended?
    ensures var bs := Graph(entry, body, params, t, l);
      && L.WellBuilt(bs) && Acyclic(bs, Ranks(bs)) && L.WellBuilt(Simplified(bs, Ranks(bs), |bs|))
      && L.RunBlocks(M, Simplified(bs, Ranks(bs), |bs|), L.At(0, env, w), k)
         == GraphEnd(Perform(M, UpdateFirst(body), vals, w, n))
  {
    hide FunctionOk, FunctionCode, Perform, Ready, Allot, L.RunBlocks, L.WellBuilt, Graph, Acyclic, Simplified;
    hide EntersBlock, FirstStaying, EntryKept, Trace, Leads, GoesOn;
    var bs := Graph(entry, body, params, t, l);
    GraphWellBuilt(entry, body, params, t, l);
    SimpleStart(entry, body, params, t, l);
    StartPreserved(M, entry, body, params, vals, env, w, t, l, n);
    var e := End(Perform(M, UpdateFirst(body), vals, w, n));
    if JumpsOverUpdate(body) {
      k := GraphEnds(M, entry, body, params, t, l, 2, 1, env, w, e);
      var m := SimplifyStarts(M, bs, Ranks(bs), env, w, k);
      StaysEnded(M, bs, L.At(1, env, w), k, m);
    } else {
      EntersFirst(entry, body, params, t, l);
      k := GraphEnds(M, entry, body, params, t, l, 0, 0, env, w, e);
      var m := SimplifyPreserves(M, bs, Ranks(bs), env, w, k);
      StaysEnded(M, bs, L.At(0, env, w), k, m);
    }
  }

  lemma StaysEnded<W>(M: Machine<W>, bs: seq<L.Block>, p: L.Place<W>, k: nat, m: nat)
    requires L.WellBuilt(bs) && k <= m && !L.RunBlocks(M, bs, p, k).At?
    ensures L.RunBlocks(M, bs, p, m) == L.RunBlocks(M, bs, p, k)
  {
    hide L.RunBlocks;
    RunOn(M, bs, p, k, m - k);
    Simplification.Ended(M, bs, L.RunBlocks(M, bs, p, k), m - k);
  }

  /** And when it ends, that body has ended in the same way. */
  lemma SimpleReflects<W>(M: Machine<W>, entry: Label, body: Stmt, params: Vars, vals: Env, env: Env, w: W, t: nat, l: nat,
                          k: nat)
    returns (n: nat)
    requires FunctionOk(entry, body, params, t, l) && Ready(Allot(body, params, t), vals, env)
    requires var bs := Graph(entry, body, params, t, l);
      && L.WellBuilt(bs) && Acyclic(bs, Ranks(bs)) && L.WellBuilt(Simplified(bs, Ranks(bs), |bs|))
      && !L.RunBlocks(M, Simplified(bs, Ranks(bs), |bs|), L.At(0, env, w), k).At?
    ensures var bs := Graph(entry, body, params, t, l); var o := Perform(M, UpdateFirst(body), vals, w, n);
      o == Unpromised
      || ((o.Normal? || o.Back? || o.Ended?)
          && GraphEnd(o) == L.RunBlocks(M, Simplified(bs, Ranks(bs), |bs|), L.At(0, env, w), k))
  {
    hide FunctionOk, FunctionCode, Perform, Ready, Allot, L.RunBlocks, L.WellBuilt, Graph, Acyclic, Simplified;
    hide EntersBlock, FirstStaying, EntryKept, Trace, Run;
    var bs := Graph(entry, body, params, t, l);
    GraphWellBuilt(entry, body, params, t, l);
    SimpleStart(entry, body, params, t, l);
    if JumpsOverUpdate(body) {
      var m := SimplifyStarts(M, bs, Ranks(bs), env, w, k);
      n := CodeEnds(M, entry, body, params, t, l, 2, 1, env, w, m);
    } else {
      var m := SimplifyPreserves(M, bs, Ranks(bs), env, w, k);
      EntersFirst(entry, body, params, t, l);
      n := CodeEnds(M, entry, body, params, t, l, 0, 0, env, w, m);
    }
    StartReflected(M, entry, body, params, vals, env, w, t, l, n);
  }

  /**
   * `for (; b; f(x)) ;` at the start of a function, where `b` does not hold: the function ends without a call, the
   * simplified flow graph calls `f` once.
   */
  lemma EntryLost<W>(M: Machine<W>, entry: Label, b: Symbol, f: Label, x: Symbol, params: Vars, vals: Env, env: Env, w: W,
                     t: nat, l: nat)
    returns (body: Stmt, k: nat, m: nat)
    requires b in params && x in params && Below(params, t) && Separate(params) && entry < l
    requires Ready(params, vals, env) && Get(vals, b) == 0
    ensures body == For(Skip, Var(b), CallVoid(f, Arg(Var(x), NoArgs)), Skip) && FunctionOk(entry, body, params, t, l)
    ensures var bs := Graph(entry, body, params, t, l);
      && L.WellBuilt(bs) && Acyclic(bs, Ranks(bs)) && L.WellBuilt(Simplified(bs, Ranks(bs), |bs|))
      && L.RunBlocks(M, bs, L.At(0, env, w), k) == L.Back(Lists.None, w)
      && L.RunBlocks(M, Simplified(bs, Ranks(bs), |bs|), L.At(0, env, w), m)
         == L.Back(Lists.None, M.call(M.parm(w, Get(vals, x)), Function(f)).1)
  {
    hide Acyclic, L.WellBuilt, Simplified, Graph, L.RunBlocks, Below, Ready, Separate, Perform;
    body := For(Skip, Var(b), CallVoid(f, Arg(Var(x), NoArgs)), Skip);
    assert ScopedArgs(Arg(Var(x), NoArgs), params.Keys);
    assert InScope(body, params.Keys);
    assert Allot(body, params, t) == params;
    CallsFirst(M, b, f, x, vals, w);
    assert WellFormed(body, false);
    assert FunctionOk(entry, body, params, t, l);
    k := GraphPreserves(M, entry, body, params, vals, env, w, t, l, 1);
    m := SimplePreserves(M, entry, body, params, vals, env, w, t, l, 1);
  }

  lemma CallsFirst<W>(M: Machine<W>, b: Symbol, f: Label, x: Symbol, vals: Env, w: W)
    requires Get(vals, b) == 0
    ensures var body := For(Skip, Var(b), CallVoid(f, Arg(Var(x), NoArgs)), Skip);
      && Perform(M, body, vals, w, 1) == Normal(vals, w)
      && Perform(M, UpdateFirst(body), vals, w, 1) == Normal(vals, M.call(M.parm(w, Get(vals, x)), Function(f)).1)
  {
    var vs := [Get(vals, x)];
    assert vs[1..] == [];
    assert ParmAll(M, w, vs) == M.parm(w, Get(vals, x));
    assert EvalArgs(M, Arg(Var(x), NoArgs), vals, w) == Values(vs, w);
  }
}
