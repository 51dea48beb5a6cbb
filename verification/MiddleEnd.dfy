/** From a Decaf function to its flow graph: what decaf/src/decaf/translate emits is what decaf/src/decaf/dataflow reads. */
module MiddleEnd {
  import opened Tac
  import opened TacRuns
  import opened DecafTree
  import opened DecafTranslation
  import opened DecafExpressions
  import opened DecafMarks
  import opened DecafJumps
  import opened DecafLoops
  import opened DecafCorrectness
  import L = Liveness
  import opened BasicBlocks
  import opened Simplification

  /** The labels that are marked as targets: those of jumps, and the entry. */
  function TargetLabels(P: Code, entry: Label): set<Label> {
    {entry} + set i | 0 <= i < |P| && Jumps(P[i]) :: P[i].target
  }

  lemma {:induction false} TargetFound(C: Code, l: Label)
    requires Mark(l) in C
    ensures Target(C, l) < |C|
    decreases C
  {
    if C[0] != Mark(l) {
      assert C == [C[0]] + C[1..];
      TargetFound(C[1..], l);
    }
  }

  lemma {:induction false} KeptHas(P: Code, T: set<Label>, i: Instr)
    ensures i in Kept(P, T) <==> i in P && Remains(T, i)
    ensures i in Kept(P, T) <==> i in P && !i.Memo? && (i.Mark? ==> i.target in T)
    decreases P
  {
    if P != [] {
      KeptHas(P[1..], T, i);
      assert P == [P[0]] + P[1..];
    }
  }

  lemma KeptEnds(P: Code, T: set<Label>)
    requires P != [] && Remains(T, P[0]) && Remains(T, P[|P| - 1])
    ensures Kept(P, T) != [] && Kept(P, T)[0] == P[0] && Kept(P, T)[|Kept(P, T)| - 1] == P[|P| - 1]
  {
    KeptOneMore(P, T, |P| - 1);
    assert P[..|P|] == P;
  }

  /** What stays of the code of a function can be cut into blocks. */
  lemma FunctionJumpable(entry: Label, body: Stmt, params: Vars, t: nat, l: nat)
    requires FunctionOk(entry, body, params, t, l)
    ensures var P := FunctionCode(entry, body, params, t, l); var T := TargetLabels(P, entry);
      Targets(P, T) && Jumpable(Kept(P, T)) && P[0] == Mark(entry)
  {
    hide TransStmt, Allot, WellFormed, InScope, Below;
    var P := FunctionCode(entry, body, params, t, l);
    var T := TargetLabels(P, entry);
    var r := TransStmt(body, Allot(body, params, t), [], t, l);
    AllSealed(body, Allot(body, params, t), [], t, l);
    StmtRounded(body, Allot(body, params, t), [], t, l);
    EntryRounded(entry, r.code, T);
    KeptEnds(P, T);
    hide Kept, Sealed;
    forall i: Instr | i in Kept(P, T) ensures Aimed(Kept(P, T), i) {
      KeptHas(P, T, i);
      if Jumps(i) {
        MarkedInside(entry, r.code, Between(l, r.l), i);
        KeptHas(P, T, Mark(i.target));
        TargetFound(Kept(P, T), i.target);
      }
    }
  }

  lemma MarkedInside(entry: Label, code: Code, S: set<Label>, i: Instr)
    requires Sealed(code, S, S + {}) && i in [Mark(entry)] + code && Jumps(i)
    ensures Mark(i.target) in [Mark(entry)] + code && i.target in TargetLabels([Mark(entry)] + code, entry)
  {
  }

  lemma EntryRounded(entry: Label, code: Code, T: set<Label>)
    requires Rounded(code) && T == TargetLabels([Mark(entry)] + code, entry)
    ensures var P := [Mark(entry)] + code; var last := P[|P| - 1];
      Remains(T, Mark(entry)) && Remains(T, last) && !last.Beqz? && !last.Bnez?
  {
    var P := [Mark(entry)] + code;
    if code != [] && code[|code| - 1].Mark? {
      var i :| 0 <= i < |code| && Jumps(code[i]) && code[i].target == code[|code| - 1].target;
      assert P[i + 1] == code[i];
    }
  }

  // ---------- no circles of empty blocks ----------

  lemma FunctionWorks(entry: Label, body: Stmt, params: Vars, t: nat, l: nat)
    requires FunctionOk(entry, body, params, t, l)
    ensures Works(FunctionCode(entry, body, params, t, l))
  {
    hide TransStmt, Allot, WellFormed, InScope, Below, Works, Marks, Sealed;
    var vars := Allot(body, params, t);
    var r := TransStmt(body, vars, [], t, l);
    AllWork(body, vars, [], t, l);
    AllSealed(body, vars, [], t, l);
    OneMark(entry);
    NoBranches([Mark(entry)]);
    WorkOn([Mark(entry)], {entry}, r.code, Between(l, r.l), Between(l, r.l) + {});
  }

  /** Where an instruction that stays was. */
  lemma {:induction false} OldPlace(P: Code, T: set<Label>, n: nat, j: nat) returns (k: nat)
    requires n <= |P| && j < Rank(P, T, n)
    ensures k < n && Remains(T, P[k]) && Rank(P, T, k) == j
    decreases n
  {
    RankEnds(P, T);
    RankStep(P, T, n - 1);
    if Rank(P, T, n - 1) == j {
      k := n - 1;
    } else {
      k := OldPlace(P, T, n - 1, j);
    }
  }

  lemma {:induction false} RankGrows(P: Code, T: set<Label>, j: nat, k: nat)
    requires j <= k <= |P|
    ensures Rank(P, T, j) <= Rank(P, T, k)
    decreases k
  {
    if j < k {
      RankStep(P, T, k - 1);
      RankGrows(P, T, j, k - 1);
    }
  }

  lemma KeptProceeds(P: Code, T: set<Label>, j: nat)
    requires j < |P| && Proceeds(P, j)
    ensures Proceeds(Kept(P, T), Rank(P, T, j))
  {
    hide Kept, Rank;
    var m: nat :| ProceedsTo(P, j, m);
    var C := Kept(P, T);
    RankStep(P, T, m);
    RankGrows(P, T, j, m);
    forall i: nat | Rank(P, T, j) <= i < Rank(P, T, m) ensures i < |C| && C[i].Mark? {
      var k := OldPlace(P, T, m, i);
      RankStep(P, T, k);
      if k < j {
        RankGrows(P, T, k + 1, j);
      }
    }
    assert ProceedsTo(C, Rank(P, T, j), Rank(P, T, m));
  }

  lemma KeptWorks(P: Code, T: set<Label>)
    requires Works(P)
    ensures Works(Kept(P, T))
  {
    hide Kept, Rank, Proceeds;
    var C := Kept(P, T);
    RankEnds(P, T);
    forall j: nat, k: nat | j < k < |C| && C[k].Branch? && C[j] == Mark(C[k].target) ensures Proceeds(C, j) {
      var i := OldPlace(P, T, |P|, j);
      var m := OldPlace(P, T, |P|, k);
      RankStep(P, T, i);
      RankStep(P, T, m);
      if m < i {
        RankGrows(P, T, m + 1, i);
      }
      KeptProceeds(P, T, i);
    }
  }

  /** The more blocks are behind an empty one, the higher its rank. */
  function Ranks(bs: seq<L.Block>): (r: seq<nat>)
    ensures |r| == |bs| && forall b :: 0 <= b < |bs| ==> r[b] == if Empty(bs[b]) then |bs| - b else 0
  {
    seq(|bs|, b requires 0 <= b < |bs| => if Empty(bs[b]) then |bs| - b else 0)
  }

  /** A block entered where the code goes on with work is not empty. */
  lemma NotEmpty(C: Code, j: nat, s: nat)
    requires Proceeds(C, j) && j < |C| && C[j].Mark? && s < |C| && SkipMarks(C, s) == SkipMarks(C, j)
    ensures !Empty(BlockAt(C, s))
  {
    var m: nat :| ProceedsTo(C, j, m);
    SkipsTo(C, j, m);
  }

  lemma {:induction false} SkipsTo(C: Code, j: nat, m: nat)
    requires ProceedsTo(C, j, m)
    ensures SkipMarks(C, j) == m
    decreases m - j
  {
    if j < m {
      SkipsTo(C, j + 1, m);
    }
  }

  /** An empty block that leads back leads to one that is not. */
  lemma NoCircle(C: Code, s: nat)
    requires Jumpable(C) && Works(C) && s < |C| && Starts(C, s) && Empty(BlockAt(C, s))
    ensures var bs := Gathered(C, 0); var b := BlockAt(C, s);
      b.next0 < |bs| && (Empty(bs[b.next0]) ==> Num(C, s) < b.next0)
  {
    hide Gathered, BlockAt, Works, Jumpable, Num;
    var f := EmptyIsJump(C, s);
    var there := JumpTarget(C, f);
    var to := EntryOf(C, there);
    GatheredAt(C, 0, to);
    FirstIsZero(C);
    if there < f {
      WorksAt(C, there, f);
      NotEmpty(C, there, to);
    } else {
      MarksBelong(C, s, f);
      AfterJump(C, f, there);
    }
  }

  lemma FirstIsZero(C: Code)
    requires C != []
    ensures Num(C, 0) == 0
  {
  }

  lemma WorksAt(C: Code, j: nat, k: nat)
    requires Works(C) && j < k < |C| && C[k].Branch? && C[j] == Mark(C[k].target)
    ensures Proceeds(C, j)
  {
  }

  lemma JumpTarget(C: Code, f: nat) returns (there: nat)
    requires Jumpable(C) && f < |C| && C[f].Branch?
    ensures there == Target(C, C[f].target) < |C| && C[there] == Mark(C[f].target) && there != f
  {
    assert Aimed(C, C[f]);
    there := Target(C, C[f].target);
  }

  /** An empty block is a jump. */
  lemma EmptyIsJump(C: Code, s: nat) returns (f: nat)
    requires s < |C| && Empty(BlockAt(C, s))
    ensures f == SkipMarks(C, s) < |C| && C[f].Branch? && BlockAt(C, s).next0 == NumAt(C, C[f].target)
    ensures forall j :: s <= j < f ==> C[j].Mark?
  {
    f := SkipMarks(C, s);
  }

  lemma AfterJump(C: Code, f: nat, j: nat)
    requires f < j < |C| && C[f].Branch?
    ensures Num(C, f) < Num(C, j)
  {
    NumGrows(C, f + 1, j);
    NumGrows(C, f, f + 1);
  }

  /** Empty blocks of a function do not lead in a circle. */
  lemma GraphAcyclic(entry: Label, body: Stmt, params: Vars, t: nat, l: nat)
    requires FunctionOk(entry, body, params, t, l)
    ensures var bs := Graph(entry, body, params, t, l); Acyclic(bs, Ranks(bs))
  {
    hide FunctionCode, FunctionOk, Kept;
    var P := FunctionCode(entry, body, params, t, l);
    var C := Kept(P, TargetLabels(P, entry));
    FunctionJumpable(entry, body, params, t, l);
    FunctionWorks(entry, body, params, t, l);
    KeptWorks(P, TargetLabels(P, entry));
    var bs := Gathered(C, 0);
    forall b | 0 <= b < |bs| && Empty(bs[b]) ensures bs[b].next0 < |bs| && Ranks(bs)[bs[b].next0] < Ranks(bs)[b] {
      var s := StartOfBlock(C, 0, b);
      NoCircle(C, s);
    }
  }

  /** The start of a block. */
  lemma {:induction false} StartOfBlock(C: Code, s: nat, b: nat) returns (k: nat)
    requires s < |C| && Starts(C, s) && b < |Gathered(C, s)|
    ensures s <= k < |C| && Starts(C, k) && Num(C, k) == Num(C, s) + b && Gathered(C, s)[b] == BlockAt(C, k)
    decreases b
  {
    if b == 0 {
      k := s;
    } else {
      var n := NextStart(C, s);
      NextNum(C, s);
      k := StartOfBlock(C, n, b - 1);
    }
  }

  /** What stays of the code of a function, and its flow graph before it is simplified. */
  function KeptCode(entry: Label, body: Stmt, params: Vars, t: nat, l: nat): Code {
    var P := FunctionCode(entry, body, params, t, l);
    Kept(P, TargetLabels(P, entry))
  }

  function Graph(entry: Label, body: Stmt, params: Vars, t: nat, l: nat): seq<L.Block> {
    Gathered(KeptCode(entry, body, params, t, l), 0)
  }

  lemma GraphWellBuilt(entry: Label, body: Stmt, params: Vars, t: nat, l: nat)
    requires FunctionOk(entry, body, params, t, l)
    ensures var bs := Graph(entry, body, params, t, l); L.WellBuilt(bs) && L.ReturnsToStart(bs) && |bs| > 0
  {
    hide FunctionCode, FunctionOk;
    FunctionJumpable(entry, body, params, t, l);
    GatheredWellBuilt(KeptCode(entry, body, params, t, l));
  }

  /**
   * Behind code that is no mark a block starts exactly where control leaves the code before it, or at a label that some
   * jump goes to: blocks are no shorter than they have to be.
   */
  lemma BlocksStart(entry: Label, body: Stmt, params: Vars, t: nat, l: nat, s: nat)
    requires FunctionOk(entry, body, params, t, l) && 0 < s < |KeptCode(entry, body, params, t, l)|
    requires !KeptCode(entry, body, params, t, l)[s - 1].Mark?
    ensures var C := KeptCode(entry, body, params, t, l);
      Starts(C, s) <==> Jumps(C[s - 1]) || C[s - 1].Return? || exists k :: JumpsTo(C, k, C[s])
  {
    hide FunctionCode, FunctionOk, Kept;
    var P := FunctionCode(entry, body, params, t, l);
    var T := TargetLabels(P, entry);
    var C := Kept(P, T);
    FunctionJumpable(entry, body, params, t, l);
    if C[s].Mark? {
      FunctionOnce(entry, body, params, t, l);
      KeptTargeted(P, entry, s);
    }
  }

  predicate JumpsTo(C: Code, k: nat, i: Instr) {
    k < |C| && Jumps(C[k]) && i.Mark? && C[k].target == i.target
  }

  lemma FunctionOnce(entry: Label, body: Stmt, params: Vars, t: nat, l: nat)
    requires FunctionOk(entry, body, params, t, l)
    ensures UniqueMarks(FunctionCode(entry, body, params, t, l))
  {
    FunctionMarks(entry, body, Allot(body, params, t), t, l);
  }

  /** Marks that stay, but that of the entry, are those of jumps. */
  lemma KeptTargeted(P: Code, entry: Label, s: nat)
    requires UniqueMarks(P) && P != [] && P[0] == Mark(entry)
    requires var C := Kept(P, TargetLabels(P, entry)); 0 < s < |C| && C[s].Mark?
    ensures var C := Kept(P, TargetLabels(P, entry)); exists k :: JumpsTo(C, k, C[s])
  {
    var T := TargetLabels(P, entry);
    var C := Kept(P, T);
    RankEnds(P, T);
    var j := OldPlace(P, T, |P|, s);
    RankStep(P, T, j);
    hide Kept, Rank;
    assert C[s] == P[j] && P[j].target != entry;
    var i :| 0 <= i < |P| && Jumps(P[i]) && P[i].target == C[s].target;
    KeptHas(P, T, P[i]);
    var k :| 0 <= k < |C| && C[k] == P[i];
    assert JumpsTo(C, k, C[s]);
  }

  /** How the flow graph ends where the code ends, and where the source ends. */
  function Ending<W>(e: Config<W>): L.Place<W>
    requires !e.Running?
  {
    if e.Returned? then L.Back(e.value, e.w) else L.Dead(e.w)
  }

  function GraphEnd<W>(o: Outcome<W>): L.Place<W>
    requires o.Normal? || o.Back? || o.Ended?
  {
    Ending(End(o))
  }

  /** Block `b` of the flow graph is entered at instruction `k` of what stays, or of all of the code. */
  predicate Enters(C: Code, k: nat, b: nat) {
    Entry(C, k) && Num(C, k) == b
  }

  predicate EntersBlock(P: Code, T: set<Label>, k: nat, b: nat) {
    k < |P| && Enters(Kept(P, T), Rank(P, T, k), b)
  }

  lemma EntersFirst(entry: Label, body: Stmt, params: Vars, t: nat, l: nat)
    requires FunctionOk(entry, body, params, t, l)
    ensures var P := FunctionCode(entry, body, params, t, l); EntersBlock(P, TargetLabels(P, entry), 0, 0)
  {
    hide FunctionCode, FunctionOk, Kept;
    FunctionJumpable(entry, body, params, t, l);
    var P := FunctionCode(entry, body, params, t, l);
    RankEnds(P, TargetLabels(P, entry));
  }

  /** Where the code of a function ends from some place on, its flow graph ends from the block of that place on. */
  lemma GraphEnds<W>(M: Machine<W>, entry: Label, body: Stmt, params: Vars, t: nat, l: nat, k: nat, b: nat, env: Env, w: W,
                     e: Config<W>)
    returns (n: nat)
    requires FunctionOk(entry, body, params, t, l) && !e.Running?
    requires var P := FunctionCode(entry, body, params, t, l);
      EntersBlock(P, TargetLabels(P, entry), k, b) && Leads(M, P, Running(k, env, w), 0, e)
    ensures var bs := Graph(entry, body, params, t, l);
      L.WellBuilt(bs) && L.RunBlocks(M, bs, L.At(b, env, w), n) == Ending(e)
  {
    hide FunctionCode, FunctionOk, L.RunBlocks, L.WellBuilt, Entry, Num, Rank, Kept, Jumpable, Targets;
    var P := FunctionCode(entry, body, params, t, l);
    var T := TargetLabels(P, entry);
    FunctionJumpable(entry, body, params, t, l);
    KeptPreserves(M, P, T, k, env, w, e);
    n :| n >= 0 && Run(M, Kept(P, T), Running(Rank(P, T, k), env, w), n) == e;
    hide Run, Leads;
    GatherReflects(M, Kept(P, T), Rank(P, T, k), env, w, n);
  }

  /** And where the flow graph ends, the code ends in the same way. */
  lemma CodeEnds<W>(M: Machine<W>, entry: Label, body: Stmt, params: Vars, t: nat, l: nat, k: nat, b: nat, env: Env, w: W,
                    m: nat)
    returns (n: nat)
    requires FunctionOk(entry, body, params, t, l)
    requires var P := FunctionCode(entry, body, params, t, l); EntersBlock(P, TargetLabels(P, entry), k, b)
    requires var bs := Graph(entry, body, params, t, l);
      L.WellBuilt(bs) && !L.RunBlocks(M, bs, L.At(b, env, w), m).At?
    ensures var e := Run(M, FunctionCode(entry, body, params, t, l), Running(k, env, w), n);
      !e.Running? && Ending(e) == L.RunBlocks(M, Graph(entry, body, params, t, l), L.At(b, env, w), m)
  {
    hide FunctionCode, FunctionOk, L.RunBlocks, L.WellBuilt, Entry, Num, Rank, Kept, Jumpable, Targets, GoesOn;
    var P := FunctionCode(entry, body, params, t, l);
    var T := TargetLabels(P, entry);
    var q := L.RunBlocks(M, Graph(entry, body, params, t, l), L.At(b, env, w), m);
    FunctionJumpable(entry, body, params, t, l);
    GatherPreserves(M, Kept(P, T), Rank(P, T, k), env, w, m);
    var e := if q.Back? then Returned(q.value, q.w) else Halted(q.w);
    KeptPreserves(M, P, T, k, env, w, e);
    n :| n >= 0 && Run(M, P, Running(k, env, w), n) == e;
  }

  /** The flow graph of a function ends as its body does. */
  lemma GraphPreserves<W>(M: Machine<W>, entry: Label, body: Stmt, params: Vars, vals: Env, env: Env, w: W, t: nat, l: nat,
                          n: nat)
    returns (k: nat)
    requires FunctionOk(entry, body, params, t, l) && Ready(Allot(body, params, t), vals, env)
    requires var o := Perform(M, body, vals, w, n); o.Normal? || o.Back? || o.Ended?
    ensures var bs := Graph(entry, body, params, t, l);
      L.WellBuilt(bs) && L.RunBlocks(M, bs, L.At(0, env, w), k) == GraphEnd(Perform(M, body, vals, w, n))
  {
    hide FunctionCode, FunctionOk, Perform, Ready, Allot, Leads, GoesOn, L.RunBlocks, L.WellBuilt, EntersBlock;
    FunctionPreserved(M, entry, body, params, vals, env, w, t, l, n);
    EntersFirst(entry, body, params, t, l);
    k := GraphEnds(M, entry, body, params, t, l, 0, 0, env, w, End(Perform(M, body, vals, w, n)));
  }

  /** Conversely, when the flow graph ends, the source has ended, in the same way. */
  lemma GraphReflects<W>(M: Machine<W>, entry: Label, body: Stmt, params: Vars, vals: Env, env: Env, w: W, t: nat, l: nat,
                         k: nat)
    returns (n: nat)
    requires FunctionOk(entry, body, params, t, l) && Ready(Allot(body, params, t), vals, env)
    requires var bs := Graph(entry, body, params, t, l);
      L.WellBuilt(bs) && !L.RunBlocks(M, bs, L.At(0, env, w), k).At?
    ensures var o := Perform(M, body, vals, w, n);
      o == Unpromised || ((o.Normal? || o.Back? || o.Ended?)
                          && GraphEnd(o) == L.RunBlocks(M, Graph(entry, body, params, t, l), L.At(0, env, w), k))
  {
    hide FunctionCode, FunctionOk, Perform, Ready, Allot, Run, L.RunBlocks, L.WellBuilt, EntersBlock;
    EntersFirst(entry, body, params, t, l);
    n := CodeEnds(M, entry, body, params, t, l, 0, 0, env, w, k);
    FunctionReflected(M, entry, body, params, vals, env, w, t, l, n);
  }
}
