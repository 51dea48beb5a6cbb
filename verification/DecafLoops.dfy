/** No loop in the code of a function consists of nothing but jumps. */
module DecafLoops {
  import opened Lists
  import opened Tac
  import opened DecafTree
  import opened DecafTranslation
  import opened DecafOperations
  import opened DecafMarks
  import opened DecafJumps

  /** The first instruction from `j` on that is no mark is no unconditional jump either, and does something. */
  ghost predicate Proceeds(C: Code, j: nat) {
    exists m: nat :: ProceedsTo(C, j, m)
  }

  predicate ProceedsTo(C: Code, j: nat, m: nat) {
    j <= m < |C| && !C[m].Mark? && !C[m].Branch? && !C[m].Memo? && forall i :: j <= i < m ==> C[i].Mark?
  }

  /** Where a jump goes back, code that does something follows. */
  ghost predicate Works(C: Code) {
    forall j: nat, k: nat :: j < k < |C| && C[k].Branch? && C[j] == Mark(C[k].target) ==> Proceeds(C, j)
  }

  lemma ProceedsOn(A: Code, B: Code, j: nat)
    ensures Proceeds(A, j) ==> Proceeds(A + B, j)
    ensures Proceeds(B, j) ==> Proceeds(A + B, |A| + j)
  {
    if Proceeds(A, j) {
      var m: nat :| ProceedsTo(A, j, m);
      assert ProceedsTo(A + B, j, m);
    }
    if Proceeds(B, j) {
      var m: nat :| ProceedsTo(B, j, m);
      forall i | |A| + j <= i < |A| + m ensures (A + B)[i].Mark? {
        assert B[i - |A|].Mark?;
      }
      assert ProceedsTo(A + B, |A| + j, |A| + m);
    }
  }

  /** The second piece does not jump back into the first. */
  lemma WorkOn(A: Code, S: set<Label>, B: Code, T: set<Label>, X: set<Label>)
    requires Works(A) && Marks(A, S) && Works(B) && Sealed(B, T, X) && S !! X
    ensures Works(A + B)
  {
    var C := A + B;
    forall k: nat | |A| <= k < |C| && C[k].Branch? ensures C[k].target in X {
      assert C[k] == B[k - |A|] && Jumps(B[k - |A|]);
    }
    forall j: nat | j < |A| && C[j].Mark? ensures C[j].target in S {
      assert A[j].Mark?;
    }
    forall j: nat, k: nat | j < k < |C| && C[k].Branch? && C[j] == Mark(C[k].target) ensures Proceeds(C, j) {
      if k < |A| {
        ProceedsOn(A, B, j);
      } else if j >= |A| {
        assert C[k] == B[k - |A|] && C[j] == B[j - |A|];
        ProceedsOn(A, B, j - |A|);
      }
    }
  }

  lemma NoBranches(C: Code)
    requires forall i :: 0 <= i < |C| ==> !C[i].Branch?
    ensures Works(C)
  {
  }

  /** A piece that does not jump at the end. */
  lemma WorkPlain(A: Code, B: Code)
    requires Works(A) && forall i :: 0 <= i < |B| ==> !B[i].Branch?
    ensures Works(A + B)
  {
    var C := A + B;
    forall k: nat | |A| <= k < |C| ensures !C[k].Branch? {
      assert C[k] == B[k - |A|];
    }
    forall j: nat, k: nat | j < k < |C| && C[k].Branch? && C[j] == Mark(C[k].target) ensures Proceeds(C, j) {
      ProceedsOn(A, B, j);
    }
  }

  /** A jump at the end, to places from where it goes on. */
  lemma WorkBack(A: Code, x: Label, B: Code)
    requires Works(A) && (forall j: nat :: j < |A| && A[j] == Mark(x) ==> Proceeds(A, j))
    requires forall i :: 0 <= i < |B| ==> !B[i].Branch?
    ensures Works(A + [Branch(x)] + B)
  {
    var D := A + [Branch(x)];
    forall j: nat, k: nat | j < k < |D| && D[k].Branch? && D[j] == Mark(D[k].target) ensures Proceeds(D, j) {
      ProceedsOn(A, [Branch(x)], j);
    }
    WorkPlain(D, B);
  }

  // ---------- expressions ----------

  /** Code that begins with something that is neither a mark nor a jump nor a memo. */
  predicate Begins(C: Code) {
    C == [] || (!C[0].Mark? && !C[0].Branch? && !C[0].Memo?)
  }

  lemma OwnBegins(e: Expr, ts: seq<Temp>, t: nat, l: nat)
    requires |ts| == |Operands(e)|
    ensures Begins(OwnCode(e, ts, t, l))
  {
    if e.Call? && ts != [] {
      assert ParmCode(ts)[0] == Parm(ts[0]);
    }
  }

  lemma OwnWorks(e: Expr, ts: seq<Temp>, t: nat, l: nat)
    requires |ts| == |Operands(e)|
    ensures Works(OwnCode(e, ts, t, l))
  {
    if e.NewArray? {
      ArrayWorks(ts[0], t, l);
    } else {
      OwnDoesNotBranch(e, ts, t, l);
      NoBranches(OwnCode(e, ts, t, l));
    }
  }

  lemma ArrayWorks(n: Temp, t: nat, l: nat)
    ensures Works(CheckSizeCode(n, t, l) + AllocateCode(n, t + 3) + ClearCode(t + 3, t + 5, t + 6, t + 7, l + 1))
  {
    hide Marks, Works, Sealed, CheckSizeCode, AllocateCode, ClearCode;
    var A := CheckSizeCode(n, t, l) + AllocateCode(n, t + 3);
    var C := ClearCode(t + 3, t + 5, t + 6, t + 7, l + 1);
    SizeMarks(n, t, l);
    AllocatesPlainly(n, t, l);
    ClearSealed(t + 3, t + 5, t + 6, t + 7, l + 1);
    ClearWorks(t + 3, t + 5, t + 6, t + 7, l + 1);
    Join(CheckSizeCode(n, t, l), Between(l, l + 1), AllocateCode(n, t + 3), {});
    WorkOn(A, Between(l, l + 1) + {}, C, Between(l + 1, l + 3), Between(l + 1, l + 3));
  }

  lemma AllocatesPlainly(n: Temp, t: nat, l: nat)
    ensures Works(CheckSizeCode(n, t, l) + AllocateCode(n, t + 3)) && Marks(AllocateCode(n, t + 3), {})
  {
    NoMarks(AllocateCode(n, t + 3));
    NoBranches(CheckSizeCode(n, t, l) + AllocateCode(n, t + 3));
  }

  /** The loop that clears an array stores something in every round. */
  lemma ClearWorks(unit: Temp, size: Temp, obj: Temp, zero: Temp, l: nat)
    ensures Works(ClearCode(unit, size, obj, zero, l))
  {
    var C := ClearCode(unit, size, obj, zero, l);
    assert C[0] == Mark(l) && C[5] == Branch(l);
    assert ProceedsTo(C, 0, 1);
  }

  lemma OwnDoesNotBranch(e: Expr, ts: seq<Temp>, t: nat, l: nat)
    requires |ts| == |Operands(e)| && !e.NewArray?
    ensures forall i :: 0 <= i < |OwnCode(e, ts, t, l)| ==> !OwnCode(e, ts, t, l)[i].Branch?
  {
    match e
    case Call(_, _) => ParmsDoNotJump(ts);
    case Invoke(_, offset, _) => DispatchDoesNotJump(ts[0], ts[1..], offset, Some(t + 2), t);
    case TypeCast(_, _, _) => hide ComplainCastCode; ComplainDoesNotJump(ts[0], e.cls, t + 3);
    case _ =>
  }

  lemma {:induction false} ExprWorks(e: Expr, vars: Vars, t: nat, l: nat)
    ensures Works(TransExpr(e, vars, t, l).code) && Begins(TransExpr(e, vars, t, l).code)
    decreases e, 1
  {
    hide TransSeq, OwnCode, OwnLabels, Operands, Works, Marks, Sealed;
    if e.Var? {
      NoBranches([]);
    } else {
      CodeShape(e, vars, t, l);
      OperandsRank(e);
      hide TransExpr;
      SeqWorks(Operands(e), e, vars, t, l);
      SeqMarks(Operands(e), e, vars, t, l);
      var o := TransSeq(Operands(e), vars, t, l);
      OwnWorks(e, o.vals, o.t, o.l);
      OwnBegins(e, o.vals, o.t, o.l);
      OwnSealed(e, o.vals, o.t, o.l);
      WorkOn(o.code, Between(l, o.l), OwnCode(e, o.vals, o.t, o.l), Between(o.l, o.l + OwnLabels(e)),
             Between(o.l, o.l + OwnLabels(e)) + {});
      assert o.code == [] ==> o.code + OwnCode(e, o.vals, o.t, o.l) == OwnCode(e, o.vals, o.t, o.l);
    }
  }

  lemma {:induction false} SeqWorks(es: seq<Expr>, parent: Expr, vars: Vars, t: nat, l: nat)
    requires Ranks(es, parent)
    ensures Works(TransSeq(es, vars, t, l).code) && Begins(TransSeq(es, vars, t, l).code)
    decreases parent, 0, es
  {
    hide TransExpr, Works, Marks, Sealed;
    if es == [] {
      NoBranches([]);
    } else {
      var a := TransExpr(es[0], vars, t, l);
      var b := TransSeq(es[1..], vars, a.t, a.l);
      ExprWorks(es[0], vars, t, l);
      ExprMarks(es[0], vars, t, l);
      SeqWorks(es[1..], parent, vars, a.t, a.l);
      SeqSealed(es[1..], parent, vars, a.t, a.l);
      WorkOn(a.code, Between(l, a.l), b.code, Between(a.l, b.l), Between(a.l, b.l) + {});
      assert a.code == [] ==> a.code + b.code == b.code;
    }
  }

  lemma ArgsWork(args: Args, vars: Vars, t: nat, l: nat)
    ensures Works(TransArgs(args, vars, t, l).code) && Begins(TransArgs(args, vars, t, l).code)
  {
    hide Works, TransExpr;
    OperandsRank(Call(0, args));
    SeqWorks(ListOf(args), Call(0, args), vars, t, l);
    ArgsAreSeq(args, vars, t, l);
  }

  // ---------- statements ----------

  /** Breaks leave for labels from before. */
  predicate Before(exits: seq<Label>, l: nat) {
    exits != [] ==> exits[|exits| - 1] < l
  }

  ghost predicate StmtWorks(s: Stmt, vars: Vars, exits: seq<Label>, t: nat, l: nat) {
    Works(TransStmt(s, vars, exits, t, l).code)
  }

  lemma PlainWorks(s: Stmt, vars: Vars, exits: seq<Label>, t: nat, l: nat)
    requires !s.Seq? && !s.IfThen? && !s.IfElse? && !s.While? && !s.For?
    ensures StmtWorks(s, vars, exits, t, l)
    ensures IsSimple(s) ==> Begins(TransStmt(s, vars, exits, t, l).code)
  {
    if s.AssignVar? || s.Exec? || s.Print? || s.ReturnValue? {
      ValueWorks(s, vars, exits, t, l);
    } else if s.AssignField? {
      FieldWorks(s, vars, exits, t, l);
    } else if s.AssignElement? {
      ElementWorks(s, vars, exits, t, l);
    } else if s.CallVoid? || s.InvokeVoid? {
      CallWorks(s, vars, exits, t, l);
    }
  }

  lemma ValueWorks(s: Stmt, vars: Vars, exits: seq<Label>, t: nat, l: nat)
    requires s.AssignVar? || s.Exec? || s.Print? || s.ReturnValue?
    ensures StmtWorks(s, vars, exits, t, l) && Begins(TransStmt(s, vars, exits, t, l).code)
  {
    hide TransExpr, Works;
    ExprWorks(s.e, vars, t, l);
    var r := TransExpr(s.e, vars, t, l);
    match s
    case AssignVar(x, _) => WorkPlain(r.code, [Assign(Slot(vars, x), r.val)]);
    case Print(callee, _) => WorkPlain(r.code, [Parm(r.val), DirectCall(None, callee)]);
    case ReturnValue(_) => WorkPlain(r.code, [Return(Some(r.val))]);
    case Exec(_) =>
  }

  lemma FieldWorks(s: Stmt, vars: Vars, exits: seq<Label>, t: nat, l: nat)
    requires s.AssignField?
    ensures StmtWorks(s, vars, exits, t, l) && Begins(TransStmt(s, vars, exits, t, l).code)
  {
    hide TransExpr, Works, Marks, Sealed;
    var o := TransExpr(s.owner, vars, t, l);
    var r := TransExpr(s.e, vars, o.t + 1, o.l);
    var load := [Load(o.t, o.val, s.offset)];
    ExprWorks(s.owner, vars, t, l);
    ExprMarks(s.owner, vars, t, l);
    ExprWorks(s.e, vars, o.t + 1, o.l);
    ExprSealed(s.e, vars, o.t + 1, o.l);
    WorkPlain(o.code, load);
    Plus(o.code, l, o.l, load);
    WorkOn(o.code + load, Between(l, o.l), r.code, Between(o.l, r.l), Between(o.l, r.l) + {});
    WorkPlain(o.code + load + r.code, [Store(r.val, o.val, s.offset)]);
  }

  lemma ElementWorks(s: Stmt, vars: Vars, exits: seq<Label>, t: nat, l: nat)
    requires s.AssignElement?
    ensures StmtWorks(s, vars, exits, t, l) && Begins(TransStmt(s, vars, exits, t, l).code)
  {
    hide TransExpr, Works, Marks, Sealed;
    var a := TransExpr(s.arr, vars, t, l);
    var i := TransExpr(s.index, vars, a.t, a.l);
    var x := TransExpr(Indexed(s.arr, s.index), vars, t, l);
    var r := TransExpr(s.e, vars, x.t, x.l);
    ExprWorks(Indexed(s.arr, s.index), vars, t, l);
    ExprMarks(Indexed(s.arr, s.index), vars, t, l);
    ExprWorks(s.e, vars, x.t, x.l);
    ExprSealed(s.e, vars, x.t, x.l);
    WorkOn(x.code, Between(l, x.l), r.code, Between(x.l, r.l), Between(x.l, r.l) + {});
    WorkPlain(x.code + r.code, AddressCode(a.val, i.val, r.t));
    WorkPlain(x.code + r.code + AddressCode(a.val, i.val, r.t), [Store(r.val, r.t + 2, 0)]);
    NotNothing(s, vars, t, l);
  }

  lemma NotNothing(s: Stmt, vars: Vars, t: nat, l: nat)
    requires s.AssignElement?
    ensures TransExpr(Indexed(s.arr, s.index), vars, t, l).code != []
  {
    ElementShape(Indexed(s.arr, s.index), vars, t, l);
  }

  lemma CallWorks(s: Stmt, vars: Vars, exits: seq<Label>, t: nat, l: nat)
    requires s.CallVoid? || s.InvokeVoid?
    ensures StmtWorks(s, vars, exits, t, l) && Begins(TransStmt(s, vars, exits, t, l).code)
  {
    hide TransExpr, TransArgs, Works, Marks, Sealed;
    match s
    case CallVoid(f, args) =>
      var a := TransArgs(args, vars, t, l);
      ArgsWork(args, vars, t, l);
      ParmsDoNotJump(a.vals);
      WorkPlain(a.code, ParmCode(a.vals));
      WorkPlain(a.code + ParmCode(a.vals), [DirectCall(None, Function(f))]);
    case InvokeVoid(receiver, offset, args) =>
      var o := TransExpr(receiver, vars, t, l);
      var a := TransArgs(args, vars, o.t, o.l);
      ExprWorks(receiver, vars, t, l);
      ExprMarks(receiver, vars, t, l);
      ArgsWork(args, vars, o.t, o.l);
      ArgsSealed(args, vars, o.t, o.l);
      DispatchDoesNotJump(o.val, a.vals, offset, None, a.t);
      WorkOn(o.code, Between(l, o.l), a.code, Between(o.l, a.l), Between(o.l, a.l) + {});
      WorkPlain(o.code + a.code, DispatchCode(o.val, a.vals, offset, None, a.t));
  }

  lemma {:induction false} AllWork(s: Stmt, vars: Vars, exits: seq<Label>, t: nat, l: nat)
    requires WellFormed(s, exits != []) && Before(exits, l)
    ensures StmtWorks(s, vars, exits, t, l)
    decreases s, 1
  {
    hide StmtWorks, Before;
    match s
    case Seq(_, _) => BlockWorks(s, vars, exits, t, l);
    case IfThen(_, _) => ThenWorks(s, vars, exits, t, l);
    case IfElse(_, _, _) => ElseWorks(s, vars, exits, t, l);
    case While(_, _) => WhileWorks(s, vars, exits, t, l);
    case For(_, _, _, _) => ForWorks(s, vars, exits, t, l);
    case _ => PlainWorks(s, vars, exits, t, l);
  }

  lemma BlockWorks(s: Stmt, vars: Vars, exits: seq<Label>, t: nat, l: nat)
    requires s.Seq? && WellFormed(s, exits != []) && Before(exits, l)
    ensures StmtWorks(s, vars, exits, t, l)
    decreases s, 0
  {
    hide TransExpr, TransStmt, Works, Marks, Sealed;
    BlockShape(s, vars, exits, t, l);
    var x := TransStmt(s.first, vars, exits, t, l);
    var y := TransStmt(s.second, vars, exits, x.t, x.l);
    AllWork(s.first, vars, exits, t, l);
    AllWork(s.second, vars, exits, x.t, x.l);
    StmtMarks(s.first, vars, exits, t, l);
    AllSealed(s.second, vars, exits, x.t, x.l);
    WorkOn(x.code, Between(l, x.l), y.code, Between(x.l, y.l), Between(x.l, y.l) + Way(exits));
  }

  lemma ThenWorks(s: Stmt, vars: Vars, exits: seq<Label>, t: nat, l: nat)
    requires s.IfThen? && WellFormed(s, exits != []) && Before(exits, l)
    ensures StmtWorks(s, vars, exits, t, l)
    decreases s, 0
  {
    hide TransExpr, TransStmt, Works, Marks, Sealed;
    ThenShape(s, vars, exits, t, l);
    var c := TransExpr(s.cond, vars, t, l);
    var y := TransStmt(s.yes, vars, exits, c.t, c.l + 1);
    ConditionWorks(s.cond, vars, t, l, c.l);
    AllWork(s.yes, vars, exits, c.t, c.l + 1);
    AllSealed(s.yes, vars, exits, c.t, c.l + 1);
    var A := c.code + [Beqz(c.val, c.l)];
    WorkOn(A, Between(l, c.l), y.code, Between(c.l + 1, y.l), Between(c.l + 1, y.l) + Way(exits));
    WorkPlain(A + y.code, [Mark(c.l)]);
  }

  /** A condition and the jump that it decides. */
  lemma ConditionWorks(cond: Expr, vars: Vars, t: nat, l: nat, x: Label)
    ensures var c := TransExpr(cond, vars, t, l); var A := c.code + [Beqz(c.val, x)];
      Works(A) && Begins(A) && Marks(A, Between(l, c.l))
  {
    hide TransExpr, Works, Marks;
    var c := TransExpr(cond, vars, t, l);
    ExprWorks(cond, vars, t, l);
    ExprMarks(cond, vars, t, l);
    WorkPlain(c.code, [Beqz(c.val, x)]);
    Plus(c.code, l, c.l, [Beqz(c.val, x)]);
  }

  lemma ElseWorks(s: Stmt, vars: Vars, exits: seq<Label>, t: nat, l: nat)
    requires s.IfElse? && WellFormed(s, exits != []) && Before(exits, l)
    ensures StmtWorks(s, vars, exits, t, l)
    decreases s, 0
  {
    hide TransExpr, TransStmt, Works, Marks, Sealed;
    ElseShape(s, vars, exits, t, l);
    var c := TransExpr(s.cond, vars, t, l);
    var y := TransStmt(s.yes, vars, exits, c.t, c.l + 1);
    var z := TransStmt(s.no, vars, exits, y.t, y.l + 1);
    ConditionWorks(s.cond, vars, t, l, c.l);
    AllWork(s.yes, vars, exits, c.t, c.l + 1);
    AllSealed(s.yes, vars, exits, c.t, c.l + 1);
    StmtMarks(s.yes, vars, exits, c.t, c.l + 1);
    AllWork(s.no, vars, exits, y.t, y.l + 1);
    AllSealed(s.no, vars, exits, y.t, y.l + 1);
    var A := c.code + [Beqz(c.val, c.l)];
    var S := Between(l, c.l) + Between(c.l + 1, y.l);
    WorkOn(A, Between(l, c.l), y.code, Between(c.l + 1, y.l), Between(c.l + 1, y.l) + Way(exits));
    Join(A, Between(l, c.l), y.code, Between(c.l + 1, y.l));
    NotMarked(A + y.code, S, y.l);
    WorkBack(A + y.code, y.l, [Mark(c.l)]);
    var B := A + y.code + [Branch(y.l), Mark(c.l)];
    assert B == A + y.code + [Branch(y.l)] + [Mark(c.l)];
    TwoPieceMarks(Branch(y.l), c.l);
    Join(A + y.code, S, [Branch(y.l), Mark(c.l)], {c.l});
    WorkOn(B, S + {c.l}, z.code, Between(y.l + 1, z.l), Between(y.l + 1, z.l) + Way(exits));
    WorkPlain(B + z.code, [Mark(y.l)]);
  }

  lemma NotMarked(A: Code, S: set<Label>, x: Label)
    requires Marks(A, S) && x !in S
    ensures forall j: nat :: j < |A| ==> A[j] != Mark(x)
  {
  }

  lemma TwoPieceMarks(i: Instr, x: Label)
    requires !i.Mark?
    ensures Marks([i, Mark(x)], {x})
  {
  }

  lemma WhileWorks(s: Stmt, vars: Vars, exits: seq<Label>, t: nat, l: nat)
    requires s.While? && WellFormed(s, exits != []) && Before(exits, l)
    ensures StmtWorks(s, vars, exits, t, l)
    decreases s, 0
  {
    hide TransExpr, TransStmt, Works, Marks, Sealed;
    WhileShape(s, vars, exits, t, l);
    var c := TransExpr(s.cond, vars, t, l + 1);
    var b := TransStmt(s.body, vars, exits + [c.l], c.t, c.l + 1);
    ConditionWorks(s.cond, vars, t, l + 1, c.l);
    AllWork(s.body, vars, exits + [c.l], c.t, c.l + 1);
    AllSealed(s.body, vars, exits + [c.l], c.t, c.l + 1);
    StmtMarks(s.body, vars, exits + [c.l], c.t, c.l + 1);
    LoopWorks([Mark(l)], l, c.code + [Beqz(c.val, c.l)], Between(l + 1, c.l), b.code, Between(c.l + 1, b.l), c.l);
    assert [Mark(l)] + (c.code + [Beqz(c.val, c.l)]) + b.code + [Branch(l)] + [Mark(c.l)]
        == [Mark(l)] + c.code + [Beqz(c.val, c.l)] + b.code + [Branch(l), Mark(c.l)];
  }

  /** A mark, code that begins with work, and after more of it the jump back. */
  lemma LoopWorks(head: Code, x: Label, A: Code, S: set<Label>, B: Code, T: set<Label>, y: Label)
    requires head == [Mark(x)] && Works(A) && Begins(A) && A != [] && Marks(A, S) && Works(B) && Marks(B, T)
    requires Sealed(B, T, T + {y}) && S !! T && x !in S && x !in T && y !in S && x != y
    ensures Works(head + A + B + [Branch(x)] + [Mark(y)])
  {
    var D := head + A + B;
    assert ProceedsTo(D, 0, 1) by { assert D[0] == head[0] && D[1] == A[0]; }
    assert forall j: nat :: j < |D| && D[j] == Mark(x) ==> j == 0;
    HeadWorks(x, A);
    OneMark(x);
    hide Works, Marks, Sealed, Proceeds, ProceedsTo;
    Join(head, {x}, A, S);
    WorkOn(head + A, {x} + S, B, T, T + {y});
    WorkBack(D, x, [Mark(y)]);
  }

  lemma HeadWorks(x: Label, A: Code)
    requires Works(A) && Begins(A) && A != []
    ensures Works([Mark(x)] + A)
  {
    var D := [Mark(x)] + A;
    forall j: nat, k: nat | j < k < |D| && D[k].Branch? && D[j] == Mark(D[k].target) ensures Proceeds(D, j) {
      if j == 0 {
        assert ProceedsTo(D, 0, 1);
      } else {
        ProceedsOn([Mark(x)], A, j - 1);
      }
    }
  }

  lemma ForWorks(s: Stmt, vars: Vars, exits: seq<Label>, t: nat, l: nat)
    requires s.For? && WellFormed(s, exits != []) && Before(exits, l)
    ensures StmtWorks(s, vars, exits, t, l)
    decreases s, 0
  {
    hide TransExpr, TransStmt, Works, Marks, Sealed, ForCode, Begins;
    ForShape(s, vars, exits, t, l);
    var f := ForParts(s, vars, exits, t, l);
    var (i, u, c, b) := (f.i, f.u, f.c, f.b);
    PlainWorks(s.init, vars, exits, t, l);
    StmtMarks(s.init, vars, exits, t, l);
    PlainWorks(s.update, vars, exits, i.t, i.l + 2);
    StmtMarks(s.update, vars, exits, i.t, i.l + 2);
    AllSealed(s.update, vars, exits, i.t, i.l + 2);
    ExprWorks(s.cond, vars, u.t, u.l);
    ExprMarks(s.cond, vars, u.t, u.l);
    ExprSealed(s.cond, vars, u.t, u.l);
    AllWork(s.body, vars, exits + [c.l], c.t, c.l + 1);
    AllSealed(s.body, vars, exits + [c.l], c.t, c.l + 1);
    StmtMarks(s.body, vars, exits + [c.l], c.t, c.l + 1);
    ForPiecesWork(i, u, c, b, l, Way(exits));
  }

  lemma ForPiecesWork(i: StmtOut, u: StmtOut, c: Out, b: StmtOut, l: nat, X: set<Label>)
    requires l <= i.l && i.l + 2 <= u.l <= c.l && c.l + 1 <= b.l && (forall x :: x in X ==> x < l)
    requires Works(i.code) && Marks(i.code, Between(l, i.l))
    requires Works(u.code) && Marks(u.code, Between(i.l + 2, u.l)) && Begins(u.code)
    requires Sealed(u.code, Between(i.l + 2, u.l), Between(i.l + 2, u.l) + X)
    requires Works(c.code) && Marks(c.code, Between(u.l, c.l)) && Begins(c.code)
    requires Sealed(c.code, Between(u.l, c.l), Between(u.l, c.l) + {})
    requires Works(b.code) && Marks(b.code, Between(c.l + 1, b.l))
    requires Sealed(b.code, Between(c.l + 1, b.l), Between(c.l + 1, b.l) + {c.l})
    ensures Works(ForCode(i, u, c, b))
  {
    hide Works, Marks, Sealed, Begins;
    var K := c.code + [Beqz(c.val, c.l)];
    var H := [Mark(i.l + 1)] + u.code + [Mark(i.l)] + K;
    var A := ForHead(i, u, l, X);
    var B := A + c.code;
    WorkOn(A, Between(l, u.l), c.code, Between(u.l, c.l), Between(u.l, c.l) + {});
    Join(A, Between(l, u.l), c.code, Between(u.l, c.l));
    Widen(B, Between(l, u.l) + Between(u.l, c.l), Between(l, c.l));
    WorkPlain(B, [Beqz(c.val, c.l)]);
    Plus(B, l, c.l, [Beqz(c.val, c.l)]);
    var D := B + [Beqz(c.val, c.l)];
    WorkOn(D, Between(l, c.l), b.code, Between(c.l + 1, b.l), Between(c.l + 1, b.l) + {c.l});
    Join(D, Between(l, c.l), b.code, Between(c.l + 1, b.l));
    assert D + b.code == i.code + [Branch(i.l)] + H + b.code;
    BeginsWith(c.code, Beqz(c.val, c.l));
    BackProceeds(i.code + [Branch(i.l)], u.code, i.l, K, b.code, Between(l, c.l) + Between(c.l + 1, b.l));
    WorkBack(D + b.code, i.l + 1, [Mark(c.l)]);
    assert D + b.code + [Branch(i.l + 1)] + [Mark(c.l)] == ForCode(i, u, c, b);
  }

  lemma BeginsWith(A: Code, i: Instr)
    requires Begins(A) && !i.Mark? && !i.Branch? && !i.Memo?
    ensures Begins(A + [i])
  {
  }

  /** The initialisation, the jump over the update, and the update. */
  lemma ForHead(i: StmtOut, u: StmtOut, l: nat, X: set<Label>) returns (A: Code)
    requires l <= i.l && i.l + 2 <= u.l && (forall x :: x in X ==> x < l)
    requires Works(i.code) && Marks(i.code, Between(l, i.l))
    requires Works(u.code) && Marks(u.code, Between(i.l + 2, u.l))
    requires Sealed(u.code, Between(i.l + 2, u.l), Between(i.l + 2, u.l) + X)
    ensures A == i.code + [Branch(i.l), Mark(i.l + 1)] + u.code + [Mark(i.l)] && Works(A) && Marks(A, Between(l, u.l))
  {
    hide Works, Marks, Sealed;
    var S := Between(l, i.l) + {i.l + 1};
    NotMarked(i.code, Between(l, i.l), i.l);
    WorkBack(i.code, i.l, [Mark(i.l + 1)]);
    var B := i.code + [Branch(i.l), Mark(i.l + 1)];
    assert i.code + [Branch(i.l)] + [Mark(i.l + 1)] == B;
    TwoPieceMarks(Branch(i.l), i.l + 1);
    Join(i.code, Between(l, i.l), [Branch(i.l), Mark(i.l + 1)], {i.l + 1});
    WorkOn(B, S, u.code, Between(i.l + 2, u.l), Between(i.l + 2, u.l) + X);
    WorkPlain(B + u.code, [Mark(i.l)]);
    TwoMarks(i.code, Between(l, i.l), Branch(i.l), i.l + 1, u.code, Between(i.l + 2, u.l), i.l);
    A := B + u.code + [Mark(i.l)];
    Widen(A, Between(l, i.l) + {i.l + 1} + Between(i.l + 2, u.l) + {i.l}, Between(l, u.l));
  }

  /** From the mark of the update it goes on with the update or the condition. */
  lemma BackProceeds(A: Code, u: Code, x: Label, K: Code, B: Code, S: set<Label>)
    requires Begins(u) && Begins(K) && K != []
    requires Marks(A + ([Mark(x + 1)] + u + [Mark(x)] + K) + B, S)
    ensures var D := A + ([Mark(x + 1)] + u + [Mark(x)] + K) + B;
      forall j: nat :: j < |D| && D[j] == Mark(x + 1) ==> Proceeds(D, j)
  {
    var H := [Mark(x + 1)] + u + [Mark(x)] + K;
    var D := A + H + B;
    assert H[0] == Mark(x + 1) && H[|u| + 1] == Mark(x) && H[|u| + 2] == K[0];
    assert u != [] ==> H[1] == u[0];
    assert ProceedsTo(H, 0, if u == [] then 2 else 1);
    ProceedsOn(A, H, 0);
    ProceedsOn(A + H, B, |A|);
    assert D[|A|] == H[0];
  }
}
