/** No label is marked twice in the code of a function. */
module DecafMarks {
  import opened Lists
  import opened Tac
  import opened TacRuns
  import opened DecafTree
  import opened DecafTranslation
  import opened DecafOperations

  /** The labels marked in `C` are in `S`, and none is marked twice. */
  ghost predicate Marks(C: Code, S: set<Label>) {
    UniqueMarks(C) && forall i :: 0 <= i < |C| && C[i].Mark? ==> C[i].target in S
  }

  predicate Within(x: Label, l: nat, l2: nat) { l <= x < l2 }

  ghost function Between(l: nat, l2: nat): set<Label> {
    set x | l <= x < l2 && Within(x, l, l2)
  }

  lemma Join(A: Code, S: set<Label>, B: Code, T: set<Label>)
    requires Marks(A, S) && Marks(B, T) && S !! T
    ensures Marks(A + B, S + T)
  {
  }

  lemma Widen(A: Code, S: set<Label>, T: set<Label>)
    requires Marks(A, S) && S <= T
    ensures Marks(A, T)
  {
  }

  lemma NoMarks(A: Code)
    requires forall i :: 0 <= i < |A| ==> !A[i].Mark?
    ensures Marks(A, {})
  {
  }

  lemma ParmsHaveNoMarks(ts: seq<Temp>)
    ensures Marks(ParmCode(ts), {})
    decreases |ts|
  {
    if ts != [] {
      ParmsHaveNoMarks(ts[1..]);
      Join([Parm(ts[0])], {}, ParmCode(ts[1..]), {});
    }
  }

  lemma CheckMarks(arr: Temp, index: Temp, t: nat, l: nat)
    ensures Marks(CheckIndexCode(arr, index, t, l), Between(l, l + 2))
  {
    var C := CheckIndexCode(arr, index, t, l);
    assert C[6] == Mark(l) && C[11] == Mark(l + 1) && |C| == 12;
    forall i | 0 <= i < |C| && C[i].Mark? ensures i == 6 || i == 11 {
      assert !C[0].Mark? && !C[1].Mark? && !C[2].Mark? && !C[3].Mark? && !C[4].Mark? && !C[5].Mark?;
      assert !C[7].Mark? && !C[8].Mark? && !C[9].Mark? && !C[10].Mark?;
    }
  }

  lemma SizeMarks(size: Temp, t: nat, l: nat)
    ensures Marks(CheckSizeCode(size, t, l), Between(l, l + 1))
  {
    var C := CheckSizeCode(size, t, l);
    assert C[7] == Mark(l) && |C| == 8;
    forall i | 0 <= i < |C| && C[i].Mark? ensures i == 7 {
      assert !C[0].Mark? && !C[1].Mark? && !C[2].Mark? && !C[3].Mark? && !C[4].Mark? && !C[5].Mark? && !C[6].Mark?;
    }
  }

  lemma OwnMarks(e: Expr, ts: seq<Temp>, t: nat, l: nat)
    requires |ts| == |Operands(e)|
    ensures Marks(OwnCode(e, ts, t, l), Between(l, l + OwnLabels(e)))
  {
    hide CheckIndexCode, CheckSizeCode, Marks;
    match e
    case Indexed(_, _) =>
      CheckMarks(ts[0], ts[1], t, l);
      NoMarks(AddressCode(ts[0], ts[1], t + 5));
      NoMarks([Load(t + 8, t + 7, 0)]);
      Join(CheckIndexCode(ts[0], ts[1], t, l), Between(l, l + 2), AddressCode(ts[0], ts[1], t + 5), {});
      Join(CheckIndexCode(ts[0], ts[1], t, l) + AddressCode(ts[0], ts[1], t + 5), Between(l, l + 2) + {},
           [Load(t + 8, t + 7, 0)], {});
      Widen(OwnCode(e, ts, t, l), Between(l, l + 2) + {} + {}, Between(l, l + 2));
    case NewArray(_) => ArrayMarks(e, ts, t, l);
    case TypeTest(_, _) => TestMarks(ts[0], e.cls, t, l);
    case TypeCast(_, _, checked) =>
      if checked {
        CastMarks(ts[0], e.cls, t, l);
      } else {
        NoMarks([]);
        Widen([], {}, Between(l, l));
      }
    case Call(f, _) =>
      ParmsHaveNoMarks(ts);
      NoMarks([DirectCall(Some(t), Function(f))]);
      Join(ParmCode(ts), {}, [DirectCall(Some(t), Function(f))], {});
      Widen(OwnCode(e, ts, t, l), {}, Between(l, l));
    case Invoke(_, offset, _) =>
      DispatchMarks(ts[0], ts[1..], offset, Some(t + 2), t);
      Widen(OwnCode(e, ts, t, l), {}, Between(l, l));
    case _ =>
      NoMarks(OwnCode(e, ts, t, l));
      Widen(OwnCode(e, ts, t, l), {}, Between(l, l));
  }

  /** The search for a class marks its loop. */
  lemma ClimbMarks(obj: Temp, cls: string, t: nat, l: nat)
    ensures Marks([LoadVtbl(t + 1, cls), Load(t + 2, obj, 0)] + ClimbCode(t, l), {l})
  {
    NoMarks([LoadVtbl(t + 1, cls), Load(t + 2, obj, 0)]);
    assert Marks(ClimbCode(t, l), {l});
    Join([LoadVtbl(t + 1, cls), Load(t + 2, obj, 0)], {}, ClimbCode(t, l), {l});
    Widen([LoadVtbl(t + 1, cls), Load(t + 2, obj, 0)] + ClimbCode(t, l), {} + {l}, {l});
  }

  lemma TestMarks(obj: Temp, cls: string, t: nat, l: nat)
    ensures Marks(TestClassCode(obj, cls, t, l), Between(l, l + 2))
  {
    var C := [LoadVtbl(t + 1, cls), Load(t + 2, obj, 0)] + ClimbCode(t, l);
    ClimbMarks(obj, cls, t, l);
    assert Marks([LoadImm4(t, 0), Mark(l + 1)], {l + 1});
    hide Marks, ClimbCode;
    Join(C, {l}, [LoadImm4(t, 0), Mark(l + 1)], {l + 1});
    Widen(C + [LoadImm4(t, 0), Mark(l + 1)], {l} + {l + 1}, Between(l, l + 2));
  }

  lemma ComplainMarks(obj: Temp, cls: string, t: nat)
    ensures Marks(ComplainCastCode(obj, cls, t), {})
  {
    var A := ComplainCode(t, CLASS_CAST_ERROR1) + [Load(t + 1, obj, 0)] + NameCode(t + 1, t + 2);
    var B := A + ComplainCode(t + 3, CLASS_CAST_ERROR2) + [LoadVtbl(t + 4, cls)] + NameCode(t + 4, t + 5);
    NoMarks(A);
    NoMarks(ComplainCode(t + 3, CLASS_CAST_ERROR2) + [LoadVtbl(t + 4, cls)] + NameCode(t + 4, t + 5));
    assert B == A + (ComplainCode(t + 3, CLASS_CAST_ERROR2) + [LoadVtbl(t + 4, cls)] + NameCode(t + 4, t + 5));
    Join(A, {}, ComplainCode(t + 3, CLASS_CAST_ERROR2) + [LoadVtbl(t + 4, cls)] + NameCode(t + 4, t + 5), {});
    NoMarks(ComplainCode(t + 6, CLASS_CAST_ERROR3) + [DirectCall(None, HALT)]);
    Join(B, {}, ComplainCode(t + 6, CLASS_CAST_ERROR3) + [DirectCall(None, HALT)], {});
    assert ComplainCastCode(obj, cls, t) == B + (ComplainCode(t + 6, CLASS_CAST_ERROR3) + [DirectCall(None, HALT)]);
  }

  lemma CastMarks(obj: Temp, cls: string, t: nat, l: nat)
    ensures Marks(CastClassCode(obj, cls, t, l), Between(l, l + 2))
  {
    var C := [LoadVtbl(t + 1, cls), Load(t + 2, obj, 0)] + ClimbCode(t, l);
    var D := ComplainCastCode(obj, cls, t + 3);
    ClimbMarks(obj, cls, t, l);
    ComplainMarks(obj, cls, t + 3);
    assert Marks([Mark(l + 1)], {l + 1});
    hide Marks, ClimbCode, ComplainCastCode;
    Join(C, {l}, D, {});
    Join(C + D, {l} + {}, [Mark(l + 1)], {l + 1});
    Widen(C + D + [Mark(l + 1)], {l} + {} + {l + 1}, Between(l, l + 2));
  }

  lemma DispatchMarks(receiver: Temp, ts: seq<Temp>, offset: int, dst: Option<Temp>, t: nat)
    ensures Marks(DispatchCode(receiver, ts, offset, dst, t), {})
  {
    ParmsHaveNoMarks(ts);
    Join([Parm(receiver)], {}, ParmCode(ts), {});
    Join([Parm(receiver)] + ParmCode(ts), {}, [Load(t, receiver, 0), Load(t + 1, t, offset), IndirectCall(dst, t + 1)], {});
  }

  lemma ArrayMarks(e: Expr, ts: seq<Temp>, t: nat, l: nat)
    requires e.NewArray? && |ts| == |Operands(e)|
    ensures Marks(OwnCode(e, ts, t, l), Between(l, l + 3))
  {
    hide CheckSizeCode;
    var check := CheckSizeCode(ts[0], t, l);
    var allocate := AllocateCode(ts[0], t + 3);
    var clear := ClearCode(t + 3, t + 5, t + 6, t + 7, l + 1);
    SizeMarks(ts[0], t, l);
    NoMarks(allocate);
    Join(check, Between(l, l + 1), allocate, {});
    assert Marks(clear, {l + 1, l + 2});
    Join(check + allocate, Between(l, l + 1) + {}, clear, {l + 1, l + 2});
    Widen(OwnCode(e, ts, t, l), Between(l, l + 1) + {} + {l + 1, l + 2}, Between(l, l + 3));
  }

  lemma VarMarks(e: Expr, vars: Vars, t: nat, l: nat)
    requires e.Var?
    ensures Marks(TransExpr(e, vars, t, l).code, Between(l, TransExpr(e, vars, t, l).l))
  {
  }

  lemma {:induction false} ExprMarks(e: Expr, vars: Vars, t: nat, l: nat)
    ensures Marks(TransExpr(e, vars, t, l).code, Between(l, TransExpr(e, vars, t, l).l))
    decreases e, 1
  {
    hide TransExpr, TransSeq, OwnCode, OwnLabels, Operands, Marks, Between;
    if e.Var? {
      VarMarks(e, vars, t, l);
    } else {
      CodeShape(e, vars, t, l);
      OperandsRank(e);
      SeqMarks(Operands(e), e, vars, t, l);
      var o := TransSeq(Operands(e), vars, t, l);
      OwnMarks(e, o.vals, o.t, o.l);
      Then(o.code, l, o.l, OwnCode(e, o.vals, o.t, o.l), o.l + OwnLabels(e));
    }
  }

  lemma {:induction false} SeqMarks(es: seq<Expr>, parent: Expr, vars: Vars, t: nat, l: nat)
    requires Ranks(es, parent)
    ensures Marks(TransSeq(es, vars, t, l).code, Between(l, TransSeq(es, vars, t, l).l))
    decreases parent, 0, es
  {
    hide TransExpr;
    if es != [] {
      hide Marks, Between;
      var a := TransExpr(es[0], vars, t, l);
      var b := TransSeq(es[1..], vars, a.t, a.l);
      ExprMarks(es[0], vars, t, l);
      SeqMarks(es[1..], parent, vars, a.t, a.l);
      Then(a.code, l, a.l, b.code, b.l);
    }
  }

  lemma ArgsMarks(args: Args, vars: Vars, t: nat, l: nat)
    ensures Marks(TransArgs(args, vars, t, l).code, Between(l, TransArgs(args, vars, t, l).l))
  {
    OperandsRank(Call(0, args));
    SeqMarks(ListOf(args), Call(0, args), vars, t, l);
    ArgsAreSeq(args, vars, t, l);
  }

  /** Two pieces with labels one after the other. */
  lemma Then(A: Code, l: nat, m: nat, B: Code, h: nat)
    requires Marks(A, Between(l, m)) && Marks(B, Between(m, h)) && l <= m <= h
    ensures Marks(A + B, Between(l, h))
  {
    Join(A, Between(l, m), B, Between(m, h));
    Widen(A + B, Between(l, m) + Between(m, h), Between(l, h));
  }

  /** A piece without marks at the end. */
  lemma Plus(A: Code, l: nat, h: nat, B: Code)
    requires Marks(A, Between(l, h)) && forall i :: 0 <= i < |B| ==> !B[i].Mark?
    ensures Marks(A + B, Between(l, h))
  {
    NoMarks(B);
    Join(A, Between(l, h), B, {});
    Widen(A + B, Between(l, h) + {}, Between(l, h));
  }

  lemma PlainMarks(s: Stmt, vars: Vars, exits: seq<Label>, t: nat, l: nat)
    requires !s.Seq? && !s.IfThen? && !s.IfElse? && !s.While? && !s.For?
    requires !s.AssignField? && !s.AssignElement? && !s.CallVoid? && !s.InvokeVoid?
    ensures Marks(TransStmt(s, vars, exits, t, l).code, Between(l, TransStmt(s, vars, exits, t, l).l))
  {
    hide TransExpr, Marks, Between;
    match s
    case AssignVar(x, e) => ExprMarks(e, vars, t, l); var r := TransExpr(e, vars, t, l);
      Plus(r.code, l, r.l, [Assign(Slot(vars, x), r.val)]);
    case Exec(e) => ExprMarks(e, vars, t, l);
    case Print(callee, e) => ExprMarks(e, vars, t, l); var r := TransExpr(e, vars, t, l);
      Plus(r.code, l, r.l, [Parm(r.val), DirectCall(None, callee)]);
    case ReturnValue(e) => ExprMarks(e, vars, t, l); var r := TransExpr(e, vars, t, l);
      Plus(r.code, l, r.l, [Return(Some(r.val))]);
    case _ =>
      NoMarks(TransStmt(s, vars, exits, t, l).code);
      Widen(TransStmt(s, vars, exits, t, l).code, {}, Between(l, l));
  }

  lemma OperandMarks(s: Stmt, vars: Vars, exits: seq<Label>, t: nat, l: nat)
    requires s.AssignField? || s.AssignElement? || s.CallVoid? || s.InvokeVoid?
    ensures Marks(TransStmt(s, vars, exits, t, l).code, Between(l, TransStmt(s, vars, exits, t, l).l))
  {
    hide TransExpr, TransArgs, Marks, Between, ParmCode, DispatchCode;
    match s
    case AssignField(owner, offset, e) =>
      var o := TransExpr(owner, vars, t, l);
      var r := TransExpr(e, vars, o.t + 1, o.l);
      ExprMarks(owner, vars, t, l);
      ExprMarks(e, vars, o.t + 1, o.l);
      Plus(o.code, l, o.l, [Load(o.t, o.val, offset)]);
      Then(o.code + [Load(o.t, o.val, offset)], l, o.l, r.code, r.l);
      Plus(o.code + [Load(o.t, o.val, offset)] + r.code, l, r.l, [Store(r.val, o.val, offset)]);
    case AssignElement(arr, index, e) =>
      var a := TransExpr(arr, vars, t, l);
      var i := TransExpr(index, vars, a.t, a.l);
      var x := TransExpr(Indexed(arr, index), vars, t, l);
      var r := TransExpr(e, vars, x.t, x.l);
      ExprMarks(Indexed(arr, index), vars, t, l);
      ExprMarks(e, vars, x.t, x.l);
      Then(x.code, l, x.l, r.code, r.l);
      Plus(x.code + r.code, l, r.l, AddressCode(a.val, i.val, r.t));
      Plus(x.code + r.code + AddressCode(a.val, i.val, r.t), l, r.l, [Store(r.val, r.t + 2, 0)]);
    case CallVoid(f, args) =>
      var a := TransArgs(args, vars, t, l);
      ArgsMarks(args, vars, t, l);
      ParmsHaveNoMarks(a.vals);
      Widen(ParmCode(a.vals), {}, Between(a.l, a.l)) by { EmptyBetween(a.l); }
      Then(a.code, l, a.l, ParmCode(a.vals), a.l);
      Plus(a.code + ParmCode(a.vals), l, a.l, [DirectCall(None, Function(f))]);
    case InvokeVoid(receiver, offset, args) =>
      var o := TransExpr(receiver, vars, t, l);
      var a := TransArgs(args, vars, o.t, o.l);
      var C := DispatchCode(o.val, a.vals, offset, None, a.t);
      ExprMarks(receiver, vars, t, l);
      ArgsMarks(args, vars, o.t, o.l);
      DispatchMarks(o.val, a.vals, offset, None, a.t);
      Widen(C, {}, Between(a.l, a.l)) by { EmptyBetween(a.l); }
      Then(o.code, l, o.l, a.code, a.l);
      Then(o.code + a.code, l, a.l, C, a.l);
  }

  lemma EmptyBetween(l: nat)
    ensures Between(l, l) == {}
  {
  }

  /** A piece without marks in the middle does not matter. */
  lemma Add(A: Code, S: set<Label>, B: Code, T: set<Label>, I: Code)
    requires Marks(A, S) && Marks(B, T) && S !! T && forall i :: 0 <= i < |I| ==> !I[i].Mark?
    ensures Marks(A + I + B, S + T)
  {
    NoMarks(I);
    Join(A, S, I, {});
    Join(A + I, S + {}, B, T);
  }

  lemma OneMark(l: Label)
    ensures Marks([Mark(l)], {l})
  {
  }

  lemma {:induction false} StmtMarks(s: Stmt, vars: Vars, exits: seq<Label>, t: nat, l: nat)
    ensures Marks(TransStmt(s, vars, exits, t, l).code, Between(l, TransStmt(s, vars, exits, t, l).l))
    decreases s, 1
  {
    hide Marks, Between;
    match s
    case Seq(a, b) =>
      hide TransExpr, TransStmt;
      BlockShape(s, vars, exits, t, l);
      var x := TransStmt(a, vars, exits, t, l);
      StmtMarks(a, vars, exits, t, l);
      StmtMarks(b, vars, exits, x.t, x.l);
      Then(x.code, l, x.l, TransStmt(b, vars, exits, x.t, x.l).code, TransStmt(b, vars, exits, x.t, x.l).l);
    case IfThen(cond, yes) => ThenMarks(cond, yes, vars, exits, t, l);
    case IfElse(cond, yes, no) => ElseMarks(cond, yes, no, vars, exits, t, l);
    case While(cond, body) => WhileMarks(cond, body, vars, exits, t, l);
    case For(_, _, _, _) => ForMarks(s, vars, exits, t, l);
    case AssignField(_, _, _) => OperandMarks(s, vars, exits, t, l);
    case AssignElement(_, _, _) => OperandMarks(s, vars, exits, t, l);
    case CallVoid(_, _) => OperandMarks(s, vars, exits, t, l);
    case InvokeVoid(_, _, _) => OperandMarks(s, vars, exits, t, l);
    case _ => PlainMarks(s, vars, exits, t, l);
  }

  lemma ThenMarks(cond: Expr, yes: Stmt, vars: Vars, exits: seq<Label>, t: nat, l: nat)
    ensures var r := TransStmt(IfThen(cond, yes), vars, exits, t, l); Marks(r.code, Between(l, r.l))
    decreases IfThen(cond, yes), 0
  {
    hide TransExpr, TransStmt, Marks;
    ThenShape(IfThen(cond, yes), vars, exits, t, l);
    var c := TransExpr(cond, vars, t, l);
    var y := TransStmt(yes, vars, exits, c.t, c.l + 1);
    ExprMarks(cond, vars, t, l);
    StmtMarks(yes, vars, exits, c.t, c.l + 1);
    Add(c.code, Between(l, c.l), y.code, Between(c.l + 1, y.l), [Beqz(c.val, c.l)]);
    OneMark(c.l);
    var body := c.code + [Beqz(c.val, c.l)] + y.code;
    Join(body, Between(l, c.l) + Between(c.l + 1, y.l), [Mark(c.l)], {c.l});
    Widen(body + [Mark(c.l)], Between(l, c.l) + Between(c.l + 1, y.l) + {c.l}, Between(l, y.l));
  }

  lemma ElseMarks(cond: Expr, yes: Stmt, no: Stmt, vars: Vars, exits: seq<Label>, t: nat, l: nat)
    ensures var r := TransStmt(IfElse(cond, yes, no), vars, exits, t, l); Marks(r.code, Between(l, r.l))
    decreases IfElse(cond, yes, no), 0
  {
    hide TransExpr, TransStmt, Marks;
    ElseShape(IfElse(cond, yes, no), vars, exits, t, l);
    var c := TransExpr(cond, vars, t, l);
    var y := TransStmt(yes, vars, exits, c.t, c.l + 1);
    var z := TransStmt(no, vars, exits, y.t, y.l + 1);
    ExprMarks(cond, vars, t, l);
    StmtMarks(yes, vars, exits, c.t, c.l + 1);
    StmtMarks(no, vars, exits, y.t, y.l + 1);
    var S := Between(l, c.l) + Between(c.l + 1, y.l);
    Add(c.code, Between(l, c.l), y.code, Between(c.l + 1, y.l), [Beqz(c.val, c.l)]);
    var head := c.code + [Beqz(c.val, c.l)] + y.code;
    TwoMarks(head, S, Branch(y.l), c.l, z.code, Between(y.l + 1, z.l), y.l);
    Widen(head + [Branch(y.l), Mark(c.l)] + z.code + [Mark(y.l)], S + {c.l} + Between(y.l + 1, z.l) + {y.l},
          Between(l, z.l));
  }

  /** A branch and a mark in the middle, and a mark at the end. */
  lemma TwoMarks(A: Code, S: set<Label>, i: Instr, x: Label, B: Code, T: set<Label>, y: Label)
    requires Marks(A, S) && Marks(B, T) && !i.Mark? && S !! T && x !in S && y !in S && x !in T && y !in T && x != y
    ensures Marks(A + [i, Mark(x)] + B + [Mark(y)], S + {x} + T + {y})
  {
    assert Marks([i, Mark(x)], {x});
    hide Marks;
    Join(A, S, [i, Mark(x)], {x});
    Join(A + [i, Mark(x)], S + {x}, B, T);
    OneMark(y);
    Join(A + [i, Mark(x)] + B, S + {x} + T, [Mark(y)], {y});
  }

  lemma WhileMarks(cond: Expr, body: Stmt, vars: Vars, exits: seq<Label>, t: nat, l: nat)
    ensures var r := TransStmt(While(cond, body), vars, exits, t, l); Marks(r.code, Between(l, r.l))
    decreases While(cond, body), 0
  {
    hide TransExpr, TransStmt, Marks;
    WhileShape(While(cond, body), vars, exits, t, l);
    var c := TransExpr(cond, vars, t, l + 1);
    var b := TransStmt(body, vars, exits + [c.l], c.t, c.l + 1);
    ExprMarks(cond, vars, t, l + 1);
    StmtMarks(body, vars, exits + [c.l], c.t, c.l + 1);
    LoopMarks(l, c.code, Between(l + 1, c.l), Beqz(c.val, c.l), b.code, Between(c.l + 1, b.l), Branch(l), c.l);
    Widen([Mark(l)] + c.code + [Beqz(c.val, c.l)] + b.code + [Branch(l), Mark(c.l)],
          {l} + Between(l + 1, c.l) + Between(c.l + 1, b.l) + {c.l}, Between(l, b.l));
  }

  lemma LoopMarks(x: Label, A: Code, S: set<Label>, i: Instr, B: Code, T: set<Label>, j: Instr, y: Label)
    requires Marks(A, S) && Marks(B, T) && !i.Mark? && !j.Mark?
    requires S !! T && x !in S && y !in S && x !in T && y !in T && x != y
    ensures Marks([Mark(x)] + A + [i] + B + [j, Mark(y)], {x} + S + T + {y})
  {
    assert Marks([j, Mark(y)], {y});
    hide Marks;
    OneMark(x);
    Join([Mark(x)], {x}, A, S);
    Add([Mark(x)] + A, {x} + S, B, T, [i]);
    Join([Mark(x)] + A + [i] + B, {x} + S + T, [j, Mark(y)], {y});
  }

  lemma ForMarks(s: Stmt, vars: Vars, exits: seq<Label>, t: nat, l: nat)
    requires s.For?
    ensures var r := TransStmt(s, vars, exits, t, l); Marks(r.code, Between(l, r.l))
    decreases s, 0
  {
    hide TransExpr, TransStmt, Marks, ForCode;
    ForShape(s, vars, exits, t, l);
    var i := TransStmt(s.init, vars, exits, t, l);
    var u := TransStmt(s.update, vars, exits, i.t, i.l + 2);
    var c := TransExpr(s.cond, vars, u.t, u.l);
    var b := TransStmt(s.body, vars, exits + [c.l], c.t, c.l + 1);
    StmtMarks(s.init, vars, exits, t, l);
    StmtMarks(s.update, vars, exits, i.t, i.l + 2);
    ExprMarks(s.cond, vars, u.t, u.l);
    StmtMarks(s.body, vars, exits + [c.l], c.t, c.l + 1);
    ForPieces(i, u, c, b, l);
  }

  lemma ForPieces(i: StmtOut, u: StmtOut, c: Out, b: StmtOut, l: nat)
    requires l <= i.l && i.l + 2 <= u.l <= c.l && c.l + 1 <= b.l
    requires Marks(i.code, Between(l, i.l)) && Marks(u.code, Between(i.l + 2, u.l))
    requires Marks(c.code, Between(u.l, c.l)) && Marks(b.code, Between(c.l + 1, b.l))
    ensures Marks(ForCode(i, u, c, b), Between(l, b.l))
  {
    hide Marks;
    var head := i.code + [Branch(i.l), Mark(i.l + 1)] + u.code + [Mark(i.l)];
    var S := Between(l, i.l) + {i.l + 1} + Between(i.l + 2, u.l) + {i.l};
    TwoMarks(i.code, Between(l, i.l), Branch(i.l), i.l + 1, u.code, Between(i.l + 2, u.l), i.l);
    Widen(head, S, Between(l, u.l));
    Then(head, l, u.l, c.code, c.l);
    TailMarks(head + c.code, Between(l, c.l), Beqz(c.val, c.l), b.code, Between(c.l + 1, b.l), Branch(i.l + 1), c.l);
    Widen(ForCode(i, u, c, b), Between(l, c.l) + Between(c.l + 1, b.l) + {c.l}, Between(l, b.l));
  }

  lemma TailMarks(A: Code, S: set<Label>, i: Instr, B: Code, T: set<Label>, j: Instr, y: Label)
    requires Marks(A, S) && Marks(B, T) && !i.Mark? && !j.Mark? && S !! T && y !in S && y !in T
    ensures Marks(A + [i] + B + [j, Mark(y)], S + T + {y})
  {
    assert Marks([j, Mark(y)], {y});
    hide Marks;
    Add(A, S, B, T, [i]);
    Join(A + [i] + B, S + T, [j, Mark(y)], {y});
  }
}
