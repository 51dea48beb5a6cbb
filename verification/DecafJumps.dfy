/** Every jump in the code of a function has its mark in it. */
module DecafJumps {
  import opened Lists
  import opened Tac
  import opened DecafTree
  import opened DecafTranslation
  import opened DecafOperations
  import opened DecafMarks

  predicate Jumps(i: Instr) {
    i.Branch? || i.Beqz? || i.Bnez?
  }

  /** The labels in `S` are marked in `C`, and jumps go to labels in `X`. */
  ghost predicate Sealed(C: Code, S: set<Label>, X: set<Label>) {
    && (forall i :: 0 <= i < |C| && Jumps(C[i]) ==> C[i].target in X)
    && forall l :: l in S ==> Mark(l) in C
  }

  lemma Link(A: Code, S: set<Label>, X: set<Label>, B: Code, T: set<Label>, Y: set<Label>)
    requires Sealed(A, S, X) && Sealed(B, T, Y)
    ensures Sealed(A + B, S + T, X + Y)
  {
  }

  lemma Loosen(C: Code, S: set<Label>, X: set<Label>, T: set<Label>, Y: set<Label>)
    requires Sealed(C, S, X) && T <= S && X <= Y
    ensures Sealed(C, T, Y)
  {
  }

  lemma NoJumps(A: Code)
    requires forall i :: 0 <= i < |A| ==> !Jumps(A[i])
    ensures Sealed(A, {}, {})
  {
  }

  /** Two pieces with labels one after the other, with jumps among them and to `X`. */
  lemma LinkOn(A: Code, l: nat, m: nat, B: Code, h: nat, X: set<Label>)
    requires Sealed(A, Between(l, m), Between(l, m) + X) && Sealed(B, Between(m, h), Between(m, h) + X) && l <= m <= h
    ensures Sealed(A + B, Between(l, h), Between(l, h) + X)
  {
    Link(A, Between(l, m), Between(l, m) + X, B, Between(m, h), Between(m, h) + X);
    Loosen(A + B, Between(l, m) + Between(m, h), Between(l, m) + X + (Between(m, h) + X), Between(l, h), Between(l, h) + X);
  }

  /** A piece without jumps at the end. */
  lemma LinkPlain(A: Code, l: nat, h: nat, B: Code, X: set<Label>)
    requires Sealed(A, Between(l, h), Between(l, h) + X) && forall i :: 0 <= i < |B| ==> !Jumps(B[i])
    ensures Sealed(A + B, Between(l, h), Between(l, h) + X)
  {
    NoJumps(B);
    Link(A, Between(l, h), Between(l, h) + X, B, {}, {});
    Loosen(A + B, Between(l, h) + {}, Between(l, h) + X + {}, Between(l, h), Between(l, h) + X);
  }

  lemma More(C: Code, l: nat, h: nat, X: set<Label>)
    requires Sealed(C, Between(l, h), Between(l, h) + {}) || Sealed(C, Between(l, h), Between(l, h))
    ensures Sealed(C, Between(l, h), Between(l, h) + X)
  {
    assert Between(l, h) + {} == Between(l, h);
    Loosen(C, Between(l, h), Between(l, h), Between(l, h), Between(l, h) + X);
  }

  // ---------- expressions ----------

  lemma ParmsDoNotJump(ts: seq<Temp>)
    ensures forall i :: 0 <= i < |ParmCode(ts)| ==> !Jumps(ParmCode(ts)[i])
    decreases |ts|
  {
    if ts != [] {
      ParmsDoNotJump(ts[1..]);
    }
  }

  lemma CheckSealed(arr: Temp, index: Temp, t: nat, l: nat)
    ensures Sealed(CheckIndexCode(arr, index, t, l), Between(l, l + 2), Between(l, l + 2))
  {
    var C := CheckIndexCode(arr, index, t, l);
    assert C[6] == Mark(l) && C[11] == Mark(l + 1) && |C| == 12;
    forall i | 0 <= i < |C| && Jumps(C[i]) ensures C[i].target in Between(l, l + 2) {
      assert !Jumps(C[0]) && !Jumps(C[1]) && C[2] == Beqz(t + 1, l) && !Jumps(C[3]) && !Jumps(C[4]);
      assert C[5] == Beqz(t + 3, l + 1) && !Jumps(C[7]) && !Jumps(C[8]) && !Jumps(C[9]) && !Jumps(C[10]);
    }
  }

  lemma SizeSealed(size: Temp, t: nat, l: nat)
    ensures Sealed(CheckSizeCode(size, t, l), Between(l, l + 1), Between(l, l + 1))
  {
    var C := CheckSizeCode(size, t, l);
    assert C[7] == Mark(l) && |C| == 8;
    forall i | 0 <= i < |C| && Jumps(C[i]) ensures C[i].target in Between(l, l + 1) {
      assert !Jumps(C[0]) && !Jumps(C[1]) && C[2] == Beqz(t + 1, l) && !Jumps(C[3]) && !Jumps(C[4]);
      assert !Jumps(C[5]) && !Jumps(C[6]);
    }
  }

  lemma ClearSealed(unit: Temp, size: Temp, obj: Temp, zero: Temp, l: nat)
    ensures Sealed(ClearCode(unit, size, obj, zero, l), Between(l, l + 2), Between(l, l + 2))
  {
    var C := ClearCode(unit, size, obj, zero, l);
    assert C[0] == Mark(l) && C[6] == Mark(l + 1) && |C| == 7;
  }

  lemma ClimbSealed(obj: Temp, cls: string, t: nat, l: nat)
    ensures Sealed([LoadVtbl(t + 1, cls), Load(t + 2, obj, 0)] + ClimbCode(t, l), {l}, {l, l + 1})
  {
    var C := ClimbCode(t, l);
    assert C[0] == Mark(l);
    assert Sealed(C, {l}, {l, l + 1});
    NoJumps([LoadVtbl(t + 1, cls), Load(t + 2, obj, 0)]);
    Link([LoadVtbl(t + 1, cls), Load(t + 2, obj, 0)], {}, {}, C, {l}, {l, l + 1});
  }

  lemma TestSealed(obj: Temp, cls: string, t: nat, l: nat)
    ensures Sealed(TestClassCode(obj, cls, t, l), Between(l, l + 2), Between(l, l + 2))
  {
    var C := [LoadVtbl(t + 1, cls), Load(t + 2, obj, 0)] + ClimbCode(t, l);
    var D := [LoadImm4(t, 0), Mark(l + 1)];
    ClimbSealed(obj, cls, t, l);
    assert D[1] == Mark(l + 1);
    assert Sealed(D, {l + 1}, {});
    hide Sealed, ClimbCode;
    Link(C, {l}, {l, l + 1}, D, {l + 1}, {});
    Loosen(C + D, {l} + {l + 1}, {l, l + 1} + {}, Between(l, l + 2), Between(l, l + 2));
  }

  lemma CastSealed(obj: Temp, cls: string, t: nat, l: nat)
    ensures Sealed(CastClassCode(obj, cls, t, l), Between(l, l + 2), Between(l, l + 2))
  {
    var C := [LoadVtbl(t + 1, cls), Load(t + 2, obj, 0)] + ClimbCode(t, l);
    var D := ComplainCastCode(obj, cls, t + 3);
    ClimbSealed(obj, cls, t, l);
    ComplainDoesNotJump(obj, cls, t + 3);
    assert [Mark(l + 1)][0] == Mark(l + 1);
    assert Sealed([Mark(l + 1)], {l + 1}, {});
    hide Sealed, ClimbCode, ComplainCastCode;
    Link(C, {l}, {l, l + 1}, D, {}, {});
    Link(C + D, {l} + {}, {l, l + 1} + {}, [Mark(l + 1)], {l + 1}, {});
    Loosen(C + D + [Mark(l + 1)], {l} + {} + {l + 1}, {l, l + 1} + {} + {}, Between(l, l + 2), Between(l, l + 2));
  }

  lemma ComplainDoesNotJump(obj: Temp, cls: string, t: nat)
    ensures Sealed(ComplainCastCode(obj, cls, t), {}, {})
  {
    var A := ComplainCode(t, CLASS_CAST_ERROR1) + [Load(t + 1, obj, 0)] + NameCode(t + 1, t + 2);
    var B := ComplainCode(t + 3, CLASS_CAST_ERROR2) + [LoadVtbl(t + 4, cls)] + NameCode(t + 4, t + 5);
    var D := ComplainCode(t + 6, CLASS_CAST_ERROR3) + [DirectCall(None, HALT)];
    NoJumps(A);
    NoJumps(B);
    NoJumps(D);
    assert ComplainCastCode(obj, cls, t) == A + B + D;
    hide Sealed, ComplainCode, NameCode, ComplainCastCode;
    Link(A, {}, {}, B, {}, {});
    Link(A + B, {} + {}, {} + {}, D, {}, {});
    Loosen(A + B + D, {} + {} + {}, {} + {} + {}, {}, {});
  }

  lemma ArraySealed(n: Temp, t: nat, l: nat)
    ensures Sealed(CheckSizeCode(n, t, l) + AllocateCode(n, t + 3) + ClearCode(t + 3, t + 5, t + 6, t + 7, l + 1),
                   Between(l, l + 3), Between(l, l + 3) + {})
  {
    hide Sealed, CheckSizeCode, AllocateCode, ClearCode;
    SizeSealed(n, t, l);
    ClearSealed(t + 3, t + 5, t + 6, t + 7, l + 1);
    AllocateDoesNotJump(n, t + 3);
    assert Between(l, l + 1) + {} == Between(l, l + 1) && Between(l + 1, l + 3) + {} == Between(l + 1, l + 3);
    LinkPlain(CheckSizeCode(n, t, l), l, l + 1, AllocateCode(n, t + 3), {});
    LinkOn(CheckSizeCode(n, t, l) + AllocateCode(n, t + 3), l, l + 1, ClearCode(t + 3, t + 5, t + 6, t + 7, l + 1), l + 3, {});
  }

  lemma AllocateDoesNotJump(n: Temp, t: nat)
    ensures forall i :: 0 <= i < |AllocateCode(n, t)| ==> !Jumps(AllocateCode(n, t)[i])
  {
  }

  lemma DispatchDoesNotJump(receiver: Temp, ts: seq<Temp>, offset: int, dst: Option<Temp>, t: nat)
    ensures forall i :: 0 <= i < |DispatchCode(receiver, ts, offset, dst, t)| ==>
      !Jumps(DispatchCode(receiver, ts, offset, dst, t)[i])
  {
    ParmsDoNotJump(ts);
  }

  lemma OwnSealed(e: Expr, ts: seq<Temp>, t: nat, l: nat)
    requires |ts| == |Operands(e)|
    ensures Sealed(OwnCode(e, ts, t, l), Between(l, l + OwnLabels(e)), Between(l, l + OwnLabels(e)) + {})
  {
    match e
    case Indexed(_, _) => ElementSealed(ts[0], ts[1], t, l);
    case NewArray(_) => ArraySealed(ts[0], t, l);
    case TypeTest(_, cls) =>
      TestSealed(ts[0], cls, t, l);
      More(TestClassCode(ts[0], cls, t, l), l, l + 2, {});
    case TypeCast(_, cls, checked) => OwnCastSealed(ts[0], cls, checked, t, l);
    case _ => OtherSealed(e, ts, t, l);
  }

  lemma OwnCastSealed(obj: Temp, cls: string, checked: bool, t: nat, l: nat)
    ensures var C := if checked then CastClassCode(obj, cls, t, l) else []; var h := if checked then l + 2 else l;
      Sealed(C, Between(l, h), Between(l, h) + {})
  {
    hide Sealed, Between, CastClassCode;
    if checked {
      CastSealed(obj, cls, t, l);
      More(CastClassCode(obj, cls, t, l), l, l + 2, {});
    } else {
      VarSealed(l);
    }
  }

  lemma ElementSealed(arr: Temp, index: Temp, t: nat, l: nat)
    ensures Sealed(CheckIndexCode(arr, index, t, l) + AddressCode(arr, index, t + 5) + [Load(t + 8, t + 7, 0)],
                   Between(l, l + 2), Between(l, l + 2) + {})
  {
    hide Sealed, Between, CheckIndexCode;
    CheckSealed(arr, index, t, l);
    More(CheckIndexCode(arr, index, t, l), l, l + 2, {});
    LinkPlain(CheckIndexCode(arr, index, t, l), l, l + 2, AddressCode(arr, index, t + 5), {});
    LinkPlain(CheckIndexCode(arr, index, t, l) + AddressCode(arr, index, t + 5), l, l + 2, [Load(t + 8, t + 7, 0)], {});
  }

  lemma OtherSealed(e: Expr, ts: seq<Temp>, t: nat, l: nat)
    requires |ts| == |Operands(e)| && !e.Indexed? && !e.NewArray? && !e.TypeTest? && !e.TypeCast?
    ensures Sealed(OwnCode(e, ts, t, l), Between(l, l), Between(l, l) + {}) && OwnLabels(e) == 0
  {
    EmptyBetween(l);
    if e.Call? {
      ParmsDoNotJump(ts);
    } else if e.Invoke? {
      DispatchDoesNotJump(ts[0], ts[1..], e.offset, Some(t + 2), t);
    }
  }

  lemma {:induction false} ExprSealed(e: Expr, vars: Vars, t: nat, l: nat)
    ensures var r := TransExpr(e, vars, t, l); Sealed(r.code, Between(l, r.l), Between(l, r.l) + {})
    decreases e, 1
  {
    hide TransSeq, OwnCode, OwnLabels, Operands, Sealed, Between;
    if e.Var? {
      EmptyBetween(l);
      VarSealed(l);
    } else {
      CodeShape(e, vars, t, l);
      OperandsRank(e);
      hide TransExpr;
      SeqSealed(Operands(e), e, vars, t, l);
      var o := TransSeq(Operands(e), vars, t, l);
      OwnSealed(e, o.vals, o.t, o.l);
      LinkOn(o.code, l, o.l, OwnCode(e, o.vals, o.t, o.l), o.l + OwnLabels(e), {});
    }
  }

  lemma VarSealed(l: nat)
    ensures Sealed([], Between(l, l), Between(l, l) + {})
  {
  }

  lemma {:induction false} SeqSealed(es: seq<Expr>, parent: Expr, vars: Vars, t: nat, l: nat)
    requires Ranks(es, parent)
    ensures var r := TransSeq(es, vars, t, l); Sealed(r.code, Between(l, r.l), Between(l, r.l) + {})
    decreases parent, 0, es
  {
    hide TransExpr, Sealed, Between;
    if es == [] {
      VarSealed(l);
    } else {
      var a := TransExpr(es[0], vars, t, l);
      var b := TransSeq(es[1..], vars, a.t, a.l);
      ExprSealed(es[0], vars, t, l);
      SeqSealed(es[1..], parent, vars, a.t, a.l);
      LinkOn(a.code, l, a.l, b.code, b.l, {});
    }
  }

  lemma ArgsSealed(args: Args, vars: Vars, t: nat, l: nat)
    ensures var r := TransArgs(args, vars, t, l); Sealed(r.code, Between(l, r.l), Between(l, r.l) + {})
  {
    hide Sealed, Between, TransExpr;
    OperandsRank(Call(0, args));
    SeqSealed(ListOf(args), Call(0, args), vars, t, l);
    ArgsAreSeq(args, vars, t, l);
  }

  // ---------- statements ----------

  /** Where a break jumps to. */
  function Way(exits: seq<Label>): set<Label> {
    if exits == [] then {} else {exits[|exits| - 1]}
  }

  ghost predicate StmtSealed(s: Stmt, vars: Vars, exits: seq<Label>, t: nat, l: nat) {
    var r := TransStmt(s, vars, exits, t, l);
    Sealed(r.code, Between(l, r.l), Between(l, r.l) + Way(exits))
  }

  lemma PlainSealed(s: Stmt, vars: Vars, exits: seq<Label>, t: nat, l: nat)
    requires s.AssignVar? || s.Exec? || s.Print? || s.ReturnValue?
    ensures StmtSealed(s, vars, exits, t, l)
  {
    hide TransExpr, Sealed, Between;
    ExprSealed(s.e, vars, t, l);
    var r := TransExpr(s.e, vars, t, l);
    More(r.code, l, r.l, Way(exits));
    match s
    case AssignVar(x, _) => LinkPlain(r.code, l, r.l, [Assign(Slot(vars, x), r.val)], Way(exits));
    case Print(callee, _) => LinkPlain(r.code, l, r.l, [Parm(r.val), DirectCall(None, callee)], Way(exits));
    case ReturnValue(_) => LinkPlain(r.code, l, r.l, [Return(Some(r.val))], Way(exits));
    case Exec(_) =>
  }

  lemma NothingSealed(s: Stmt, vars: Vars, exits: seq<Label>, t: nat, l: nat)
    requires s.Skip? || s.Declare? || s.ReturnVoid? || (s.Break? && exits != [])
    ensures StmtSealed(s, vars, exits, t, l)
  {
    EmptyBetween(l);
  }

  lemma OperandSealed(s: Stmt, vars: Vars, exits: seq<Label>, t: nat, l: nat)
    requires s.AssignField? || s.AssignElement?
    ensures StmtSealed(s, vars, exits, t, l)
  {
    hide TransExpr, Sealed, Between;
    var X := Way(exits);
    match s
    case AssignField(owner, offset, e) =>
      var o := TransExpr(owner, vars, t, l);
      var r := TransExpr(e, vars, o.t + 1, o.l);
      ExprSealed(owner, vars, t, l);
      ExprSealed(e, vars, o.t + 1, o.l);
      More(o.code, l, o.l, X);
      More(r.code, o.l, r.l, X);
      LinkPlain(o.code, l, o.l, [Load(o.t, o.val, offset)], X);
      LinkOn(o.code + [Load(o.t, o.val, offset)], l, o.l, r.code, r.l, X);
      LinkPlain(o.code + [Load(o.t, o.val, offset)] + r.code, l, r.l, [Store(r.val, o.val, offset)], X);
    case AssignElement(arr, index, e) =>
      var a := TransExpr(arr, vars, t, l);
      var i := TransExpr(index, vars, a.t, a.l);
      var x := TransExpr(Indexed(arr, index), vars, t, l);
      var r := TransExpr(e, vars, x.t, x.l);
      ExprSealed(Indexed(arr, index), vars, t, l);
      ExprSealed(e, vars, x.t, x.l);
      More(x.code, l, x.l, X);
      More(r.code, x.l, r.l, X);
      LinkOn(x.code, l, x.l, r.code, r.l, X);
      LinkPlain(x.code + r.code, l, r.l, AddressCode(a.val, i.val, r.t), X);
      LinkPlain(x.code + r.code + AddressCode(a.val, i.val, r.t), l, r.l, [Store(r.val, r.t + 2, 0)], X);
  }

  lemma CallSealed(s: Stmt, vars: Vars, exits: seq<Label>, t: nat, l: nat)
    requires s.CallVoid? || s.InvokeVoid?
    ensures StmtSealed(s, vars, exits, t, l)
  {
    hide TransExpr, TransArgs, Sealed, Between, ParmCode, DispatchCode;
    var X := Way(exits);
    match s
    case CallVoid(f, args) =>
      var a := TransArgs(args, vars, t, l);
      ArgsSealed(args, vars, t, l);
      More(a.code, l, a.l, X);
      ParmsDoNotJump(a.vals);
      LinkPlain(a.code, l, a.l, ParmCode(a.vals), X);
      LinkPlain(a.code + ParmCode(a.vals), l, a.l, [DirectCall(None, Function(f))], X);
    case InvokeVoid(receiver, offset, args) =>
      var o := TransExpr(receiver, vars, t, l);
      var a := TransArgs(args, vars, o.t, o.l);
      ExprSealed(receiver, vars, t, l);
      ArgsSealed(args, vars, o.t, o.l);
      More(o.code, l, o.l, X);
      More(a.code, o.l, a.l, X);
      DispatchDoesNotJump(o.val, a.vals, offset, None, a.t);
      LinkOn(o.code, l, o.l, a.code, a.l, X);
      LinkPlain(o.code + a.code, l, a.l, DispatchCode(o.val, a.vals, offset, None, a.t), X);
  }

  /** A jump to `x`, or a mark of it. */
  lemma OnePiece(i: Instr, S: set<Label>, X: set<Label>)
    requires (Jumps(i) ==> i.target in X) && (forall l :: l in S ==> i == Mark(l))
    ensures Sealed([i], S, X)
  {
    assert [i][0] == i;
  }

  lemma {:induction false} AllSealed(s: Stmt, vars: Vars, exits: seq<Label>, t: nat, l: nat)
    requires WellFormed(s, exits != [])
    ensures StmtSealed(s, vars, exits, t, l)
    decreases s, 1
  {
    hide StmtSealed;
    match s
    case Seq(a, b) => BlockSealed(s, vars, exits, t, l);
    case IfThen(_, _) => ThenSealed(s, vars, exits, t, l);
    case IfElse(_, _, _) => ElseSealed(s, vars, exits, t, l);
    case While(_, _) => WhileSealed(s, vars, exits, t, l);
    case For(_, _, _, _) => ForSealed(s, vars, exits, t, l);
    case AssignField(_, _, _) => OperandSealed(s, vars, exits, t, l);
    case AssignElement(_, _, _) => OperandSealed(s, vars, exits, t, l);
    case CallVoid(_, _) => CallSealed(s, vars, exits, t, l);
    case InvokeVoid(_, _, _) => CallSealed(s, vars, exits, t, l);
    case AssignVar(_, _) => PlainSealed(s, vars, exits, t, l);
    case Exec(_) => PlainSealed(s, vars, exits, t, l);
    case Print(_, _) => PlainSealed(s, vars, exits, t, l);
    case ReturnValue(_) => PlainSealed(s, vars, exits, t, l);
    case _ => NothingSealed(s, vars, exits, t, l);
  }

  lemma BlockSealed(s: Stmt, vars: Vars, exits: seq<Label>, t: nat, l: nat)
    requires s.Seq? && WellFormed(s, exits != [])
    ensures StmtSealed(s, vars, exits, t, l)
    decreases s, 0
  {
    hide TransExpr, TransStmt, Sealed, Between;
    BlockShape(s, vars, exits, t, l);
    var x := TransStmt(s.first, vars, exits, t, l);
    var y := TransStmt(s.second, vars, exits, x.t, x.l);
    AllSealed(s.first, vars, exits, t, l);
    AllSealed(s.second, vars, exits, x.t, x.l);
    LinkOn(x.code, l, x.l, y.code, y.l, Way(exits));
  }

  lemma ThenSealed(s: Stmt, vars: Vars, exits: seq<Label>, t: nat, l: nat)
    requires s.IfThen? && WellFormed(s, exits != [])
    ensures StmtSealed(s, vars, exits, t, l)
    decreases s, 0
  {
    hide TransExpr, TransStmt, Sealed;
    ThenShape(s, vars, exits, t, l);
    var c := TransExpr(s.cond, vars, t, l);
    var y := TransStmt(s.yes, vars, exits, c.t, c.l + 1);
    ExprSealed(s.cond, vars, t, l);
    AllSealed(s.yes, vars, exits, c.t, c.l + 1);
    var X := Between(l, y.l) + Way(exits);
    OnePiece(Beqz(c.val, c.l), {}, X);
    OnePiece(Mark(c.l), {c.l}, X);
    Loosen(c.code, Between(l, c.l), Between(l, c.l) + {}, Between(l, c.l), X);
    Loosen(y.code, Between(c.l + 1, y.l), Between(c.l + 1, y.l) + Way(exits), Between(c.l + 1, y.l), X);
    Link(c.code, Between(l, c.l), X, [Beqz(c.val, c.l)], {}, X);
    Link(c.code + [Beqz(c.val, c.l)], Between(l, c.l) + {}, X + X, y.code, Between(c.l + 1, y.l), X);
    Link(c.code + [Beqz(c.val, c.l)] + y.code, Between(l, c.l) + {} + Between(c.l + 1, y.l), X + X + X, [Mark(c.l)], {c.l}, X);
    Loosen(c.code + [Beqz(c.val, c.l)] + y.code + [Mark(c.l)], Between(l, c.l) + {} + Between(c.l + 1, y.l) + {c.l},
           X + X + X + X, Between(l, y.l), X);
  }

  /** Five pieces with jumps to `X`, which mark all of `S` together. */
  lemma Five(A: Code, S1: set<Label>, B: Code, S2: set<Label>, C: Code, S3: set<Label>, D: Code, S4: set<Label>, E: Code,
             S5: set<Label>, S: set<Label>, X: set<Label>)
    requires Sealed(A, S1, X) && Sealed(B, S2, X) && Sealed(C, S3, X) && Sealed(D, S4, X) && Sealed(E, S5, X)
    requires S <= S1 + S2 + S3 + S4 + S5
    ensures Sealed(A + B + C + D + E, S, X)
  {
    hide Sealed;
    Link(A, S1, X, B, S2, X);
    Link(A + B, S1 + S2, X + X, C, S3, X);
    Link(A + B + C, S1 + S2 + S3, X + X + X, D, S4, X);
    Link(A + B + C + D, S1 + S2 + S3 + S4, X + X + X + X, E, S5, X);
    Loosen(A + B + C + D + E, S1 + S2 + S3 + S4 + S5, X + X + X + X + X, S, X);
  }

  lemma TwoPiece(i: Instr, l: Label, X: set<Label>)
    requires Jumps(i) ==> i.target in X
    ensures Sealed([i, Mark(l)], {l}, X)
  {
    assert [i, Mark(l)][1] == Mark(l);
  }

  lemma ElseSealed(s: Stmt, vars: Vars, exits: seq<Label>, t: nat, l: nat)
    requires s.IfElse? && WellFormed(s, exits != [])
    ensures StmtSealed(s, vars, exits, t, l)
    decreases s, 0
  {
    hide TransExpr, TransStmt, Sealed;
    ElseShape(s, vars, exits, t, l);
    var c := TransExpr(s.cond, vars, t, l);
    var y := TransStmt(s.yes, vars, exits, c.t, c.l + 1);
    var z := TransStmt(s.no, vars, exits, y.t, y.l + 1);
    ExprSealed(s.cond, vars, t, l);
    AllSealed(s.yes, vars, exits, c.t, c.l + 1);
    AllSealed(s.no, vars, exits, y.t, y.l + 1);
    var X := Between(l, z.l) + Way(exits);
    OnePiece(Beqz(c.val, c.l), {}, X);
    TwoPiece(Branch(y.l), c.l, X);
    OnePiece(Mark(y.l), {y.l}, X);
    Loosen(c.code, Between(l, c.l), Between(l, c.l) + {}, Between(l, c.l), X);
    Loosen(y.code, Between(c.l + 1, y.l), Between(c.l + 1, y.l) + Way(exits), Between(c.l + 1, y.l), X);
    Loosen(z.code, Between(y.l + 1, z.l), Between(y.l + 1, z.l) + Way(exits), Between(y.l + 1, z.l), X);
    Link(c.code, Between(l, c.l), X, [Beqz(c.val, c.l)], {}, X);
    Loosen(c.code + [Beqz(c.val, c.l)], Between(l, c.l) + {}, X + X, Between(l, c.l), X);
    Five(c.code + [Beqz(c.val, c.l)], Between(l, c.l), y.code, Between(c.l + 1, y.l), [Branch(y.l), Mark(c.l)], {c.l},
         z.code, Between(y.l + 1, z.l), [Mark(y.l)], {y.l}, Between(l, z.l), X);
  }

  lemma WhileSealed(s: Stmt, vars: Vars, exits: seq<Label>, t: nat, l: nat)
    requires s.While? && WellFormed(s, exits != [])
    ensures StmtSealed(s, vars, exits, t, l)
    decreases s, 0
  {
    hide TransExpr, TransStmt, Sealed;
    WhileShape(s, vars, exits, t, l);
    var c := TransExpr(s.cond, vars, t, l + 1);
    var b := TransStmt(s.body, vars, exits + [c.l], c.t, c.l + 1);
    ExprSealed(s.cond, vars, t, l + 1);
    AllSealed(s.body, vars, exits + [c.l], c.t, c.l + 1);
    var X := Between(l, b.l) + Way(exits);
    OnePiece(Mark(l), {l}, X);
    OnePiece(Beqz(c.val, c.l), {}, X);
    TwoPiece(Branch(l), c.l, X);
    Loosen(c.code, Between(l + 1, c.l), Between(l + 1, c.l) + {}, Between(l + 1, c.l), X);
    Loosen(b.code, Between(c.l + 1, b.l), Between(c.l + 1, b.l) + Way(exits + [c.l]), Between(c.l + 1, b.l), X);
    Five([Mark(l)], {l}, c.code, Between(l + 1, c.l), [Beqz(c.val, c.l)], {}, b.code, Between(c.l + 1, b.l),
         [Branch(l), Mark(c.l)], {c.l}, Between(l, b.l), X);
  }

  lemma ForSealed(s: Stmt, vars: Vars, exits: seq<Label>, t: nat, l: nat)
    requires s.For? && WellFormed(s, exits != [])
    ensures StmtSealed(s, vars, exits, t, l)
    decreases s, 0
  {
    hide TransExpr, TransStmt, Sealed, ForCode;
    ForShape(s, vars, exits, t, l);
    var f := ForParts(s, vars, exits, t, l);
    var (i, u, c, b) := (f.i, f.u, f.c, f.b);
    assert WellFormed(s.init, exits != []) && WellFormed(s.update, exits != []);
    AllSealed(s.init, vars, exits, t, l);
    AllSealed(s.update, vars, exits, i.t, i.l + 2);
    ExprSealed(s.cond, vars, u.t, u.l);
    AllSealed(s.body, vars, exits + [c.l], c.t, c.l + 1);
    var X := Between(l, b.l) + Way(exits);
    Loosen(i.code, Between(l, i.l), Between(l, i.l) + Way(exits), Between(l, i.l), X);
    Loosen(u.code, Between(i.l + 2, u.l), Between(i.l + 2, u.l) + Way(exits), Between(i.l + 2, u.l), X);
    Loosen(c.code, Between(u.l, c.l), Between(u.l, c.l) + {}, Between(u.l, c.l), X);
    Loosen(b.code, Between(c.l + 1, b.l), Between(c.l + 1, b.l) + Way(exits + [c.l]), Between(c.l + 1, b.l), X);
    ForSealedPieces(i, u, c, b, l, X);
  }

  lemma ForSealedPieces(i: StmtOut, u: StmtOut, c: Out, b: StmtOut, l: nat, X: set<Label>)
    requires l <= i.l && i.l + 2 <= u.l <= c.l && c.l + 1 <= b.l && Between(l, b.l) <= X
    requires Sealed(i.code, Between(l, i.l), X) && Sealed(u.code, Between(i.l + 2, u.l), X)
    requires Sealed(c.code, Between(u.l, c.l), X) && Sealed(b.code, Between(c.l + 1, b.l), X)
    ensures Sealed(ForCode(i, u, c, b), Between(l, b.l), X)
  {
    hide Sealed;
    TwoPiece(Branch(i.l), i.l + 1, X);
    OnePiece(Mark(i.l), {i.l}, X);
    OnePiece(Beqz(c.val, c.l), {}, X);
    TwoPiece(Branch(i.l + 1), c.l, X);
    var head := i.code + [Branch(i.l), Mark(i.l + 1)] + u.code + [Mark(i.l)] + c.code;
    Five(i.code, Between(l, i.l), [Branch(i.l), Mark(i.l + 1)], {i.l + 1}, u.code, Between(i.l + 2, u.l), [Mark(i.l)], {i.l},
         c.code, Between(u.l, c.l), Between(l, c.l), X);
    var none: set<Label> := {};
    Link(head, Between(l, c.l), X, [Beqz(c.val, c.l)], none, X);
    Link(head + [Beqz(c.val, c.l)], Between(l, c.l) + none, X + X, b.code, Between(c.l + 1, b.l), X);
    Link(head + [Beqz(c.val, c.l)] + b.code, Between(l, c.l) + none + Between(c.l + 1, b.l), X + X + X,
         [Branch(i.l + 1), Mark(c.l)], {c.l}, X);
    Loosen(ForCode(i, u, c, b), Between(l, c.l) + none + Between(c.l + 1, b.l) + {c.l}, X + X + X + X, Between(l, b.l), X);
  }

  // ---------- the end of the code ----------

  /** A jump in `C` goes to `x`. */
  ghost predicate Aims(C: Code, x: Label) {
    exists i :: 0 <= i < |C| && Jumps(C[i]) && C[i].target == x
  }

  /** The last instruction is no conditional jump, which would have nothing to go on with, and if a mark, one of a jump. */
  ghost predicate Rounded(C: Code) {
    C == [] || var last := C[|C| - 1];
      !last.Beqz? && !last.Bnez? && !last.Memo? && (last.Mark? ==> Aims(C, last.target))
  }

  lemma RoundedBoth(A: Code, B: Code)
    requires Rounded(B) && (B == [] ==> Rounded(A))
    ensures Rounded(A + B)
  {
    assert B == [] ==> A + B == A;
    if B != [] && B[|B| - 1].Mark? {
      var i :| 0 <= i < |B| && Jumps(B[i]) && B[i].target == B[|B| - 1].target;
      assert (A + B)[|A| + i] == B[i];
    }
  }

  lemma AimsInside(A: Code, j: Instr, B: Code)
    requires Jumps(j)
    ensures Aims(A + [j] + B, j.target)
  {
    assert (A + [j] + B)[|A|] == j;
  }

  lemma OwnRounded(e: Expr, ts: seq<Temp>, t: nat, l: nat)
    requires |ts| == |Operands(e)|
    ensures Rounded(OwnCode(e, ts, t, l))
  {
    if e.NewArray? {
      var C := ClearCode(t + 3, t + 5, t + 6, t + 7, l + 1);
      assert C[2] == Beqz(t + 5, l + 2);
      assert Rounded(C);
      hide CheckSizeCode, AllocateCode, ClearCode;
      RoundedBoth(CheckSizeCode(ts[0], t, l) + AllocateCode(ts[0], t + 3), C);
    } else if e.TypeTest? || (e.TypeCast? && e.checked) {
      ClassRounded(e, ts, t, l);
    } else {
      hide CheckIndexCode, AddressCode, ParmCode;
    }
  }

  lemma ClassRounded(e: Expr, ts: seq<Temp>, t: nat, l: nat)
    requires e.TypeTest? || (e.TypeCast? && e.checked)
    requires |ts| == |Operands(e)|
    ensures Rounded(OwnCode(e, ts, t, l))
  {
    hide Rounded, ComplainCastCode;
    var D := if e.TypeTest? then [LoadImm4(t, 0)] else ComplainCastCode(ts[0], e.cls, t + 3);
    ClimbRounded(ts[0], e.cls, t, l, D);
    assert OwnCode(e, ts, t, l) == [LoadVtbl(t + 1, e.cls), Load(t + 2, ts[0], 0)] + ClimbCode(t, l) + D + [Mark(l + 1)];
  }

  /** The loop that climbs leaves for the mark at the end. */
  lemma ClimbRounded(obj: Temp, cls: string, t: nat, l: nat, D: Code)
    ensures Rounded([LoadVtbl(t + 1, cls), Load(t + 2, obj, 0)] + ClimbCode(t, l) + D + [Mark(l + 1)])
  {
    var A := [LoadVtbl(t + 1, cls), Load(t + 2, obj, 0), Mark(l), Binary(EQU, t, t + 1, t + 2)];
    var B := [Load(t + 2, t + 2, 0), Bnez(t + 2, l)] + D + [Mark(l + 1)];
    AimsInside(A, Bnez(t, l + 1), B);
    assert [LoadVtbl(t + 1, cls), Load(t + 2, obj, 0)] + ClimbCode(t, l) + D + [Mark(l + 1)] == A + [Bnez(t, l + 1)] + B;
  }

  lemma {:induction false} ExprRounded(e: Expr, vars: Vars, t: nat, l: nat)
    ensures Rounded(TransExpr(e, vars, t, l).code)
    decreases e, 1
  {
    hide TransSeq, OwnCode, OwnLabels, OwnTemps, Operands, Rounded;
    if e.Var? {
      NothingRounded();
    } else {
      CodeShape(e, vars, t, l);
      OperandsRank(e);
      hide TransExpr;
      SeqRounded(Operands(e), e, vars, t, l);
      var o := TransSeq(Operands(e), vars, t, l);
      OwnRounded(e, o.vals, o.t, o.l);
      RoundedBoth(o.code, OwnCode(e, o.vals, o.t, o.l));
    }
  }

  lemma NothingRounded()
    ensures Rounded([])
  {
  }

  lemma {:induction false} SeqRounded(es: seq<Expr>, parent: Expr, vars: Vars, t: nat, l: nat)
    requires Ranks(es, parent)
    ensures Rounded(TransSeq(es, vars, t, l).code)
    decreases parent, 0, es
  {
    hide TransExpr, Rounded;
    if es == [] {
      NothingRounded();
    } else {
      var a := TransExpr(es[0], vars, t, l);
      var b := TransSeq(es[1..], vars, a.t, a.l);
      ExprRounded(es[0], vars, t, l);
      SeqRounded(es[1..], parent, vars, a.t, a.l);
      RoundedBoth(a.code, b.code);
    }
  }

  lemma {:induction false} StmtRounded(s: Stmt, vars: Vars, exits: seq<Label>, t: nat, l: nat)
    ensures Rounded(TransStmt(s, vars, exits, t, l).code)
    decreases s
  {
    hide TransExpr, TransArgs, ParmCode, DispatchCode, AddressCode;
    match s
    case Seq(a, b) =>
      hide TransStmt, Rounded;
      BlockShape(s, vars, exits, t, l);
      var x := TransStmt(a, vars, exits, t, l);
      StmtRounded(a, vars, exits, t, l);
      StmtRounded(b, vars, exits, x.t, x.l);
      RoundedBoth(x.code, TransStmt(b, vars, exits, x.t, x.l).code);
    case Exec(e) => ExprRounded(e, vars, t, l);
    case IfThen(_, _) => LoopRounded(s, vars, exits, t, l);
    case IfElse(_, _, _) => LoopRounded(s, vars, exits, t, l);
    case While(_, _) => LoopRounded(s, vars, exits, t, l);
    case For(_, _, _, _) => LoopRounded(s, vars, exits, t, l);
    case InvokeVoid(_, offset, _) => InvokeRounded(s, vars, exits, t, l);
    case _ =>
  }

  lemma InvokeRounded(s: Stmt, vars: Vars, exits: seq<Label>, t: nat, l: nat)
    requires s.InvokeVoid?
    ensures Rounded(TransStmt(s, vars, exits, t, l).code)
  {
    hide TransExpr, TransArgs, ParmCode;
  }

  lemma LoopRounded(s: Stmt, vars: Vars, exits: seq<Label>, t: nat, l: nat)
    requires s.IfThen? || s.IfElse? || s.While? || s.For?
    ensures Rounded(TransStmt(s, vars, exits, t, l).code)
  {
    hide TransExpr, TransStmt;
    var C := TransStmt(s, vars, exits, t, l).code;
    if s.IfThen? {
      ThenShape(s, vars, exits, t, l);
      var c := TransExpr(s.cond, vars, t, l);
      var y := TransStmt(s.yes, vars, exits, c.t, c.l + 1);
      AimsInside(c.code, Beqz(c.val, c.l), y.code + [Mark(c.l)]);
      assert c.code + [Beqz(c.val, c.l)] + (y.code + [Mark(c.l)]) == C;
      assert C[|C| - 1] == Mark(c.l);
    } else if s.IfElse? {
      ElseShape(s, vars, exits, t, l);
      var c := TransExpr(s.cond, vars, t, l);
      var y := TransStmt(s.yes, vars, exits, c.t, c.l + 1);
      var z := TransStmt(s.no, vars, exits, y.t, y.l + 1);
      var A := c.code + [Beqz(c.val, c.l)] + y.code;
      AimsInside(A, Branch(y.l), [Mark(c.l)] + z.code + [Mark(y.l)]);
      assert A + [Branch(y.l)] + ([Mark(c.l)] + z.code + [Mark(y.l)]) == C;
      assert C[|C| - 1] == Mark(y.l);
    } else if s.While? {
      WhileShape(s, vars, exits, t, l);
      var c := TransExpr(s.cond, vars, t, l + 1);
      var b := TransStmt(s.body, vars, exits + [c.l], c.t, c.l + 1);
      AimsInside([Mark(l)] + c.code, Beqz(c.val, c.l), b.code + [Branch(l), Mark(c.l)]);
      assert [Mark(l)] + c.code + [Beqz(c.val, c.l)] + (b.code + [Branch(l), Mark(c.l)]) == C;
      assert C[|C| - 1] == Mark(c.l);
    } else {
      ForRounded(s, vars, exits, t, l);
    }
  }

  lemma ForRounded(s: Stmt, vars: Vars, exits: seq<Label>, t: nat, l: nat)
    requires s.For?
    ensures Rounded(TransStmt(s, vars, exits, t, l).code)
  {
    hide TransExpr, TransStmt;
    ForShape(s, vars, exits, t, l);
    var f := ForParts(s, vars, exits, t, l);
    var (i, u, c, b) := (f.i, f.u, f.c, f.b);
    var A := i.code + [Branch(i.l), Mark(i.l + 1)] + u.code + [Mark(i.l)] + c.code;
    AimsInside(A, Beqz(c.val, c.l), b.code + [Branch(i.l + 1), Mark(c.l)]);
    assert A + [Beqz(c.val, c.l)] + (b.code + [Branch(i.l + 1), Mark(c.l)]) == ForCode(i, u, c, b);
  }
}
