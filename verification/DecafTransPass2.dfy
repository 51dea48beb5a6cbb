/** The second pass of the translation as the compiler runs it: visitors over the tree. */
module DecafTransPass2 {
  import opened Lists
  import opened Tac
  import opened DecafTree
  import opened DecafTranslation
  import opened DecafTranslater
  import opened DecafExpressions
  import opened DecafOperations
  import opened DecafStatements
  import opened DecafControl
  import opened DecafCorrectness

  lemma Glue(c: Code, x: Code, y: Code, z: Code, u: Code, v: Code)
    ensures c + x + y + z == c + (x + y + z)
    ensures c + x + y + z + u == c + (x + y + z + u)
    ensures c + x + y + z + u + v == c + (x + y + z + u + v)
  {
  }

  // ---------- the temps of variables while a statement is visited ----------

  ghost predicate Covers(vars: Vars, temps: Vars) {
    forall x :: x in temps ==> x in vars && vars[x] == temps[x]
  }

  /** A statement in scope can be visited: `vars` has its variables already. */
  ghost predicate Visitable(s: Stmt, vars: Vars, temps: Vars, t: nat) {
    InScope(s, temps.Keys) && Below(temps, t) && Covers(vars, Allot(s, temps, t))
  }

  lemma CoversBefore(s: Stmt, vars: Vars, temps: Vars, t: nat)
    requires Visitable(s, vars, temps, t)
    ensures Covers(vars, temps)
  {
    hide InScope, Below, Allot;
    AllotGrows(s, temps, t);
  }

  lemma ElementInScope(arr: Expr, index: Expr, e: Expr, vars: Vars, temps: Vars, t: nat)
    requires Visitable(AssignElement(arr, index, e), vars, temps, t)
    ensures Scoped(Indexed(arr, index), temps.Keys) && Scoped(e, temps.Keys) && Covers(vars, temps)
    ensures Allot(AssignElement(arr, index, e), temps, t) == temps
  {
  }

  /** One statement after the other. */
  lemma VisitBoth(a: Stmt, b: Stmt, vars: Vars, exits: seq<Label>, temps: Vars, t: nat, l: nat)
    requires InScope(a, temps.Keys) && InScope(b, temps.Keys + Declared(a)) && Below(temps, t)
    requires Covers(vars, Allot(b, Allot(a, temps, t), t + StmtTemps(a)))
    ensures Visitable(a, vars, temps, t)
    ensures Visitable(b, vars, Allot(a, temps, t), t + StmtTemps(a))
    ensures TransStmt(a, vars, exits, t, l).t == t + StmtTemps(a)
  {
    hide InScope, Allot, TransStmt;
    AllotGrows(a, temps, t);
    AllotGrows(b, Allot(a, temps, t), t + StmtTemps(a));
    StmtTakes(a, vars, exits, t, l);
  }

  lemma VisitBody(s: Stmt, body: Stmt, cond: Expr, vars: Vars, temps: Vars, t: nat, l: nat)
    requires (s.IfThen? && body == s.yes && cond == s.cond) || (s.While? && body == s.body && cond == s.cond)
    requires Visitable(s, vars, temps, t)
    ensures Covers(vars, temps) && Scoped(cond, temps.Keys)
    ensures var c := TransExpr(cond, vars, t, l);
      Visitable(body, vars, temps, c.t) && Allot(s, temps, t) == Allot(body, temps, c.t)
  {
    CoversBefore(s, vars, temps, t);
    hide Scoped, TransExpr, Covers, ExprTemps;
    ExprTakes(cond, vars, t, l);
  }

  lemma VisitElse(s: Stmt, vars: Vars, exits: seq<Label>, temps: Vars, t: nat, l: nat)
    requires s.IfElse? && Visitable(s, vars, temps, t)
    ensures Covers(vars, temps) && Scoped(s.cond, temps.Keys)
    ensures var c := TransExpr(s.cond, vars, t, l); var y := TransStmt(s.yes, vars, exits, c.t, c.l + 1);
      && Visitable(s.yes, vars, temps, c.t) && Visitable(s.no, vars, Allot(s.yes, temps, c.t), y.t)
      && Allot(s, temps, t) == Allot(s.no, Allot(s.yes, temps, c.t), y.t)
  {
    hide Scoped, TransExpr, TransStmt, Covers, ExprTemps, Below;
    CoversBefore(s, vars, temps, t);
    ExprTakes(s.cond, vars, t, l);
    var c := TransExpr(s.cond, vars, t, l);
    BelowMore(temps, t, c.t);
    VisitBoth(s.yes, s.no, vars, exits, temps, c.t, c.l + 1);
  }

  lemma VisitBlock(s: Stmt, vars: Vars, exits: seq<Label>, temps: Vars, t: nat, l: nat)
    requires s.Seq? && Visitable(s, vars, temps, t)
    ensures var x := TransStmt(s.first, vars, exits, t, l);
      && Visitable(s.first, vars, temps, t) && Visitable(s.second, vars, Allot(s.first, temps, t), x.t)
      && Allot(s, temps, t) == Allot(s.second, Allot(s.first, temps, t), x.t)
  {
    hide Scoped, TransStmt, Covers, ExprTemps;
    VisitBoth(s.first, s.second, vars, exits, temps, t, l);
  }

  lemma VisitFor(s: Stmt, vars: Vars, exits: seq<Label>, temps: Vars, t: nat, l: nat)
    requires s.For? && Visitable(s, vars, temps, t)
    ensures Covers(vars, temps) && Scoped(s.cond, temps.Keys)
    ensures var f := ForParts(s, vars, exits, t, l);
      && Visitable(s.init, vars, temps, t) && Visitable(s.update, vars, temps, f.i.t)
      && Visitable(s.body, vars, temps, f.c.t)
      && Allot(s.init, temps, t) == temps && Allot(s.update, temps, f.i.t) == temps
      && Allot(s, temps, t) == Allot(s.body, temps, f.c.t)
  {
    hide Scoped, TransExpr, TransStmt, Covers, ExprTemps, Below;
    CoversBefore(s, vars, temps, t);
    var f := ForParts(s, vars, exits, t, l);
    StmtTakes(s.init, vars, exits, t, l);
    StmtTakes(s.update, vars, exits, f.i.t, f.i.l + 2);
    ExprTakes(s.cond, vars, f.u.t, f.u.l);
    SimpleAllots(s.init, temps, t);
    SimpleAllots(s.update, temps, f.i.t);
    BelowMore(temps, t, f.i.t);
    BelowMore(temps, t, f.c.t);
  }

  lemma SimpleAllots(s: Stmt, temps: Vars, t: nat)
    requires IsSimple(s)
    ensures Allot(s, temps, t) == temps
  {
  }

  lemma FormOfParts(s: Stmt, inLoop: bool)
    requires WellFormed(s, inLoop)
    ensures s.Seq? ==> WellFormed(s.first, inLoop) && WellFormed(s.second, inLoop)
    ensures s.IfElse? ==> WellFormed(s.yes, inLoop) && WellFormed(s.no, inLoop)
    ensures s.While? ==> WellFormed(s.body, true)
    ensures s.For? ==> IsSimple(s.init) && IsSimple(s.update) && WellFormed(s.body, true)
  {
  }

  lemma LoopGlue(c: Code, x: Code, y: Code, z: Code, u: Code, v: Code)
    ensures c + x + y + (z + u + v) == c + (x + y + z + u + v)
  {
  }

  lemma ForHeadGlue(k: Code, f: ForOut)
    ensures k + f.i.code + [Branch(f.i.l)] + [Mark(f.i.l + 1)] + f.u.code + [Mark(f.i.l)]
            == k + (f.i.code + [Branch(f.i.l), Mark(f.i.l + 1)] + f.u.code + [Mark(f.i.l)])
  {
    var jump := [Branch(f.i.l), Mark(f.i.l + 1)];
    assert k + f.i.code + [Branch(f.i.l)] + [Mark(f.i.l + 1)] == k + f.i.code + jump;
    Glue(k, f.i.code, jump, f.u.code, [Mark(f.i.l)], []);
  }

  lemma ForGlue(k: Code, f: ForOut)
    ensures k + (f.i.code + [Branch(f.i.l), Mark(f.i.l + 1)] + f.u.code + [Mark(f.i.l)]) + f.c.code
            + ([Beqz(f.c.val, f.c.l)] + f.b.code + [Branch(f.i.l + 1), Mark(f.c.l)])
            == k + ForCode(f.i, f.u, f.c, f.b)
  {
    var head := f.i.code + [Branch(f.i.l), Mark(f.i.l + 1)] + f.u.code + [Mark(f.i.l)];
    LoopGlue(k, head, f.c.code, [Beqz(f.c.val, f.c.l)], f.b.code, [Branch(f.i.l + 1), Mark(f.c.l)]);
  }

  lemma ElseGlue(k: Code, c: Code, test: Instr, y: Code, over: Instr, other: Instr, z: Code, end: Instr)
    ensures k + c + [test] + y + ([over, other] + z + [end]) == k + (c + [test] + y + [over, other] + z + [end])
  {
  }

  class TransPass2 {
    const tr: Translater
    var temps: Vars             // the temps of variables: Variable.getTemp and setTemp
    var loopExits: seq<Label>

    constructor (tr: Translater)
      ensures this.tr == tr && temps == map[] && loopExits == []
    {
      this.tr, temps, loopExits := tr, map[], [];
    }

    /** The code of `e` is emitted, and `val` will hold its value; `vars` are the temps of all variables in the end. */
    twostate predicate Visited(e: Expr, vars: Vars, val: Temp)
      reads tr
    {
      var o := TransExpr(e, vars, old(tr.tempCount), old(tr.labelCount));
      val == o.val && tr.Emits(o.code, o.t, o.l)
    }

    ghost predicate Knows(vars: Vars)
      reads this
    {
      forall x :: x in temps ==> x in vars && vars[x] == temps[x]
    }

    // ---------- expressions ----------

    method VisitBinary(e: Expr, ghost vars: Vars) returns (val: Temp)
      requires e.Infix? && Knows(vars) && Scoped(e, temps.Keys)
      modifies tr
      ensures Visited(e, vars, val)
      decreases e, 0
    {
      assert Scoped(e.left, temps.Keys) && Scoped(e.right, temps.Keys);
      hide TransExpr, Scoped;
      InfixShape(e, vars, tr.tempCount, tr.labelCount);
      ghost var c := tr.code;
      ghost var x := TransExpr(e.left, vars, tr.tempCount, tr.labelCount);
      ghost var y := TransExpr(e.right, vars, x.t, x.l);
      var a := VisitExpr(e.left, vars);
      var b := VisitExpr(e.right, vars);
      val := tr.GenBinary(e.op, a, b);
      Glue(c, x.code, y.code, [Binary(e.op, val, a, b)], [], []);
    }

    /** == and != of strings. */
    method GenEquNeq(e: Expr, ghost vars: Vars) returns (val: Temp)
      requires e.StringEq? && Knows(vars) && Scoped(e, temps.Keys)
      modifies tr
      ensures Visited(e, vars, val)
      decreases e, 0
    {
      assert Scoped(e.left, temps.Keys) && Scoped(e.right, temps.Keys);
      hide TransExpr, Scoped, StringEqCode;
      ghost var c := tr.code;
      ghost var x := TransExpr(e.left, vars, tr.tempCount, tr.labelCount);
      ghost var y := TransExpr(e.right, vars, x.t, x.l);
      StringShape(e, vars, tr.tempCount, tr.labelCount);
      var a := VisitExpr(e.left, vars);
      var b := VisitExpr(e.right, vars);
      val := CallStringEqual(a, b, e.negated);
      Glue(c, x.code, y.code, StringEqCode(a, b, e.negated, y.t), [], []);
    }

    method CallStringEqual(a: Temp, b: Temp, negated: bool) returns (val: Temp)
      modifies tr
      ensures val == old(tr.tempCount) + if negated then 1 else 0
      ensures tr.Emits(StringEqCode(a, b, negated, old(tr.tempCount)), val + 1, old(tr.labelCount))
    {
      tr.Append(Parm(a));
      tr.Append(Parm(b));
      var dst := tr.GenDirectCall(STRING_EQUAL, false);
      val := dst.value;
      if negated {
        val := tr.GenUnary(LNOT, val);
      }
    }

    method VisitUnary(e: Expr, ghost vars: Vars) returns (val: Temp)
      requires e.Prefix? && Knows(vars) && Scoped(e, temps.Keys)
      modifies tr
      ensures Visited(e, vars, val)
      decreases e, 0
    {
      var a := VisitExpr(e.e, vars);
      val := tr.GenUnary(e.un, a);
    }

    method VisitLiteral(e: Expr, ghost vars: Vars) returns (val: Temp)
      requires e.IntLit? || e.BoolLit? || e.StringLit? || e.Null?
      modifies tr
      ensures Visited(e, vars, val)
    {
      match e
      case IntLit(n) => val := tr.GenLoadImm4(n);
      case BoolLit(b) => val := tr.GenLoadImm4(if b then 1 else 0);
      case StringLit(s) => val := tr.GenLoadStrConst(s);
      case Null => val := tr.GenLoadImm4(0);
    }

    /** A member variable; the value of its owner is needed again when it is assigned to. */
    method VisitMember(owner: Expr, offset: int, ghost vars: Vars) returns (base: Temp, val: Temp)
      requires Knows(vars) && Scoped(owner, temps.Keys)
      modifies tr
      ensures Visited(Field(owner, offset), vars, val)
      ensures base == TransExpr(owner, vars, old(tr.tempCount), old(tr.labelCount)).val
      decreases Field(owner, offset), 0
    {
      base := VisitExpr(owner, vars);
      val := tr.GenLoad(base, offset);
    }

    /** An array element; the values of array and index are needed again when it is assigned to. */
    method VisitIndexed(arr: Expr, index: Expr, ghost vars: Vars) returns (a: Temp, i: Temp, val: Temp)
      requires Knows(vars) && Scoped(arr, temps.Keys) && Scoped(index, temps.Keys)
      modifies tr
      ensures Visited(Indexed(arr, index), vars, val)
      ensures var x := TransExpr(arr, vars, old(tr.tempCount), old(tr.labelCount));
        a == x.val && i == TransExpr(index, vars, x.t, x.l).val
      decreases Indexed(arr, index), 0
    {
      hide CheckIndexCode, AddressCode, TransExpr, Scoped;
      ElementShape(Indexed(arr, index), vars, tr.tempCount, tr.labelCount);
      ghost var c := tr.code;
      ghost var x := TransExpr(arr, vars, tr.tempCount, tr.labelCount);
      ghost var y := TransExpr(index, vars, x.t, x.l);
      a := VisitExpr(arr, vars);
      i := VisitExpr(index, vars);
      tr.GenCheckArrayIndex(a, i);
      var base := GenAddress(a, i);
      val := tr.GenLoad(base, 0);
      Glue(c, x.code, y.code, CheckIndexCode(a, i, y.t, y.l), AddressCode(a, i, y.t + 5), [Load(val, base, 0)]);
    }

    /** The address of an element, as visitIndexed and visitAssign compute it. */
    method GenAddress(a: Temp, i: Temp) returns (base: Temp)
      modifies tr
      ensures base == old(tr.tempCount) + 2
      ensures tr.Emits(AddressCode(a, i, old(tr.tempCount)), old(tr.tempCount) + 3, old(tr.labelCount))
    {
      var esz := tr.GenLoadImm4(WORD_SIZE);
      var t := tr.GenBinary(MUL, i, esz);
      base := tr.GenBinary(ADD, a, t);
    }

    /** The length of an array. */
    method VisitLength(e: Expr, ghost vars: Vars) returns (val: Temp)
      requires e.Length? && Knows(vars) && Scoped(e, temps.Keys)
      modifies tr
      ensures Visited(e, vars, val)
      decreases e, 0
    {
      var a := VisitExpr(e.arr, vars);
      val := tr.GenLoad(a, -WORD_SIZE);
    }

    method VisitNewArray(e: Expr, ghost vars: Vars) returns (val: Temp)
      requires e.NewArray? && Knows(vars) && Scoped(e, temps.Keys)
      modifies tr
      ensures Visited(e, vars, val)
      decreases e, 0
    {
      hide CheckSizeCode, AllocateCode, ClearCode;
      var n := VisitExpr(e.length, vars);
      val := tr.GenNewArray(n);
    }

    method VisitTypeTest(e: Expr, ghost vars: Vars) returns (val: Temp)
      requires e.TypeTest? && Knows(vars) && Scoped(e, temps.Keys)
      modifies tr
      ensures Visited(e, vars, val)
      decreases e, 0
    {
      hide TestClassCode;
      var obj := VisitExpr(e.instance, vars);
      val := tr.GenInstanceof(obj, e.cls);
    }

    /** The value of a cast is in the temp of its operand. */
    method VisitTypeCast(e: Expr, ghost vars: Vars) returns (val: Temp)
      requires e.TypeCast? && Knows(vars) && Scoped(e, temps.Keys)
      modifies tr
      ensures Visited(e, vars, val)
      decreases e, 0
    {
      hide CastClassCode;
      val := VisitExpr(e.val, vars);
      if e.checked {
        tr.GenClassCast(val, e.cls);
      }
    }

    method VisitRead(e: Expr, ghost vars: Vars) returns (val: Temp)
      requires e.ReadInt? || e.ReadLine?
      modifies tr
      ensures Visited(e, vars, val)
    {
      var dst := tr.GenDirectCall(if e.ReadInt? then READ_INT else READ_LINE, false);
      val := dst.value;
    }

    /** The actual arguments of a call, in order. */
    method VisitActuals(args: Args, ghost vars: Vars) returns (vals: seq<Temp>)
      requires Knows(vars) && ScopedArgs(args, temps.Keys)
      modifies tr
      ensures var o := TransArgs(args, vars, old(tr.tempCount), old(tr.labelCount));
        vals == o.vals && tr.Emits(o.code, o.t, o.l)
      decreases args, 1
    {
      hide TransExpr, Scoped;
      vals := [];
      var rest := args;
      ghost var o := TransArgs(args, vars, tr.tempCount, tr.labelCount);
      while rest.Arg?
        invariant rest == args || rest < args
        invariant Knows(vars) && ScopedArgs(rest, temps.Keys)
        invariant Ahead(o, old(tr.code), vals, rest, vars)
        decreases rest
      {
        vals, rest := VisitOne(o, old(tr.code), vals, rest, vars);
      }
    }

    /** The rest of the arguments completes the code `o`, put behind `code`, and its values. */
    ghost predicate Ahead(o: ArgsOut, code: Code, vals: seq<Temp>, rest: Args, vars: Vars)
      reads tr
    {
      var r := TransArgs(rest, vars, tr.tempCount, tr.labelCount);
      tr.code + r.code == code + o.code && vals + r.vals == o.vals && r.t == o.t && r.l == o.l
    }

    /** The next argument. */
    method VisitOne(ghost o: ArgsOut, ghost code: Code, vals: seq<Temp>, args: Args, ghost vars: Vars)
      returns (vals': seq<Temp>, rest: Args)
      requires args.Arg? && Knows(vars) && ScopedArgs(args, temps.Keys) && Ahead(o, code, vals, args, vars)
      modifies tr
      ensures rest == args.rest && Knows(vars) && Ahead(o, code, vals', rest, vars)
      decreases args, 0
    {
      hide TransExpr, Scoped;
      var val := VisitExpr(args.first, vars);
      vals', rest := vals + [val], args.rest;
    }

    /** A call to a static function, which has its entry as label. */
    method VisitStaticCall(entry: Label, args: Args, void: bool, ghost vars: Vars) returns (dst: Option<Temp>)
      requires Knows(vars) && ScopedArgs(args, temps.Keys)
      modifies tr
      ensures var a := TransArgs(args, vars, old(tr.tempCount), old(tr.labelCount));
        && dst == (if void then None else Some(a.t))
        && tr.Emits(a.code + ParmCode(a.vals) + [DirectCall(dst, Function(entry))], if void then a.t else a.t + 1, a.l)
      decreases args, 2
    {
      hide TransArgs, ParmCode;
      var vals := VisitActuals(args, vars);
      tr.GenParms(vals);
      dst := tr.GenDirectCall(Function(entry), void);
    }

    /** A call through the virtual table of the receiver. */
    method VisitVirtualCall(receiver: Expr, offset: int, args: Args, void: bool, ghost vars: Vars)
      returns (dst: Option<Temp>)
      requires Knows(vars) && Scoped(receiver, temps.Keys) && ScopedArgs(args, temps.Keys)
      modifies tr
      ensures var o := TransExpr(receiver, vars, old(tr.tempCount), old(tr.labelCount));
        var a := TransArgs(args, vars, o.t, o.l);
        && dst == (if void then None else Some(a.t + 2))
        && tr.Emits(o.code + a.code + DispatchCode(o.val, a.vals, offset, dst, a.t), if void then a.t + 2 else a.t + 3, a.l)
      decreases Invoke(receiver, offset, args), 0
    {
      hide TransExpr, TransArgs, ParmCode, Scoped, ScopedArgs;
      hide DispatchCode;
      var r := VisitExpr(receiver, vars);
      var vals := VisitActuals(args, vars);
      dst := GenDispatch(r, vals, offset, void);
    }

    method GenDispatch(r: Temp, vals: seq<Temp>, offset: int, void: bool) returns (dst: Option<Temp>)
      modifies tr
      ensures var t := old(tr.tempCount);
        && dst == (if void then None else Some(t + 2))
        && tr.Emits(DispatchCode(r, vals, offset, dst, t), if void then t + 2 else t + 3, old(tr.labelCount))
    {
      hide ParmCode;
      tr.Append(Parm(r));
      tr.GenParms(vals);
      var vt := tr.GenLoad(r, 0);
      var func := tr.GenLoad(vt, offset);
      dst := tr.GenIndirectCall(func, void);
    }

    method VisitCallExpr(e: Expr, ghost vars: Vars) returns (val: Temp)
      requires (e.Call? || e.Invoke?) && Knows(vars) && Scoped(e, temps.Keys)
      modifies tr
      ensures Visited(e, vars, val)
      decreases e, 1
    {
      hide DispatchCode;
      var dst: Option<Temp>;
      if e.Call? {
        dst := VisitStaticCall(e.entry, e.args, false, vars);
      } else {
        dst := VisitVirtualCall(e.receiver, e.offset, e.args, false, vars);
      }
      val := dst.value;
    }

    method VisitExpr(e: Expr, ghost vars: Vars) returns (val: Temp)
      requires Knows(vars) && Scoped(e, temps.Keys)
      modifies tr
      ensures Visited(e, vars, val)
      decreases e, 2
    {
      match e
      case Var(x) => val := temps[x];
      case Field(owner, offset) => var _, v := VisitMember(owner, offset, vars); val := v;
      case Indexed(arr, index) => var _, _, v := VisitIndexed(arr, index, vars); val := v;
      case Length(_) => val := VisitLength(e, vars);
      case Infix(_, _, _) => val := VisitBinary(e, vars);
      case StringEq(_, _, _) => val := GenEquNeq(e, vars);
      case Prefix(_, _) => val := VisitUnary(e, vars);
      case ReadInt => val := VisitRead(e, vars);
      case ReadLine => val := VisitRead(e, vars);
      case Call(_, _) => val := VisitCallExpr(e, vars);
      case Invoke(_, _, _) => val := VisitCallExpr(e, vars);
      case NewArray(_) => val := VisitNewArray(e, vars);
      case TypeTest(_, _) => val := VisitTypeTest(e, vars);
      case TypeCast(_, _, _) => val := VisitTypeCast(e, vars);
      case _ => val := VisitLiteral(e, vars);
    }

    // ---------- statements ----------

    /** The code of `s` is emitted, its variables have their temps, and the loops around it are as before. */
    twostate predicate Performed(s: Stmt, vars: Vars)
      reads this, tr
    {
      var o := TransStmt(s, vars, old(loopExits), old(tr.tempCount), old(tr.labelCount));
      && tr.Emits(o.code, o.t, o.l)
      && temps == Allot(s, old(temps), old(tr.tempCount)) && loopExits == old(loopExits)
    }

    ghost predicate CanVisit(s: Stmt, vars: Vars)
      reads this, tr
    {
      Visitable(s, vars, temps, tr.tempCount) && WellFormed(s, loopExits != [])
    }

    method VisitVarDef(x: Symbol, ghost vars: Vars)
      modifies tr, this
      ensures Performed(Declare(x), vars)
    {
      var t := tr.CreateTemp();
      temps := temps[x := t];
    }

    method VisitBreak(ghost vars: Vars)
      requires loopExits != []
      modifies tr
      ensures Performed(Break, vars)
    {
      tr.Append(Branch(loopExits[|loopExits| - 1]));
    }

    method VisitReturn(s: Stmt, ghost vars: Vars)
      requires (s.ReturnVoid? || s.ReturnValue?) && CanVisit(s, vars)
      modifies tr
      ensures Performed(s, vars)
    {
      hide TransExpr, Scoped;
      if s.ReturnValue? {
        var val := VisitExpr(s.e, vars);
        tr.Append(Return(Some(val)));
      } else {
        tr.Append(Return(None));
      }
    }

    method VisitPrint(s: Stmt, ghost vars: Vars)
      requires s.Print? && CanVisit(s, vars)
      modifies tr
      ensures Performed(s, vars)
    {
      hide TransExpr, Scoped;
      var val := VisitExpr(s.e, vars);
      tr.Append(Parm(val));
      var _ := tr.GenDirectCall(s.callee, true);
    }

    /** An expression statement; calls of void functions have no value. */
    method VisitExec(s: Stmt, ghost vars: Vars)
      requires (s.Exec? || s.CallVoid? || s.InvokeVoid?) && CanVisit(s, vars)
      modifies tr
      ensures Performed(s, vars)
    {
      hide TransExpr, TransArgs, Scoped, ScopedArgs, ParmCode, DispatchCode;
      if s.CallVoid? {
        var _ := VisitStaticCall(s.entry, s.args, true, vars);
      } else if s.InvokeVoid? {
        var _ := VisitVirtualCall(s.receiver, s.offset, s.args, true, vars);
      } else {
        var _ := VisitExpr(s.e, vars);
      }
    }

    method VisitAssignVar(x: Symbol, e: Expr, ghost vars: Vars)
      requires CanVisit(AssignVar(x, e), vars)
      modifies tr
      ensures Performed(AssignVar(x, e), vars)
    {
      hide TransExpr, Scoped;
      var val := VisitExpr(e, vars);
      tr.Append(Assign(temps[x], val));
    }

    /** The member is loaded although only its owner is needed. */
    method VisitAssignField(owner: Expr, offset: int, e: Expr, ghost vars: Vars)
      requires CanVisit(AssignField(owner, offset, e), vars)
      modifies tr
      ensures Performed(AssignField(owner, offset, e), vars)
    {
      assert Scoped(owner, temps.Keys) && Scoped(e, temps.Keys);
      hide TransExpr, TransStmt, Scoped;
      MemberShape(AssignField(owner, offset, e), vars, loopExits, tr.tempCount, tr.labelCount);
      ghost var c := tr.code;
      ghost var o := TransExpr(owner, vars, tr.tempCount, tr.labelCount);
      ghost var r := TransExpr(e, vars, o.t + 1, o.l);
      var base, _ := VisitMember(owner, offset, vars);
      var val := VisitExpr(e, vars);
      tr.Append(Store(val, base, offset));
      Glue(c, o.code + [Load(o.t, o.val, offset)], r.code, [Store(val, base, offset)], [], []);
    }

    /** The element is checked and loaded although only its address is needed. */
    method VisitAssignElement(arr: Expr, index: Expr, e: Expr, ghost vars: Vars)
      requires CanVisit(AssignElement(arr, index, e), vars)
      modifies tr
      ensures Performed(AssignElement(arr, index, e), vars)
    {
      hide TransExpr, TransStmt, Scoped, AddressCode, InScope, Below, Allot, WellFormed;
      ElementInScope(arr, index, e, vars, temps, tr.tempCount);
      AssignShape(AssignElement(arr, index, e), vars, loopExits, tr.tempCount, tr.labelCount);
      ghost var c := tr.code;
      ghost var x := TransExpr(Indexed(arr, index), vars, tr.tempCount, tr.labelCount);
      ghost var r := TransExpr(e, vars, x.t, x.l);
      var a, i, _ := VisitIndexed(arr, index, vars);
      var val := VisitExpr(e, vars);
      var base := GenAddress(a, i);
      tr.Append(Store(val, base, 0));
      Glue(c, x.code, r.code, AddressCode(a, i, r.t), [Store(val, base, 0)], []);
    }

    method VisitIf(s: Stmt, ghost vars: Vars)
      requires s.IfThen? && CanVisit(s, vars)
      modifies tr, this
      ensures Performed(s, vars)
      decreases s, 0
    {
      hide TransExpr, TransStmt, Scoped, Allot, Visitable;
      VisitBody(s, s.yes, s.cond, vars, temps, tr.tempCount, tr.labelCount);
      ThenShape(s, vars, loopExits, tr.tempCount, tr.labelCount);
      ghost var k := tr.code;
      ghost var c := TransExpr(s.cond, vars, tr.tempCount, tr.labelCount);
      ghost var y := TransStmt(s.yes, vars, loopExits, c.t, c.l + 1);
      var cond := VisitExpr(s.cond, vars);
      var exit := tr.CreateLabel();
      tr.Append(Beqz(cond, exit));
      VisitStmt(s.yes, vars);
      tr.Append(Mark(exit));
      Glue(k, c.code, [Beqz(cond, exit)], y.code, [Mark(exit)], []);
    }

    method VisitIfElse(s: Stmt, ghost vars: Vars)
      requires s.IfElse? && CanVisit(s, vars)
      modifies tr, this
      ensures Performed(s, vars)
      decreases s, 0
    {
      hide TransExpr, TransStmt, WellFormed, Scoped, Allot, Visitable;
      VisitElse(s, vars, loopExits, temps, tr.tempCount, tr.labelCount);
      ElseShape(s, vars, loopExits, tr.tempCount, tr.labelCount);
      FormOfParts(s, loopExits != []);
      ghost var k := tr.code;
      ghost var c := TransExpr(s.cond, vars, tr.tempCount, tr.labelCount);
      ghost var y := TransStmt(s.yes, vars, loopExits, c.t, c.l + 1);
      ghost var z := TransStmt(s.no, vars, loopExits, y.t, y.l + 1);
      var cond := VisitExpr(s.cond, vars);
      var falseLabel := tr.CreateLabel();
      tr.Append(Beqz(cond, falseLabel));
      VisitStmt(s.yes, vars);
      VisitFalseBranch(falseLabel, s.no, vars);
      ElseGlue(k, c.code, Beqz(cond, falseLabel), y.code, Branch(y.l), Mark(falseLabel), z.code, Mark(y.l));
    }

    /** The jump over the false branch, and the branch between its label and the exit. */
    method VisitFalseBranch(falseLabel: Label, no: Stmt, ghost vars: Vars)
      requires Visitable(no, vars, temps, tr.tempCount) && WellFormed(no, loopExits != [])
      modifies tr, this
      ensures var exit := old(tr.labelCount); var z := TransStmt(no, vars, loopExits, old(tr.tempCount), exit + 1);
        && tr.Emits([Branch(exit), Mark(falseLabel)] + z.code + [Mark(exit)], z.t, z.l)
        && temps == Allot(no, old(temps), old(tr.tempCount)) && loopExits == old(loopExits)
      decreases no, 3
    {
      hide TransStmt, WellFormed, Allot, Visitable;
      ghost var k := tr.code;
      var exit := tr.CreateLabel();
      tr.Append(Branch(exit));
      tr.Append(Mark(falseLabel));
      ghost var z := TransStmt(no, vars, loopExits, tr.tempCount, tr.labelCount);
      VisitStmt(no, vars);
      tr.Append(Mark(exit));
      assert k + [Branch(exit)] + [Mark(falseLabel)] == k + [Branch(exit), Mark(falseLabel)];
      Glue(k, [Branch(exit), Mark(falseLabel)], z.code, [Mark(exit)], [], []);
    }

    /** The end of both loops: the test, the body inside the loop, the jump back, and the exit. */
    method VisitLoopBody(cond: Temp, back: Label, body: Stmt, ghost vars: Vars)
      requires Visitable(body, vars, temps, tr.tempCount) && WellFormed(body, true)
      modifies tr, this
      ensures var exit := old(tr.labelCount);
        var b := TransStmt(body, vars, old(loopExits) + [exit], old(tr.tempCount), exit + 1);
        && tr.Emits([Beqz(cond, exit)] + b.code + [Branch(back), Mark(exit)], b.t, b.l)
        && temps == Allot(body, old(temps), old(tr.tempCount)) && loopExits == old(loopExits)
      decreases body, 3
    {
      hide TransStmt, WellFormed, Allot, Visitable;
      ghost var k := tr.code;
      var exit := tr.CreateLabel();
      tr.Append(Beqz(cond, exit));
      loopExits := loopExits + [exit];
      ghost var b := TransStmt(body, vars, loopExits, tr.tempCount, tr.labelCount);
      VisitStmt(body, vars);
      tr.Append(Branch(back));
      loopExits := loopExits[..|loopExits| - 1];
      tr.Append(Mark(exit));
      Glue(k, [Beqz(cond, exit)], b.code, [Branch(back)], [Mark(exit)], []);
      assert [Beqz(cond, exit)] + b.code + [Branch(back)] + [Mark(exit)]
          == [Beqz(cond, exit)] + b.code + [Branch(back), Mark(exit)];
    }

    method VisitWhileLoop(s: Stmt, ghost vars: Vars)
      requires s.While? && CanVisit(s, vars)
      modifies tr, this
      ensures Performed(s, vars)
      decreases s, 0
    {
      hide TransExpr, TransStmt, WellFormed, Scoped, Allot, Visitable;
      VisitBody(s, s.body, s.cond, vars, temps, tr.tempCount, tr.labelCount + 1);
      FormOfParts(s, loopExits != []);
      WhileShape(s, vars, loopExits, tr.tempCount, tr.labelCount);
      ghost var k := tr.code;
      ghost var c := TransExpr(s.cond, vars, tr.tempCount, tr.labelCount + 1);
      ghost var b := TransStmt(s.body, vars, loopExits + [c.l], c.t, c.l + 1);
      var loop := tr.CreateLabel();
      tr.Append(Mark(loop));
      var cond := VisitExpr(s.cond, vars);
      VisitLoopBody(cond, loop, s.body, vars);
      LoopGlue(k, [Mark(loop)], c.code, [Beqz(cond, c.l)], b.code, [Branch(loop), Mark(c.l)]);
    }

    /** The first part of visitForLoop: initialisation, the jump to the condition, and the update. */
    method VisitForHead(s: Stmt, ghost vars: Vars) returns (loop: Label)
      requires s.For? && CanVisit(s, vars)
      modifies tr, this
      ensures var f := ForParts(s, vars, loopExits, old(tr.tempCount), old(tr.labelCount));
        && loop == f.i.l + 1
        && tr.Emits(f.i.code + [Branch(f.i.l), Mark(loop)] + f.u.code + [Mark(f.i.l)], f.u.t, f.u.l)
      ensures temps == old(temps) && loopExits == old(loopExits)
      decreases s, 0
    {
      hide TransExpr, TransStmt, WellFormed, Scoped, Allot, Visitable, IsSimple;
      VisitFor(s, vars, loopExits, temps, tr.tempCount, tr.labelCount);
      FormOfParts(s, loopExits != []);
      ghost var k := tr.code;
      ghost var f := ForParts(s, vars, loopExits, tr.tempCount, tr.labelCount);
      SimpleIsWellFormed(s.init, loopExits != []);
      SimpleIsWellFormed(s.update, loopExits != []);
      VisitStmt(s.init, vars);
      var top := tr.CreateLabel();
      loop := tr.CreateLabel();
      tr.Append(Branch(top));
      tr.Append(Mark(loop));
      VisitStmt(s.update, vars);
      tr.Append(Mark(top));
      ForHeadGlue(k, f);
    }

    method VisitForLoop(s: Stmt, ghost vars: Vars)
      requires s.For? && CanVisit(s, vars)
      modifies tr, this
      ensures Performed(s, vars)
      decreases s, 1
    {
      hide TransExpr, TransStmt, WellFormed, Scoped, Allot, Visitable, ForCode;
      VisitFor(s, vars, loopExits, temps, tr.tempCount, tr.labelCount);
      FormOfParts(s, loopExits != []);
      ForShape(s, vars, loopExits, tr.tempCount, tr.labelCount);
      ghost var k := tr.code;
      ghost var f := ForParts(s, vars, loopExits, tr.tempCount, tr.labelCount);
      var loop := VisitForHead(s, vars);
      var cond := VisitExpr(s.cond, vars);
      VisitLoopBody(cond, loop, s.body, vars);
      ForGlue(k, f);
    }

    /** A block is its statements in order. */
    method VisitBlockStmts(s: Stmt, ghost vars: Vars)
      requires s.Seq? && CanVisit(s, vars)
      modifies tr, this
      ensures Performed(s, vars)
      decreases s, 0
    {
      hide TransExpr, TransStmt, WellFormed, Scoped, Allot, Visitable;
      VisitBlock(s, vars, loopExits, temps, tr.tempCount, tr.labelCount);
      FormOfParts(s, loopExits != []);
      BlockShape(s, vars, loopExits, tr.tempCount, tr.labelCount);
      VisitStmt(s.first, vars);
      VisitStmt(s.second, vars);
    }

    method VisitStmt(s: Stmt, ghost vars: Vars)
      requires CanVisit(s, vars)
      modifies tr, this
      ensures Performed(s, vars)
      decreases s, 2
    {
      hide CanVisit, Performed;
      match s
      case Skip => VisitSkip(vars);
      case Declare(x) => VisitVarDef(x, vars);
      case Seq(_, _) => VisitBlockStmts(s, vars);
      case AssignVar(x, e) => VisitAssignVar(x, e, vars);
      case AssignField(owner, offset, e) => VisitAssignField(owner, offset, e, vars);
      case AssignElement(arr, index, e) => VisitAssignElement(arr, index, e, vars);
      case Exec(_) => VisitExec(s, vars);
      case CallVoid(_, _) => VisitExec(s, vars);
      case InvokeVoid(_, _, _) => VisitExec(s, vars);
      case Print(_, _) => VisitPrint(s, vars);
      case IfThen(_, _) => VisitIf(s, vars);
      case IfElse(_, _, _) => VisitIfElse(s, vars);
      case While(_, _) => VisitWhileLoop(s, vars);
      case For(_, _, _, _) => VisitForLoop(s, vars);
      case Break => BreakIsInLoop(vars); VisitBreak(vars);
      case ReturnVoid => VisitReturn(s, vars);
      case ReturnValue(_) => VisitReturn(s, vars);
    }

    method VisitSkip(ghost vars: Vars)
      modifies tr, this
      ensures Performed(Skip, vars)
    {
    }

    lemma BreakIsInLoop(vars: Vars)
      requires CanVisit(Break, vars)
      ensures loopExits != []
    {
    }

    /** A method: its mark and its body; parameters and this already have temps. The code preserves the meaning. */
    method VisitMethodDef(entry: Label, body: Stmt)
      requires tr.code == [] && loopExits == [] && FunctionOk(entry, body, temps, tr.tempCount, tr.labelCount)
      modifies tr, this
      ensures tr.code == FunctionCode(entry, body, old(temps), old(tr.tempCount), old(tr.labelCount))
      ensures temps == Allot(body, old(temps), old(tr.tempCount))
    {
      hide TransStmt, WellFormed, InScope, Allot;
      ghost var vars := Allot(body, temps, tr.tempCount);
      tr.Append(Mark(entry));
      VisitStmt(body, vars);
    }
  }
}
