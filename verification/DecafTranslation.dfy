/** The code that decaf/src/decaf/translate emits for a tree, as a function of the counters it starts from. */
module DecafTranslation {
  import opened Lists
  import opened Tac
  import opened DecafTree

  /** The temps that stand for variables, parameters and this. */
  type Vars = map<Symbol, Temp>

  function Slot(vars: Vars, x: Symbol): Temp {
    if x in vars then vars[x] else 0
  }

  /** Code, the temp that holds the value, and the counters after it. */
  datatype Out = Out(code: Code, val: Temp, t: nat, l: nat)

  datatype ArgsOut = ArgsOut(code: Code, vals: seq<Temp>, t: nat, l: nat)

  datatype StmtOut = StmtOut(code: Code, t: nat, l: nat)

  /** Length and bounds test of an array access, with a message and the end of the program behind it. */
  function CheckIndexCode(arr: Temp, index: Temp, t: nat, l: nat): Code {
    BoundsTestAbove(arr, index, t) + [Beqz(t + 1, l)] + BoundsTestBelow(index, t + 2) + [Beqz(t + 3, l + 1), Mark(l)]
    + ComplainCode(t + 4, ARRAY_INDEX_OUT_OF_BOUND) + [DirectCall(None, HALT), Mark(l + 1)]
  }

  function BoundsTestAbove(arr: Temp, index: Temp, t: nat): Code {
    [Load(t, arr, -WORD_SIZE), Binary(LES, t + 1, index, t)]
  }

  function BoundsTestBelow(index: Temp, t: nat): Code {
    [LoadImm4(t, 0), Binary(LES, t + 1, index, t)]
  }

  function ComplainCode(t: nat, message: string): Code {
    [LoadStrConst(t, message), Parm(t), DirectCall(None, PRINT_STRING)]
  }

  /** The address of an element, in temp `t + 2`. */
  function AddressCode(arr: Temp, index: Temp, t: nat): Code {
    [LoadImm4(t, WORD_SIZE), Binary(MUL, t + 1, index, t), Binary(ADD, t + 2, arr, t + 1)]
  }

  /** Equality of strings is a runtime function; inequality is its negation. */
  function StringEqCode(x: Temp, y: Temp, negated: bool, t: nat): Code {
    [Parm(x), Parm(y), DirectCall(Some(t), STRING_EQUAL)] + if negated then [Unary(LNOT, t + 1, t)] else []
  }

  function ParmCode(vals: seq<Temp>): Code {
    if vals == [] then [] else [Parm(vals[0])] + ParmCode(vals[1..])
  }

  // ---------- how many temps and labels a tree takes ----------

  function ExprTemps(e: Expr): nat {
    match e
    case Var(_) => 0
    case Field(owner, _) => ExprTemps(owner) + 1
    case Indexed(arr, index) => ExprTemps(arr) + ExprTemps(index) + 9
    case Length(arr) => ExprTemps(arr) + 1
    case Infix(_, left, right) => ExprTemps(left) + ExprTemps(right) + 1
    case StringEq(left, right, negated) => ExprTemps(left) + ExprTemps(right) + if negated then 2 else 1
    case Prefix(_, e1) => ExprTemps(e1) + 1
    case Call(_, args) => ArgsTemps(args) + 1
    case Invoke(receiver, _, args) => ExprTemps(receiver) + ArgsTemps(args) + 3
    case NewArray(length) => ExprTemps(length) + 8
    case TypeTest(instance, _) => ExprTemps(instance) + 3
    case TypeCast(val, _, checked) => ExprTemps(val) + if checked then 10 else 0
    case _ => 1
  }

  function ArgsTemps(args: Args): nat {
    match args
    case NoArgs => 0
    case Arg(e, rest) => ExprTemps(e) + ArgsTemps(rest)
  }

  function ExprLabels(e: Expr): nat {
    match e
    case Field(owner, _) => ExprLabels(owner)
    case Indexed(arr, index) => ExprLabels(arr) + ExprLabels(index) + 2
    case Length(arr) => ExprLabels(arr)
    case Infix(_, left, right) => ExprLabels(left) + ExprLabels(right)
    case StringEq(left, right, _) => ExprLabels(left) + ExprLabels(right)
    case Prefix(_, e1) => ExprLabels(e1)
    case Call(_, args) => ArgsLabels(args)
    case Invoke(receiver, _, args) => ExprLabels(receiver) + ArgsLabels(args)
    case NewArray(length) => ExprLabels(length) + 3
    case TypeTest(instance, _) => ExprLabels(instance) + 2
    case TypeCast(val, _, checked) => ExprLabels(val) + if checked then 2 else 0
    case _ => 0
  }

  function ArgsLabels(args: Args): nat {
    match args
    case NoArgs => 0
    case Arg(e, rest) => ExprLabels(e) + ArgsLabels(rest)
  }

  function StmtTemps(s: Stmt): nat {
    match s
    case Declare(_) => 1
    case Seq(a, b) => StmtTemps(a) + StmtTemps(b)
    case AssignVar(_, e) => ExprTemps(e)
    case AssignField(owner, _, e) => ExprTemps(owner) + 1 + ExprTemps(e)
    case AssignElement(arr, index, e) => ExprTemps(arr) + ExprTemps(index) + 9 + ExprTemps(e) + 3
    case Exec(e) => ExprTemps(e)
    case CallVoid(_, args) => ArgsTemps(args)
    case InvokeVoid(receiver, _, args) => ExprTemps(receiver) + ArgsTemps(args) + 2
    case Print(_, e) => ExprTemps(e)
    case ReturnValue(e) => ExprTemps(e)
    case IfThen(cond, yes) => ExprTemps(cond) + StmtTemps(yes)
    case IfElse(cond, yes, no) => ExprTemps(cond) + StmtTemps(yes) + StmtTemps(no)
    case While(cond, body) => ExprTemps(cond) + StmtTemps(body)
    case For(init, cond, update, body) =>
      StmtTemps(init) + StmtTemps(update) + ExprTemps(cond) + StmtTemps(body)
    case _ => 0
  }

  function StmtLabels(s: Stmt): nat {
    match s
    case Seq(a, b) => StmtLabels(a) + StmtLabels(b)
    case AssignVar(_, e) => ExprLabels(e)
    case AssignField(owner, _, e) => ExprLabels(owner) + ExprLabels(e)
    case AssignElement(arr, index, e) => ExprLabels(arr) + ExprLabels(index) + 2 + ExprLabels(e)
    case Exec(e) => ExprLabels(e)
    case CallVoid(_, args) => ArgsLabels(args)
    case InvokeVoid(receiver, _, args) => ExprLabels(receiver) + ArgsLabels(args)
    case Print(_, e) => ExprLabels(e)
    case ReturnValue(e) => ExprLabels(e)
    case IfThen(cond, yes) => ExprLabels(cond) + 1 + StmtLabels(yes)
    case IfElse(cond, yes, no) => ExprLabels(cond) + 2 + StmtLabels(yes) + StmtLabels(no)
    case While(cond, body) => ExprLabels(cond) + 2 + StmtLabels(body)
    case For(init, cond, update, body) =>
      StmtLabels(init) + 2 + StmtLabels(update) + ExprLabels(cond) + 1 + StmtLabels(body)
    case _ => 0
  }

  // ---------- code ----------

  /** The virtual table of the receiver, the function in it, and the call. */
  function DispatchCode(receiver: Temp, vals: seq<Temp>, offset: int, dst: Option<Temp>, t: nat): Code {
    [Parm(receiver)] + ParmCode(vals) + [Load(t, receiver, 0), Load(t + 1, t, offset), IndirectCall(dst, t + 1)]
  }

  /** The program ends with a message if `size` is negative. */
  function CheckSizeCode(size: Temp, t: nat, l: nat): Code {
    BoundsTestBelow(size, t) + [Beqz(t + 1, l)] + ComplainCode(t + 2, NEGATIVE_ARR_SIZE)
    + [DirectCall(None, HALT), Mark(l)]
  }

  /** Room for the elements and their number; the address of that room is in `t + 3`. */
  function AllocateCode(n: Temp, t: nat): Code {
    [LoadImm4(t, WORD_SIZE), Binary(MUL, t + 1, t, n), Binary(ADD, t + 2, t, t + 1), Parm(t + 2),
     DirectCall(Some(t + 3), ALLOCATE), Store(n, t + 3, 0), LoadImm4(t + 4, 0), Binary(ADD, t + 3, t + 3, t + 2)]
  }

  /** Stores zeros from the last element down to the first; `unit`, `size`, `obj` and `zero` are temps. */
  function ClearCode(unit: Temp, size: Temp, obj: Temp, zero: Temp, l: nat): Code {
    [Mark(l), Binary(SUB, size, size, unit), Beqz(size, l + 1), Binary(SUB, obj, obj, unit), Store(zero, obj, 0),
     Branch(l), Mark(l + 1)]
  }

  /** Climbs from the table in `t + 2` to its parents; leaves for the mark of `l + 1` where it meets the one in `t + 1`. */
  function ClimbCode(t: nat, l: nat): Code {
    [Mark(l), Binary(EQU, t, t + 1, t + 2), Bnez(t, l + 1), Load(t + 2, t + 2, 0), Bnez(t + 2, l)]
  }

  function TestClassCode(obj: Temp, cls: string, t: nat, l: nat): Code {
    [LoadVtbl(t + 1, cls), Load(t + 2, obj, 0)] + ClimbCode(t, l) + [LoadImm4(t, 0), Mark(l + 1)]
  }

  /** Prints the name of the class in whose table `vt` is. */
  function NameCode(vt: Temp, t: nat): Code {
    [Load(t, vt, WORD_SIZE), Parm(t), DirectCall(None, PRINT_STRING)]
  }

  function ComplainCastCode(obj: Temp, cls: string, t: nat): Code {
    ComplainCode(t, CLASS_CAST_ERROR1) + [Load(t + 1, obj, 0)] + NameCode(t + 1, t + 2)
    + ComplainCode(t + 3, CLASS_CAST_ERROR2) + [LoadVtbl(t + 4, cls)] + NameCode(t + 4, t + 5)
    + ComplainCode(t + 6, CLASS_CAST_ERROR3) + [DirectCall(None, HALT)]
  }

  function CastClassCode(obj: Temp, cls: string, t: nat, l: nat): Code {
    [LoadVtbl(t + 1, cls), Load(t + 2, obj, 0)] + ClimbCode(t, l) + ComplainCastCode(obj, cls, t + 3) + [Mark(l + 1)]
  }

  function TransExpr(e: Expr, vars: Vars, t: nat, l: nat): (r: Out)
    ensures r.t >= t && r.l >= l
  {
    match e
    case IntLit(n) => Out([LoadImm4(t, n)], t, t + 1, l)
    case BoolLit(b) => Out([LoadImm4(t, if b then 1 else 0)], t, t + 1, l)
    case StringLit(s) => Out([LoadStrConst(t, s)], t, t + 1, l)
    case Null => Out([LoadImm4(t, 0)], t, t + 1, l)
    case Var(x) => Out([], Slot(vars, x), t, l)
    case Field(owner, offset) =>
      var o := TransExpr(owner, vars, t, l);
      Out(o.code + [Load(o.t, o.val, offset)], o.t, o.t + 1, o.l)
    case Indexed(arr, index) =>
      var a := TransExpr(arr, vars, t, l);
      var i := TransExpr(index, vars, a.t, a.l);
      Out(a.code + i.code + CheckIndexCode(a.val, i.val, i.t, i.l) + AddressCode(a.val, i.val, i.t + 5)
          + [Load(i.t + 8, i.t + 7, 0)], i.t + 8, i.t + 9, i.l + 2)
    case Length(arr) =>
      var a := TransExpr(arr, vars, t, l);
      Out(a.code + [Load(a.t, a.val, -WORD_SIZE)], a.t, a.t + 1, a.l)
    case Infix(op, left, right) =>
      var a := TransExpr(left, vars, t, l);
      var b := TransExpr(right, vars, a.t, a.l);
      Out(a.code + b.code + [Binary(op, b.t, a.val, b.val)], b.t, b.t + 1, b.l)
    case StringEq(left, right, negated) =>
      var a := TransExpr(left, vars, t, l);
      var b := TransExpr(right, vars, a.t, a.l);
      var val := if negated then b.t + 1 else b.t;
      Out(a.code + b.code + StringEqCode(a.val, b.val, negated, b.t), val, val + 1, b.l)
    case Prefix(un, e1) =>
      var a := TransExpr(e1, vars, t, l);
      Out(a.code + [Unary(un, a.t, a.val)], a.t, a.t + 1, a.l)
    case ReadInt => Out([DirectCall(Some(t), READ_INT)], t, t + 1, l)
    case ReadLine => Out([DirectCall(Some(t), READ_LINE)], t, t + 1, l)
    case Call(f, args) =>
      var a := TransArgs(args, vars, t, l);
      Out(a.code + ParmCode(a.vals) + [DirectCall(Some(a.t), Function(f))], a.t, a.t + 1, a.l)
    case Invoke(receiver, offset, args) =>
      var o := TransExpr(receiver, vars, t, l);
      var a := TransArgs(args, vars, o.t, o.l);
      Out(o.code + a.code + DispatchCode(o.val, a.vals, offset, Some(a.t + 2), a.t), a.t + 2, a.t + 3, a.l)
    case NewArray(length) =>
      var n := TransExpr(length, vars, t, l);
      Out(n.code + CheckSizeCode(n.val, n.t, n.l) + AllocateCode(n.val, n.t + 3)
          + ClearCode(n.t + 3, n.t + 5, n.t + 6, n.t + 7, n.l + 1), n.t + 6, n.t + 8, n.l + 3)
    case TypeTest(instance, cls) =>
      var o := TransExpr(instance, vars, t, l);
      Out(o.code + TestClassCode(o.val, cls, o.t, o.l), o.t, o.t + 3, o.l + 2)
    case TypeCast(val, cls, checked) =>
      var o := TransExpr(val, vars, t, l);
      if checked then Out(o.code + CastClassCode(o.val, cls, o.t, o.l), o.val, o.t + 10, o.l + 2) else o
  }

  function TransArgs(args: Args, vars: Vars, t: nat, l: nat): (r: ArgsOut)
    ensures r.t >= t && r.l >= l
  {
    match args
    case NoArgs => ArgsOut([], [], t, l)
    case Arg(e, rest) =>
      var a := TransExpr(e, vars, t, l);
      var r := TransArgs(rest, vars, a.t, a.l);
      ArgsOut(a.code + r.code, [a.val] + r.vals, r.t, r.l)
  }

  /** Initialisation, update, condition and body of a for statement. */
  function ForCode(i: StmtOut, u: StmtOut, c: Out, b: StmtOut): Code {
    i.code + [Branch(i.l), Mark(i.l + 1)] + u.code + [Mark(i.l)] + c.code + [Beqz(c.val, c.l)] + b.code
    + [Branch(i.l + 1), Mark(c.l)]
  }

  /** `exits` are the labels behind the enclosing loops, the innermost last. */
  function TransStmt(s: Stmt, vars: Vars, exits: seq<Label>, t: nat, l: nat): (r: StmtOut)
    ensures r.t >= t && r.l >= l
  {
    match s
    case Skip => StmtOut([], t, l)
    case Declare(_) => StmtOut([], t + 1, l)
    case Seq(a, b) =>
      var x := TransStmt(a, vars, exits, t, l);
      var y := TransStmt(b, vars, exits, x.t, x.l);
      StmtOut(x.code + y.code, y.t, y.l)
    case AssignVar(x, e) =>
      var r := TransExpr(e, vars, t, l);
      StmtOut(r.code + [Assign(Slot(vars, x), r.val)], r.t, r.l)
    case AssignField(owner, offset, e) =>
      var o := TransExpr(owner, vars, t, l);
      var r := TransExpr(e, vars, o.t + 1, o.l);
      StmtOut(o.code + [Load(o.t, o.val, offset)] + r.code + [Store(r.val, o.val, offset)], r.t, r.l)
    case AssignElement(arr, index, e) =>
      var a := TransExpr(arr, vars, t, l);
      var i := TransExpr(index, vars, a.t, a.l);
      var x := TransExpr(Indexed(arr, index), vars, t, l);
      var r := TransExpr(e, vars, x.t, x.l);
      StmtOut(x.code + r.code + AddressCode(a.val, i.val, r.t) + [Store(r.val, r.t + 2, 0)], r.t + 3, r.l)
    case Exec(e) =>
      var r := TransExpr(e, vars, t, l);
      StmtOut(r.code, r.t, r.l)
    case CallVoid(f, args) =>
      var a := TransArgs(args, vars, t, l);
      StmtOut(a.code + ParmCode(a.vals) + [DirectCall(None, Function(f))], a.t, a.l)
    case InvokeVoid(receiver, offset, args) =>
      var o := TransExpr(receiver, vars, t, l);
      var a := TransArgs(args, vars, o.t, o.l);
      StmtOut(o.code + a.code + DispatchCode(o.val, a.vals, offset, None, a.t), a.t + 2, a.l)
    case Print(callee, e) =>
      var r := TransExpr(e, vars, t, l);
      StmtOut(r.code + [Parm(r.val), DirectCall(None, callee)], r.t, r.l)
    case IfThen(cond, yes) =>
      var c := TransExpr(cond, vars, t, l);
      var y := TransStmt(yes, vars, exits, c.t, c.l + 1);
      StmtOut(c.code + [Beqz(c.val, c.l)] + y.code + [Mark(c.l)], y.t, y.l)
    case IfElse(cond, yes, no) =>
      var c := TransExpr(cond, vars, t, l);
      var y := TransStmt(yes, vars, exits, c.t, c.l + 1);
      var n := TransStmt(no, vars, exits, y.t, y.l + 1);
      StmtOut(c.code + [Beqz(c.val, c.l)] + y.code + [Branch(y.l), Mark(c.l)] + n.code + [Mark(y.l)], n.t, n.l)
    case While(cond, body) =>
      var c := TransExpr(cond, vars, t, l + 1);
      var b := TransStmt(body, vars, exits + [c.l], c.t, c.l + 1);
      StmtOut([Mark(l)] + c.code + [Beqz(c.val, c.l)] + b.code + [Branch(l), Mark(c.l)], b.t, b.l)
    case For(init, cond, update, body) =>
      var i := TransStmt(init, vars, exits, t, l);
      var u := TransStmt(update, vars, exits, i.t, i.l + 2);
      var c := TransExpr(cond, vars, u.t, u.l);
      var b := TransStmt(body, vars, exits + [c.l], c.t, c.l + 1);
      StmtOut(ForCode(i, u, c, b), b.t, b.l)
    case Break => StmtOut([Branch(if exits == [] then 0 else exits[|exits| - 1])], t, l)
    case ReturnVoid => StmtOut([Return(None)], t, l)
    case ReturnValue(e) =>
      var r := TransExpr(e, vars, t, l);
      StmtOut(r.code + [Return(Some(r.val))], r.t, r.l)
  }

  // ---------- the code of a tree, one level at a time ----------

  lemma ForShape(s: Stmt, vars: Vars, exits: seq<Label>, t: nat, l: nat)
    requires s.For?
    ensures var f := ForParts(s, vars, exits, t, l);
      TransStmt(s, vars, exits, t, l) == StmtOut(ForCode(f.i, f.u, f.c, f.b), f.b.t, f.b.l)
  {
    hide TransExpr, ForCode;
  }

  lemma ThenShape(s: Stmt, vars: Vars, exits: seq<Label>, t: nat, l: nat)
    requires s.IfThen?
    ensures var c := TransExpr(s.cond, vars, t, l); var y := TransStmt(s.yes, vars, exits, c.t, c.l + 1);
      TransStmt(s, vars, exits, t, l)
      == StmtOut(c.code + [Beqz(c.val, c.l)] + y.code + [Mark(c.l)], y.t, y.l)
  {
    hide TransExpr;
  }

  lemma ElseShape(s: Stmt, vars: Vars, exits: seq<Label>, t: nat, l: nat)
    requires s.IfElse?
    ensures var c := TransExpr(s.cond, vars, t, l); var y := TransStmt(s.yes, vars, exits, c.t, c.l + 1);
      var z := TransStmt(s.no, vars, exits, y.t, y.l + 1);
      TransStmt(s, vars, exits, t, l)
      == StmtOut(c.code + [Beqz(c.val, c.l)] + y.code + [Branch(y.l), Mark(c.l)] + z.code + [Mark(y.l)], z.t, z.l)
  {
    hide TransExpr;
  }

  lemma InfixShape(e: Expr, vars: Vars, t: nat, l: nat)
    requires e.Infix?
    ensures var a := TransExpr(e.left, vars, t, l); var b := TransExpr(e.right, vars, a.t, a.l);
      TransExpr(e, vars, t, l) == Out(a.code + b.code + [Binary(e.op, b.t, a.val, b.val)], b.t, b.t + 1, b.l)
  {
  }

  lemma StringShape(e: Expr, vars: Vars, t: nat, l: nat)
    requires e.StringEq?
    ensures var a := TransExpr(e.left, vars, t, l); var b := TransExpr(e.right, vars, a.t, a.l);
      var val := if e.negated then b.t + 1 else b.t;
      TransExpr(e, vars, t, l) == Out(a.code + b.code + StringEqCode(a.val, b.val, e.negated, b.t), val, val + 1, b.l)
  {
  }

  lemma ElementShape(e: Expr, vars: Vars, t: nat, l: nat)
    requires e.Indexed?
    ensures var a := TransExpr(e.arr, vars, t, l); var i := TransExpr(e.index, vars, a.t, a.l);
      TransExpr(e, vars, t, l)
      == Out(a.code + i.code + CheckIndexCode(a.val, i.val, i.t, i.l) + AddressCode(a.val, i.val, i.t + 5)
             + [Load(i.t + 8, i.t + 7, 0)], i.t + 8, i.t + 9, i.l + 2)
  {
    hide CheckIndexCode, AddressCode;
  }

  lemma AssignShape(s: Stmt, vars: Vars, exits: seq<Label>, t: nat, l: nat)
    requires s.AssignElement?
    ensures var a := TransExpr(s.arr, vars, t, l); var i := TransExpr(s.index, vars, a.t, a.l);
      var x := TransExpr(Indexed(s.arr, s.index), vars, t, l); var r := TransExpr(s.e, vars, x.t, x.l);
      TransStmt(s, vars, exits, t, l)
      == StmtOut(x.code + r.code + AddressCode(a.val, i.val, r.t) + [Store(r.val, r.t + 2, 0)], r.t + 3, r.l)
  {
    hide TransExpr, AddressCode;
  }

  lemma MemberShape(s: Stmt, vars: Vars, exits: seq<Label>, t: nat, l: nat)
    requires s.AssignField?
    ensures var o := TransExpr(s.owner, vars, t, l); var r := TransExpr(s.e, vars, o.t + 1, o.l);
      var load := [Load(o.t, o.val, s.offset)];
      && TransExpr(Field(s.owner, s.offset), vars, t, l) == Out(o.code + load, o.t, o.t + 1, o.l)
      && TransStmt(s, vars, exits, t, l) == StmtOut(o.code + load + r.code + [Store(r.val, o.val, s.offset)], r.t, r.l)
  {
  }

  lemma BlockShape(s: Stmt, vars: Vars, exits: seq<Label>, t: nat, l: nat)
    requires s.Seq?
    ensures var x := TransStmt(s.first, vars, exits, t, l); var y := TransStmt(s.second, vars, exits, x.t, x.l);
      TransStmt(s, vars, exits, t, l) == StmtOut(x.code + y.code, y.t, y.l)
  {
    hide TransExpr;
  }

  lemma WhileShape(s: Stmt, vars: Vars, exits: seq<Label>, t: nat, l: nat)
    requires s.While?
    ensures var c := TransExpr(s.cond, vars, t, l + 1); var b := TransStmt(s.body, vars, exits + [c.l], c.t, c.l + 1);
      TransStmt(s, vars, exits, t, l)
      == StmtOut([Mark(l)] + c.code + [Beqz(c.val, c.l)] + b.code + [Branch(l), Mark(c.l)], b.t, b.l)
  {
    hide TransExpr;
  }

  /** The parts of a for statement: initialisation, update, condition, body. */
  datatype ForOut = ForOut(i: StmtOut, u: StmtOut, c: Out, b: StmtOut)

  function ForParts(s: Stmt, vars: Vars, exits: seq<Label>, t: nat, l: nat): ForOut
    requires s.For?
  {
    var i := TransStmt(s.init, vars, exits, t, l);
    var u := TransStmt(s.update, vars, exits, i.t, i.l + 2);
    var c := TransExpr(s.cond, vars, u.t, u.l);
    ForOut(i, u, c, TransStmt(s.body, vars, exits + [c.l], c.t, c.l + 1))
  }
}
