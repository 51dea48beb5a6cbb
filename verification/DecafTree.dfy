/** Expressions and statements of checked Decaf trees, and what they mean. */
module DecafTree {
  import opened Lists
  import opened Tac

  type Symbol = nat

  const WORD_SIZE := 4

  const ARRAY_INDEX_OUT_OF_BOUND := "Decaf runtime error: Array subscript out of bounds\n"

  const NEGATIVE_ARR_SIZE := "Decaf runtime error: Cannot create negative-sized array\n"

  const CLASS_CAST_ERROR1 := "Decaf runtime error: "

  const CLASS_CAST_ERROR2 := " cannot be cast to "

  const CLASS_CAST_ERROR3 := "\n"

  datatype Expr =
    | IntLit(n: int)
    | BoolLit(b: bool)
    | StringLit(s: string)
    | Null
    | Var(x: Symbol)                             // a local variable, a parameter, or this
    | Field(owner: Expr, offset: int)
    | Indexed(arr: Expr, index: Expr)
    | Length(arr: Expr)
    | Infix(op: BinOp, left: Expr, right: Expr)  // == and != of anything but strings included
    | StringEq(left: Expr, right: Expr, negated: bool)
    | Prefix(un: UnOp, e: Expr)
    | ReadInt
    | ReadLine
    | Call(entry: Label, args: Args)             // a static call with a result, new of a class included
    | Invoke(receiver: Expr, offset: int, args: Args)  // a call through the virtual table
    | NewArray(length: Expr)
    | TypeTest(instance: Expr, cls: string)
    | TypeCast(val: Expr, cls: string, checked: bool)  // checked unless the type of the operand is compatible

  datatype Args = NoArgs | Arg(first: Expr, rest: Args)

  datatype Stmt =
    | Skip
    | Declare(x: Symbol)                         // a local variable
    | Seq(first: Stmt, second: Stmt)             // a block is its statements one after another
    | AssignVar(x: Symbol, e: Expr)
    | AssignField(owner: Expr, offset: int, e: Expr)
    | AssignElement(arr: Expr, index: Expr, e: Expr)
    | Exec(e: Expr)
    | CallVoid(entry: Label, args: Args)
    | InvokeVoid(receiver: Expr, offset: int, args: Args)
    | Print(callee: Callee, e: Expr)
    | IfThen(cond: Expr, yes: Stmt)
    | IfElse(cond: Expr, yes: Stmt, no: Stmt)
    | While(cond: Expr, body: Stmt)
    | For(init: Stmt, cond: Expr, update: Stmt, body: Stmt)
    | Break
    | ReturnVoid
    | ReturnValue(e: Expr)

  // ---------- well-formed trees ----------

  /** What the grammar allows as the first and third part of a for statement. */
  predicate IsSimple(s: Stmt) {
    s.Skip? || s.AssignVar? || s.AssignField? || s.AssignElement? || s.Exec? || s.CallVoid? || s.InvokeVoid?
  }

  /** Breaks are inside loops, prints call print intrinsics, for statements are made of simple parts. */
  predicate WellFormed(s: Stmt, inLoop: bool) {
    match s
    case Seq(a, b) => WellFormed(a, inLoop) && WellFormed(b, inLoop)
    case Print(callee, _) => callee in {PRINT_INT, PRINT_STRING, PRINT_BOOL}
    case IfThen(_, yes) => WellFormed(yes, inLoop)
    case IfElse(_, yes, no) => WellFormed(yes, inLoop) && WellFormed(no, inLoop)
    case While(_, body) => WellFormed(body, true)
    case For(init, _, update, body) => IsSimple(init) && IsSimple(update) && WellFormed(body, true)
    case Break => inLoop
    case _ => true
  }

  // ---------- meaning ----------

  /**
   * An expression yields a value, or a failed check ends the program. Nothing is promised about an array whose
   * size or addresses the arithmetic of the machine cannot represent, nor about an object whose virtual table has
   * no end of ancestors.
   */
  datatype Result<W> = Value(v: int, w: W) | Stop(w: W) | NoPromise

  datatype ArgValues<W> = Values(vs: seq<int>, w: W) | NoValues(why: Result<W>)

  ghost predicate InBounds<W>(M: Machine<W>, i: int, length: int) {
    M.bin(LES, i, length) != 0 && M.bin(LES, i, 0) == 0
  }

  /** With a comparison that compares, this is what it should be. */
  lemma InBoundsMeans<W>(M: Machine<W>, i: int, length: int)
    requires forall a, b :: M.bin(LES, a, b) == if a < b then 1 else 0
    ensures InBounds(M, i, length) <==> 0 <= i < length
  {
  }

  ghost function ElementAddress<W>(M: Machine<W>, arr: int, i: int): int {
    M.bin(ADD, arr, M.bin(MUL, i, WORD_SIZE))
  }

  /** The message that precedes the end of the program. */
  ghost function Complain<W>(M: Machine<W>, w: W, message: string): W {
    M.call(M.parm(w, M.str(message)), PRINT_STRING).1
  }

  ghost function ParmAll<W>(M: Machine<W>, w: W, vs: seq<int>): W {
    if vs == [] then w else ParmAll(M, M.parm(w, vs[0]), vs[1..])
  }

  /** The arithmetic of an array creation comes out as on the integers. */
  ghost predicate Fits<W>(M: Machine<W>, n: int, base: int) {
    && n >= 0
    && M.bin(MUL, WORD_SIZE, n) == WORD_SIZE * n
    && M.bin(ADD, WORD_SIZE, WORD_SIZE * n) == WORD_SIZE * (n + 1)
    && M.bin(ADD, base, WORD_SIZE * (n + 1)) == base + WORD_SIZE * (n + 1)
    && forall k :: 0 <= k <= n ==> CountsDown(M, base, k)
  }

  ghost predicate CountsDown<W>(M: Machine<W>, base: int, k: int) {
    && M.bin(SUB, WORD_SIZE * (k + 1), WORD_SIZE) == WORD_SIZE * k
    && M.bin(SUB, base + WORD_SIZE * (k + 1), WORD_SIZE) == base + WORD_SIZE * k
  }

  /** Any arithmetic that is exact on 31 bits can create an array that lies below the 2 GB line. */
  lemma ArraysBelowFit<W>(M: Machine<W>, n: int, base: int)
    requires forall a, b :: 0 <= a + b < 0x8000_0000 ==> M.bin(ADD, a, b) == a + b
    requires forall a, b :: 0 <= a - b < 0x8000_0000 ==> M.bin(SUB, a, b) == a - b
    requires forall a, b :: 0 <= a * b < 0x8000_0000 ==> M.bin(MUL, a, b) == a * b
    requires 0 <= n && 0 <= base && base + WORD_SIZE * (n + 1) < 0x8000_0000
    ensures Fits(M, n, base)
  {
    forall k | 0 <= k <= n ensures CountsDown(M, base, k) {
      assert 0 <= WORD_SIZE * (k + 1) - WORD_SIZE < 0x8000_0000;
      assert 0 <= base + WORD_SIZE * (k + 1) - WORD_SIZE < 0x8000_0000;
    }
  }

  /** Memory after the elements of the array at `base` are set to zero, the last one first. */
  ghost function Cleared<W>(M: Machine<W>, w: W, base: int, n: nat): W {
    if n == 0 then w else Cleared(M, M.store(w, base + WORD_SIZE * n, 0), base, n - 1)
  }

  /** The object a call goes to is the first parameter; its virtual table is read after all of them. */
  ghost function Dispatch<W>(M: Machine<W>, w: W, receiver: int, offset: int, vs: seq<int>): (int, W) {
    var w1 := ParmAll(M, M.parm(w, receiver), vs);
    M.icall(w1, M.load(w1, M.load(w1, receiver) + offset))
  }

  ghost function Allocated<W>(M: Machine<W>, n: int, w: W): (int, W) {
    M.call(M.parm(w, M.bin(ADD, WORD_SIZE, M.bin(MUL, WORD_SIZE, n))), ALLOCATE)
  }

  /**
   * What the search for the table `target` from the table `vp` upwards comes to in at most `n` steps to a parent: what
   * the comparison yields where it is met, or 0 behind the last parent.
   */
  ghost function Climb<W>(M: Machine<W>, w: W, target: int, vp: int, n: nat): Option<int>
    decreases n
  {
    if M.bin(EQU, target, vp) != 0 then Some(M.bin(EQU, target, vp))
    else if M.load(w, vp) == 0 then Some(0)
    else if n == 0 then None else Climb(M, w, target, M.load(w, vp), n - 1)
  }

  /** Whether the object at `v` is of the class or of a class below it, if the tables above its own come to an end. */
  ghost function InstanceOf<W>(M: Machine<W>, w: W, v: int, cls: string): Option<int> {
    var (target, vp) := (M.vtbl(cls), M.load(w, v));
    if n: nat :| Climb(M, w, target, vp, n).Some? then Climb(M, w, target, vp, n) else None
  }

  ghost function TestClass<W>(M: Machine<W>, v: int, cls: string, w: W): Result<W> {
    var r := InstanceOf(M, w, v, cls);
    if r.None? then NoPromise else Value(r.value, w)
  }

  /** An object that is not of the class ends the program, with the names of both classes. */
  ghost function CastClass<W>(M: Machine<W>, v: int, cls: string, w: W): Result<W> {
    var r := InstanceOf(M, w, v, cls);
    if r.None? then NoPromise else if r.value != 0 then Value(v, w) else Stop(ComplainCast(M, w, v, cls))
  }

  ghost function Say<W>(M: Machine<W>, w: W, v: int): W {
    M.call(M.parm(w, v), PRINT_STRING).1
  }

  /** The name of a class is at the second place of its table. */
  ghost function ComplainCast<W>(M: Machine<W>, w: W, v: int, cls: string): W {
    var w1 := Say(M, w, M.str(CLASS_CAST_ERROR1));
    var w2 := Say(M, w1, M.load(w1, M.load(w1, v) + WORD_SIZE));
    var w3 := Say(M, w2, M.str(CLASS_CAST_ERROR2));
    var w4 := Say(M, w3, M.load(w3, M.vtbl(cls) + WORD_SIZE));
    Say(M, w4, M.str(CLASS_CAST_ERROR3))
  }

  /** Operands are evaluated from left to right, both of them even for && and ||. */
  ghost function Eval<W>(M: Machine<W>, e: Expr, env: Env, w: W): Result<W> {
    match e
    case IntLit(n) => Value(n, w)
    case BoolLit(b) => Value(if b then 1 else 0, w)
    case StringLit(s) => Value(M.str(s), w)
    case Null => Value(0, w)
    case Var(x) => Value(Get(env, x), w)
    case Field(owner, offset) =>
      var r := Eval(M, owner, env, w);
      if !r.Value? then r else Value(M.load(r.w, r.v + offset), r.w)
    case Indexed(arr, index) =>
      var a := Eval(M, arr, env, w);
      if !a.Value? then a else
        var i := Eval(M, index, env, a.w);
        if !i.Value? then i
        else if InBounds(M, i.v, M.load(i.w, a.v - WORD_SIZE)) then
          Value(M.load(i.w, ElementAddress(M, a.v, i.v)), i.w)
        else Stop(Complain(M, i.w, ARRAY_INDEX_OUT_OF_BOUND))
    case Length(arr) =>
      var a := Eval(M, arr, env, w);
      if !a.Value? then a else Value(M.load(a.w, a.v - WORD_SIZE), a.w)
    case Infix(op, left, right) =>
      var a := Eval(M, left, env, w);
      if !a.Value? then a else
        var b := Eval(M, right, env, a.w);
        if !b.Value? then b else Value(M.bin(op, a.v, b.v), b.w)
    case StringEq(left, right, negated) =>
      var a := Eval(M, left, env, w);
      if !a.Value? then a else
        var b := Eval(M, right, env, a.w);
        if !b.Value? then b else
          var r := M.call(M.parm(M.parm(b.w, a.v), b.v), STRING_EQUAL);
          Value(if negated then M.un(LNOT, r.0) else r.0, r.1)
    case Prefix(un, e1) =>
      var r := Eval(M, e1, env, w);
      if !r.Value? then r else Value(M.un(un, r.v), r.w)
    case ReadInt => var r := M.call(w, READ_INT); Value(r.0, r.1)
    case ReadLine => var r := M.call(w, READ_LINE); Value(r.0, r.1)
    case Call(f, args) =>
      var r := EvalArgs(M, args, env, w);
      if r.NoValues? then r.why else
        var c := M.call(ParmAll(M, r.w, r.vs), Function(f)); Value(c.0, c.1)
    case Invoke(receiver, offset, args) =>
      var o := Eval(M, receiver, env, w);
      if !o.Value? then o else
        var r := EvalArgs(M, args, env, o.w);
        if r.NoValues? then r.why else
          var c := Dispatch(M, r.w, o.v, offset, r.vs); Value(c.0, c.1)
    case NewArray(length) =>
      var n := Eval(M, length, env, w);
      if !n.Value? then n
      else if M.bin(LES, n.v, 0) != 0 then Stop(Complain(M, n.w, NEGATIVE_ARR_SIZE))
      else
        var a := Allocated(M, n.v, n.w);
        if Fits(M, n.v, a.0) then
          Value(a.0 + WORD_SIZE, Cleared(M, M.store(a.1, a.0, n.v), a.0, n.v))
        else NoPromise
    case TypeTest(instance, cls) =>
      var r := Eval(M, instance, env, w);
      if !r.Value? then r else TestClass(M, r.v, cls, r.w)
    case TypeCast(val, cls, checked) =>
      var r := Eval(M, val, env, w);
      if !r.Value? then r else if checked then CastClass(M, r.v, cls, r.w) else r
  }

  ghost function EvalArgs<W>(M: Machine<W>, args: Args, env: Env, w: W): (r: ArgValues<W>)
    ensures r.NoValues? ==> !r.why.Value?
  {
    match args
    case NoArgs => Values([], w)
    case Arg(e, rest) =>
      var r := Eval(M, e, env, w);
      if !r.Value? then NoValues(r) else
        var rs := EvalArgs(M, rest, env, r.w);
        if rs.NoValues? then rs else Values([r.v] + rs.vs, rs.w)
  }

  /** How a statement ends. `OutOfFuel` says that some loop needs more rounds than it was given. */
  datatype Outcome<W> =
    | Normal(env: Env, w: W)
    | Broke(env: Env, w: W)
    | Back(value: Option<int>, w: W)
    | Ended(w: W)
    | Unpromised
    | OutOfFuel

  /** A statement ends where an expression of it fails. */
  function Failed<W>(r: Result<W>): Outcome<W>
    requires !r.Value?
  {
    if r.Stop? then Ended(r.w) else Unpromised
  }

  ghost function Perform<W>(M: Machine<W>, s: Stmt, env: Env, w: W, fuel: nat): Outcome<W>
    decreases fuel, s, 1
  {
    match s
    case Skip => Normal(env, w)
    case Declare(_) => Normal(env, w)            // the variable keeps what its temp happens to hold
    case Seq(a, b) =>
      var r := Perform(M, a, env, w, fuel);
      if r.Normal? then Perform(M, b, r.env, r.w, fuel) else r
    case AssignVar(x, e) =>
      var r := Eval(M, e, env, w);
      if !r.Value? then Failed(r) else Normal(env[x := r.v], r.w)
    case AssignField(owner, offset, e) =>
      var o := Eval(M, owner, env, w);
      if !o.Value? then Failed(o) else
        var r := Eval(M, e, env, o.w);
        if !r.Value? then Failed(r) else Normal(env, M.store(r.w, o.v + offset, r.v))
    case AssignElement(arr, index, e) =>
      var a := Eval(M, arr, env, w);
      if !a.Value? then Failed(a) else
        var i := Eval(M, index, env, a.w);
        if !i.Value? then Failed(i)
        else if !InBounds(M, i.v, M.load(i.w, a.v - WORD_SIZE)) then
          Ended(Complain(M, i.w, ARRAY_INDEX_OUT_OF_BOUND))
        else
          var r := Eval(M, e, env, i.w);
          if !r.Value? then Failed(r) else Normal(env, M.store(r.w, ElementAddress(M, a.v, i.v), r.v))
    case Exec(e) =>
      var r := Eval(M, e, env, w);
      if !r.Value? then Failed(r) else Normal(env, r.w)
    case CallVoid(f, args) =>
      var r := EvalArgs(M, args, env, w);
      if r.NoValues? then Failed(r.why) else Normal(env, M.call(ParmAll(M, r.w, r.vs), Function(f)).1)
    case InvokeVoid(receiver, offset, args) =>
      var o := Eval(M, receiver, env, w);
      if !o.Value? then Failed(o) else
        var r := EvalArgs(M, args, env, o.w);
        if r.NoValues? then Failed(r.why) else Normal(env, Dispatch(M, r.w, o.v, offset, r.vs).1)
    case Print(callee, e) =>
      var r := Eval(M, e, env, w);
      if !r.Value? then Failed(r) else Normal(env, M.call(M.parm(r.w, r.v), callee).1)
    case IfThen(cond, yes) =>
      var c := Eval(M, cond, env, w);
      if !c.Value? then Failed(c) else if c.v == 0 then Normal(env, c.w) else Perform(M, yes, env, c.w, fuel)
    case IfElse(cond, yes, no) =>
      var c := Eval(M, cond, env, w);
      if !c.Value? then Failed(c) else Perform(M, if c.v == 0 then no else yes, env, c.w, fuel)
    case While(cond, body) =>
      if fuel == 0 then OutOfFuel else
        var c := Eval(M, cond, env, w);
        if !c.Value? then Failed(c) else if c.v == 0 then Normal(env, c.w) else
          var r := Perform(M, body, env, c.w, fuel);
          if r.Broke? then Normal(r.env, r.w)
          else if r.Normal? then Perform(M, s, r.env, r.w, fuel - 1) else r
    case For(init, cond, update, body) =>
      var r := Perform(M, init, env, w, fuel);
      if r.Normal? then Rounds(M, s, r.env, r.w, fuel) else r
    case Break => Broke(env, w)
    case ReturnVoid => Back(None, w)
    case ReturnValue(e) =>
      var r := Eval(M, e, env, w);
      if !r.Value? then Failed(r) else Back(Some(r.v), r.w)
  }

  /** The rounds of a for statement: condition, body, update. */
  ghost function Rounds<W>(M: Machine<W>, s: Stmt, env: Env, w: W, fuel: nat): Outcome<W>
    requires s.For?
    decreases fuel, s, 0
  {
    if fuel == 0 then OutOfFuel else
      var c := Eval(M, s.cond, env, w);
      if !c.Value? then Failed(c) else if c.v == 0 then Normal(env, c.w) else
        var r := Perform(M, s.body, env, c.w, fuel);
        if r.Broke? then Normal(r.env, r.w)
        else if r.Normal? then
          var u := Perform(M, s.update, r.env, r.w, fuel);
          if u.Normal? then Rounds(M, s, u.env, u.w, fuel - 1) else u
        else r
  }
}
