/** Every expression but a variable evaluates its operands from left to right and then does its own operation. */
module DecafOperations {
  import opened Lists
  import opened Tac
  import opened DecafTree
  import opened DecafTranslation

  function ListOf(args: Args): seq<Expr> {
    match args
    case NoArgs => []
    case Arg(e, rest) => [e] + ListOf(rest)
  }

  function Operands(e: Expr): seq<Expr> {
    match e
    case Field(owner, _) => [owner]
    case Indexed(arr, index) => [arr, index]
    case Length(arr) => [arr]
    case Infix(_, left, right) => [left, right]
    case StringEq(left, right, _) => [left, right]
    case Prefix(_, e1) => [e1]
    case Call(_, args) => ListOf(args)
    case Invoke(receiver, _, args) => [receiver] + ListOf(args)
    case NewArray(length) => [length]
    case TypeTest(instance, _) => [instance]
    case TypeCast(val, _, _) => [val]
    case _ => []
  }

  ghost predicate Ranks(es: seq<Expr>, e: Expr) {
    forall i :: 0 <= i < |es| ==> es[i] < e
  }

  lemma {:induction false} ArgsRank(args: Args, e: Expr)
    requires args < e
    ensures Ranks(ListOf(args), e)
    decreases args
  {
    if args.Arg? {
      ArgsRank(args.rest, e);
    }
  }

  lemma OperandsRank(e: Expr)
    ensures Ranks(Operands(e), e)
  {
    if e.Call? {
      ArgsRank(e.args, e);
    } else if e.Invoke? {
      ArgsRank(e.args, e);
    }
  }

  // ---------- code ----------

  function TransSeq(es: seq<Expr>, vars: Vars, t: nat, l: nat): (r: ArgsOut)
    ensures r.t >= t && r.l >= l && |r.vals| == |es|
  {
    if es == [] then ArgsOut([], [], t, l) else
      var a := TransExpr(es[0], vars, t, l);
      var r := TransSeq(es[1..], vars, a.t, a.l);
      ArgsOut(a.code + r.code, [a.val] + r.vals, r.t, r.l)
  }

  /** What an operation emits once its operands are in the temps `vs`. */
  function OwnCode(e: Expr, vs: seq<Temp>, t: nat, l: nat): Code
    requires |vs| == |Operands(e)|
  {
    match e
    case IntLit(n) => [LoadImm4(t, n)]
    case BoolLit(b) => [LoadImm4(t, if b then 1 else 0)]
    case StringLit(s) => [LoadStrConst(t, s)]
    case Null => [LoadImm4(t, 0)]
    case Var(_) => []
    case Field(_, offset) => [Load(t, vs[0], offset)]
    case Indexed(_, _) =>
      CheckIndexCode(vs[0], vs[1], t, l) + AddressCode(vs[0], vs[1], t + 5) + [Load(t + 8, t + 7, 0)]
    case Length(_) => [Load(t, vs[0], -WORD_SIZE)]
    case Infix(op, _, _) => [Binary(op, t, vs[0], vs[1])]
    case StringEq(_, _, negated) => StringEqCode(vs[0], vs[1], negated, t)
    case Prefix(un, _) => [Unary(un, t, vs[0])]
    case ReadInt => [DirectCall(Some(t), READ_INT)]
    case ReadLine => [DirectCall(Some(t), READ_LINE)]
    case Call(f, _) => ParmCode(vs) + [DirectCall(Some(t), Function(f))]
    case Invoke(_, offset, _) => DispatchCode(vs[0], vs[1..], offset, Some(t + 2), t)
    case NewArray(_) =>
      CheckSizeCode(vs[0], t, l) + AllocateCode(vs[0], t + 3) + ClearCode(t + 3, t + 5, t + 6, t + 7, l + 1)
    case TypeTest(_, cls) => TestClassCode(vs[0], cls, t, l)
    case TypeCast(_, cls, checked) => if checked then CastClassCode(vs[0], cls, t, l) else []
  }

  /** How many temps and labels an operation takes, and which of the temps holds the result. */
  function OwnTemps(e: Expr): nat {
    match e
    case Var(_) => 0
    case Indexed(_, _) => 9
    case StringEq(_, _, negated) => if negated then 2 else 1
    case Invoke(_, _, _) => 3
    case NewArray(_) => 8
    case TypeTest(_, _) => 3
    case TypeCast(_, _, checked) => if checked then 10 else 0
    case _ => 1
  }

  function OwnLabels(e: Expr): nat {
    if e.Indexed? || e.TypeTest? || (e.TypeCast? && e.checked) then 2 else if e.NewArray? then 3 else 0
  }

  function OwnResult(e: Expr, vs: seq<Temp>, t: nat): Temp
    requires !e.Var? && |vs| == |Operands(e)|
  {
    if e.NewArray? then t + 6 else if e.TypeTest? then t else if e.TypeCast? then vs[0] else t + OwnTemps(e) - 1
  }

  lemma {:induction false} ArgsAreSeq(args: Args, vars: Vars, t: nat, l: nat)
    ensures TransArgs(args, vars, t, l) == TransSeq(ListOf(args), vars, t, l)
    decreases args
  {
    match args
    case NoArgs =>
    case Arg(e, rest) =>
      var a := TransExpr(e, vars, t, l);
      ArgsAreSeq(rest, vars, a.t, a.l);
      assert ListOf(args)[1..] == ListOf(rest);
  }

  lemma OneOperand(x: Expr, vars: Vars, t: nat, l: nat)
    ensures var a := TransExpr(x, vars, t, l); TransSeq([x], vars, t, l) == ArgsOut(a.code, [a.val], a.t, a.l)
  {
    hide TransExpr;
    var a := TransExpr(x, vars, t, l);
    assert [x][1..] == [] && a.code + [] == a.code;
  }

  lemma TwoOperands(x: Expr, y: Expr, vars: Vars, t: nat, l: nat)
    ensures var a := TransExpr(x, vars, t, l); var b := TransExpr(y, vars, a.t, a.l);
      TransSeq([x, y], vars, t, l) == ArgsOut(a.code + b.code, [a.val, b.val], b.t, b.l)
  {
    hide TransExpr;
    var a := TransExpr(x, vars, t, l);
    assert [x, y][1..] == [y];
    OneOperand(y, vars, a.t, a.l);
  }

  lemma FirstAndRest(x: Expr, args: Args, vars: Vars, t: nat, l: nat)
    ensures var a := TransExpr(x, vars, t, l); var b := TransArgs(args, vars, a.t, a.l);
      TransSeq([x] + ListOf(args), vars, t, l) == ArgsOut(a.code + b.code, [a.val] + b.vals, b.t, b.l)
  {
    hide TransExpr, TransArgs;
    var a := TransExpr(x, vars, t, l);
    assert ([x] + ListOf(args))[1..] == ListOf(args);
    ArgsAreSeq(args, vars, a.t, a.l);
  }

  lemma Regroup(a: Code, b: Code, c: Code, d: Code)
    ensures a + b + c + d == a + (b + c + d) && a + b + c == a + (b + c) && a + [] == a && [] + a == a
  {
  }

  /** The code of an expression is its operands' code followed by its own. */
  ghost predicate HasShape(e: Expr, vars: Vars, t: nat, l: nat)
    requires !e.Var?
  {
    var o := TransSeq(Operands(e), vars, t, l);
    TransExpr(e, vars, t, l)
    == Out(o.code + OwnCode(e, o.vals, o.t, o.l), OwnResult(e, o.vals, o.t), o.t + OwnTemps(e), o.l + OwnLabels(e))
  }

  lemma CodeShape(e: Expr, vars: Vars, t: nat, l: nat)
    requires !e.Var?
    ensures HasShape(e, vars, t, l)
  {
    hide HasShape;
    match e
    case Field(_, _) => UnaryShape(e, vars, t, l);
    case Length(_) => UnaryShape(e, vars, t, l);
    case Prefix(_, _) => UnaryShape(e, vars, t, l);
    case Infix(_, _, _) => InfixHasShape(e, vars, t, l);
    case StringEq(_, _, _) => StringEqShape(e, vars, t, l);
    case Indexed(_, _) => IndexedShape(e, vars, t, l);
    case Call(_, _) => CallShape(e, vars, t, l);
    case Invoke(_, _, _) => InvokeShape(e, vars, t, l);
    case NewArray(_) => NewArrayShape(e, vars, t, l);
    case TypeTest(_, _) => ClassShape(e, vars, t, l);
    case TypeCast(_, _, _) => ClassShape(e, vars, t, l);
    case _ => LeafShape(e, vars, t, l);
  }

  lemma LeafShape(e: Expr, vars: Vars, t: nat, l: nat)
    requires e.IntLit? || e.BoolLit? || e.StringLit? || e.Null? || e.ReadInt? || e.ReadLine?
    ensures HasShape(e, vars, t, l)
  {
    Regroup(OwnCode(e, [], t, l), [], [], []);
  }

  lemma UnaryShape(e: Expr, vars: Vars, t: nat, l: nat)
    requires e.Field? || e.Length? || e.Prefix?
    ensures HasShape(e, vars, t, l)
  {
    OneOperand(if e.Field? then e.owner else if e.Length? then e.arr else e.e, vars, t, l);
  }

  lemma StringEqShape(e: Expr, vars: Vars, t: nat, l: nat)
    requires e.StringEq?
    ensures HasShape(e, vars, t, l)
  {
    hide StringEqCode;
    TwoOperands(e.left, e.right, vars, t, l);
  }

  lemma InfixHasShape(e: Expr, vars: Vars, t: nat, l: nat)
    requires e.Infix?
    ensures HasShape(e, vars, t, l)
  {
    TwoOperands(e.left, e.right, vars, t, l);
  }

  lemma IndexedShape(e: Expr, vars: Vars, t: nat, l: nat)
    requires e.Indexed?
    ensures HasShape(e, vars, t, l)
  {
    hide CheckIndexCode, AddressCode, TransExpr;
    ElementShape(e, vars, t, l);
    TwoOperands(e.arr, e.index, vars, t, l);
    var o := TransSeq(Operands(e), vars, t, l);
    Regroup(o.code, CheckIndexCode(o.vals[0], o.vals[1], o.t, o.l), AddressCode(o.vals[0], o.vals[1], o.t + 5),
            [Load(o.t + 8, o.t + 7, 0)]);
  }

  lemma CallShape(e: Expr, vars: Vars, t: nat, l: nat)
    requires e.Call?
    ensures HasShape(e, vars, t, l)
  {
    ArgsAreSeq(e.args, vars, t, l);
    var o := TransArgs(e.args, vars, t, l);
    Regroup(o.code, ParmCode(o.vals), [DirectCall(Some(o.t), Function(e.entry))], []);
  }

  lemma InvokeShape(e: Expr, vars: Vars, t: nat, l: nat)
    requires e.Invoke?
    ensures HasShape(e, vars, t, l)
  {
    hide DispatchCode;
    FirstAndRest(e.receiver, e.args, vars, t, l);
    var o := TransSeq(Operands(e), vars, t, l);
    var a := TransExpr(e.receiver, vars, t, l);
    assert o.vals[1..] == TransArgs(e.args, vars, a.t, a.l).vals;
  }

  lemma NewArrayShape(e: Expr, vars: Vars, t: nat, l: nat)
    requires e.NewArray?
    ensures HasShape(e, vars, t, l)
  {
    hide CheckSizeCode, AllocateCode, ClearCode;
    OneOperand(e.length, vars, t, l);
    var o := TransSeq(Operands(e), vars, t, l);
    Regroup(o.code, CheckSizeCode(o.vals[0], o.t, o.l), AllocateCode(o.vals[0], o.t + 3),
            ClearCode(o.t + 3, o.t + 5, o.t + 6, o.t + 7, o.l + 1));
  }

  lemma ClassShape(e: Expr, vars: Vars, t: nat, l: nat)
    requires e.TypeTest? || e.TypeCast?
    ensures HasShape(e, vars, t, l)
  {
    hide TestClassCode, CastClassCode;
    var x := if e.TypeTest? then e.instance else e.val;
    OneOperand(x, vars, t, l);
    Regroup(TransExpr(x, vars, t, l).code, [], [], []);
  }

  // ---------- counters ----------

  function SeqTemps(es: seq<Expr>): nat {
    if es == [] then 0 else ExprTemps(es[0]) + SeqTemps(es[1..])
  }

  function SeqLabels(es: seq<Expr>): nat {
    if es == [] then 0 else ExprLabels(es[0]) + SeqLabels(es[1..])
  }

  lemma {:induction false} ListTemps(args: Args)
    ensures ArgsTemps(args) == SeqTemps(ListOf(args)) && ArgsLabels(args) == SeqLabels(ListOf(args))
    decreases args
  {
    match args
    case NoArgs =>
    case Arg(e, rest) =>
      ListTemps(rest);
      assert ListOf(args)[1..] == ListOf(rest);
  }

  lemma SeqOfTwo(x: Expr, y: Expr)
    ensures SeqTemps([x]) == ExprTemps(x) && SeqLabels([x]) == ExprLabels(x)
    ensures SeqTemps([x, y]) == ExprTemps(x) + ExprTemps(y) && SeqLabels([x, y]) == ExprLabels(x) + ExprLabels(y)
  {
    hide ExprTemps, ExprLabels;
    assert [x, y][1..] == [y] && [x][1..] == [] && [y][1..] == [];
  }

  lemma SeqOfMore(x: Expr, args: Args)
    ensures SeqTemps([x] + ListOf(args)) == ExprTemps(x) + ArgsTemps(args)
    ensures SeqLabels([x] + ListOf(args)) == ExprLabels(x) + ArgsLabels(args)
  {
    hide ExprTemps, ExprLabels, ArgsTemps, ArgsLabels;
    ListTemps(args);
    assert ([x] + ListOf(args))[1..] == ListOf(args);
  }

  lemma OneTemps(e: Expr)
    requires e.Field? || e.Length? || e.Prefix? || e.NewArray? || e.TypeTest? || e.TypeCast?
    ensures ExprTemps(e) == SeqTemps(Operands(e)) + OwnTemps(e) && ExprLabels(e) == SeqLabels(Operands(e)) + OwnLabels(e)
  {
    var x := Operands(e)[0];
    SeqOfTwo(x, x);
    hide SeqTemps, SeqLabels;
    assert Operands(e) == [x];
  }

  lemma TempsShape(e: Expr)
    ensures ExprTemps(e) == SeqTemps(Operands(e)) + OwnTemps(e) && ExprLabels(e) == SeqLabels(Operands(e)) + OwnLabels(e)
  {
    match e
    case Field(_, _) => OneTemps(e);
    case Length(_) => OneTemps(e);
    case Prefix(_, _) => OneTemps(e);
    case NewArray(_) => OneTemps(e);
    case TypeTest(_, _) => OneTemps(e);
    case TypeCast(_, _, _) => OneTemps(e);
    case Indexed(x, y) => SeqOfTwo(x, y);
    case Infix(_, x, y) => SeqOfTwo(x, y);
    case StringEq(x, y, _) => SeqOfTwo(x, y);
    case Call(_, args) => ListTemps(args);
    case Invoke(x, _, args) => SeqOfMore(x, args);
    case _ =>
  }

  /** The counters of the translator move by what the tree takes. */
  lemma {:induction false} ExprTakes(e: Expr, vars: Vars, t: nat, l: nat)
    ensures TransExpr(e, vars, t, l).t == t + ExprTemps(e) && TransExpr(e, vars, t, l).l == l + ExprLabels(e)
    decreases e, 1
  {
    if !e.Var? {
      hide TransExpr, TransSeq, Operands, OwnTemps, OwnLabels, OwnCode, ExprTemps, ExprLabels;
      CodeShape(e, vars, t, l);
      TempsShape(e);
      OperandsRank(e);
      SeqTakes(Operands(e), e, vars, t, l);
    }
  }

  lemma {:induction false} SeqTakes(es: seq<Expr>, parent: Expr, vars: Vars, t: nat, l: nat)
    requires Ranks(es, parent)
    ensures TransSeq(es, vars, t, l).t == t + SeqTemps(es) && TransSeq(es, vars, t, l).l == l + SeqLabels(es)
    decreases parent, 0, es
  {
    hide TransExpr, ExprTemps, ExprLabels;
    if es != [] {
      ExprTakes(es[0], vars, t, l);
      var a := TransExpr(es[0], vars, t, l);
      SeqTakes(es[1..], parent, vars, a.t, a.l);
    }
  }

  lemma ArgsTake(args: Args, vars: Vars, t: nat, l: nat)
    ensures TransArgs(args, vars, t, l).t == t + ArgsTemps(args) && TransArgs(args, vars, t, l).l == l + ArgsLabels(args)
  {
    hide TransArgs, TransSeq;
    OperandsRank(Call(0, args));
    SeqTakes(ListOf(args), Call(0, args), vars, t, l);
    ArgsAreSeq(args, vars, t, l);
    ListTemps(args);
  }

  // ---------- meaning ----------

  ghost function EvalSeq<W>(M: Machine<W>, es: seq<Expr>, vals: Env, w: W): (r: ArgValues<W>)
    ensures r.NoValues? ==> !r.why.Value?
    ensures r.Values? ==> |r.vs| == |es|
  {
    if es == [] then Values([], w) else
      var r := Eval(M, es[0], vals, w);
      if !r.Value? then NoValues(r) else
        var rs := EvalSeq(M, es[1..], vals, r.w);
        if rs.NoValues? then rs else Values([r.v] + rs.vs, rs.w)
  }

  /** What an operation does with the values of its operands. */
  ghost function OwnMeaning<W>(M: Machine<W>, e: Expr, vs: seq<int>, w: W): Result<W>
    requires |vs| == |Operands(e)| && !e.Var?
  {
    match e
    case IntLit(n) => Value(n, w)
    case BoolLit(b) => Value(if b then 1 else 0, w)
    case StringLit(s) => Value(M.str(s), w)
    case Null => Value(0, w)
    case Field(_, offset) => Value(M.load(w, vs[0] + offset), w)
    case Indexed(_, _) =>
      if InBounds(M, vs[1], M.load(w, vs[0] - WORD_SIZE)) then Value(M.load(w, ElementAddress(M, vs[0], vs[1])), w)
      else Stop(Complain(M, w, ARRAY_INDEX_OUT_OF_BOUND))
    case Length(_) => Value(M.load(w, vs[0] - WORD_SIZE), w)
    case Infix(op, _, _) => Value(M.bin(op, vs[0], vs[1]), w)
    case StringEq(_, _, negated) =>
      var r := M.call(M.parm(M.parm(w, vs[0]), vs[1]), STRING_EQUAL);
      Value(if negated then M.un(LNOT, r.0) else r.0, r.1)
    case Prefix(un, _) => Value(M.un(un, vs[0]), w)
    case ReadInt => var r := M.call(w, READ_INT); Value(r.0, r.1)
    case ReadLine => var r := M.call(w, READ_LINE); Value(r.0, r.1)
    case Call(f, _) => var c := M.call(ParmAll(M, w, vs), Function(f)); Value(c.0, c.1)
    case Invoke(_, offset, _) => var c := Dispatch(M, w, vs[0], offset, vs[1..]); Value(c.0, c.1)
    case NewArray(_) =>
      if M.bin(LES, vs[0], 0) != 0 then Stop(Complain(M, w, NEGATIVE_ARR_SIZE)) else
        var a := Allocated(M, vs[0], w);
        if Fits(M, vs[0], a.0) then Value(a.0 + WORD_SIZE, Cleared(M, M.store(a.1, a.0, vs[0]), a.0, vs[0]))
        else NoPromise
    case TypeTest(_, cls) => TestClass(M, vs[0], cls, w)
    case TypeCast(_, cls, checked) => if checked then CastClass(M, vs[0], cls, w) else Value(vs[0], w)
  }

  ghost predicate HasMeaning<W>(M: Machine<W>, e: Expr, vals: Env, w: W)
    requires !e.Var?
  {
    var r := EvalSeq(M, Operands(e), vals, w);
    Eval(M, e, vals, w) == if r.NoValues? then r.why else OwnMeaning(M, e, r.vs, r.w)
  }

  lemma {:induction false} ArgsMeanSeq<W>(M: Machine<W>, args: Args, vals: Env, w: W)
    ensures EvalArgs(M, args, vals, w) == EvalSeq(M, ListOf(args), vals, w)
    decreases args
  {
    match args
    case NoArgs =>
    case Arg(e, rest) =>
      var r := Eval(M, e, vals, w);
      if r.Value? {
        ArgsMeanSeq(M, rest, vals, r.w);
        assert ListOf(args)[1..] == ListOf(rest);
      }
  }

  lemma OneValue<W>(M: Machine<W>, x: Expr, vals: Env, w: W)
    ensures var r := Eval(M, x, vals, w);
      EvalSeq(M, [x], vals, w) == if r.Value? then Values([r.v], r.w) else NoValues(r)
  {
    hide Eval;
    assert [x][1..] == [];
  }

  lemma TwoValues<W>(M: Machine<W>, x: Expr, y: Expr, vals: Env, w: W)
    ensures var a := Eval(M, x, vals, w); var b := Eval(M, y, vals, if a.Value? then a.w else w);
      EvalSeq(M, [x, y], vals, w)
      == if !a.Value? then NoValues(a) else if !b.Value? then NoValues(b) else Values([a.v, b.v], b.w)
  {
    hide Eval;
    assert [x, y][1..] == [y];
    var a := Eval(M, x, vals, w);
    if a.Value? {
      OneValue(M, y, vals, a.w);
    }
  }

  lemma MeaningShape<W>(M: Machine<W>, e: Expr, vals: Env, w: W)
    requires !e.Var?
    ensures HasMeaning(M, e, vals, w)
  {
    hide HasMeaning;
    match e
    case Field(_, _) => UnaryMeaning(M, e, vals, w);
    case Length(_) => UnaryMeaning(M, e, vals, w);
    case Prefix(_, _) => UnaryMeaning(M, e, vals, w);
    case NewArray(_) => UnaryMeaning(M, e, vals, w);
    case TypeTest(_, _) => ClassMeaning(M, e, vals, w);
    case TypeCast(_, _, _) => ClassMeaning(M, e, vals, w);
    case Infix(_, _, _) => BinaryMeaning(M, e, vals, w);
    case StringEq(_, _, _) => BinaryMeaning(M, e, vals, w);
    case Indexed(_, _) => BinaryMeaning(M, e, vals, w);
    case Call(_, _) => CallMeaning(M, e, vals, w);
    case Invoke(_, _, _) => InvokeMeaning(M, e, vals, w);
    case _ => LeafMeaning(M, e, vals, w);
  }

  lemma LeafMeaning<W>(M: Machine<W>, e: Expr, vals: Env, w: W)
    requires e.IntLit? || e.BoolLit? || e.StringLit? || e.Null? || e.ReadInt? || e.ReadLine?
    ensures HasMeaning(M, e, vals, w)
  {
  }

  lemma UnaryMeaning<W>(M: Machine<W>, e: Expr, vals: Env, w: W)
    requires e.Field? || e.Length? || e.Prefix? || e.NewArray?
    ensures HasMeaning(M, e, vals, w)
  {
    hide Fits, Cleared, Allocated;
    OneValue(M, if e.Field? then e.owner else if e.Length? then e.arr else if e.Prefix? then e.e else e.length, vals, w);
  }

  lemma ClassMeaning<W>(M: Machine<W>, e: Expr, vals: Env, w: W)
    requires e.TypeTest? || e.TypeCast?
    ensures HasMeaning(M, e, vals, w)
  {
    hide TestClass, CastClass;
    OneValue(M, if e.TypeTest? then e.instance else e.val, vals, w);
  }

  lemma BinaryMeaning<W>(M: Machine<W>, e: Expr, vals: Env, w: W)
    requires e.Infix? || e.StringEq? || e.Indexed?
    ensures HasMeaning(M, e, vals, w)
  {
    hide InBounds, ElementAddress;
    if e.Indexed? {
      TwoValues(M, e.arr, e.index, vals, w);
    } else {
      TwoValues(M, e.left, e.right, vals, w);
    }
  }

  lemma CallMeaning<W>(M: Machine<W>, e: Expr, vals: Env, w: W)
    requires e.Call?
    ensures HasMeaning(M, e, vals, w)
  {
    ArgsMeanSeq(M, e.args, vals, w);
  }

  lemma InvokeMeaning<W>(M: Machine<W>, e: Expr, vals: Env, w: W)
    requires e.Invoke?
    ensures HasMeaning(M, e, vals, w)
  {
    hide Dispatch;
    var r := Eval(M, e.receiver, vals, w);
    assert ([e.receiver] + ListOf(e.args))[1..] == ListOf(e.args);
    if r.Value? {
      ArgsMeanSeq(M, e.args, vals, r.w);
      var rs := EvalArgs(M, e.args, vals, r.w);
      if rs.Values? {
        assert ([r.v] + rs.vs)[1..] == rs.vs;
      }
    }
  }
}
