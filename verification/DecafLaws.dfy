/** Laws of Decaf that its meaning has to obey, whatever machine it runs on: arithmetic, arrays, fields, calls, classes, loops. */
module DecafLaws {
  import opened Lists
  import opened Tac
  import opened DecafTree

  // ---------- arithmetic ----------

  /** What the operators do to integers; truth values are 0 and 1. */
  function Arith(op: BinOp, a: int, b: int): int
    requires !op.DIV? && !op.MOD?
  {
    var truth := (c: bool) => if c then 1 else 0;
    match op
    case ADD => a + b
    case SUB => a - b
    case MUL => a * b
    case LAND => truth(a != 0 && b != 0)
    case LOR => truth(a != 0 || b != 0)
    case GTR => truth(a > b)
    case GEQ => truth(a >= b)
    case EQU => truth(a == b)
    case NEQ => truth(a != b)
    case LEQ => truth(a <= b)
    case LES => truth(a < b)
  }

  function Negation(un: UnOp, a: int): int {
    if un.NEG? then -a else if a == 0 then 1 else 0
  }

  ghost predicate Calculates<W(!new)>(M: Machine<W>) {
    && (forall op: BinOp, a, b :: !op.DIV? && !op.MOD? ==> M.bin(op, a, b) == Arith(op, a, b))
    && (forall un, a :: M.un(un, a) == Negation(un, a))
  }

  /** Formulas over variables and literals. */
  predicate IsFormula(e: Expr) {
    match e
    case IntLit(_) => true
    case BoolLit(_) => true
    case Var(_) => true
    case Infix(op, a, b) => !op.DIV? && !op.MOD? && IsFormula(a) && IsFormula(b)
    case Prefix(_, a) => IsFormula(a)
    case TypeCast(a, _, checked) => !checked && IsFormula(a)
    case _ => false
  }

  function Formula(e: Expr, env: Env): int
    requires IsFormula(e)
  {
    match e
    case IntLit(n) => n
    case BoolLit(b) => if b then 1 else 0
    case Var(x) => Get(env, x)
    case Infix(op, a, b) => Arith(op, Formula(a, env), Formula(b, env))
    case Prefix(un, a) => Negation(un, Formula(a, env))
    case TypeCast(a, _, _) => Formula(a, env)
  }

  /** On a machine that calculates they mean what they say, and touch nothing. */
  lemma {:induction false} FormulaMeans<W(!new)>(M: Machine<W>, e: Expr, env: Env, w: W)
    requires Calculates(M) && IsFormula(e)
    ensures Eval(M, e, env, w) == Value(Formula(e, env), w)
    decreases e
  {
    match e
    case Infix(_, a, b) =>
      FormulaMeans(M, a, env, w);
      FormulaMeans(M, b, env, w);
    case Prefix(_, a) => FormulaMeans(M, a, env, w);
    case TypeCast(a, _, _) => FormulaMeans(M, a, env, w);
    case _ =>
  }

  // ---------- arrays ----------

  /** Memory holds what was stored last. */
  ghost predicate Remembers<W(!new)>(M: Machine<W>) {
    forall w, a, v, b {:trigger M.load(M.store(w, a, v), b)} :: M.load(M.store(w, a, v), b) == if b == a then v else M.load(w, b)
  }

  ghost predicate Compares<W(!new)>(M: Machine<W>) {
    forall a, b :: M.bin(LES, a, b) == if a < b then 1 else 0
  }

  /** An array of `n` elements at `arr`, with its length in front of it, and addresses that come out right. */
  ghost predicate IsArray<W(!new)>(M: Machine<W>, w: W, arr: int, n: nat) {
    && M.load(w, arr - WORD_SIZE) == n
    && forall i :: 0 <= i < n ==> ElementAddress(M, arr, i) == arr + WORD_SIZE * i
  }

  lemma {:induction false} ClearedReads<W(!new)>(M: Machine<W>, w: W, base: int, n: nat, a: int)
    requires Remembers(M)
    ensures M.load(Cleared(M, w, base, n), a)
         == if (exists k :: 1 <= k <= n && a == base + WORD_SIZE * k) then 0 else M.load(w, a)
    decreases n
  {
    if n > 0 {
      ClearedReads(M, M.store(w, base + WORD_SIZE * n, 0), base, n - 1, a);
    }
  }

  /**
   * Creating an array of `n` elements asks for room for them and for one word more, writes nothing outside it, and gives an
   * array of that length, all elements of which are 0.
   */
  lemma ArrayCreated<W(!new)>(M: Machine<W>, length: Expr, env: Env, w: W)
    requires Remembers(M) && Compares(M) && Eval(M, NewArray(length), env, w).Value?
    ensures var n := Eval(M, length, env, w); var r := Eval(M, NewArray(length), env, w);
      && n.Value? && n.v >= 0 && M.load(r.w, r.v - WORD_SIZE) == n.v
      && forall i :: 0 <= i < n.v ==> M.load(r.w, r.v + WORD_SIZE * i) == 0
    ensures var n := Eval(M, length, env, w); var r := Eval(M, NewArray(length), env, w);
      var room := WORD_SIZE * (n.v + 1); var a := M.call(M.parm(n.w, room), ALLOCATE);
      && r.v == a.0 + WORD_SIZE
      && forall at :: at < a.0 || at >= a.0 + room ==> M.load(r.w, at) == M.load(a.1, at)
    ensures Eval(M, Length(NewArray(length)), env, w)
         == Value(Eval(M, length, env, w).v, Eval(M, NewArray(length), env, w).w)
  {
    hide Fits, Cleared;
    var n := Eval(M, length, env, w);
    var r := Eval(M, NewArray(length), env, w);
    var a := Allocated(M, n.v, n.w);
    var w1 := M.store(a.1, a.0, n.v);
    FitsCounts(M, n.v, a.0);
    ClearedReads(M, w1, a.0, n.v, a.0);
    forall at | at < a.0 || at >= a.0 + WORD_SIZE * (n.v + 1) ensures M.load(r.w, at) == M.load(a.1, at) {
      ClearedReads(M, w1, a.0, n.v, at);
    }
    forall i | 0 <= i < n.v ensures M.load(r.w, r.v + WORD_SIZE * i) == 0 {
      ClearedReads(M, w1, a.0, n.v, r.v + WORD_SIZE * i);
      assert r.v + WORD_SIZE * i == a.0 + WORD_SIZE * (i + 1);
    }
  }

  lemma FitsCounts<W(!new)>(M: Machine<W>, n: int, base: int)
    ensures Fits(M, n, base) ==>
      n >= 0 && forall w {:trigger Allocated(M, n, w)} :: Allocated(M, n, w) == M.call(M.parm(w, WORD_SIZE * (n + 1)), ALLOCATE)
  {
  }

  /** Exactly the indices from 0 to n - 1 pass the check, and read their element; all others end the program. */
  lemma ElementRead<W(!new)>(M: Machine<W>, arr: Expr, index: Expr, env: Env, w: W, n: nat)
    requires Compares(M)
    requires var a := Eval(M, arr, env, w); a.Value? && Eval(M, index, env, a.w).Value?
    requires var a := Eval(M, arr, env, w); IsArray(M, Eval(M, index, env, a.w).w, a.v, n)
    ensures var a := Eval(M, arr, env, w); var i := Eval(M, index, env, a.w);
      Eval(M, Indexed(arr, index), env, w)
      == if 0 <= i.v < n then Value(M.load(i.w, a.v + WORD_SIZE * i.v), i.w) else Stop(Complain(M, i.w, ARRAY_INDEX_OUT_OF_BOUND))
  {
    hide Eval, ElementAddress, Complain, InBounds;
    var a := Eval(M, arr, env, w);
    var i := Eval(M, index, env, a.w);
    IndexedMeans(M, arr, index, env, w);
    InBoundsMeans(M, i.v, M.load(i.w, a.v - WORD_SIZE));
  }

  lemma IndexedMeans<W(!new)>(M: Machine<W>, arr: Expr, index: Expr, env: Env, w: W)
    requires var a := Eval(M, arr, env, w); a.Value? && Eval(M, index, env, a.w).Value?
    ensures var a := Eval(M, arr, env, w); var i := Eval(M, index, env, a.w);
      Eval(M, Indexed(arr, index), env, w)
      == if InBounds(M, i.v, M.load(i.w, a.v - WORD_SIZE)) then Value(M.load(i.w, ElementAddress(M, a.v, i.v)), i.w)
         else Stop(Complain(M, i.w, ARRAY_INDEX_OUT_OF_BOUND))
  {
    hide ElementAddress, Complain, InBounds, EvalArgs, TestClass, CastClass, Dispatch, Allocated, Fits, Cleared, ParmAll;
  }

  /** An assignment to an element changes this element; the others and the length stay. */
  lemma ElementAssigned<W(!new)>(M: Machine<W>, arr: Expr, index: Expr, e: Expr, env: Env, w: W, n: nat, fuel: nat)
    requires Compares(M) && Remembers(M)
    requires var o := Perform(M, AssignElement(arr, index, e), env, w, fuel); o.Normal?
    requires var a := Eval(M, arr, env, w); var i := Eval(M, index, env, a.w);
      IsArray(M, i.w, a.v, n) && IsArray(M, Eval(M, e, env, i.w).w, a.v, n)
    ensures var a := Eval(M, arr, env, w); var i := Eval(M, index, env, a.w); var v := Eval(M, e, env, i.w);
      var o := Perform(M, AssignElement(arr, index, e), env, w, fuel);
      && a.Value? && i.Value? && v.Value? && 0 <= i.v < n && o.env == env && IsArray(M, o.w, a.v, n)
      && forall j :: 0 <= j < n ==>
           M.load(o.w, a.v + WORD_SIZE * j) == if j == i.v then v.v else M.load(v.w, a.v + WORD_SIZE * j)
  {
    hide ElementAddress, Complain;
  }

  /** Where it would not be an element, the program ends before the right side is evaluated. */
  lemma NoElement<W(!new)>(M: Machine<W>, arr: Expr, index: Expr, e: Expr, env: Env, w: W, n: nat, fuel: nat)
    requires Compares(M)
    requires var a := Eval(M, arr, env, w); a.Value? && Eval(M, index, env, a.w).Value?
    requires var a := Eval(M, arr, env, w); IsArray(M, Eval(M, index, env, a.w).w, a.v, n)
    ensures var a := Eval(M, arr, env, w); var i := Eval(M, index, env, a.w);
      !(0 <= i.v < n) ==>
        Perform(M, AssignElement(arr, index, e), env, w, fuel) == Ended(Complain(M, i.w, ARRAY_INDEX_OUT_OF_BOUND))
  {
    hide ElementAddress, Complain;
  }

  /** Addresses come out right on any machine that is exact on 31 bits, below the 2 GB line. */
  lemma AddressesFit<W(!new)>(M: Machine<W>, arr: int, n: nat)
    requires forall a, b :: 0 <= a + b < 0x8000_0000 ==> M.bin(ADD, a, b) == a + b
    requires forall a, b :: 0 <= a * b < 0x8000_0000 ==> M.bin(MUL, a, b) == a * b
    requires 0 <= arr && arr + WORD_SIZE * n < 0x8000_0000
    ensures forall i :: 0 <= i < n ==> ElementAddress(M, arr, i) == arr + WORD_SIZE * i
  {
    forall i | 0 <= i < n ensures ElementAddress(M, arr, i) == arr + WORD_SIZE * i {
      assert 0 <= i * WORD_SIZE < 0x8000_0000;
      assert M.bin(MUL, i, WORD_SIZE) == i * WORD_SIZE;
      assert 0 <= arr + i * WORD_SIZE < 0x8000_0000;
    }
  }

  // ---------- fields ----------

  /** A field that was assigned is read back, and everything at other addresses stays. */
  lemma FieldAssigned<W(!new)>(M: Machine<W>, owner: Expr, offset: int, e: Expr, env: Env, w: W, x: Symbol, off: int, env2: Env,
                               fuel: nat)
    requires Remembers(M) && Perform(M, AssignField(owner, offset, e), env, w, fuel).Normal?
    ensures var o := Eval(M, owner, env, w); var v := Eval(M, e, env, o.w);
      var w2 := Perform(M, AssignField(owner, offset, e), env, w, fuel).w;
      && o.Value? && v.Value?
      && Eval(M, Field(Var(x), off), env2, w2)
         == Value(if Get(env2, x) + off == o.v + offset then v.v else M.load(v.w, Get(env2, x) + off), w2)
  {
  }

  // ---------- calls ----------

  /** `seen` are the parameters that the world has taken so far. */
  ghost predicate Sees<W(!new)>(M: Machine<W>, seen: W -> seq<int>) {
    forall w, v {:trigger seen(M.parm(w, v))} :: seen(M.parm(w, v)) == seen(w) + [v]
  }

  lemma {:induction false} AllSeen<W(!new)>(M: Machine<W>, seen: W -> seq<int>, w: W, vs: seq<int>)
    requires Sees(M, seen)
    ensures seen(ParmAll(M, w, vs)) == seen(w) + vs
    decreases |vs|
  {
    if vs == [] {
      assert seen(w) + [] == seen(w);
    } else {
      AllSeen(M, seen, M.parm(w, vs[0]), vs[1..]);
      var v := vs[0];
      assert seen(M.parm(w, v)) == seen(w) + [v];
      assert vs == [vs[0]] + vs[1..];
      assert seen(w) + [vs[0]] + vs[1..] == seen(w) + ([vs[0]] + vs[1..]);
    }
  }

  /** The values of arguments, each evaluated where the ones before it have left the world. */
  ghost predicate InOrder<W(!new)>(M: Machine<W>, args: Args, env: Env, w: W, vs: seq<int>, last: W) {
    match args
    case NoArgs => vs == [] && last == w
    case Arg(e, rest) =>
      var r := Eval(M, e, env, w); r.Value? && vs != [] && vs[0] == r.v && InOrder(M, rest, env, r.w, vs[1..], last)
  }

  lemma {:induction false} ArgsInOrder<W(!new)>(M: Machine<W>, args: Args, env: Env, w: W)
    ensures var r := EvalArgs(M, args, env, w); r.Values? ==> InOrder(M, args, env, w, r.vs, r.w)
    decreases args
  {
    hide Eval;
    if args.Arg? {
      var r := Eval(M, args.first, env, w);
      if r.Value? {
        ArgsInOrder(M, args.rest, env, r.w);
        var rs := EvalArgs(M, args.rest, env, r.w);
        assert rs.Values? ==> ([r.v] + rs.vs)[1..] == rs.vs;
      }
    }
  }

  /** A function is called with the values of its arguments in order, and its result is that of the call. */
  lemma CallSees<W(!new)>(M: Machine<W>, seen: W -> seq<int>, f: Label, args: Args, env: Env, w: W)
    returns (vs: seq<int>, w1: W, w2: W)
    requires Sees(M, seen) && Eval(M, Call(f, args), env, w).Value?
    ensures InOrder(M, args, env, w, vs, w1) && seen(w2) == seen(w1) + vs
    ensures var c := M.call(w2, Function(f)); Eval(M, Call(f, args), env, w) == Value(c.0, c.1)
  {
    var r := EvalArgs(M, args, env, w);
    ArgsInOrder(M, args, env, w);
    AllSeen(M, seen, r.w, r.vs);
    vs, w1, w2 := r.vs, r.w, ParmAll(M, r.w, r.vs);
  }

  /** A method sees its receiver first; it is the one at the offset in the table that the receiver names then. */
  lemma InvokeSees<W(!new)>(M: Machine<W>, seen: W -> seq<int>, receiver: Expr, offset: int, args: Args, env: Env, w: W)
    returns (vs: seq<int>, w1: W, w2: W)
    requires Sees(M, seen) && Eval(M, Invoke(receiver, offset, args), env, w).Value?
    ensures var o := Eval(M, receiver, env, w);
      && o.Value? && InOrder(M, args, env, o.w, vs, w1) && seen(w2) == seen(w1) + [o.v] + vs
      && var c := M.icall(w2, M.load(w2, M.load(w2, o.v) + offset));
         Eval(M, Invoke(receiver, offset, args), env, w) == Value(c.0, c.1)
  {
    var o := Eval(M, receiver, env, w);
    var r := EvalArgs(M, args, env, o.w);
    ArgsInOrder(M, args, env, o.w);
    AllSeen(M, seen, M.parm(r.w, o.v), r.vs);
    vs, w1, w2 := r.vs, r.w, ParmAll(M, M.parm(r.w, o.v), r.vs);
  }

  /** Strings are compared by a runtime function that sees the left one first. */
  lemma StringEqSees<W(!new)>(M: Machine<W>, seen: W -> seq<int>, left: Expr, right: Expr, negated: bool, env: Env, w: W)
    returns (w2: W)
    requires Sees(M, seen) && Eval(M, StringEq(left, right, negated), env, w).Value?
    ensures var a := Eval(M, left, env, w); var b := Eval(M, right, env, a.w);
      && a.Value? && b.Value? && seen(w2) == seen(b.w) + [a.v, b.v]
      && var c := M.call(w2, STRING_EQUAL);
         Eval(M, StringEq(left, right, negated), env, w) == Value(if negated then M.un(LNOT, c.0) else c.0, c.1)
  {
    var a := Eval(M, left, env, w);
    var b := Eval(M, right, env, a.w);
    w2 := M.parm(M.parm(b.w, a.v), b.v);
    assert seen(b.w) + [a.v] + [b.v] == seen(b.w) + [a.v, b.v];
  }

  /** Statements call in the same way, and leave the variables alone. */
  lemma CallVoidSees<W(!new)>(M: Machine<W>, seen: W -> seq<int>, f: Label, args: Args, env: Env, w: W, fuel: nat)
    returns (vs: seq<int>, w1: W, w2: W)
    requires Sees(M, seen) && Perform(M, CallVoid(f, args), env, w, fuel).Normal?
    ensures InOrder(M, args, env, w, vs, w1) && seen(w2) == seen(w1) + vs
    ensures Perform(M, CallVoid(f, args), env, w, fuel) == Normal(env, M.call(w2, Function(f)).1)
  {
    var r := EvalArgs(M, args, env, w);
    ArgsInOrder(M, args, env, w);
    AllSeen(M, seen, r.w, r.vs);
    vs, w1, w2 := r.vs, r.w, ParmAll(M, r.w, r.vs);
  }

  lemma InvokeVoidSees<W(!new)>(M: Machine<W>, seen: W -> seq<int>, receiver: Expr, offset: int, args: Args, env: Env, w: W,
                                fuel: nat)
    returns (vs: seq<int>, w1: W, w2: W)
    requires Sees(M, seen) && Perform(M, InvokeVoid(receiver, offset, args), env, w, fuel).Normal?
    ensures var o := Eval(M, receiver, env, w);
      && o.Value? && InOrder(M, args, env, o.w, vs, w1) && seen(w2) == seen(w1) + [o.v] + vs
      && Perform(M, InvokeVoid(receiver, offset, args), env, w, fuel)
         == Normal(env, M.icall(w2, M.load(w2, M.load(w2, o.v) + offset)).1)
  {
    var o := Eval(M, receiver, env, w);
    var r := EvalArgs(M, args, env, o.w);
    ArgsInOrder(M, args, env, o.w);
    AllSeen(M, seen, M.parm(r.w, o.v), r.vs);
    vs, w1, w2 := r.vs, r.w, ParmAll(M, M.parm(r.w, o.v), r.vs);
  }

  /** What is printed is the value, by the intrinsic named. */
  lemma PrintSees<W(!new)>(M: Machine<W>, seen: W -> seq<int>, callee: Callee, e: Expr, env: Env, w: W, fuel: nat)
    returns (w2: W)
    requires Sees(M, seen) && Perform(M, Print(callee, e), env, w, fuel).Normal?
    ensures var r := Eval(M, e, env, w); r.Value? && seen(w2) == seen(r.w) + [r.v]
    ensures Perform(M, Print(callee, e), env, w, fuel) == Normal(env, M.call(w2, callee).1)
  {
    var r := Eval(M, e, env, w);
    w2 := M.parm(r.w, r.v);
  }

  // ---------- classes ----------

  /** The table that is `k` steps to a parent above `vp`. */
  ghost function Ancestor<W>(M: Machine<W>, w: W, vp: int, k: nat): int
    decreases k
  {
    if k == 0 then vp else Ancestor(M, w, M.load(w, vp), k - 1)
  }

  /** There is a table that far up: none before it is the end of the chain. */
  ghost predicate IsAncestor<W(!new)>(M: Machine<W>, w: W, vp: int, k: nat) {
    forall j: nat {:trigger Ancestor(M, w, vp, j)} :: 0 < j <= k ==> Ancestor(M, w, vp, j) != 0
  }

  ghost predicate Descends<W(!new)>(M: Machine<W>, w: W, vp: int, target: int) {
    exists k: nat :: IsAncestor(M, w, vp, k) && Ancestor(M, w, vp, k) == target
  }

  lemma {:induction false} ClimbMeans<W(!new)>(M: Machine<W>, w: W, target: int, vp: int, n: nat)
    requires (forall a, b :: M.bin(EQU, a, b) == if a == b then 1 else 0) && Climb(M, w, target, vp, n).Some?
    ensures Climb(M, w, target, vp, n) == Some(if Descends(M, w, vp, target) then 1 else 0)
    decreases n
  {
    if target == vp {
      assert IsAncestor(M, w, vp, 0) && Ancestor(M, w, vp, 0) == target;
    } else if M.load(w, vp) == 0 {
      forall k: nat | IsAncestor(M, w, vp, k) ensures k == 0 {
        TopOnly(M, w, vp, k);
      }
    } else {
      ClimbMeans(M, w, target, M.load(w, vp), n - 1);
      OneUp(M, w, vp, target);
    }
  }

  lemma TopOnly<W(!new)>(M: Machine<W>, w: W, vp: int, k: nat)
    requires M.load(w, vp) == 0 && IsAncestor(M, w, vp, k)
    ensures k == 0
  {
    assert Ancestor(M, w, vp, 1) == Ancestor(M, w, M.load(w, vp), 0) == 0;
  }

  lemma OneUp<W(!new)>(M: Machine<W>, w: W, vp: int, target: int)
    requires target != vp && M.load(w, vp) != 0
    ensures Descends(M, w, vp, target) <==> Descends(M, w, M.load(w, vp), target)
  {
    var up := M.load(w, vp);
    if Descends(M, w, vp, target) {
      var k: nat :| IsAncestor(M, w, vp, k) && Ancestor(M, w, vp, k) == target;
      forall j: nat | 0 < j <= k - 1 ensures Ancestor(M, w, up, j) != 0 {
        assert Ancestor(M, w, vp, j + 1) == Ancestor(M, w, up, j);
      }
      assert IsAncestor(M, w, up, k - 1) && Ancestor(M, w, up, k - 1) == target;
    }
    if Descends(M, w, up, target) {
      var k: nat :| IsAncestor(M, w, up, k) && Ancestor(M, w, up, k) == target;
      forall j: nat | 0 < j <= k + 1 ensures Ancestor(M, w, vp, j) != 0 {
        assert Ancestor(M, w, vp, j) == Ancestor(M, w, up, j - 1);
      }
      assert IsAncestor(M, w, vp, k + 1) && Ancestor(M, w, vp, k + 1) == target;
    }
  }

  /** `instanceof` tells whether the class is that of the object or above it; a cast goes through exactly then. */
  lemma ClassesDescend<W(!new)>(M: Machine<W>, e: Expr, cls: string, env: Env, w: W)
    requires (forall a, b :: M.bin(EQU, a, b) == if a == b then 1 else 0) && Eval(M, TypeTest(e, cls), env, w).Value?
    ensures var o := Eval(M, e, env, w); var below := Descends(M, o.w, M.load(o.w, o.v), M.vtbl(cls));
      && Eval(M, TypeTest(e, cls), env, w) == Value(if below then 1 else 0, o.w)
      && Eval(M, TypeCast(e, cls, true), env, w) == if below then o else Stop(ComplainCast(M, o.w, o.v, cls))
  {
    var o := Eval(M, e, env, w);
    hide Eval, ComplainCast;
    TestReads(M, e, cls, env, w);
    var (target, vp) := (M.vtbl(cls), M.load(o.w, o.v));
    var n: nat :| Climb(M, o.w, target, vp, n).Some? && InstanceOf(M, o.w, o.v, cls) == Climb(M, o.w, target, vp, n);
    ClimbMeans(M, o.w, target, vp, n);
  }

  lemma TestReads<W(!new)>(M: Machine<W>, e: Expr, cls: string, env: Env, w: W)
    requires Eval(M, TypeTest(e, cls), env, w).Value?
    ensures var o := Eval(M, e, env, w);
      && o.Value? && Eval(M, TypeTest(e, cls), env, w) == TestClass(M, o.v, cls, o.w)
      && Eval(M, TypeCast(e, cls, true), env, w) == CastClass(M, o.v, cls, o.w)
  {
  }

  // ---------- loops ----------

  /** A for statement is its initialisation, and then a loop whose body ends with the update. */
  lemma {:induction false} ForIsWhile<W(!new)>(M: Machine<W>, s: Stmt, env: Env, w: W, fuel: nat)
    requires s.For? && IsSimple(s.update)
    ensures Perform(M, s, env, w, fuel) == Perform(M, Seq(s.init, While(s.cond, Seq(s.body, s.update))), env, w, fuel)
  {
    var r := Perform(M, s.init, env, w, fuel);
    if r.Normal? {
      RoundsAreWhile(M, s, r.env, r.w, fuel);
    }
  }

  lemma {:induction false} RoundsAreWhile<W(!new)>(M: Machine<W>, s: Stmt, env: Env, w: W, fuel: nat)
    requires s.For? && IsSimple(s.update)
    ensures Rounds(M, s, env, w, fuel) == Perform(M, While(s.cond, Seq(s.body, s.update)), env, w, fuel)
    decreases fuel
  {
    hide Eval;
    if fuel > 0 {
      var c := Eval(M, s.cond, env, w);
      if c.Value? && c.v != 0 {
        var r := Perform(M, s.body, env, c.w, fuel);
        if r.Normal? {
          var u := Perform(M, s.update, r.env, r.w, fuel);
          SimpleGoesOn(M, s.update, r.env, r.w, fuel);
          if u.Normal? {
            RoundsAreWhile(M, s, u.env, u.w, fuel - 1);
          }
        }
      }
    }
  }

  lemma SimpleGoesOn<W(!new)>(M: Machine<W>, s: Stmt, env: Env, w: W, fuel: nat)
    requires IsSimple(s)
    ensures !Perform(M, s, env, w, fuel).Broke?
  {
    hide Eval, EvalArgs;
  }

  /** More rounds change nothing for what ends within fewer. */
  lemma {:induction false} MoreFuel<W(!new)>(M: Machine<W>, s: Stmt, env: Env, w: W, fuel: nat, more: nat)
    requires fuel <= more && !Perform(M, s, env, w, fuel).OutOfFuel?
    ensures Perform(M, s, env, w, more) == Perform(M, s, env, w, fuel)
    decreases fuel, s, 1
  {
    hide Eval, EvalArgs;
    match s
    case Seq(a, b) =>
      MoreFuel(M, a, env, w, fuel, more);
      var r := Perform(M, a, env, w, fuel);
      if r.Normal? {
        MoreFuel(M, b, r.env, r.w, fuel, more);
      }
    case IfThen(cond, yes) =>
      var c := Eval(M, cond, env, w);
      if c.Value? && c.v != 0 {
        MoreFuel(M, yes, env, c.w, fuel, more);
      }
    case IfElse(cond, yes, no) =>
      var c := Eval(M, cond, env, w);
      if c.Value? {
        MoreFuel(M, if c.v == 0 then no else yes, env, c.w, fuel, more);
      }
    case While(cond, body) =>
      var c := Eval(M, cond, env, w);
      if c.Value? && c.v != 0 {
        MoreFuel(M, body, env, c.w, fuel, more);
        var r := Perform(M, body, env, c.w, fuel);
        if r.Normal? {
          MoreFuel(M, s, r.env, r.w, fuel - 1, more - 1);
        }
      }
    case For(init, _, _, _) =>
      MoreFuel(M, init, env, w, fuel, more);
      var r := Perform(M, init, env, w, fuel);
      if r.Normal? {
        MoreRounds(M, s, r.env, r.w, fuel, more);
      }
    case _ =>
  }

  lemma {:induction false} MoreRounds<W(!new)>(M: Machine<W>, s: Stmt, env: Env, w: W, fuel: nat, more: nat)
    requires s.For? && fuel <= more && !Rounds(M, s, env, w, fuel).OutOfFuel?
    ensures Rounds(M, s, env, w, more) == Rounds(M, s, env, w, fuel)
    decreases fuel, s, 0
  {
    hide Eval, EvalArgs;
    var c := Eval(M, s.cond, env, w);
    if c.Value? && c.v != 0 {
      MoreFuel(M, s.body, env, c.w, fuel, more);
      var r := Perform(M, s.body, env, c.w, fuel);
      if r.Normal? {
        MoreFuel(M, s.update, r.env, r.w, fuel, more);
        var u := Perform(M, s.update, r.env, r.w, fuel);
        if u.Normal? {
          MoreRounds(M, s, u.env, u.w, fuel - 1, more - 1);
        }
      }
    }
  }
}
