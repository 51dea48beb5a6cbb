/** What some Decaf functions return, in the language and as compiled code, on every machine that calculates or remembers. */
module DecafPrograms {
  import opened Lists
  import opened Tac
  import opened TacRuns
  import opened DecafTree
  import opened DecafTranslation
  import opened DecafExpressions
  import opened DecafControl
  import opened DecafCorrectness
  import opened DecafLaws

  const N: Symbol := 0
  const S: Symbol := 1
  const I: Symbol := 2

  lemma OneThenOther<W>(M: Machine<W>, a: Stmt, b: Stmt, env: Env, w: W, fuel: nat)
    ensures var r := Perform(M, a, env, w, fuel);
      Perform(M, Seq(a, b), env, w, fuel) == if r.Normal? then Perform(M, b, r.env, r.w, fuel) else r
  {
    hide Eval;
  }

  lemma Declares<W>(M: Machine<W>, x: Symbol, env: Env, w: W, fuel: nat)
    ensures Perform(M, Declare(x), env, w, fuel) == Normal(env, w)
  {
    hide Eval;
  }

  lemma {:induction false} NothingAllotted(s: Stmt, vars: Vars, t: nat)
    requires Declared(s) == {}
    ensures Allot(s, vars, t) == vars
    decreases s
  {
    match s
    case Seq(a, b) =>
      NothingAllotted(a, vars, t);
      NothingAllotted(b, vars, t + StmtTemps(a));
    case IfThen(cond, yes) => NothingAllotted(yes, vars, t + ExprTemps(cond));
    case IfElse(cond, yes, no) =>
      NothingAllotted(yes, vars, t + ExprTemps(cond));
      NothingAllotted(no, vars, t + ExprTemps(cond) + StmtTemps(yes));
    case While(cond, body) => NothingAllotted(body, vars, t + ExprTemps(cond));
    case For(init, cond, update, body) =>
      NothingAllotted(body, vars, t + StmtTemps(init) + StmtTemps(update) + ExprTemps(cond));
    case _ =>
  }

  lemma DeclaredFirst(x: Symbol, s: Stmt, vars: Vars, t: nat)
    ensures Allot(Seq(Declare(x), s), vars, t) == Allot(s, vars[x := t], t + 1)
    ensures InScope(s, vars.Keys + {x}) && x !in vars ==> InScope(Seq(Declare(x), s), vars.Keys)
    ensures WellFormed(s, false) ==> WellFormed(Seq(Declare(x), s), false)
  {
  }

  /** Statements without declarations, in scope and well formed. */
  ghost predicate Plain(s: Stmt, dom: set<Symbol>, inLoop: bool) {
    InScope(s, dom) && Declared(s) == {} && WellFormed(s, inLoop)
  }

  lemma Operation(op: BinOp, a: Expr, b: Expr, dom: set<Symbol>)
    requires (a.Var? ==> a.x in dom) && (b.Var? ==> b.x in dom) && (a.Var? || a.IntLit?) && (b.Var? || b.IntLit?)
    ensures Scoped(Infix(op, a, b), dom)
  {
  }

  lemma PlainAssign(x: Symbol, e: Expr, dom: set<Symbol>, inLoop: bool)
    requires x in dom && Scoped(e, dom)
    ensures Plain(AssignVar(x, e), dom, inLoop)
  {
    hide Scoped;
  }

  lemma PlainZero(x: Symbol, dom: set<Symbol>)
    requires x in dom
    ensures Plain(AssignVar(x, IntLit(0)), dom, false)
  {
  }

  lemma PlainPair(a: Stmt, b: Stmt, dom: set<Symbol>, inLoop: bool)
    requires Plain(a, dom, inLoop) && Plain(b, dom, inLoop)
    ensures Plain(Seq(a, b), dom, inLoop)
  {
    assert dom + {} == dom;
  }

  lemma PlainReturn(x: Symbol, dom: set<Symbol>)
    requires x in dom
    ensures Plain(ReturnValue(Var(x)), dom, false)
  {
  }

  // ---------- a for statement ----------

  /** for (i = 0; i < n; i = i + 1) s = s + i; */
  function SumLoop(): Stmt {
    For(AssignVar(I, IntLit(0)), Infix(LES, Var(I), Var(N)), AssignVar(I, Infix(ADD, Var(I), IntLit(1))),
        AssignVar(S, Infix(ADD, Var(S), Var(I))))
  }

  /** int s; int i; s = 0; the loop; return s; */
  function SumBody(): Stmt {
    Seq(Declare(S), Seq(Declare(I), Seq(AssignVar(S, IntLit(0)), Seq(SumLoop(), ReturnValue(Var(S))))))
  }

  /** The numbers from `i` to `n - 1` together. */
  function SumFrom(i: int, n: int): int
    requires i <= n
    decreases n - i
  {
    if i == n then 0 else i + SumFrom(i + 1, n)
  }

  lemma {:induction false} SumIsHalf(i: nat, n: nat)
    requires i <= n
    ensures 2 * SumFrom(i, n) == n * (n - 1) - i * (i - 1)
    decreases n - i
  {
    if i < n {
      SumIsHalf(i + 1, n);
      assert (i + 1) * i == i * (i - 1) + 2 * i;
    }
  }

  lemma {:induction false} SumRounds<W(!new)>(M: Machine<W>, env: Env, w: W, i: nat, n: nat, fuel: nat) returns (env2: Env)
    requires Calculates(M) && i <= n && Get(env, I) == i && Get(env, N) == n && fuel > n - i
    ensures Rounds(M, SumLoop(), env, w, fuel) == Normal(env2, w) && Get(env2, S) == Get(env, S) + SumFrom(i, n)
    decreases n - i
  {
    hide Calculates, Perform, Rounds;
    var s := SumLoop();
    OneRound(M, s, env, w, fuel);
    FormulaMeans(M, s.cond, env, w);
    env2 := env;
    if i < n {
      Assigns(M, S, Infix(ADD, Var(S), Var(I)), env, w, fuel);
      var env1 := env[S := Get(env, S) + i];
      Assigns(M, I, Infix(ADD, Var(I), IntLit(1)), env1, w, fuel);
      env2 := SumRounds(M, env1[I := i + 1], w, i + 1, n, fuel - 1);
    }
  }

  lemma OneRound<W(!new)>(M: Machine<W>, s: Stmt, env: Env, w: W, fuel: nat)
    requires s.For? && fuel > 0 && IsFormula(s.cond) && Calculates(M)
    ensures if Formula(s.cond, env) == 0 then Rounds(M, s, env, w, fuel) == Normal(env, w)
            else var r := Perform(M, s.body, env, w, fuel);
              r.Normal? ==>
                var u := Perform(M, s.update, r.env, r.w, fuel);
                u.Normal? ==> Rounds(M, s, env, w, fuel) == Rounds(M, s, u.env, u.w, fuel - 1)
  {
    FormulaMeans(M, s.cond, env, w);
    hide Eval, Perform, Calculates;
  }

  lemma Assigns<W(!new)>(M: Machine<W>, x: Symbol, e: Expr, env: Env, w: W, fuel: nat)
    requires Calculates(M) && IsFormula(e)
    ensures Perform(M, AssignVar(x, e), env, w, fuel) == Normal(env[x := Formula(e, env)], w)
  {
    FormulaMeans(M, e, env, w);
  }

  lemma Returns<W(!new)>(M: Machine<W>, e: Expr, env: Env, w: W, fuel: nat)
    requires Calculates(M) && IsFormula(e)
    ensures Perform(M, ReturnValue(e), env, w, fuel) == Back(Some(Formula(e, env)), w)
  {
    FormulaMeans(M, e, env, w);
  }

  lemma SumReturns<W(!new)>(M: Machine<W>, env: Env, w: W, n: nat)
    requires Calculates(M) && Get(env, N) == n
    ensures Perform(M, SumBody(), env, w, n + 1) == Back(Some(n * (n - 1) / 2), w)
  {
    hide Calculates, Perform, Rounds;
    var fuel, last := n + 1, Seq(SumLoop(), ReturnValue(Var(S)));
    Declares(M, S, env, w, fuel);
    Declares(M, I, env, w, fuel);
    Assigns(M, S, IntLit(0), env, w, fuel);
    var env1 := env[S := 0];
    Assigns(M, I, IntLit(0), env1, w, fuel);
    var env2 := SumRounds(M, env1[I := 0], w, 0, n, fuel);
    ForMeaning(M, SumLoop(), env1, w, fuel);
    SumIsHalf(0, n);
    Returns(M, Var(S), env2, w, fuel);
    OneThenOther(M, SumLoop(), ReturnValue(Var(S)), env1, w, fuel);
    OneThenOther(M, AssignVar(S, IntLit(0)), last, env, w, fuel);
    OneThenOther(M, Declare(I), Seq(AssignVar(S, IntLit(0)), last), env, w, fuel);
    OneThenOther(M, Declare(S), Seq(Declare(I), Seq(AssignVar(S, IntLit(0)), last)), env, w, fuel);
  }

  lemma SumLoopPlain(dom: set<Symbol>)
    requires dom == {N, S, I}
    ensures Plain(SumLoop(), dom, false)
  {
    var f := SumLoop();
    Operation(LES, Var(I), Var(N), dom);
    Operation(ADD, Var(I), IntLit(1), dom);
    Operation(ADD, Var(S), Var(I), dom);
    PlainZero(I, dom);
    PlainAssign(I, Infix(ADD, Var(I), IntLit(1)), dom, false);
    PlainAssign(S, Infix(ADD, Var(S), Var(I)), dom, true);
    hide Scoped;
    assert Plain(f.body, dom, true) && Plain(f.init, dom, false) && Plain(f.update, dom, false);
  }

  lemma SumOk(entry: Label, params: Vars, t: nat, l: nat)
    requires params.Keys == {N} && Below(params, t) && entry < l
    ensures FunctionOk(entry, SumBody(), params, t, l) && Allot(SumBody(), params, t) == params[S := t][I := t + 1]
  {
    hide InScope, WellFormed, Declared, Allot, Scoped;
    var last := Seq(SumLoop(), ReturnValue(Var(S)));
    var rest, dom := Seq(AssignVar(S, IntLit(0)), last), {N, S, I};
    SumLoopPlain(dom);
    PlainReturn(S, dom);
    PlainPair(SumLoop(), ReturnValue(Var(S)), dom, false);
    PlainZero(S, dom);
    PlainPair(AssignVar(S, IntLit(0)), last, dom, false);
    NothingAllotted(rest, params[S := t][I := t + 1], t + 2);
    assert params[S := t].Keys == {N, S} && {N, S} + {I} == dom && params.Keys + {S} == {N, S};
    DeclaredFirst(I, rest, params[S := t], t + 1);
    DeclaredFirst(S, Seq(Declare(I), rest), params, t);
  }

  /** The compiled function returns the sum of the numbers below its parameter. */
  lemma SumCompiled<W(!new)>(M: Machine<W>, entry: Label, params: Vars, vals: Env, env: Env, w: W, t: nat, l: nat, n: nat)
    requires Calculates(M) && params.Keys == {N} && Below(params, t) && entry < l
    requires Ready(params, vals, env) && Get(vals, N) == n && Get(vals, S) == Get(env, t) && Get(vals, I) == Get(env, t + 1)
    ensures Leads(M, FunctionCode(entry, SumBody(), params, t, l), Running(0, env, w), 0, Returned(Some(n * (n - 1) / 2), w))
  {
    hide Calculates, Perform, FunctionCode, FunctionOk, Leads, Allot;
    SumOk(entry, params, t, l);
    SumReturns(M, vals, w, n);
    FunctionPreserved(M, entry, SumBody(), params, vals, env, w, t, l, n + 1);
  }

  // ---------- a while statement with a break ----------

  /** while (true) if (i == n) break; else i = i + 1; */
  function CountLoop(): Stmt {
    While(BoolLit(true), IfElse(Infix(EQU, Var(I), Var(N)), Break, AssignVar(I, Infix(ADD, Var(I), IntLit(1)))))
  }

  function CountBody(): Stmt {
    Seq(Declare(I), Seq(AssignVar(I, IntLit(0)), Seq(CountLoop(), ReturnValue(Var(I)))))
  }

  lemma {:induction false} CountRounds<W(!new)>(M: Machine<W>, env: Env, w: W, i: nat, n: nat, fuel: nat) returns (env2: Env)
    requires Calculates(M) && i <= n && Get(env, I) == i && Get(env, N) == n && fuel > n - i
    ensures Perform(M, CountLoop(), env, w, fuel) == Normal(env2, w) && Get(env2, I) == n
    decreases n - i
  {
    hide Calculates, Eval, Perform;
    FormulaMeans(M, BoolLit(true), env, w);
    WhileMeaning(M, BoolLit(true), CountLoop().body, env, w, fuel);
    CountOne(M, env, w, i, n, fuel);
    env2 := env;
    if i < n {
      env2 := CountRounds(M, env[I := i + 1], w, i + 1, n, fuel - 1);
    }
  }

  lemma CountOne<W(!new)>(M: Machine<W>, env: Env, w: W, i: nat, n: nat, fuel: nat)
    requires Calculates(M) && Get(env, I) == i && Get(env, N) == n
    ensures Perform(M, CountLoop().body, env, w, fuel) == if i == n then Broke(env, w) else Normal(env[I := i + 1], w)
  {
    hide Calculates, Eval;
    FormulaMeans(M, CountLoop().body.cond, env, w);
    Assigns(M, I, Infix(ADD, Var(I), IntLit(1)), env, w, fuel);
  }

  lemma CountReturns<W(!new)>(M: Machine<W>, env: Env, w: W, n: nat)
    requires Calculates(M) && Get(env, N) == n
    ensures Perform(M, CountBody(), env, w, n + 1) == Back(Some(n), w)
  {
    hide Calculates, Perform;
    var last := Seq(CountLoop(), ReturnValue(Var(I)));
    Declares(M, I, env, w, n + 1);
    Assigns(M, I, IntLit(0), env, w, n + 1);
    var env2 := CountRounds(M, env[I := 0], w, 0, n, n + 1);
    Returns(M, Var(I), env2, w, n + 1);
    OneThenOther(M, CountLoop(), ReturnValue(Var(I)), env[I := 0], w, n + 1);
    OneThenOther(M, AssignVar(I, IntLit(0)), last, env, w, n + 1);
    OneThenOther(M, Declare(I), Seq(AssignVar(I, IntLit(0)), last), env, w, n + 1);
  }

  lemma CountLoopPlain(dom: set<Symbol>)
    requires dom == {N, I}
    ensures Plain(CountLoop(), dom, false)
  {
    var step := AssignVar(I, Infix(ADD, Var(I), IntLit(1)));
    Operation(EQU, Var(I), Var(N), dom);
    Operation(ADD, Var(I), IntLit(1), dom);
    PlainAssign(I, Infix(ADD, Var(I), IntLit(1)), dom, true);
    hide Scoped;
    PlainChoice(CountLoop().body.cond, step, dom);
    assert Scoped(BoolLit(true), dom) by { AnyLiteral(true, dom); }
    assert Plain(CountLoop().body, dom, true);
  }

  lemma AnyLiteral(b: bool, dom: set<Symbol>)
    ensures Scoped(BoolLit(b), dom)
  {
  }

  lemma PlainChoice(cond: Expr, no: Stmt, dom: set<Symbol>)
    requires Scoped(cond, dom) && Plain(no, dom, true)
    ensures Plain(IfElse(cond, Break, no), dom, true)
  {
    hide Scoped;
    assert dom + Declared(Break) == dom;
    assert InScope(Break, dom) && InScope(no, dom + Declared(Break));
    assert Declared(IfElse(cond, Break, no)) == {};
    assert WellFormed(Break, true);
    assert WellFormed(IfElse(cond, Break, no), true);
    assert InScope(IfElse(cond, Break, no), dom);
  }

  lemma CountOk(entry: Label, params: Vars, t: nat, l: nat)
    requires params.Keys == {N} && Below(params, t) && entry < l
    ensures FunctionOk(entry, CountBody(), params, t, l) && Allot(CountBody(), params, t) == params[I := t]
  {
    hide InScope, WellFormed, Declared, Allot, Scoped;
    var last := Seq(CountLoop(), ReturnValue(Var(I)));
    var rest, dom := Seq(AssignVar(I, IntLit(0)), last), {N, I};
    CountLoopPlain(dom);
    PlainReturn(I, dom);
    PlainPair(CountLoop(), ReturnValue(Var(I)), dom, false);
    PlainZero(I, dom);
    PlainPair(AssignVar(I, IntLit(0)), last, dom, false);
    NothingAllotted(rest, params[I := t], t + 1);
    assert params.Keys + {I} == dom;
    DeclaredFirst(I, rest, params, t);
  }

  /** The compiled function counts up to its parameter. */
  lemma CountCompiled<W(!new)>(M: Machine<W>, entry: Label, params: Vars, vals: Env, env: Env, w: W, t: nat, l: nat, n: nat)
    requires Calculates(M) && params.Keys == {N} && Below(params, t) && entry < l
    requires Ready(params, vals, env) && Get(vals, N) == n && Get(vals, I) == Get(env, t)
    ensures Leads(M, FunctionCode(entry, CountBody(), params, t, l), Running(0, env, w), 0, Returned(Some(n), w))
  {
    hide Calculates, Perform, FunctionCode, FunctionOk, Leads, Allot;
    CountOk(entry, params, t, l);
    CountReturns(M, vals, w, n);
    FunctionPreserved(M, entry, CountBody(), params, vals, env, w, t, l, n + 1);
  }

  // ---------- the length of a new array ----------

  /** The code of `return (new int[n]).length();` returns `n`, on a machine that remembers and has room for the array. */
  lemma LengthCompiled<W(!new)>(M: Machine<W>, entry: Label, env: Env, w: W, t: nat, l: nat, n: nat)
    returns (w2: W)
    requires Remembers(M) && Compares(M) && Fits(M, n, Allocated(M, n, w).0) && entry < l
    ensures Leads(M, FunctionCode(entry, ReturnValue(Length(NewArray(IntLit(n)))), map[], t, l), Running(0, env, w), 0,
                  Returned(Some(n), w2))
  {
    hide Fits, Leads, FunctionCode, FunctionOk, Allot;
    var body, none: Vars, vals: Env := ReturnValue(Length(NewArray(IntLit(n)))), map[], map[];
    NewArrayReturns(M, vals, w, n);
    w2 := Eval(M, NewArray(IntLit(n)), vals, w).w;
    LengthOk(entry, none, t, l, n);
    FunctionPreserved(M, entry, body, none, vals, env, w, t, l, 0);
  }

  lemma NewArrayReturns<W(!new)>(M: Machine<W>, vals: Env, w: W, n: nat)
    requires Remembers(M) && Compares(M) && Fits(M, n, Allocated(M, n, w).0)
    ensures var a := Eval(M, NewArray(IntLit(n)), vals, w);
      a.Value? && Perform(M, ReturnValue(Length(NewArray(IntLit(n)))), vals, w, 0) == Back(Some(n), a.w)
  {
    hide Fits;
    assert Eval(M, IntLit(n), vals, w) == Value(n, w);
    ArrayCreated(M, IntLit(n), vals, w);
  }

  lemma LengthOk(entry: Label, none: Vars, t: nat, l: nat, n: nat)
    requires none == map[] && entry < l
    ensures var body := ReturnValue(Length(NewArray(IntLit(n))));
      FunctionOk(entry, body, none, t, l) && Allot(body, none, t) == none
  {
    assert Scoped(NewArray(IntLit(n)), none.Keys);
  }
}
