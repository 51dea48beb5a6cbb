/** Running the code of a statement without parts does what the statement means. */
module DecafStatements {
  import opened Lists
  import opened Tac
  import opened TacRuns
  import opened DecafTree
  import opened DecafTranslation
  import opened DecafExpressions
  import opened DecafOperations
  import opened DecafSimulation

  ghost predicate ExprLaid(e: Expr, vars: Vars, t: nat) {
    Scoped(e, vars.Keys) && Clear(vars, t, t + ExprTemps(e))
  }

  /** Variables are in scope and live apart from the temps of every expression. */
  ghost predicate Laid(s: Stmt, vars: Vars, t: nat) {
    match s
    case Skip => true
    case Declare(_) => true
    case Break => true
    case ReturnVoid => true
    case Seq(a, b) => Laid(a, vars, t) && Laid(b, vars, t + StmtTemps(a))
    case AssignVar(x, e) => x in vars && ExprLaid(e, vars, t)
    case AssignField(owner, _, e) =>
      Scoped(owner, vars.Keys) && Scoped(e, vars.Keys) && Clear(vars, t, t + StmtTemps(s))
    case AssignElement(arr, index, e) =>
      Scoped(arr, vars.Keys) && Scoped(index, vars.Keys) && Scoped(e, vars.Keys) && Clear(vars, t, t + StmtTemps(s))
    case Exec(e) => ExprLaid(e, vars, t)
    case CallVoid(_, args) => ScopedArgs(args, vars.Keys) && Clear(vars, t, t + StmtTemps(s))
    case InvokeVoid(receiver, _, args) =>
      Scoped(receiver, vars.Keys) && ScopedArgs(args, vars.Keys) && Clear(vars, t, t + StmtTemps(s))
    case Print(_, e) => ExprLaid(e, vars, t)
    case ReturnValue(e) => ExprLaid(e, vars, t)
    case IfThen(cond, yes) => ExprLaid(cond, vars, t) && Laid(yes, vars, t + ExprTemps(cond))
    case IfElse(cond, yes, no) =>
      var t1 := t + ExprTemps(cond);
      ExprLaid(cond, vars, t) && Laid(yes, vars, t1) && Laid(no, vars, t1 + StmtTemps(yes))
    case While(cond, body) => ExprLaid(cond, vars, t) && Laid(body, vars, t + ExprTemps(cond))
    case For(init, cond, update, body) =>
      var t1 := t + StmtTemps(init);
      var t2 := t1 + StmtTemps(update);
      && Laid(init, vars, t) && Laid(update, vars, t1) && ExprLaid(cond, vars, t2)
      && Laid(body, vars, t2 + ExprTemps(cond))
  }

  ghost predicate Separate(vars: Vars) {
    forall x, y :: x in vars && y in vars && x != y ==> vars[x] != vars[y]
  }

  /** What the machine does from `c` where the source ends with `o`; `k` is the end of the statement's code. */
  ghost predicate Simulated<W>(M: Machine<W>, P: Code, c: Config<W>, k: nat, exits: seq<Label>, vars: Vars,
                               o: Outcome<W>, n: nat, env2: Env)
  {
    match o
    case Normal(vals, w) => Leads(M, P, c, 0, Running(k, env2, w)) && Ready(vars, vals, env2)
    case Broke(vals, w) =>
      exits != [] && Leads(M, P, c, 0, Running(Target(P, exits[|exits| - 1]), env2, w)) && Ready(vars, vals, env2)
    case Back(v, w) => Leads(M, P, c, 0, Returned(v, w))
    case Ended(w) => Leads(M, P, c, 0, Halted(w))
    case Unpromised => true
    case OutOfFuel => GoesOn(M, P, c, n)
  }

  lemma Precede<W>(M: Machine<W>, P: Code, c: Config<W>, m: nat, d: Config<W>, k: nat, exits: seq<Label>, vars: Vars,
                   o: Outcome<W>, n: nat, env2: Env)
    requires Leads(M, P, c, m, d) && Simulated(M, P, d, k, exits, vars, o, n, env2)
    ensures Simulated(M, P, c, k, exits, vars, o, m + n, env2)
  {
    hide Leads, GoesOn, Ready;
    match o
    case Normal(vals, w) => Preceding(M, P, c, m, d, Running(k, env2, w));
    case Broke(vals, w) => Preceding(M, P, c, m, d, Running(Target(P, exits[|exits| - 1]), env2, w));
    case Back(v, w) => Preceding(M, P, c, m, d, Returned(v, w));
    case Ended(w) => Preceding(M, P, c, m, d, Halted(w));
    case Unpromised =>
    case OutOfFuel => OnAndOn(M, P, c, m, d, n);
  }

  lemma Preceding<W>(M: Machine<W>, P: Code, a: Config<W>, m: nat, b: Config<W>, c: Config<W>)
    requires Leads(M, P, a, m, b) && Leads(M, P, b, 0, c)
    ensures Leads(M, P, a, 0, c) && Leads(M, P, a, m, c)
  {
    Onward(M, P, a, m, b, 0, c);
    var i: nat :| i >= m && Run(M, P, a, i) == c;
  }

  // ---------- assignments ----------

  ghost predicate StmtAt(P: Code, k: nat, s: Stmt, vars: Vars, exits: seq<Label>, t: nat, l: nat) {
    && UniqueMarks(P) && At(P, k, TransStmt(s, vars, exits, t, l).code)
    && Laid(s, vars, t) && Separate(vars)
  }

  /** The claim about a statement. */
  ghost predicate StmtWorks<W>(M: Machine<W>, P: Code, k: nat, s: Stmt, vars: Vars, vals: Env, env: Env, w: W,
                               exits: seq<Label>, t: nat, l: nat, n: nat, env2: Env)
  {
    Simulated(M, P, Running(k, env, w), k + |TransStmt(s, vars, exits, t, l).code|, exits, vars,
              Perform(M, s, vals, w, n), n, env2)
  }

  lemma SimAssignVar<W>(M: Machine<W>, P: Code, k: nat, x: Symbol, e: Expr, vars: Vars, vals: Env, env: Env, w: W,
                        exits: seq<Label>, t: nat, l: nat, n: nat)
    returns (env2: Env)
    requires StmtAt(P, k, AssignVar(x, e), vars, exits, t, l) && Ready(vars, vals, env)
    ensures StmtWorks(M, P, k, AssignVar(x, e), vars, vals, env, w, exits, t, l, n, env2)
  {
    hide TransExpr, Eval, Leads, At, Scoped;
    var c := TransExpr(e, vars, t, l);
    ExprTakes(e, vars, t, l);
    var i := Assign(Slot(vars, x), c.val);
    AtLast(P, k, c.code, i);
    env2 := SimExpr(M, P, k, e, vars, vals, env, w, t, l);
    var r := Eval(M, e, vals, w);
    if r.Value? {
      AndDo(M, P, Running(k, env, w), 0, k + |c.code|, env2, r.w, i);
      StaysReady(vars, vals, env, env2, t, c.t);
      env2 := env2[vars[x] := r.v];
    }
  }

  lemma FieldScope(owner: Expr, offset: int, e: Expr, vars: Vars, t: nat)
    requires Laid(AssignField(owner, offset, e), vars, t)
    ensures Scoped(owner, vars.Keys) && Scoped(e, vars.Keys) && Clear(vars, t, t + ExprTemps(owner) + 1 + ExprTemps(e))
  {
  }

  lemma FieldMeaning<W>(M: Machine<W>, owner: Expr, offset: int, e: Expr, vars: Vars, vals: Env, w: W,
                        exits: seq<Label>, t: nat, l: nat, n: nat)
    ensures var s := AssignField(owner, offset, e); var a := TransExpr(owner, vars, t, l);
      var b := TransExpr(e, vars, a.t + 1, a.l); var o := Eval(M, owner, vals, w);
      && TransStmt(s, vars, exits, t, l).code
         == a.code + [Load(a.t, a.val, offset)] + b.code + [Store(b.val, a.val, offset)]
      && Perform(M, s, vals, w, n)
         == if !o.Value? then Failed(o) else
              var r := Eval(M, e, vals, o.w);
              if !r.Value? then Failed(r) else Normal(vals, M.store(r.w, o.v + offset, r.v))
  {
    hide TransExpr, Eval;
  }

  lemma SimAssignField<W>(M: Machine<W>, P: Code, k: nat, owner: Expr, offset: int, e: Expr, vars: Vars, vals: Env,
                          env: Env, w: W, exits: seq<Label>, t: nat, l: nat, n: nat)
    returns (env2: Env)
    requires StmtAt(P, k, AssignField(owner, offset, e), vars, exits, t, l) && Ready(vars, vals, env)
    ensures StmtWorks(M, P, k, AssignField(owner, offset, e), vars, vals, env, w, exits, t, l, n, env2)
  {
    hide TransExpr, Eval, Leads, At, Scoped, TransStmt, Perform, Laid, ExprTemps, UniqueMarks;
    FieldScope(owner, offset, e, vars, t);
    FieldMeaning(M, owner, offset, e, vars, vals, w, exits, t, l, n);
    var a := TransExpr(owner, vars, t, l);
    var b := TransExpr(e, vars, a.t + 1, a.l);
    ExprTakes(owner, vars, t, l);
    ExprTakes(e, vars, a.t + 1, a.l);
    var load := Load(a.t, a.val, offset);
    var store := Store(b.val, a.val, offset);
    AtLast(P, k, a.code + [load] + b.code, store);
    AtParts(P, k, a.code + [load], b.code);
    AtLast(P, k, a.code, load);
    var start := Running(k, env, w);
    var env1 := SimMember(M, P, k, owner, offset, vars, vals, env, w, t, l);
    env2 := env1;
    var o := Eval(M, owner, vals, w);
    if o.Value? {
      var k1 := k + |a.code| + 1;
      StaysReady(vars, vals, env, env1, t, a.t + 1);
      env2 := SimExpr(M, P, k1, e, vars, vals, env1, o.w, a.t + 1, a.l);
      var r := Eval(M, e, vals, o.w);
      if r.Value? {
        StaysPlaced(a.val, vars, t, a.t + 1, b.t, env1, env2);
        StaysReady(vars, vals, env, env2, t, b.t);
        var k2 := k + |a.code + [load] + b.code|;
        Onward(M, P, start, 0, Running(k1, env1, o.w), 0, Running(k2, env2, r.w));
        AndDo(M, P, start, 0, k2, env2, r.w, store);
      } else if r.Stop? {
        Onward(M, P, start, 0, Running(k1, env1, o.w), 0, Halted(r.w));
      }
    }
  }

  /** The owner of a member and the member, with the owner still in place. */
  lemma SimMember<W>(M: Machine<W>, P: Code, k: nat, owner: Expr, offset: int, vars: Vars, vals: Env, env: Env, w: W,
                     t: nat, l: nat)
    returns (env2: Env)
    requires ExprAt(P, k, owner, vars, t, l) && Ready(vars, vals, env)
    requires var a := TransExpr(owner, vars, t, l);
      Clear(vars, t, a.t + 1) && k + |a.code| < |P| && P[k + |a.code|] == Load(a.t, a.val, offset)
    ensures var a := TransExpr(owner, vars, t, l); var o := Eval(M, owner, vals, w);
      && (o.Value? ==>
            && Leads(M, P, Running(k, env, w), 0, Running(k + |a.code| + 1, env2, o.w))
            && Get(env2, a.val) == o.v && SameOutside(env, env2, t, a.t + 1))
      && (o.Stop? ==> Leads(M, P, Running(k, env, w), 0, Halted(o.w)))
      && Placed(a.val, vars, t, a.t + 1)
  {
    hide TransExpr, Eval, Leads, At, Scoped, UniqueMarks;
    var a := TransExpr(owner, vars, t, l);
    var o := Eval(M, owner, vals, w);
    ExprPlaced(owner, vars, t, l);
    env2 := SimExpr(M, P, k, owner, vars, vals, env, w, t, l);
    if o.Value? {
      AndDo(M, P, Running(k, env, w), 0, k + |a.code|, env2, o.w, Load(a.t, a.val, offset));
      env2 := env2[a.t := M.load(o.w, Get(env2, a.val) + offset)];
    }
  }

  /** Both operands of an element, its bounds check, and its value, with the operands still in place. */
  lemma SimElement<W>(M: Machine<W>, P: Code, k: nat, arr: Expr, index: Expr, vars: Vars, vals: Env, env: Env, w: W,
                      t: nat, l: nat)
    returns (env2: Env)
    requires ExprAt(P, k, Indexed(arr, index), vars, t, l) && Ready(vars, vals, env)
    ensures var e := Indexed(arr, index);
      Computed(M, P, k, TransExpr(e, vars, t, l), t, env, w, Eval(M, e, vals, w), env2)
    ensures var o := TransSeq([arr, index], vars, t, l); var r := EvalSeq(M, [arr, index], vals, w);
      && AllPlaced(o.vals, vars, t, o.t)
      && (Eval(M, Indexed(arr, index), vals, w).Value? ==> r.Values? && AllHold(env2, o.vals, r.vs))
  {
    hide TransExpr, Eval, Leads, At, Scoped, OwnCode, EvalSeq, TransSeq;
    var e := Indexed(arr, index);
    var o := TransSeq([arr, index], vars, t, l);
    ExprParts(P, k, e, vars, t, l);
    CodeShape(e, vars, t, l);
    MeaningShape(M, e, vals, w);
    OperandsRank(e);
    SeqPlaced(Operands(e), vars, t, l);
    PlacedAway(o.vals, vars, t, o.t, o.t + 9);
    env2 := SimSeq(M, P, k, [arr, index], e, vars, vals, env, w, t, l);
    var r := EvalSeq(M, [arr, index], vals, w);
    if r.Values? {
      env2 := SimOwn(M, P, Running(k, env, w), k + |o.code|, env2, r.w, e, o.vals, r.vs, o.t, o.l);
    }
  }

  lemma ElementMeaning<W>(M: Machine<W>, arr: Expr, index: Expr, e: Expr, vals: Env, w: W, n: nat)
    ensures Eval(M, Indexed(arr, index), vals, w).Value? ==> EvalSeq(M, [arr, index], vals, w).Values?
    ensures var r := EvalSeq(M, [arr, index], vals, w); var x := Eval(M, Indexed(arr, index), vals, w);
      Perform(M, AssignElement(arr, index, e), vals, w, n)
      == if !x.Value? then Failed(x) else
           var v := Eval(M, e, vals, x.w);
           if !v.Value? then Failed(v) else Normal(vals, M.store(v.w, ElementAddress(M, r.vs[0], r.vs[1]), v.v))
  {
    hide ElementAddress, InBounds, Complain;
    TwoValues(M, arr, index, vals, w);
  }

  lemma ElementScope(arr: Expr, index: Expr, e: Expr, vars: Vars, t: nat)
    requires Laid(AssignElement(arr, index, e), vars, t)
    ensures Scoped(Indexed(arr, index), vars.Keys) && Scoped(e, vars.Keys)
    ensures Clear(vars, t, t + ExprTemps(Indexed(arr, index)) + ExprTemps(e) + 3)
  {
  }

  lemma ElementCode(arr: Expr, index: Expr, e: Expr, vars: Vars, exits: seq<Label>, t: nat, l: nat)
    ensures var o := TransSeq([arr, index], vars, t, l); var x := TransExpr(Indexed(arr, index), vars, t, l);
      var r := TransExpr(e, vars, x.t, x.l);
      TransStmt(AssignElement(arr, index, e), vars, exits, t, l).code
      == x.code + r.code + AddressCode(o.vals[0], o.vals[1], r.t) + [Store(r.val, r.t + 2, 0)]
  {
    AssignShape(AssignElement(arr, index, e), vars, exits, t, l);
    hide TransExpr, TransStmt, AddressCode;
    TwoOperands(arr, index, vars, t, l);
  }

  lemma AddressLength(arr: Temp, index: Temp, t: nat)
    ensures |AddressCode(arr, index, t)| == 3
  {
  }

  lemma ElementTemps(arr: Expr, index: Expr, vars: Vars, t: nat, l: nat)
    ensures TransSeq([arr, index], vars, t, l).t <= TransExpr(Indexed(arr, index), vars, t, l).t
  {
    ElementShape(Indexed(arr, index), vars, t, l);
    hide TransExpr;
    TwoOperands(arr, index, vars, t, l);
  }

  lemma SimAssignElement<W>(M: Machine<W>, P: Code, k: nat, arr: Expr, index: Expr, e: Expr, vars: Vars, vals: Env,
                            env: Env, w: W, exits: seq<Label>, t: nat, l: nat, n: nat)
    returns (env2: Env)
    requires StmtAt(P, k, AssignElement(arr, index, e), vars, exits, t, l) && Ready(vars, vals, env)
    ensures StmtWorks(M, P, k, AssignElement(arr, index, e), vars, vals, env, w, exits, t, l, n, env2)
  {
    hide TransExpr, Eval, Leads, At, Scoped, TransStmt, Perform, TransSeq, EvalSeq, AddressCode, ElementAddress,
         Laid, ExprTemps, UniqueMarks;
    var o := TransSeq([arr, index], vars, t, l);
    var x := TransExpr(Indexed(arr, index), vars, t, l);
    var b := TransExpr(e, vars, x.t, x.l);
    ExprTakes(Indexed(arr, index), vars, t, l);
    ExprTakes(e, vars, x.t, x.l);
    ElementScope(arr, index, e, vars, t);
    ElementCode(arr, index, e, vars, exits, t, l);
    ElementTemps(arr, index, vars, t, l);
    assert |AddressCode(o.vals[0], o.vals[1], b.t)| == 3 by { AddressLength(o.vals[0], o.vals[1], b.t); }
    ElementMeaning(M, arr, index, e, vals, w, n);
    var address := AddressCode(o.vals[0], o.vals[1], b.t);
    ElementParts(P, k, x.code, b.code, address, [Store(b.val, b.t + 2, 0)]);
    var start := Running(k, env, w);
    var env1 := SimElement(M, P, k, arr, index, vars, vals, env, w, t, l);
    env2 := env1;
    var r := Eval(M, Indexed(arr, index), vals, w);
    if r.Value? {
      var k1 := k + |x.code|;
      StaysReady(vars, vals, env, env1, t, x.t);
      env2 := SimExpr(M, P, k1, e, vars, vals, env1, r.w, x.t, x.l);
      var v := Eval(M, e, vals, r.w);
      if v.Value? {
        var k2 := k + |x.code + b.code|;
        Onward(M, P, start, 0, Running(k1, env1, r.w), 0, Running(k2, env2, v.w));
        var vs := EvalSeq(M, [arr, index], vals, w).vs;
        ExprPlaced(e, vars, x.t, x.l);
        env2 := StoresElement(M, P, start, k2, env, env1, env2, v.w, o.vals, vs, b.val, v.v, vars, vals, t, o.t, x.t, b.t);
      } else if v.Stop? {
        Onward(M, P, start, 0, Running(k1, env1, r.w), 0, Halted(v.w));
      }
    }
  }

  lemma ElementParts(P: Code, k: nat, a: Code, b: Code, c: Code, d: Code)
    requires At(P, k, a + b + c + d)
    ensures At(P, k, a) && At(P, k + |a|, b) && At(P, k + |a + b|, c) && At(P, k + |a + b + c|, d)
  {
    AtParts(P, k, a + b + c, d);
    AtParts(P, k, a + b, c);
    AtParts(P, k, a, b);
  }

  lemma StoresElement<W>(M: Machine<W>, P: Code, a: Config<W>, k: nat, env: Env, env1: Env, env2: Env, w: W,
                         ts: seq<Temp>, vs: seq<int>, val: Temp, v: int, vars: Vars, vals: Env, t: nat, mid: nat,
                         x: nat, b: nat)
    returns (env3: Env)
    requires |ts| == 2 && AllHold(env1, ts, vs) && AllPlaced(ts, vars, t, mid) && Clear(vars, t, b + 3)
    requires t <= mid <= x <= b && SameOutside(env, env1, t, x) && SameOutside(env1, env2, x, b)
    requires Get(env2, val) == v && Placed(val, vars, x, b) && Ready(vars, vals, env)
    requires Leads(M, P, a, 0, Running(k, env2, w)) && At(P, k, AddressCode(ts[0], ts[1], b))
    requires k + 3 < |P| && At(P, k + 3, [Store(val, b + 2, 0)])
    ensures Leads(M, P, a, 0, Running(k + 4, env3, M.store(w, ElementAddress(M, vs[0], vs[1]), v)))
    ensures Ready(vars, vals, env3)
  {
    hide Leads, AddressCode, ElementAddress;
    assert Placed(ts[0], vars, t, mid) && Placed(ts[1], vars, t, mid);
    env3 := FindsElement(M, P, a, k, env2, w, ts[0], ts[1], b);
    assert Get(env2, ts[0]) == vs[0] && Get(env2, ts[1]) == vs[1];
    assert P[k + 3] == [Store(val, b + 2, 0)][0];
    AndDo(M, P, a, 0, k + 3, env3, w, Store(val, b + 2, 0));
    StaysReady(vars, vals, env, env3, t, b + 3);
  }

  // ---------- counters ----------

  /** The counters of the translator move by what the tree takes. */
  ghost predicate Takes(s: Stmt, vars: Vars, exits: seq<Label>, t: nat, l: nat) {
    var r := TransStmt(s, vars, exits, t, l);
    r.t == t + StmtTemps(s) && r.l == l + StmtLabels(s)
  }

  lemma {:induction false} StmtTakes(s: Stmt, vars: Vars, exits: seq<Label>, t: nat, l: nat)
    ensures Takes(s, vars, exits, t, l)
    decreases s, 1
  {
    hide Takes;
    match s
    case Seq(_, _) => BlockTakes(s, vars, exits, t, l);
    case IfThen(_, _) => BranchTakes(s, vars, exits, t, l);
    case IfElse(_, _, _) => BranchTakes(s, vars, exits, t, l);
    case While(_, _) => LoopTakes(s, vars, exits, t, l);
    case For(_, _, _, _) => LoopTakes(s, vars, exits, t, l);
    case _ => PlainTakes(s, vars, exits, t, l);
  }

  lemma BlockTakes(s: Stmt, vars: Vars, exits: seq<Label>, t: nat, l: nat)
    requires s.Seq?
    ensures Takes(s, vars, exits, t, l)
    decreases s, 0
  {
    hide TransExpr, TransArgs, ExprTemps, ExprLabels;
    StmtTakes(s.first, vars, exits, t, l);
    var x := TransStmt(s.first, vars, exits, t, l);
    StmtTakes(s.second, vars, exits, x.t, x.l);
  }

  lemma BranchTakes(s: Stmt, vars: Vars, exits: seq<Label>, t: nat, l: nat)
    requires s.IfThen? || s.IfElse?
    ensures Takes(s, vars, exits, t, l)
    decreases s, 0
  {
    hide TransExpr, TransArgs, ExprTemps, ExprLabels;
    ExprTakes(s.cond, vars, t, l);
    var c := TransExpr(s.cond, vars, t, l);
    StmtTakes(s.yes, vars, exits, c.t, c.l + 1);
    if s.IfElse? {
      var y := TransStmt(s.yes, vars, exits, c.t, c.l + 1);
      StmtTakes(s.no, vars, exits, y.t, y.l + 1);
    }
  }

  lemma LoopTakes(s: Stmt, vars: Vars, exits: seq<Label>, t: nat, l: nat)
    requires s.While? || s.For?
    ensures Takes(s, vars, exits, t, l)
    decreases s, 0
  {
    hide TransExpr, TransArgs, ExprTemps, ExprLabels, ForCode;
    if s.While? {
      ExprTakes(s.cond, vars, t, l + 1);
      var c := TransExpr(s.cond, vars, t, l + 1);
      StmtTakes(s.body, vars, exits + [c.l], c.t, c.l + 1);
    } else {
      StmtTakes(s.init, vars, exits, t, l);
      var i := TransStmt(s.init, vars, exits, t, l);
      StmtTakes(s.update, vars, exits, i.t, i.l + 2);
      var u := TransStmt(s.update, vars, exits, i.t, i.l + 2);
      ExprTakes(s.cond, vars, u.t, u.l);
      var c := TransExpr(s.cond, vars, u.t, u.l);
      StmtTakes(s.body, vars, exits + [c.l], c.t, c.l + 1);
    }
  }

  lemma PlainTakes(s: Stmt, vars: Vars, exits: seq<Label>, t: nat, l: nat)
    requires !s.Seq? && !s.IfThen? && !s.IfElse? && !s.While? && !s.For?
    ensures Takes(s, vars, exits, t, l)
  {
    hide Takes;
    if s.AssignElement? {
      ElementTakes(s, vars, exits, t, l);
    } else if s.CallVoid? || s.InvokeVoid? {
      CallTakes(s, vars, exits, t, l);
    } else if s.AssignField? {
      FieldTakes(s, vars, exits, t, l);
    } else {
      SimplestTakes(s, vars, exits, t, l);
    }
  }

  lemma CallTakes(s: Stmt, vars: Vars, exits: seq<Label>, t: nat, l: nat)
    requires s.CallVoid? || s.InvokeVoid?
    ensures Takes(s, vars, exits, t, l)
  {
    hide TransExpr, TransArgs, ExprTemps, ExprLabels, ArgsTemps, ArgsLabels, DispatchCode;
    if s.CallVoid? {
      ArgsTake(s.args, vars, t, l);
    } else {
      ExprTakes(s.receiver, vars, t, l);
      var o := TransExpr(s.receiver, vars, t, l);
      ArgsTake(s.args, vars, o.t, o.l);
    }
  }

  lemma FieldTakes(s: Stmt, vars: Vars, exits: seq<Label>, t: nat, l: nat)
    requires s.AssignField?
    ensures Takes(s, vars, exits, t, l)
  {
    hide TransExpr, ExprTemps, ExprLabels;
    ExprTakes(s.owner, vars, t, l);
    var o := TransExpr(s.owner, vars, t, l);
    ExprTakes(s.e, vars, o.t + 1, o.l);
  }

  lemma SimplestTakes(s: Stmt, vars: Vars, exits: seq<Label>, t: nat, l: nat)
    requires !s.Seq? && !s.IfThen? && !s.IfElse? && !s.While? && !s.For?
    requires !s.AssignElement? && !s.CallVoid? && !s.InvokeVoid? && !s.AssignField?
    ensures Takes(s, vars, exits, t, l)
  {
    hide TransExpr, ExprTemps, ExprLabels;
    if s.AssignVar? || s.Exec? || s.Print? || s.ReturnValue? {
      ExprTakes(s.e, vars, t, l);
    }
  }

  lemma ElementTakes(s: Stmt, vars: Vars, exits: seq<Label>, t: nat, l: nat)
    requires s.AssignElement?
    ensures Takes(s, vars, exits, t, l)
  {
    var e := Indexed(s.arr, s.index);
    assert ExprTemps(e) == ExprTemps(s.arr) + ExprTemps(s.index) + 9;
    assert ExprLabels(e) == ExprLabels(s.arr) + ExprLabels(s.index) + 2;
    hide TransExpr, ExprTemps, ExprLabels;
    ExprTakes(e, vars, t, l);
    var x := TransExpr(e, vars, t, l);
    ExprTakes(s.e, vars, x.t, x.l);
  }

  // ---------- calls and the rest ----------

  lemma SimCallVoid<W>(M: Machine<W>, P: Code, k: nat, f: Label, args: Args, vars: Vars, vals: Env, env: Env, w: W,
                       exits: seq<Label>, t: nat, l: nat, n: nat)
    returns (env2: Env)
    requires StmtAt(P, k, CallVoid(f, args), vars, exits, t, l) && Ready(vars, vals, env)
    ensures StmtWorks(M, P, k, CallVoid(f, args), vars, vals, env, w, exits, t, l, n, env2)
  {
    hide TransExpr, Eval, Leads, At, Scoped, EvalSeq, TransSeq, ParmAll, ParmCode, UniqueMarks, ArgsTemps, TransArgs,
         EvalArgs, ScopedArgs;
    var es := ListOf(args);
    ArgsAreSeq(args, vars, t, l);
    ArgsTake(args, vars, t, l);
    ArgsMeanSeq(M, args, vals, w);
    OperandsRank(Call(f, args));
    ScopedList(args, vars.Keys);
    var o := TransSeq(es, vars, t, l);
    var i := DirectCall(None, Function(f));
    AtLast(P, k, o.code + ParmCode(o.vals), i);
    AtParts(P, k, o.code, ParmCode(o.vals));
    env2 := SimSeq(M, P, k, es, Call(f, args), vars, vals, env, w, t, l);
    var r := EvalSeq(M, es, vals, w);
    if r.Values? {
      PassesParms(M, P, Running(k, env, w), k + |o.code|, env2, r.w, o.vals, r.vs);
      AndDo(M, P, Running(k, env, w), 0, k + |o.code + ParmCode(o.vals)|, env2, ParmAll(M, r.w, r.vs), i);
      StaysReady(vars, vals, env, env2, t, o.t);
    }
  }

  lemma InvokeVoidCode<W>(M: Machine<W>, receiver: Expr, offset: int, args: Args, vars: Vars, vals: Env, w: W,
                          exits: seq<Label>, t: nat, l: nat, n: nat)
    ensures var s := InvokeVoid(receiver, offset, args); var es := [receiver] + ListOf(args);
      var o := TransSeq(es, vars, t, l); var r := EvalSeq(M, es, vals, w);
      && TransStmt(s, vars, exits, t, l).code == o.code + DispatchCode(o.vals[0], o.vals[1..], offset, None, o.t)
      && Perform(M, s, vals, w, n)
         == (if r.NoValues? then Failed(r.why) else Normal(vals, Dispatch(M, r.w, r.vs[0], offset, r.vs[1..]).1))
      && (Laid(s, vars, t) ==> ScopedSeq(es, vars.Keys) && Clear(vars, t, o.t + 2))
  {
    hide TransExpr, Eval, DispatchCode, Dispatch, Scoped;
    FirstAndRest(receiver, args, vars, t, l);
    var o := TransExpr(receiver, vars, t, l);
    ExprTakes(receiver, vars, t, l);
    ArgsTake(args, vars, o.t, o.l);
    assert ([o.val] + TransArgs(args, vars, o.t, o.l).vals)[1..] == TransArgs(args, vars, o.t, o.l).vals;
    var r := Eval(M, receiver, vals, w);
    assert ([receiver] + ListOf(args))[1..] == ListOf(args);
    if r.Value? {
      ArgsMeanSeq(M, args, vals, r.w);
      var rs := EvalArgs(M, args, vals, r.w);
      if rs.Values? {
        assert ([r.v] + rs.vs)[1..] == rs.vs;
      }
    }
    if Laid(InvokeVoid(receiver, offset, args), vars, t) {
      ScopedList(args, vars.Keys);
    }
  }

  lemma SimInvokeVoid<W>(M: Machine<W>, P: Code, k: nat, receiver: Expr, offset: int, args: Args, vars: Vars, vals: Env,
                         env: Env, w: W, exits: seq<Label>, t: nat, l: nat, n: nat)
    returns (env2: Env)
    requires StmtAt(P, k, InvokeVoid(receiver, offset, args), vars, exits, t, l) && Ready(vars, vals, env)
    ensures StmtWorks(M, P, k, InvokeVoid(receiver, offset, args), vars, vals, env, w, exits, t, l, n, env2)
  {
    hide TransExpr, Eval, Leads, At, Scoped, EvalSeq, TransSeq, TransStmt, Perform, Laid, DispatchCode, Dispatch;
    var es := [receiver] + ListOf(args);
    InvokeVoidCode(M, receiver, offset, args, vars, vals, w, exits, t, l, n);
    OperandsRank(Invoke(receiver, offset, args));
    var o := TransSeq(es, vars, t, l);
    AtParts(P, k, o.code, DispatchCode(o.vals[0], o.vals[1..], offset, None, o.t));
    SeqPlaced(es, vars, t, l);
    PlacedAway(o.vals, vars, t, o.t, o.t + 2);
    env2 := SimSeq(M, P, k, es, Invoke(receiver, offset, args), vars, vals, env, w, t, l);
    var r := EvalSeq(M, es, vals, w);
    if r.Values? {
      env2 := Dispatches(M, P, Running(k, env, w), k + |o.code|, env2, r.w, o.vals[0], o.vals[1..], r.vs[1..], offset,
                         None, o.t);
      StaysReady(vars, vals, env, env2, t, o.t + 2);
    }
  }

  lemma SimPrint<W>(M: Machine<W>, P: Code, k: nat, callee: Callee, e: Expr, vars: Vars, vals: Env, env: Env, w: W,
                    exits: seq<Label>, t: nat, l: nat, n: nat)
    returns (env2: Env)
    requires StmtAt(P, k, Print(callee, e), vars, exits, t, l) && Ready(vars, vals, env) && callee != HALT
    ensures StmtWorks(M, P, k, Print(callee, e), vars, vals, env, w, exits, t, l, n, env2)
  {
    hide TransExpr, Eval, Leads, At, Scoped, ExprTemps, UniqueMarks;
    var o := TransExpr(e, vars, t, l);
    ExprTakes(e, vars, t, l);
    var call := [Parm(o.val), DirectCall(None, callee)];
    AtParts(P, k, o.code, call);
    assert P[k + |o.code|] == call[0] && P[k + |o.code| + 1] == call[1] by { AtBoth(P, k + |o.code|, call); }
    env2 := SimExpr(M, P, k, e, vars, vals, env, w, t, l);
    var r := Eval(M, e, vals, w);
    if r.Value? {
      AndDo(M, P, Running(k, env, w), 0, k + |o.code|, env2, r.w, call[0]);
      AndDo(M, P, Running(k, env, w), 0, k + |o.code| + 1, env2, M.parm(r.w, r.v), call[1]);
      StaysReady(vars, vals, env, env2, t, o.t);
    }
  }

  lemma AtBoth(P: Code, k: nat, C: Code)
    requires At(P, k, C) && |C| == 2
    ensures k + 2 <= |P| && P[k] == C[0] && P[k + 1] == C[1]
  {
  }

  lemma SimExec<W>(M: Machine<W>, P: Code, k: nat, e: Expr, vars: Vars, vals: Env, env: Env, w: W, exits: seq<Label>,
                   t: nat, l: nat, n: nat)
    returns (env2: Env)
    requires StmtAt(P, k, Exec(e), vars, exits, t, l) && Ready(vars, vals, env)
    ensures StmtWorks(M, P, k, Exec(e), vars, vals, env, w, exits, t, l, n, env2)
  {
    hide TransExpr, Eval, Leads, At, Scoped;
    ExprTakes(e, vars, t, l);
    env2 := SimExpr(M, P, k, e, vars, vals, env, w, t, l);
    if Eval(M, e, vals, w).Value? {
      StaysReady(vars, vals, env, env2, t, TransExpr(e, vars, t, l).t);
    }
  }

  lemma SimReturn<W>(M: Machine<W>, P: Code, k: nat, e: Expr, vars: Vars, vals: Env, env: Env, w: W, exits: seq<Label>,
                     t: nat, l: nat, n: nat)
    returns (env2: Env)
    requires StmtAt(P, k, ReturnValue(e), vars, exits, t, l) && Ready(vars, vals, env)
    ensures StmtWorks(M, P, k, ReturnValue(e), vars, vals, env, w, exits, t, l, n, env2)
  {
    hide TransExpr, Eval, Leads, At, Scoped, ExprTemps, UniqueMarks;
    var o := TransExpr(e, vars, t, l);
    ExprTakes(e, vars, t, l);
    AtLast(P, k, o.code, Return(Some(o.val)));
    env2 := SimExpr(M, P, k, e, vars, vals, env, w, t, l);
    var r := Eval(M, e, vals, w);
    if r.Value? {
      AndStep(M, P, Running(k, env, w), 0, Running(k + |o.code|, env2, r.w));
    }
  }
}
