/** Which statement of a function emits code first, and what the function does when the jump of a for statement is left out. */
module DecafEntry {
  import opened Tac
  import opened TacRuns
  import opened DecafTree
  import opened DecafTranslation
  import opened DecafExpressions
  import opened DecafOperations
  import opened DecafStatements
  import opened DecafControl
  import opened DecafLoops
  import opened DecafCorrectness

  /** Expressions and statements that emit no code. */
  predicate Silent(e: Expr) {
    e.Var? || (e.TypeCast? && !e.checked && Silent(e.val))
  }

  predicate Quiet(s: Stmt) {
    match s
    case Skip => true
    case Declare(_) => true
    case Exec(e) => Silent(e)
    case Seq(a, b) => Quiet(a) && Quiet(b)
    case _ => false
  }

  lemma OwnLoud(e: Expr, ts: seq<Temp>, t: nat, l: nat)
    requires |ts| == |Operands(e)| && !e.Var?
    ensures OwnCode(e, ts, t, l) == [] <==> e.TypeCast? && !e.checked
  {
  }

  lemma {:induction false} SilentCode(e: Expr, vars: Vars, t: nat, l: nat)
    ensures TransExpr(e, vars, t, l).code == [] <==> Silent(e)
    decreases e
  {
    if e.TypeCast? && !e.checked {
      SilentCode(e.val, vars, t, l);
    } else if !e.Var? {
      hide TransExpr, OwnCode, TransSeq;
      CodeShape(e, vars, t, l);
      var o := TransSeq(Operands(e), vars, t, l);
      OwnLoud(e, o.vals, o.t, o.l);
    }
  }

  lemma {:induction false} QuietCode(s: Stmt, vars: Vars, exits: seq<Label>, t: nat, l: nat)
    ensures TransStmt(s, vars, exits, t, l).code == [] <==> Quiet(s)
    decreases s
  {
    hide TransExpr, ParmCode, AddressCode, ForCode;
    match s
    case Seq(a, b) =>
      var x := TransStmt(a, vars, exits, t, l);
      QuietCode(a, vars, exits, t, l);
      QuietCode(b, vars, exits, x.t, x.l);
    case Exec(e) => SilentCode(e, vars, t, l);
    case For(_, _, _, _) =>
      ForShape(s, vars, exits, t, l);
      var f := ForParts(s, vars, exits, t, l);
      assert ForCode(f.i, f.u, f.c, f.b) != [] by { LoopIsCode(f); }
    case _ =>
  }

  lemma LoopIsCode(f: ForOut)
    ensures ForCode(f.i, f.u, f.c, f.b) != []
  {
  }

  lemma {:induction false} SilentMeans<W>(M: Machine<W>, e: Expr, vals: Env, w: W)
    requires Silent(e)
    ensures Eval(M, e, vals, w).Value? && Eval(M, e, vals, w).w == w
    decreases e
  {
    if e.TypeCast? {
      SilentMeans(M, e.val, vals, w);
    }
  }

  /** What emits no code has nothing to do. */
  lemma {:induction false} QuietMeans<W>(M: Machine<W>, s: Stmt, vals: Env, w: W, n: nat)
    requires Quiet(s)
    ensures Perform(M, s, vals, w, n) == Normal(vals, w)
    decreases s
  {
    match s
    case Seq(a, b) =>
      QuietMeans(M, a, vals, w, n);
      QuietMeans(M, b, vals, w, n);
    case Exec(e) => SilentMeans(M, e, vals, w);
    case _ =>
  }

  // ---------- the first statement that emits code ----------

  function FirstLoud(s: Stmt): Stmt {
    match s
    case Seq(a, b) => if Quiet(a) then FirstLoud(b) else FirstLoud(a)
    case _ => s
  }

  /** It is a for statement whose code starts with the jump to the condition. */
  predicate OpensWithJump(s: Stmt) {
    var f := FirstLoud(s); f.For? && Quiet(f.init)
  }

  /** And the jump is over something. */
  predicate JumpsOverUpdate(s: Stmt) {
    OpensWithJump(s) && !Quiet(FirstLoud(s).update)
  }

  /** The function that does the update of that for statement as its initialisation. */
  function UpdateFirst(s: Stmt): Stmt {
    match s
    case Seq(a, b) => if Quiet(a) then Seq(a, UpdateFirst(b)) else Seq(UpdateFirst(a), b)
    case For(init, cond, update, body) => if JumpsOverUpdate(s) then For(update, cond, update, body) else s
    case _ => s
  }

  /** Which is another function exactly if there is such a statement. */
  lemma {:induction false} OthersStay(s: Stmt)
    ensures UpdateFirst(s) == s <==> !JumpsOverUpdate(s)
    decreases s
  {
    if s.Seq? {
      OthersStay(if Quiet(s.first) then s.second else s.first);
    }
  }

  /** Any other function starts with code that does something. */
  lemma {:induction false} OthersProceed(s: Stmt, vars: Vars, t: nat, l: nat)
    requires WellFormed(s, false) && !Quiet(s) && !OpensWithJump(s)
    ensures Proceeds(TransStmt(s, vars, [], t, l).code, 0)
    decreases s
  {
    hide TransExpr, TransStmt, Proceeds, Begins;
    QuietCode(s, vars, [], t, l);
    match s
    case Seq(a, b) =>
      BlockShape(s, vars, [], t, l);
      var x := TransStmt(a, vars, [], t, l);
      var y := TransStmt(b, vars, [], x.t, x.l);
      QuietCode(a, vars, [], t, l);
      if Quiet(a) {
        OthersProceed(b, vars, x.t, x.l);
        assert x.code + y.code == y.code;
      } else {
        OthersProceed(a, vars, t, l);
        ProceedsOn(x.code, y.code, 0);
      }
    case IfThen(cond, _) =>
      ThenShape(s, vars, [], t, l);
      TestProceeds([], cond, vars, t, l, TransStmt(s, vars, [], t, l).code);
    case IfElse(cond, _, _) =>
      ElseShape(s, vars, [], t, l);
      TestProceeds([], cond, vars, t, l, TransStmt(s, vars, [], t, l).code);
    case While(cond, _) =>
      WhileShape(s, vars, [], t, l);
      TestProceeds([Mark(l)], cond, vars, t, l + 1, TransStmt(s, vars, [], t, l).code);
    case For(_, _, _, _) =>
      ForShape(s, vars, [], t, l);
      PlainWorks(s.init, vars, [], t, l);
      QuietCode(s.init, vars, [], t, l);
      BeginsProceeds(TransStmt(s.init, vars, [], t, l).code, TransStmt(s, vars, [], t, l).code);
    case _ =>
      PlainBegins(s, vars, t, l);
      BeginsProceeds(TransStmt(s, vars, [], t, l).code, TransStmt(s, vars, [], t, l).code);
  }

  lemma PlainBegins(s: Stmt, vars: Vars, t: nat, l: nat)
    requires !s.Seq? && !s.IfThen? && !s.IfElse? && !s.While? && !s.For? && !s.Break?
    ensures Begins(TransStmt(s, vars, [], t, l).code)
  {
    if s.Print? || s.ReturnValue? {
      ValueWorks(s, vars, [], t, l);
    } else if IsSimple(s) {
      PlainWorks(s, vars, [], t, l);
    }
  }

  lemma BeginsProceeds(A: Code, C: Code)
    requires Begins(A) && A != [] && A <= C
    ensures Proceeds(C, 0)
  {
    assert C[0] == A[0];
    assert ProceedsTo(C, 0, 0);
  }

  /** Behind marks a condition and its test. */
  lemma TestProceeds(A: Code, cond: Expr, vars: Vars, t: nat, l: nat, C: Code)
    requires A == [] || (|A| == 1 && A[0].Mark?)
    requires var c := TransExpr(cond, vars, t, l); A + c.code + [Beqz(c.val, c.l)] <= C
    ensures Proceeds(C, 0)
  {
    hide TransExpr, Works;
    var c := TransExpr(cond, vars, t, l);
    ExprWorks(cond, vars, t, l);
    var D := A + c.code + [Beqz(c.val, c.l)];
    assert c.code != [] ==> D[|A|] == c.code[0];
    assert c.code == [] ==> D[|A|] == Beqz(c.val, c.l);
    assert A != [] ==> D[0] == A[0];
    assert C[|A|] == D[|A|] && C[0] == D[0];
    assert ProceedsTo(C, 0, |A|);
  }

  /** The code of a function that opens with the jump: the jump over the update, and the rest of the loop. */
  ghost predicate Opening(C: Code, x: Label, u: Code, rest: Code) {
    && C == [Branch(x), Mark(x + 1)] + u + [Mark(x)] + rest
    && Begins(u) && Begins(rest) && rest != [] && Branch(x + 1) in rest
  }

  lemma {:induction false} Opens(s: Stmt, vars: Vars, t: nat, l: nat) returns (x: Label, u: Code, rest: Code)
    requires WellFormed(s, false) && OpensWithJump(s)
    ensures Opening(TransStmt(s, vars, [], t, l).code, x, u, rest) && (u == [] <==> Quiet(FirstLoud(s).update))
    decreases s
  {
    hide TransExpr, TransStmt, Begins, ForCode;
    if s.Seq? {
      BlockShape(s, vars, [], t, l);
      var a := TransStmt(s.first, vars, [], t, l);
      var b := TransStmt(s.second, vars, [], a.t, a.l);
      QuietCode(s.first, vars, [], t, l);
      if Quiet(s.first) {
        x, u, rest := Opens(s.second, vars, a.t, a.l);
        assert a.code + b.code == b.code;
      } else {
        x, u, rest := Opens(s.first, vars, t, l);
        OpeningMore(a.code, x, u, rest, b.code);
        rest := rest + b.code;
      }
    } else {
      ForShape(s, vars, [], t, l);
      var f := ForParts(s, vars, [], t, l);
      QuietCode(s.init, vars, [], t, l);
      QuietCode(s.update, vars, [], f.i.t, f.i.l + 2);
      PlainWorks(s.update, vars, [], f.i.t, f.i.l + 2);
      ExprWorks(s.cond, vars, f.u.t, f.u.l);
      x, u, rest := f.i.l, f.u.code, LoopRest(f);
      LoopOpens(f);
    }
  }

  function LoopRest(f: ForOut): Code {
    f.c.code + [Beqz(f.c.val, f.c.l)] + f.b.code + [Branch(f.i.l + 1), Mark(f.c.l)]
  }

  lemma LoopOpens(f: ForOut)
    requires f.i.code == [] && Begins(f.u.code) && Begins(f.c.code)
    ensures Opening(ForCode(f.i, f.u, f.c, f.b), f.i.l, f.u.code, LoopRest(f))
  {
    var rest := LoopRest(f);
    assert rest[|rest| - 2] == Branch(f.i.l + 1);
    assert f.c.code != [] ==> rest[0] == f.c.code[0];
    assert ForCode(f.i, f.u, f.c, f.b) == [Branch(f.i.l), Mark(f.i.l + 1)] + f.u.code + [Mark(f.i.l)] + rest;
  }

  lemma OpeningMore(C: Code, x: Label, u: Code, rest: Code, B: Code)
    requires Opening(C, x, u, rest)
    ensures Opening(C + B, x, u, rest + B)
  {
    assert (rest + B)[0] == rest[0];
    assert [Branch(x), Mark(x + 1)] + u + [Mark(x)] + rest + B == [Branch(x), Mark(x + 1)] + u + [Mark(x)] + (rest + B);
  }

  // ---------- running from behind the jump ----------

  /** The rounds of a for statement are the same with another initialisation. */
  lemma {:induction false} SameRounds<W>(M: Machine<W>, s: Stmt, s2: Stmt, vals: Env, w: W, n: nat)
    requires s.For? && s2.For? && s2 == s.(init := s2.init)
    ensures Rounds(M, s2, vals, w, n) == Rounds(M, s, vals, w, n)
    decreases n
  {
    hide Eval, Perform, Rounds;
    RoundsMeaning(M, s, vals, w, n);
    RoundsMeaning(M, s2, vals, w, n);
    var c := Eval(M, s.cond, vals, w);
    if n > 0 && c.Value? && c.v != 0 {
      var r := Perform(M, s.body, vals, c.w, n);
      if r.Normal? {
        var u := Perform(M, s.update, r.env, r.w, n);
        if u.Normal? {
          SameRounds(M, s, s2, u.env, u.w, n - 1);
        }
      }
    }
  }

  /** From behind the jump, the code of such a function does the update first. */
  lemma {:induction false} SimBehindJump<W>(M: Machine<W>, P: Code, k: nat, s: Stmt, vars: Vars, vals: Env, env: Env, w: W,
                                            t: nat, l: nat, n: nat)
    returns (env2: Env)
    requires StmtAt(P, k, s, vars, [], t, l) && Ready(vars, vals, env) && WellFormed(s, false) && JumpsOverUpdate(s)
    ensures Simulated(M, P, Running(k + 1, env, w), k + |TransStmt(s, vars, [], t, l).code|, [], vars,
                      Perform(M, UpdateFirst(s), vals, w, n), n, env2)
    decreases s
  {
    hide TransExpr, Eval, Leads, GoesOn, At, Scoped, Ready, UniqueMarks, Run, TransStmt, Perform, Laid, WellFormed;
    if s.For? {
      env2 := SimLoopBehindJump(M, P, k, s, vars, vals, env, w, t, l, n);
    } else {
      var (a, b) := (s.first, s.second);
      BlockCode(M, a, b, vars, vals, w, [], t, l, n);
      BlockCode(M, UpdateFirst(a), b, vars, vals, w, [], t, l, n);
      BlockCode(M, a, UpdateFirst(b), vars, vals, w, [], t, l, n);
      var x := TransStmt(a, vars, [], t, l);
      var y := TransStmt(b, vars, [], x.t, x.l);
      AtParts(P, k, x.code, y.code);
      QuietCode(a, vars, [], t, l);
      if Quiet(a) {
        QuietMeans(M, a, vals, w, n);
        env2 := SimBehindJump(M, P, k, b, vars, vals, env, w, x.t, x.l, n);
      } else {
        env2 := SimBehindJump(M, P, k, a, vars, vals, env, w, t, l, n);
        var o := Perform(M, UpdateFirst(a), vals, w, n);
        if o.Normal? {
          var env3 := env2;
          env2 := SimStmt(M, P, k + |x.code|, b, vars, o.env, env3, o.w, [], x.t, x.l, n);
          Precede(M, P, Running(k + 1, env, w), 0, Running(k + |x.code|, env3, o.w), k + |x.code + y.code|, [], vars,
                  Perform(M, b, o.env, o.w, n), n, env2);
        }
      }
    }
  }

  lemma SimLoopBehindJump<W>(M: Machine<W>, P: Code, k: nat, s: Stmt, vars: Vars, vals: Env, env: Env, w: W,
                             t: nat, l: nat, n: nat)
    returns (env2: Env)
    requires StmtAt(P, k, s, vars, [], t, l) && Ready(vars, vals, env) && WellFormed(s, false)
    requires s.For? && JumpsOverUpdate(s)
    ensures Simulated(M, P, Running(k + 1, env, w), k + |TransStmt(s, vars, [], t, l).code|, [], vars,
                      Perform(M, UpdateFirst(s), vals, w, n), n, env2)
  {
    hide TransExpr, Eval, Leads, GoesOn, At, Scoped, TransStmt, Perform, Laid, Ready, UniqueMarks, Run, Rounds, ForAt;
    var f := ForParts(s, vars, [], t, l);
    ForShape(s, vars, [], t, l);
    ForLaid(s, vars, [], t, l);
    ForIsAt(P, k, f);
    QuietCode(s.init, vars, [], t, l);
    UpdateIsAt(P, k, f);
    ForMeaning(M, UpdateFirst(s), vals, w, n);
    var start := Running(k + 1, env, w);
    Stays(M, P, start);
    AndDo(M, P, start, 0, k + 1, env, w, Mark(f.i.l + 1));
    SimpleIsWellFormed(s.update, false);
    env2 := SimStmt(M, P, k + 2, s.update, vars, vals, env, w, [], f.i.t, f.i.l + 2, n);
    var u := Perform(M, s.update, vals, w, n);
    Precede(M, P, start, 0, Running(k + 2, env, w), RoundAt(f, k), [], vars, u, n, env2);
    if u.Normal? {
      var env3 := env2;
      SameRounds(M, s, UpdateFirst(s), u.env, u.w, n);
      env2 := SimRounds(M, P, k, s, vars, u.env, env3, u.w, [], t, l, n);
      Precede(M, P, start, 0, Running(RoundAt(f, k), env3, u.w), BackAt(f, k) + 2, [], vars,
              Rounds(M, s, u.env, u.w, n), n, env2);
    } else {
      SimpleNeverBreaks(M, s.update, vals, w, n);
      PassesOn(M, P, start, RoundAt(f, k), BackAt(f, k) + 2, [], [], vars, u, n, n, env2);
    }
  }

  lemma UpdateIsAt(P: Code, k: nat, f: ForOut)
    requires ForAt(P, k, f) && f.i.code == []
    ensures k + 1 < |P| && P[k + 1] == Mark(f.i.l + 1) && At(P, k + 2, f.u.code) && UniqueMarks(P)
    ensures UpdateAt(f, k) == k + 2
  {
  }

  // ---------- functions ----------

  /** Where the code of a function starts if the jump over the update is left out. */
  function StartAt(body: Stmt): nat {
    if JumpsOverUpdate(body) then 2 else 0
  }

  /** From there the code ends as the body that does the update first, and runs on as long as that does. */
  lemma StartPreserved<W>(M: Machine<W>, entry: Label, body: Stmt, params: Vars, vals: Env, env: Env, w: W, t: nat, l: nat,
                          n: nat)
    requires FunctionOk(entry, body, params, t, l) && Ready(Allot(body, params, t), vals, env)
    ensures var P := FunctionCode(entry, body, params, t, l); var o := Perform(M, UpdateFirst(body), vals, w, n);
      && !o.Broke?
      && (o.Normal? || o.Back? || o.Ended? ==> Leads(M, P, Running(StartAt(body), env, w), 0, End(o)))
      && (o.OutOfFuel? ==> GoesOn(M, P, Running(StartAt(body), env, w), n))
  {
    hide Leads, GoesOn, At, Run, TransStmt, Perform, Ready, Laid, InScope, WellFormed, Allot, UniqueMarks, Separate, Below;
    if JumpsOverUpdate(body) {
      var vars := Allot(body, params, t);
      var P := FunctionCode(entry, body, params, t, l);
      var code := TransStmt(body, vars, [], t, l).code;
      AllotLaysAll(body, params, t);
      AllotDistinct(body, params, t);
      FunctionMarks(entry, body, vars, t, l);
      AtSelf(P);
      AtParts(P, 0, [Mark(entry)], code);
      var env2 := SimBehindJump(M, P, 1, body, vars, vals, env, w, t, l, n);
      var o := Perform(M, UpdateFirst(body), vals, w, n);
      if o.Normal? {
        AndStep(M, P, Running(2, env, w), 0, Running(|P|, env2, o.w));
      }
    } else {
      OthersStay(body);
      FunctionPreserved(M, entry, body, params, vals, env, w, t, l, n);
    }
  }

  /** And when it ends, that body has ended in the same way. */
  lemma StartReflected<W>(M: Machine<W>, entry: Label, body: Stmt, params: Vars, vals: Env, env: Env, w: W, t: nat, l: nat,
                          n: nat)
    requires FunctionOk(entry, body, params, t, l) && Ready(Allot(body, params, t), vals, env)
    requires !Run(M, FunctionCode(entry, body, params, t, l), Running(StartAt(body), env, w), n).Running?
    ensures var d := Run(M, FunctionCode(entry, body, params, t, l), Running(StartAt(body), env, w), n);
      var o := Perform(M, UpdateFirst(body), vals, w, n);
      o == Unpromised || ((o.Normal? || o.Back? || o.Ended?) && End(o) == d)
  {
    hide Run, Perform, Ready, FunctionOk, FunctionCode, Leads, GoesOn, StartAt;
    var P := FunctionCode(entry, body, params, t, l);
    var start := Running(StartAt(body), env, w);
    var o := Perform(M, UpdateFirst(body), vals, w, n);
    StartPreserved(M, entry, body, params, vals, env, w, t, l, n);
    if o.OutOfFuel? {
      RunningBefore(M, P, start, n);
    } else if o != Unpromised {
      SameEnd(M, P, start, End(o), n);
    }
  }
}
