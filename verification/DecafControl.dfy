/** Running the code of a statement does what the statement means. */
module DecafControl {
  import opened Tac
  import opened TacRuns
  import opened DecafTree
  import opened DecafTranslation
  import opened DecafExpressions
  import opened DecafOperations
  import opened DecafSimulation
  import opened DecafStatements

  /** A condition is evaluated and tested; where the test jumps to is marked at `there`. */
  lemma SimCondition<W>(M: Machine<W>, P: Code, a: Config<W>, n: nat, k: nat, cond: Expr, vars: Vars, vals: Env,
                        env: Env, w: W, t: nat, l: nat, there: nat)
    returns (env2: Env)
    requires UniqueMarks(P) && Leads(M, P, a, n, Running(k, env, w)) && ExprLaid(cond, vars, t)
    requires var c := TransExpr(cond, vars, t, l);
      && At(P, k, c.code) && k + |c.code| < |P| && there < |P| && P[there].Mark?
      && P[k + |c.code|] == Beqz(c.val, P[there].target)
    requires Ready(vars, vals, env)
    ensures var c := TransExpr(cond, vars, t, l); var r := Eval(M, cond, vals, w);
      && (r.Value? && r.v != 0 ==> Leads(M, P, a, n, Running(k + |c.code| + 1, env2, r.w)))
      && (r.Value? && r.v == 0 ==> Leads(M, P, a, n, Running(there + 1, env2, r.w)))
      && (r.Value? ==> Ready(vars, vals, env2))
      && (r.Stop? ==> Leads(M, P, a, n, Halted(r.w)))
  {
    hide TransExpr, Eval, Leads, At, Scoped;
    var c := TransExpr(cond, vars, t, l);
    ExprTakes(cond, vars, t, l);
    env2 := SimExpr(M, P, k, cond, vars, vals, env, w, t, l);
    var r := Eval(M, cond, vals, w);
    if r.Value? {
      StaysReady(vars, vals, env, env2, t, c.t);
      Preceding(M, P, a, n, Running(k, env, w), Running(k + |c.code|, env2, r.w));
      Tests(M, P, a, n, k + |c.code|, env2, r.w, c.val, P[there].target, there);
    } else if r.Stop? {
      Preceding(M, P, a, n, Running(k, env, w), Halted(r.w));
    }
  }

  /** A condition that fails ends the statement. */
  lemma ConditionFails<W>(M: Machine<W>, P: Code, c: Config<W>, r: Result<W>, k: nat, exits: seq<Label>, vars: Vars,
                          n: nat, env2: Env)
    requires !r.Value? && (r.Stop? ==> Leads(M, P, c, 0, Halted(r.w)))
    ensures Simulated(M, P, c, k, exits, vars, Failed(r), n, env2)
  {
  }

  // ---------- loops ----------

  lemma LoopParts(P: Code, k: nat, cond: Code, test: Instr, body: Code, back: Instr, top: Instr, exit: Instr)
    requires At(P, k, [top] + cond + [test] + body + [back, exit])
    ensures var kb := k + 1 + |cond|; var ke := kb + 1 + |body|;
      && ke + 1 < |P| && P[k] == top && At(P, k + 1, cond) && P[kb] == test && At(P, kb + 1, body)
      && P[ke] == back && P[ke + 1] == exit
      && ke + 2 == k + |[top] + cond + [test] + body + [back, exit]|
  {
    assert [top] + cond + [test] + body + [back, exit] == [top] + cond + [test] + body + [back] + [exit];
    AtLast(P, k, [top] + cond + [test] + body + [back], exit);
    AtLast(P, k, [top] + cond + [test] + body, back);
    AtParts(P, k, [top] + cond + [test], body);
    AtLast(P, k, [top] + cond, test);
    AtParts(P, k, [top], cond);
    assert P[k] == [top][0];
  }

  lemma WhileLaid(cond: Expr, body: Stmt, vars: Vars, exits: seq<Label>, t: nat, l: nat)
    requires Laid(While(cond, body), vars, t)
    ensures ExprLaid(cond, vars, t) && Laid(body, vars, TransExpr(cond, vars, t, l + 1).t)
  {
    hide TransExpr, Scoped, ExprLaid;
    ExprTakes(cond, vars, t, l + 1);
  }

  lemma WhileMeaning<W>(M: Machine<W>, cond: Expr, body: Stmt, vals: Env, w: W, n: nat)
    ensures n == 0 ==> Perform(M, While(cond, body), vals, w, n) == OutOfFuel
    ensures var c := Eval(M, cond, vals, w); n > 0 ==>
      Perform(M, While(cond, body), vals, w, n)
      == if !c.Value? then Failed(c) else if c.v == 0 then Normal(vals, c.w) else
           var r := Perform(M, body, vals, c.w, n);
           if r.Broke? then Normal(r.env, r.w)
           else if r.Normal? then Perform(M, While(cond, body), r.env, r.w, n - 1) else r
  {
    hide Eval;
  }

  /** A break has led to the mark behind the loop. */
  lemma LeavesLoop<W>(M: Machine<W>, P: Code, c: Config<W>, there: nat, exit: Label, exits: seq<Label>, vars: Vars,
                      r: Outcome<W>, k: nat, n: nat, env2: Env)
    requires UniqueMarks(P) && there < |P| && P[there] == Mark(exit) && r.Broke?
    requires Simulated(M, P, c, k, exits + [exit], vars, r, n, env2)
    ensures Leads(M, P, c, 0, Running(there + 1, env2, r.w)) && Ready(vars, r.env, env2)
  {
    hide Leads;
    TargetIs(P, there, exit);
    AndDo(M, P, c, 0, there, env2, r.w, Mark(exit));
  }

  /** Returns, failures and running on are the same for a loop as for its body. */
  lemma PassesOn<W>(M: Machine<W>, P: Code, c: Config<W>, k: nat, k2: nat, exits: seq<Label>, exits2: seq<Label>,
                    vars: Vars, o: Outcome<W>, m: nat, n: nat, env2: Env)
    requires Simulated(M, P, c, k, exits, vars, o, m, env2) && !o.Normal? && !o.Broke? && n <= m
    ensures Simulated(M, P, c, k2, exits2, vars, o, n, env2)
  {
    if o.OutOfFuel? {
      var i: nat :| i >= m && Run(M, P, c, i).Running?;
    }
  }

  lemma SimWhile<W>(M: Machine<W>, P: Code, k: nat, cond: Expr, body: Stmt, vars: Vars, vals: Env, env: Env, w: W,
                    exits: seq<Label>, t: nat, l: nat, n: nat)
    returns (env2: Env)
    requires StmtAt(P, k, While(cond, body), vars, exits, t, l) && Ready(vars, vals, env) && WellFormed(body, true)
    ensures StmtWorks(M, P, k, While(cond, body), vars, vals, env, w, exits, t, l, n, env2)
    decreases n, While(cond, body), 0
  {
    hide TransExpr, Eval, Leads, GoesOn, At, Scoped, TransStmt, Perform, Laid, WellFormed, Ready, UniqueMarks, Run;
    var s := While(cond, body);
    var start := Running(k, env, w);
    env2 := env;
    WhileMeaning(M, cond, body, vals, w, n);
    if n == 0 {
      StillThere(M, P, k, env, w);
    } else {
      var c := TransExpr(cond, vars, t, l + 1);
      var b := TransStmt(body, vars, exits + [c.l], c.t, c.l + 1);
      WhileShape(s, vars, exits, t, l);
      WhileLaid(cond, body, vars, exits, t, l);
      LoopParts(P, k, c.code, Beqz(c.val, c.l), b.code, Branch(l), Mark(l), Mark(c.l));
      OneStep(M, P, start);
      var kb := k + 1 + |c.code| + 1;
      var ke := kb + |b.code|;
      var env1 := SimCondition(M, P, start, 1, k + 1, cond, vars, vals, env, w, t, l + 1, ke + 1);
      var r := Eval(M, cond, vals, w);
      if r.Value? && r.v != 0 {
        var d := Running(kb, env1, r.w);
        env2 := SimStmt(M, P, kb, body, vars, vals, env1, r.w, exits + [c.l], c.t, c.l + 1, n);
        var o := Perform(M, body, vals, r.w, n);
        Precede(M, P, start, 1, d, ke, exits + [c.l], vars, o, n, env2);
        if o.Normal? {
          var env3 := env2;
          AndJump(M, P, start, ke, env3, o.w, l, k);
          env2 := SimWhile(M, P, k, cond, body, vars, o.env, env3, o.w, exits, t, l, n - 1);
          Precede(M, P, start, 1, Running(k, env3, o.w), ke + 2, exits, vars, Perform(M, s, o.env, o.w, n - 1), n - 1,
                  env2);
        } else if o.Broke? {
          LeavesLoop(M, P, start, ke + 1, c.l, exits, vars, o, ke, n + 1, env2);
        } else {
          PassesOn(M, P, start, ke, ke + 2, exits + [c.l], exits, vars, o, n + 1, n, env2);
        }
      } else {
        env2 := env1;
        if r.Stop? {
          Sooner(M, P, start, 1, Halted(r.w));
        } else if r.Value? {
          Sooner(M, P, start, 1, Running(ke + 2, env1, r.w));
        }
      }
    }
  }

  lemma ForLaid(s: Stmt, vars: Vars, exits: seq<Label>, t: nat, l: nat)
    requires s.For? && Laid(s, vars, t)
    ensures var f := ForParts(s, vars, exits, t, l);
      && Laid(s.init, vars, t) && Laid(s.update, vars, f.i.t) && ExprLaid(s.cond, vars, f.u.t)
      && Laid(s.body, vars, f.c.t)
  {
    hide TransExpr, TransStmt, ExprLaid, StmtTemps, ExprTemps, StmtLabels, ExprLabels;
    var f := ForParts(s, vars, exits, t, l);
    StmtTakes(s.init, vars, exits, t, l);
    StmtTakes(s.update, vars, exits, f.i.t, f.i.l + 2);
    ExprTakes(s.cond, vars, f.u.t, f.u.l);
  }

  lemma ForMeaning<W>(M: Machine<W>, s: Stmt, vals: Env, w: W, n: nat)
    requires s.For?
    ensures var r := Perform(M, s.init, vals, w, n);
      Perform(M, s, vals, w, n) == if r.Normal? then Rounds(M, s, r.env, r.w, n) else r
  {
    hide Eval, Rounds;
  }

  lemma RoundsMeaning<W>(M: Machine<W>, s: Stmt, vals: Env, w: W, n: nat)
    requires s.For?
    ensures n == 0 ==> Rounds(M, s, vals, w, n) == OutOfFuel
    ensures var c := Eval(M, s.cond, vals, w); n > 0 ==>
      Rounds(M, s, vals, w, n)
      == if !c.Value? then Failed(c) else if c.v == 0 then Normal(vals, c.w) else
           var r := Perform(M, s.body, vals, c.w, n);
           if r.Broke? then Normal(r.env, r.w)
           else if r.Normal? then
             var u := Perform(M, s.update, r.env, r.w, n);
             if u.Normal? then Rounds(M, s, u.env, u.w, n - 1) else u
           else r
  {
    hide Eval, Perform;
  }

  /** Where the update, the condition, the body and the end of the body are, for a for statement at `k`. */
  function UpdateAt(f: ForOut, k: nat): nat { k + |f.i.code| + 2 }

  function RoundAt(f: ForOut, k: nat): nat { UpdateAt(f, k) + |f.u.code| }

  function BodyAt(f: ForOut, k: nat): nat { RoundAt(f, k) + |f.c.code| + 2 }

  function BackAt(f: ForOut, k: nat): nat { BodyAt(f, k) + |f.b.code| }

  ghost predicate ForAt(P: Code, k: nat, f: ForOut) {
    && BackAt(f, k) + 1 < |P| && UniqueMarks(P)
    && At(P, k, f.i.code) && P[k + |f.i.code|] == Branch(f.i.l) && P[UpdateAt(f, k) - 1] == Mark(f.i.l + 1)
    && At(P, UpdateAt(f, k), f.u.code) && P[RoundAt(f, k)] == Mark(f.i.l) && At(P, RoundAt(f, k) + 1, f.c.code)
    && P[BodyAt(f, k) - 1] == Beqz(f.c.val, f.c.l) && At(P, BodyAt(f, k), f.b.code)
    && P[BackAt(f, k)] == Branch(f.i.l + 1) && P[BackAt(f, k) + 1] == Mark(f.c.l)
  }

  lemma ForIsAt(P: Code, k: nat, f: ForOut)
    requires UniqueMarks(P)
    requires At(P, k, ForCode(f.i, f.u, f.c, f.b))
    ensures ForAt(P, k, f) && BackAt(f, k) + 2 == k + |ForCode(f.i, f.u, f.c, f.b)|
  {
    hide At;
    var head := f.i.code + [Branch(f.i.l), Mark(f.i.l + 1)];
    var loop := [Mark(f.i.l)] + f.c.code + [Beqz(f.c.val, f.c.l)] + f.b.code + [Branch(f.i.l + 1), Mark(f.c.l)];
    GroupLoop(head + f.u.code, [Mark(f.i.l)], f.c.code, [Beqz(f.c.val, f.c.l)], f.b.code,
              [Branch(f.i.l + 1), Mark(f.c.l)]);
    AtParts(P, k, head + f.u.code, loop);
    AtParts(P, k, head, f.u.code);
    AtParts(P, k, f.i.code, [Branch(f.i.l), Mark(f.i.l + 1)]);
    AtBoth(P, k + |f.i.code|, [Branch(f.i.l), Mark(f.i.l + 1)]);
    LoopParts(P, RoundAt(f, k), f.c.code, Beqz(f.c.val, f.c.l), f.b.code, Branch(f.i.l + 1), Mark(f.i.l), Mark(f.c.l));
  }

  lemma GroupLoop(h: Code, a: Code, b: Code, c: Code, d: Code, e: Code)
    ensures h + a + b + c + d + e == h + (a + b + c + d + e)
  {
  }

  lemma SimRounds<W>(M: Machine<W>, P: Code, k: nat, s: Stmt, vars: Vars, vals: Env, env: Env, w: W,
                     exits: seq<Label>, t: nat, l: nat, n: nat)
    returns (env2: Env)
    requires s.For? && WellFormed(s, exits != []) && Laid(s, vars, t) && Separate(vars)
    requires ForAt(P, k, ForParts(s, vars, exits, t, l)) && Ready(vars, vals, env)
    ensures var f := ForParts(s, vars, exits, t, l);
      Simulated(M, P, Running(RoundAt(f, k), env, w), BackAt(f, k) + 2, exits, vars, Rounds(M, s, vals, w, n), n, env2)
    decreases n, s, 1
  {
    hide TransExpr, Eval, Leads, GoesOn, At, Scoped, TransStmt, Perform, Laid, Ready, UniqueMarks, Run, Rounds;
    var f := ForParts(s, vars, exits, t, l);
    ForShape(s, vars, exits, t, l);
    ForLaid(s, vars, exits, t, l);
    RoundsMeaning(M, s, vals, w, n);
    var top := RoundAt(f, k);
    var start := Running(top, env, w);
    env2 := env;
    if n == 0 {
      StillThere(M, P, top, env, w);
    } else {
      Stays(M, P, start);
      AndDo(M, P, start, 0, top, env, w, Mark(f.i.l));
      var end := BackAt(f, k);
      var env1 := SimCondition(M, P, start, 0, top + 1, s.cond, vars, vals, env, w, f.u.t, f.u.l, end + 1);
      var r := Eval(M, s.cond, vals, w);
      env2 := env1;
      if r.Value? && r.v != 0 {
        env2 := SimStmt(M, P, BodyAt(f, k), s.body, vars, vals, env1, r.w, exits + [f.c.l], f.c.t, f.c.l + 1, n);
        var o := Perform(M, s.body, vals, r.w, n);
        Precede(M, P, start, 0, Running(BodyAt(f, k), env1, r.w), end, exits + [f.c.l], vars, o, n, env2);
        if o.Normal? {
          env2 := SimNextRound(M, P, k, s, vars, o.env, env2, o.w, start, exits, t, l, n);
        } else if o.Broke? {
          LeavesLoop(M, P, start, end + 1, f.c.l, exits, vars, o, end, n, env2);
        } else {
          PassesOn(M, P, start, end, end + 2, exits + [f.c.l], exits, vars, o, n, n, env2);
        }
      }
    }
  }

  /** From the end of the body through the update to the next round. */
  lemma SimNextRound<W>(M: Machine<W>, P: Code, k: nat, s: Stmt, vars: Vars, vals: Env, env: Env, w: W,
                        a: Config<W>, exits: seq<Label>, t: nat, l: nat, n: nat)
    returns (env2: Env)
    requires s.For? && WellFormed(s, exits != []) && Laid(s, vars, t) && Separate(vars) && n > 0
    requires ForAt(P, k, ForParts(s, vars, exits, t, l)) && Ready(vars, vals, env)
    requires Leads(M, P, a, 0, Running(BackAt(ForParts(s, vars, exits, t, l), k), env, w))
    ensures var f := ForParts(s, vars, exits, t, l); var u := Perform(M, s.update, vals, w, n);
      Simulated(M, P, a, BackAt(f, k) + 2, exits, vars,
                if u.Normal? then Rounds(M, s, u.env, u.w, n - 1) else u, n, env2)
    decreases n, s, 0
  {
    hide TransExpr, Eval, Leads, GoesOn, At, Scoped, TransStmt, Perform, Laid, Ready, UniqueMarks, Run, Rounds;
    var f := ForParts(s, vars, exits, t, l);
    ForShape(s, vars, exits, t, l);
    ForLaid(s, vars, exits, t, l);
    var ku := UpdateAt(f, k);
    AndJump(M, P, a, BackAt(f, k), env, w, f.i.l + 1, ku - 1);
    AndDo(M, P, a, 1, ku - 1, env, w, Mark(f.i.l + 1));
    SimpleIsWellFormed(s.update, exits != []);
    env2 := SimStmt(M, P, ku, s.update, vars, vals, env, w, exits, f.i.t, f.i.l + 2, n);
    var u := Perform(M, s.update, vals, w, n);
    Precede(M, P, a, 1, Running(ku, env, w), RoundAt(f, k), exits, vars, u, n, env2);
    if u.Normal? {
      var env3 := env2;
      Preceding(M, P, a, 1, Running(ku, env, w), Running(RoundAt(f, k), env3, u.w));
      env2 := SimRounds(M, P, k, s, vars, u.env, env3, u.w, exits, t, l, n - 1);
      Precede(M, P, a, 1, Running(RoundAt(f, k), env3, u.w), BackAt(f, k) + 2, exits, vars,
              Rounds(M, s, u.env, u.w, n - 1), n - 1, env2);
    } else {
      SimpleNeverBreaks(M, s.update, vals, w, n);
      PassesOn(M, P, a, RoundAt(f, k), BackAt(f, k) + 2, exits, exits, vars, u, n + 1, n, env2);
    }
  }

  lemma SimpleIsWellFormed(s: Stmt, inLoop: bool)
    requires IsSimple(s)
    ensures WellFormed(s, inLoop)
  {
  }

  lemma SimpleNeverBreaks<W>(M: Machine<W>, s: Stmt, vals: Env, w: W, n: nat)
    requires IsSimple(s)
    ensures !Perform(M, s, vals, w, n).Broke?
  {
    hide Eval, EvalArgs;
  }

  lemma SimFor<W>(M: Machine<W>, P: Code, k: nat, s: Stmt, vars: Vars, vals: Env, env: Env, w: W,
                  exits: seq<Label>, t: nat, l: nat, n: nat)
    returns (env2: Env)
    requires s.For? && WellFormed(s, exits != []) && StmtAt(P, k, s, vars, exits, t, l) && Ready(vars, vals, env)
    ensures StmtWorks(M, P, k, s, vars, vals, env, w, exits, t, l, n, env2)
    decreases n, s, 2
  {
    hide TransExpr, Eval, Leads, GoesOn, At, Scoped, TransStmt, Perform, Laid, Ready, UniqueMarks, Run, Rounds, ForAt;
    var f := ForParts(s, vars, exits, t, l);
    ForShape(s, vars, exits, t, l);
    ForLaid(s, vars, exits, t, l);
    ForMeaning(M, s, vals, w, n);
    ForIsAt(P, k, f);
    ForStart(P, k, f);
    var start := Running(k, env, w);
    SimpleIsWellFormed(s.init, exits != []);
    env2 := SimStmt(M, P, k, s.init, vars, vals, env, w, exits, t, l, n);
    var i := Perform(M, s.init, vals, w, n);
    if i.Normal? {
      var env3 := env2;
      AndJump(M, P, start, k + |f.i.code|, env3, i.w, f.i.l, RoundAt(f, k));
      env2 := SimRounds(M, P, k, s, vars, i.env, env3, i.w, exits, t, l, n);
      Precede(M, P, start, 0, Running(RoundAt(f, k), env3, i.w), BackAt(f, k) + 2, exits, vars,
              Rounds(M, s, i.env, i.w, n), n, env2);
    } else {
      SimpleNeverBreaks(M, s.init, vals, w, n);
      PassesOn(M, P, start, k + |f.i.code|, BackAt(f, k) + 2, exits, exits, vars, i, n, n, env2);
    }
  }

  lemma ForStart(P: Code, k: nat, f: ForOut)
    requires ForAt(P, k, f)
    ensures k + |f.i.code| < |P| && P[k + |f.i.code|] == Branch(f.i.l) && At(P, k, f.i.code)
    ensures RoundAt(f, k) < |P| && P[RoundAt(f, k)] == Mark(f.i.l) && UniqueMarks(P)
  {
  }

  // ---------- blocks and conditionals ----------

  lemma BlockCode<W>(M: Machine<W>, a: Stmt, b: Stmt, vars: Vars, vals: Env, w: W, exits: seq<Label>, t: nat, l: nat,
                     n: nat)
    ensures var x := TransStmt(a, vars, exits, t, l); var y := TransStmt(b, vars, exits, x.t, x.l);
      && TransStmt(Seq(a, b), vars, exits, t, l).code == x.code + y.code
      && (Laid(Seq(a, b), vars, t) ==> Laid(a, vars, t) && Laid(b, vars, x.t))
    ensures var r := Perform(M, a, vals, w, n);
      Perform(M, Seq(a, b), vals, w, n) == if r.Normal? then Perform(M, b, r.env, r.w, n) else r
    ensures forall inLoop :: WellFormed(Seq(a, b), inLoop) ==> WellFormed(a, inLoop) && WellFormed(b, inLoop)
  {
    hide TransExpr, Eval, Scoped;
    StmtTakes(a, vars, exits, t, l);
  }

  lemma SimBlock<W>(M: Machine<W>, P: Code, k: nat, a: Stmt, b: Stmt, vars: Vars, vals: Env, env: Env, w: W,
                    exits: seq<Label>, t: nat, l: nat, n: nat)
    returns (env2: Env)
    requires StmtAt(P, k, Seq(a, b), vars, exits, t, l) && Ready(vars, vals, env) && WellFormed(Seq(a, b), exits != [])
    ensures StmtWorks(M, P, k, Seq(a, b), vars, vals, env, w, exits, t, l, n, env2)
    decreases n, Seq(a, b), 0
  {
    hide TransExpr, Eval, Leads, GoesOn, At, Scoped, Ready, UniqueMarks, Run, TransStmt, Perform, Laid, WellFormed;
    BlockCode(M, a, b, vars, vals, w, exits, t, l, n);
    var x := TransStmt(a, vars, exits, t, l);
    var y := TransStmt(b, vars, exits, x.t, x.l);
    AtParts(P, k, x.code, y.code);
    env2 := SimStmt(M, P, k, a, vars, vals, env, w, exits, t, l, n);
    var o := Perform(M, a, vals, w, n);
    if o.Normal? {
      var env3 := env2;
      env2 := SimStmt(M, P, k + |x.code|, b, vars, o.env, env3, o.w, exits, x.t, x.l, n);
      Precede(M, P, Running(k, env, w), 0, Running(k + |x.code|, env3, o.w), k + |x.code + y.code|, exits, vars,
              Perform(M, b, o.env, o.w, n), n, env2);
    }
  }

  lemma ThenLaid(cond: Expr, yes: Stmt, vars: Vars, t: nat, l: nat)
    requires Laid(IfThen(cond, yes), vars, t)
    ensures var c := TransExpr(cond, vars, t, l); ExprLaid(cond, vars, t) && Laid(yes, vars, c.t)
  {
    hide TransExpr, TransStmt, ExprLaid;
    ExprTakes(cond, vars, t, l);
  }

  lemma ThenMeaning<W>(M: Machine<W>, cond: Expr, yes: Stmt, vals: Env, w: W, n: nat)
    ensures var c := Eval(M, cond, vals, w);
      Perform(M, IfThen(cond, yes), vals, w, n)
      == if !c.Value? then Failed(c) else if c.v == 0 then Normal(vals, c.w) else Perform(M, yes, vals, c.w, n)
  {
    hide Eval;
  }

  lemma SimIfThen<W>(M: Machine<W>, P: Code, k: nat, cond: Expr, yes: Stmt, vars: Vars, vals: Env, env: Env, w: W,
                     exits: seq<Label>, t: nat, l: nat, n: nat)
    returns (env2: Env)
    requires StmtAt(P, k, IfThen(cond, yes), vars, exits, t, l) && Ready(vars, vals, env) && WellFormed(yes, exits != [])
    ensures StmtWorks(M, P, k, IfThen(cond, yes), vars, vals, env, w, exits, t, l, n, env2)
    decreases n, IfThen(cond, yes), 0
  {
    hide TransExpr, Eval, Leads, GoesOn, At, Scoped, Ready, UniqueMarks, Run, WellFormed, TransStmt, Laid, Perform;
    ThenShape(IfThen(cond, yes), vars, exits, t, l);
    ThenLaid(cond, yes, vars, t, l);
    ThenMeaning(M, cond, yes, vals, w, n);
    var start := Running(k, env, w);
    var c := TransExpr(cond, vars, t, l);
    var y := TransStmt(yes, vars, exits, c.t, c.l + 1);
    AtLast(P, k, c.code + [Beqz(c.val, c.l)] + y.code, Mark(c.l));
    AtParts(P, k, c.code + [Beqz(c.val, c.l)], y.code);
    AtLast(P, k, c.code, Beqz(c.val, c.l));
    var k1 := k + |c.code| + 1;
    var k2 := k1 + |y.code|;
    Stays(M, P, start);
    env2 := SimCondition(M, P, start, 0, k, cond, vars, vals, env, w, t, l, k2);
    var r := Eval(M, cond, vals, w);
    if r.Value? && r.v != 0 {
      var env1 := env2;
      env2 := SimStmt(M, P, k1, yes, vars, vals, env1, r.w, exits, c.t, c.l + 1, n);
      var o := Perform(M, yes, vals, r.w, n);
      Precede(M, P, start, 0, Running(k1, env1, r.w), k2, exits, vars, o, n, env2);
      Lands(M, P, start, k2, c.l, exits, vars, o, n, env2);
    }
  }

  /** Over a mark behind a branch. */
  lemma Lands<W>(M: Machine<W>, P: Code, c: Config<W>, k: nat, l: Label, exits: seq<Label>, vars: Vars, o: Outcome<W>,
                 n: nat, env2: Env)
    requires Simulated(M, P, c, k, exits, vars, o, n, env2) && k < |P| && P[k] == Mark(l)
    ensures Simulated(M, P, c, k + 1, exits, vars, o, n, env2)
  {
    hide Leads;
    if o.Normal? {
      AndDo(M, P, c, 0, k, env2, o.w, Mark(l));
    }
  }

  /** From the end of the first branch over the second. */
  lemma SkipsElse<W>(M: Machine<W>, P: Code, c: Config<W>, k: nat, l: Label, there: nat, exits: seq<Label>, vars: Vars,
                     o: Outcome<W>, n: nat, env2: Env)
    requires UniqueMarks(P) && Simulated(M, P, c, k, exits, vars, o, n, env2) && k < |P| && P[k] == Branch(l)
    requires there < |P| && P[there] == Mark(l)
    ensures Simulated(M, P, c, there + 1, exits, vars, o, n, env2)
  {
    hide Leads;
    if o.Normal? {
      AndJump(M, P, c, k, env2, o.w, l, there);
      AndDo(M, P, c, 0, there, env2, o.w, Mark(l));
    }
  }

  lemma ElseParts(P: Code, k: nat, c: Code, test: Instr, y: Code, over: Instr, other: Instr, z: Code, end: Instr)
    requires At(P, k, c + [test] + y + [over, other] + z + [end])
    ensures var k1 := k + |c| + 1; var k2 := k1 + |y|; var k3 := k2 + 2 + |z|;
      && k3 < |P| && At(P, k, c) && P[k1 - 1] == test && At(P, k1, y) && P[k2] == over && P[k2 + 1] == other
      && At(P, k2 + 2, z) && P[k3] == end && k3 + 1 == k + |c + [test] + y + [over, other] + z + [end]|
  {
    AtLast(P, k, c + [test] + y + [over, other] + z, end);
    AtParts(P, k, c + [test] + y + [over, other], z);
    AtParts(P, k, c + [test] + y, [over, other]);
    AtParts(P, k, c + [test], y);
    AtLast(P, k, c, test);
    AtBoth(P, k + |c + [test] + y|, [over, other]);
  }

  lemma ElseLaid(cond: Expr, yes: Stmt, no: Stmt, vars: Vars, exits: seq<Label>, t: nat, l: nat)
    requires Laid(IfElse(cond, yes, no), vars, t)
    ensures var c := TransExpr(cond, vars, t, l); var y := TransStmt(yes, vars, exits, c.t, c.l + 1);
      ExprLaid(cond, vars, t) && Laid(yes, vars, c.t) && Laid(no, vars, y.t)
  {
    hide TransExpr, TransStmt, ExprLaid;
    ExprTakes(cond, vars, t, l);
    var c := TransExpr(cond, vars, t, l);
    StmtTakes(yes, vars, exits, c.t, c.l + 1);
  }

  lemma ElseMeaning<W>(M: Machine<W>, cond: Expr, yes: Stmt, no: Stmt, vals: Env, w: W, n: nat)
    ensures var c := Eval(M, cond, vals, w);
      Perform(M, IfElse(cond, yes, no), vals, w, n)
      == if !c.Value? then Failed(c) else Perform(M, if c.v == 0 then no else yes, vals, c.w, n)
  {
    hide Eval;
  }

  lemma SimIfElse<W>(M: Machine<W>, P: Code, k: nat, cond: Expr, yes: Stmt, no: Stmt, vars: Vars, vals: Env, env: Env,
                     w: W, exits: seq<Label>, t: nat, l: nat, n: nat)
    returns (env2: Env)
    requires StmtAt(P, k, IfElse(cond, yes, no), vars, exits, t, l) && Ready(vars, vals, env)
    requires WellFormed(yes, exits != []) && WellFormed(no, exits != [])
    ensures StmtWorks(M, P, k, IfElse(cond, yes, no), vars, vals, env, w, exits, t, l, n, env2)
    decreases n, IfElse(cond, yes, no), 0
  {
    hide Simulated, TransExpr, Eval, Leads, GoesOn, At, Scoped, Ready, UniqueMarks, Run, WellFormed, TransStmt, Laid, Perform;
    var start := Running(k, env, w);
    ElseShape(IfElse(cond, yes, no), vars, exits, t, l);
    ElseLaid(cond, yes, no, vars, exits, t, l);
    ElseMeaning(M, cond, yes, no, vals, w, n);
    var c := TransExpr(cond, vars, t, l);
    var y := TransStmt(yes, vars, exits, c.t, c.l + 1);
    var z := TransStmt(no, vars, exits, y.t, y.l + 1);
    ElseParts(P, k, c.code, Beqz(c.val, c.l), y.code, Branch(y.l), Mark(c.l), z.code, Mark(y.l));
    var k1 := k + |c.code| + 1;
    var k2 := k1 + |y.code|;
    var k3 := k2 + 2 + |z.code|;
    Stays(M, P, start);
    env2 := SimCondition(M, P, start, 0, k, cond, vars, vals, env, w, t, l, k2 + 1);
    var r := Eval(M, cond, vals, w);
    var env1 := env2;
    if r.Value? && r.v != 0 {
      env2 := SimStmt(M, P, k1, yes, vars, vals, env1, r.w, exits, c.t, c.l + 1, n);
      var o := Perform(M, yes, vals, r.w, n);
      Precede(M, P, start, 0, Running(k1, env1, r.w), k2, exits, vars, o, n, env2);
      SkipsElse(M, P, start, k2, y.l, k3, exits, vars, o, n, env2);
    } else if r.Value? {
      env2 := SimStmt(M, P, k2 + 2, no, vars, vals, env1, r.w, exits, y.t, y.l + 1, n);
      var o := Perform(M, no, vals, r.w, n);
      Precede(M, P, start, 0, Running(k2 + 2, env1, r.w), k3, exits, vars, o, n, env2);
      Lands(M, P, start, k3, y.l, exits, vars, o, n, env2);
    } else {
      ConditionFails(M, P, start, r, k3 + 1, exits, vars, n, env2);
    }
  }

  // ---------- the induction ----------

  lemma SimPlain<W>(M: Machine<W>, P: Code, k: nat, s: Stmt, vars: Vars, vals: Env, env: Env, w: W,
                    exits: seq<Label>, t: nat, l: nat, n: nat)
    returns (env2: Env)
    requires StmtAt(P, k, s, vars, exits, t, l) && Ready(vars, vals, env) && WellFormed(s, exits != [])
    requires !s.Seq? && !s.IfThen? && !s.IfElse? && !s.While? && !s.For?
    ensures StmtWorks(M, P, k, s, vars, vals, env, w, exits, t, l, n, env2)
  {
    hide StmtAt, StmtWorks, Ready;
    match s
    case AssignVar(x, e) => env2 := SimAssignVar(M, P, k, x, e, vars, vals, env, w, exits, t, l, n);
    case AssignField(owner, offset, e) =>
      env2 := SimAssignField(M, P, k, owner, offset, e, vars, vals, env, w, exits, t, l, n);
    case AssignElement(arr, index, e) =>
      env2 := SimAssignElement(M, P, k, arr, index, e, vars, vals, env, w, exits, t, l, n);
    case Exec(e) => env2 := SimExec(M, P, k, e, vars, vals, env, w, exits, t, l, n);
    case CallVoid(f, args) => env2 := SimCallVoid(M, P, k, f, args, vars, vals, env, w, exits, t, l, n);
    case InvokeVoid(receiver, offset, args) =>
      env2 := SimInvokeVoid(M, P, k, receiver, offset, args, vars, vals, env, w, exits, t, l, n);
    case Print(callee, e) => env2 := SimPrint(M, P, k, callee, e, vars, vals, env, w, exits, t, l, n);
    case ReturnValue(e) => env2 := SimReturn(M, P, k, e, vars, vals, env, w, exits, t, l, n);
    case _ => env2 := SimOneJump(M, P, k, s, vars, vals, env, w, exits, t, l, n);
  }

  lemma SimOneJump<W>(M: Machine<W>, P: Code, k: nat, s: Stmt, vars: Vars, vals: Env, env: Env, w: W,
                      exits: seq<Label>, t: nat, l: nat, n: nat)
    returns (env2: Env)
    requires StmtAt(P, k, s, vars, exits, t, l) && Ready(vars, vals, env) && WellFormed(s, exits != [])
    requires s.Skip? || s.Declare? || s.Break? || s.ReturnVoid?
    ensures StmtWorks(M, P, k, s, vars, vals, env, w, exits, t, l, n, env2)
  {
    hide Leads, Scoped, Ready;
    env2 := env;
    var start := Running(k, env, w);
    Stays(M, P, start);
    if s.Break? || s.ReturnVoid? {
      var C := TransStmt(s, vars, exits, t, l).code;
      assert P[k] == C[0];
      AndStep(M, P, start, 0, start);
    }
  }

  lemma {:induction false} SimStmt<W>(M: Machine<W>, P: Code, k: nat, s: Stmt, vars: Vars, vals: Env, env: Env, w: W,
                                      exits: seq<Label>, t: nat, l: nat, n: nat)
    returns (env2: Env)
    requires StmtAt(P, k, s, vars, exits, t, l) && Ready(vars, vals, env) && WellFormed(s, exits != [])
    ensures StmtWorks(M, P, k, s, vars, vals, env, w, exits, t, l, n, env2)
    decreases n, s, 3
  {
    hide StmtAt, StmtWorks, Ready;
    match s
    case While(cond, body) => env2 := SimWhile(M, P, k, cond, body, vars, vals, env, w, exits, t, l, n);
    case Seq(a, b) => env2 := SimBlock(M, P, k, a, b, vars, vals, env, w, exits, t, l, n);
    case IfThen(cond, yes) => env2 := SimIfThen(M, P, k, cond, yes, vars, vals, env, w, exits, t, l, n);
    case IfElse(cond, yes, no) => env2 := SimIfElse(M, P, k, cond, yes, no, vars, vals, env, w, exits, t, l, n);
    case For(_, _, _, _) => env2 := SimFor(M, P, k, s, vars, vals, env, w, exits, t, l, n);
    case _ => env2 := SimPlain(M, P, k, s, vars, vals, env, w, exits, t, l, n);
  }
}
