/** The translation of a function preserves its meaning. */
module DecafCorrectness {
  import opened Lists
  import opened Tac
  import opened TacRuns
  import opened DecafTree
  import opened DecafTranslation
  import opened DecafExpressions
  import opened DecafStatements
  import opened DecafControl
  import opened DecafMarks

  // ---------- variables get temps where they are declared ----------

  function Declared(s: Stmt): set<Symbol> {
    match s
    case Declare(x) => {x}
    case Seq(a, b) => Declared(a) + Declared(b)
    case IfThen(_, yes) => Declared(yes)
    case IfElse(_, yes, no) => Declared(yes) + Declared(no)
    case While(_, body) => Declared(body)
    case For(_, _, _, body) => Declared(body)
    case _ => {}
  }

  /** Variables are declared before they are used, and once. */
  predicate InScope(s: Stmt, dom: set<Symbol>) {
    match s
    case Skip => true
    case Break => true
    case ReturnVoid => true
    case Declare(x) => x !in dom
    case Seq(a, b) => InScope(a, dom) && InScope(b, dom + Declared(a))
    case AssignVar(x, e) => x in dom && Scoped(e, dom)
    case AssignField(owner, _, e) => Scoped(owner, dom) && Scoped(e, dom)
    case AssignElement(arr, index, e) => Scoped(arr, dom) && Scoped(index, dom) && Scoped(e, dom)
    case Exec(e) => Scoped(e, dom)
    case CallVoid(_, args) => ScopedArgs(args, dom)
    case InvokeVoid(receiver, _, args) => Scoped(receiver, dom) && ScopedArgs(args, dom)
    case Print(_, e) => Scoped(e, dom)
    case ReturnValue(e) => Scoped(e, dom)
    case IfThen(cond, yes) => Scoped(cond, dom) && InScope(yes, dom)
    case IfElse(cond, yes, no) => Scoped(cond, dom) && InScope(yes, dom) && InScope(no, dom + Declared(yes))
    case While(cond, body) => Scoped(cond, dom) && InScope(body, dom)
    case For(init, cond, update, body) =>
      && IsSimple(init) && IsSimple(update)
      && InScope(init, dom) && InScope(update, dom) && Scoped(cond, dom) && InScope(body, dom)
  }

  /** The temps of all variables once the statement is translated. */
  function Allot(s: Stmt, vars: Vars, t: nat): Vars {
    match s
    case Declare(x) => vars[x := t]
    case Seq(a, b) => Allot(b, Allot(a, vars, t), t + StmtTemps(a))
    case IfThen(cond, yes) => Allot(yes, vars, t + ExprTemps(cond))
    case IfElse(cond, yes, no) =>
      var t1 := t + ExprTemps(cond);
      Allot(no, Allot(yes, vars, t1), t1 + StmtTemps(yes))
    case While(cond, body) => Allot(body, vars, t + ExprTemps(cond))
    case For(init, cond, update, body) =>
      Allot(body, vars, t + StmtTemps(init) + StmtTemps(update) + ExprTemps(cond))
    case _ => vars
  }

  ghost predicate Below(vars: Vars, t: nat) {
    forall x :: x in vars ==> vars[x] < t
  }

  /** `vars` has what `early` has, and beyond that only temps from `t` on. */
  ghost predicate Extends(vars: Vars, early: Vars, t: nat) {
    && (forall x :: x in early ==> x in vars && vars[x] == early[x])
    && (forall x :: x in vars && x !in early ==> vars[x] >= t)
  }

  lemma ExtendsTwice(vars: Vars, mid: Vars, early: Vars, t: nat, t2: nat)
    requires Extends(vars, mid, t2) && Extends(mid, early, t) && t <= t2
    ensures Extends(vars, early, t)
  {
  }

  /** New variables get new temps, among those the statement takes. */
  ghost predicate Grows(s: Stmt, vars: Vars, t: nat) {
    var v := Allot(s, vars, t);
    v.Keys == vars.Keys + Declared(s) && Extends(v, vars, t) && Below(v, t + StmtTemps(s))
  }

  lemma {:induction false} AllotGrows(s: Stmt, vars: Vars, t: nat)
    requires InScope(s, vars.Keys) && Below(vars, t)
    ensures Grows(s, vars, t)
    decreases s, 1
  {
    hide Grows, ExprTemps, Scoped, ScopedArgs;
    match s
    case Seq(a, b) => PairGrows(s, a, b, vars, t, t);
    case IfElse(cond, yes, no) => PairGrows(s, yes, no, vars, t, t + ExprTemps(cond));
    case IfThen(cond, yes) => BodyGrows(s, yes, vars, t, t + ExprTemps(cond));
    case While(cond, body) => BodyGrows(s, body, vars, t, t + ExprTemps(cond));
    case For(init, cond, update, body) =>
      BodyGrows(s, body, vars, t, t + StmtTemps(init) + StmtTemps(update) + ExprTemps(cond));
    case _ => SimplestGrows(s, vars, t);
  }

  lemma SimplestGrows(s: Stmt, vars: Vars, t: nat)
    requires !s.Seq? && !s.IfThen? && !s.IfElse? && !s.While? && !s.For?
    requires InScope(s, vars.Keys) && Below(vars, t)
    ensures Grows(s, vars, t)
  {
    hide ExprTemps, ArgsTemps, Scoped, ScopedArgs;
  }

  lemma GrowsTwice(vars: Vars, mid: Vars, last: Vars, A: set<Symbol>, B: set<Symbol>, t: nat, t1: nat, t2: nat)
    requires mid.Keys == vars.Keys + A && Extends(mid, vars, t1) && last.Keys == mid.Keys + B && Extends(last, mid, t2)
    requires t <= t1 <= t2
    ensures last.Keys == vars.Keys + (A + B) && Extends(last, vars, t)
  {
    ExtendsTwice(last, mid, vars, t1, t2);
    ExtendsSooner(last, vars, t, t1);
  }

  lemma PairGrows(s: Stmt, a: Stmt, b: Stmt, vars: Vars, t: nat, t1: nat)
    requires (s.Seq? && a == s.first && b == s.second && t1 == t)
          || (s.IfElse? && a == s.yes && b == s.no && t1 == t + ExprTemps(s.cond))
    requires InScope(a, vars.Keys) && InScope(b, vars.Keys + Declared(a)) && Below(vars, t)
    ensures Grows(s, vars, t)
    decreases s, 0
  {
    hide ExprTemps, InScope, Below, Extends;
    BelowMore(vars, t, t1);
    AllotGrows(a, vars, t1);
    var mid := Allot(a, vars, t1);
    AllotGrows(b, mid, t1 + StmtTemps(a));
    GrowsTwice(vars, mid, Allot(b, mid, t1 + StmtTemps(a)), Declared(a), Declared(b), t, t1, t1 + StmtTemps(a));
  }

  lemma BodyGrows(s: Stmt, body: Stmt, vars: Vars, t: nat, t1: nat)
    requires (s.IfThen? && body == s.yes && t1 == t + ExprTemps(s.cond))
          || (s.While? && body == s.body && t1 == t + ExprTemps(s.cond))
          || (s.For? && body == s.body && t1 == t + StmtTemps(s.init) + StmtTemps(s.update) + ExprTemps(s.cond))
    requires InScope(body, vars.Keys) && Below(vars, t)
    ensures Grows(s, vars, t)
    decreases s, 0
  {
    hide ExprTemps, InScope, Below, Extends;
    BelowMore(vars, t, t1);
    AllotGrows(body, vars, t1);
    ExtendsSooner(Allot(body, vars, t1), vars, t, t1);
  }

  // ---------- and so they are apart from all other temps ----------

  lemma {:induction false} ScopedMore(e: Expr, dom: set<Symbol>, dom2: set<Symbol>)
    requires Scoped(e, dom) && dom <= dom2
    ensures Scoped(e, dom2)
    decreases e
  {
    match e
    case Field(o, _) => ScopedMore(o, dom, dom2);
    case Indexed(a, i) => ScopedMore(a, dom, dom2); ScopedMore(i, dom, dom2);
    case Length(a) => ScopedMore(a, dom, dom2);
    case Infix(_, a, b) => ScopedMore(a, dom, dom2); ScopedMore(b, dom, dom2);
    case StringEq(a, b, _) => ScopedMore(a, dom, dom2); ScopedMore(b, dom, dom2);
    case Prefix(_, a) => ScopedMore(a, dom, dom2);
    case Call(_, args) => ScopedArgsMore(args, dom, dom2);
    case Invoke(o, _, args) => ScopedMore(o, dom, dom2); ScopedArgsMore(args, dom, dom2);
    case NewArray(n) => ScopedMore(n, dom, dom2);
    case TypeTest(o, _) => ScopedMore(o, dom, dom2);
    case TypeCast(o, _, _) => ScopedMore(o, dom, dom2);
    case _ =>
  }

  lemma {:induction false} ScopedArgsMore(args: Args, dom: set<Symbol>, dom2: set<Symbol>)
    requires ScopedArgs(args, dom) && dom <= dom2
    ensures ScopedArgs(args, dom2)
    decreases args
  {
    match args
    case NoArgs =>
    case Arg(e, rest) => ScopedMore(e, dom, dom2); ScopedArgsMore(rest, dom, dom2);
  }

  lemma ExprIsLaid(e: Expr, early: Vars, vars: Vars, t: nat)
    requires Scoped(e, early.Keys) && Below(early, t) && Extends(vars, early, t + ExprTemps(e))
    ensures ExprLaid(e, vars, t)
  {
    ScopedMore(e, early.Keys, vars.Keys);
  }

  lemma {:induction false} AllotLays(s: Stmt, early: Vars, vars: Vars, t: nat)
    requires InScope(s, early.Keys) && Below(early, t) && Extends(vars, Allot(s, early, t), t + StmtTemps(s))
    ensures Laid(s, vars, t)
    decreases s, 2
  {
    if s.Seq? {
      LaysBlock(s, early, vars, t);
    } else if s.IfElse? {
      LaysElse(s, early, vars, t);
    } else if s.IfThen? || s.While? {
      LaysBody(s, early, vars, t);
    } else if s.For? {
      LaysFor(s, early, vars, t);
    } else {
      LaysPlain(s, early, vars, t);
    }
  }

  lemma LaysBlock(s: Stmt, early: Vars, vars: Vars, t: nat)
    requires s.Seq?
    requires InScope(s, early.Keys) && Below(early, t) && Extends(vars, Allot(s, early, t), t + StmtTemps(s))
    ensures Laid(s, vars, t)
    decreases s, 1
  {
    hide Below, Extends;
    LaysPair(s, s.first, s.second, early, vars, t);
  }

  lemma LaysElse(s: Stmt, early: Vars, vars: Vars, t: nat)
    requires s.IfElse?
    requires InScope(s, early.Keys) && Below(early, t) && Extends(vars, Allot(s, early, t), t + StmtTemps(s))
    ensures Laid(s, vars, t)
    decreases s, 1
  {
    hide Below, Extends, ExprTemps, Scoped, ExprLaid;
    BelowMore(early, t, t + ExprTemps(s.cond));
    LaysPair(s, s.yes, s.no, early, vars, t + ExprTemps(s.cond));
    LaysCondition(s.cond, early, Allot(s, early, t), vars, t, t + StmtTemps(s));
  }

  lemma LaysBody(s: Stmt, early: Vars, vars: Vars, t: nat)
    requires s.IfThen? || s.While?
    requires InScope(s, early.Keys) && Below(early, t) && Extends(vars, Allot(s, early, t), t + StmtTemps(s))
    ensures Laid(s, vars, t)
    decreases s, 1
  {
    hide Below, Extends, ExprTemps, Scoped, ExprLaid;
    BelowMore(early, t, t + ExprTemps(s.cond));
    var body := if s.IfThen? then s.yes else s.body;
    AllotLays(body, early, vars, t + ExprTemps(s.cond));
    AllotGrows(body, early, t + ExprTemps(s.cond));
    LaysCondition(s.cond, early, Allot(s, early, t), vars, t, t + StmtTemps(s));
  }

  /** One statement after the other. */
  lemma LaysPair(s: Stmt, a: Stmt, b: Stmt, early: Vars, vars: Vars, t: nat)
    requires a < s && b < s && InScope(a, early.Keys) && InScope(b, early.Keys + Declared(a)) && Below(early, t)
    requires Extends(vars, Allot(b, Allot(a, early, t), t + StmtTemps(a)), t + StmtTemps(a) + StmtTemps(b))
    ensures Laid(a, vars, t) && Laid(b, vars, t + StmtTemps(a))
    ensures Extends(Allot(b, Allot(a, early, t), t + StmtTemps(a)), early, t)
    decreases s, 0
  {
    hide Below, Extends, Allot, Laid, InScope;
    var mid := Allot(a, early, t);
    var t1 := t + StmtTemps(a);
    AllotGrows(a, early, t);
    AllotGrows(b, mid, t1);
    AllotLays(b, mid, vars, t1);
    ExtendsTwice(vars, Allot(b, mid, t1), mid, t1, t1 + StmtTemps(b));
    ExtendsTwice(Allot(b, mid, t1), mid, early, t, t1);
    AllotLays(a, early, vars, t);
  }

  lemma LaysCondition(cond: Expr, early: Vars, later: Vars, vars: Vars, t: nat, h: nat)
    requires Scoped(cond, early.Keys) && Below(early, t) && Extends(later, early, t + ExprTemps(cond))
    requires Extends(vars, later, h) && h >= t + ExprTemps(cond)
    ensures ExprLaid(cond, vars, t)
  {
    hide Below, Extends, ExprTemps, Scoped, ExprLaid;
    ExtendsTwice(vars, later, early, t + ExprTemps(cond), h);
    ExprIsLaid(cond, early, vars, t);
  }

  lemma LaysFor(s: Stmt, early: Vars, vars: Vars, t: nat)
    requires s.For?
    requires InScope(s, early.Keys) && Below(early, t) && Extends(vars, Allot(s, early, t), t + StmtTemps(s))
    ensures Laid(s, vars, t)
    decreases s, 1
  {
    hide Below, Extends, ExprTemps, Scoped, ExprLaid, IsSimple;
    var t1 := t + StmtTemps(s.init);
    var t2 := t1 + StmtTemps(s.update);
    var t3 := t2 + ExprTemps(s.cond);
    BelowMore(early, t, t1);
    BelowMore(early, t, t2);
    BelowMore(early, t, t3);
    AllotGrows(s.body, early, t3);
    AllotLays(s.body, early, vars, t3);
    ExtendsTwice(vars, Allot(s, early, t), early, t3, t + StmtTemps(s));
    ExtendsSooner(vars, early, t1, t3);
    ExtendsSooner(vars, early, t2, t3);
    LaysSimple(s.init, early, vars, t);
    LaysSimple(s.update, early, vars, t1);
    ExprIsLaid(s.cond, early, vars, t2);
  }

  lemma LaysSimple(s: Stmt, early: Vars, vars: Vars, t: nat)
    requires IsSimple(s) && InScope(s, early.Keys) && Below(early, t) && Extends(vars, early, t + StmtTemps(s))
    ensures Laid(s, vars, t)
  {
    hide Below, Extends, Laid, StmtTemps, InScope;
    LaysPlain(s, early, vars, t);
  }

  lemma LaysPlain(s: Stmt, early: Vars, vars: Vars, t: nat)
    requires !s.Seq? && !s.IfThen? && !s.IfElse? && !s.While? && !s.For?
    requires InScope(s, early.Keys) && Below(early, t) && Extends(vars, Allot(s, early, t), t + StmtTemps(s))
    ensures Laid(s, vars, t)
  {
    hide ExprTemps, ArgsTemps, Scoped, ScopedArgs;
    if s.AssignVar? || s.Exec? || s.Print? || s.ReturnValue? {
      ExprIsLaid(s.e, early, vars, t);
    } else if s.AssignField? {
      ScopedMore(s.owner, early.Keys, vars.Keys);
      ScopedMore(s.e, early.Keys, vars.Keys);
    } else if s.AssignElement? {
      ScopedMore(s.arr, early.Keys, vars.Keys);
      ScopedMore(s.index, early.Keys, vars.Keys);
      ScopedMore(s.e, early.Keys, vars.Keys);
    } else if s.CallVoid? {
      ScopedArgsMore(s.args, early.Keys, vars.Keys);
    } else if s.InvokeVoid? {
      ScopedMore(s.receiver, early.Keys, vars.Keys);
      ScopedArgsMore(s.args, early.Keys, vars.Keys);
    }
  }

  /** Different variables get different temps. */
  lemma {:induction false} AllotDistinct(s: Stmt, vars: Vars, t: nat)
    requires InScope(s, vars.Keys) && Below(vars, t) && Separate(vars)
    ensures Separate(Allot(s, vars, t))
    decreases s
  {
    hide ExprTemps, Scoped, ScopedArgs;
    if s.Seq? {
      hide Separate;
      AllotDistinct(s.first, vars, t);
      AllotGrows(s.first, vars, t);
      AllotDistinct(s.second, Allot(s.first, vars, t), t + StmtTemps(s.first));
    } else if s.IfElse? {
      hide Separate;
      var t1 := t + ExprTemps(s.cond);
      AllotDistinct(s.yes, vars, t1);
      AllotGrows(s.yes, vars, t1);
      AllotDistinct(s.no, Allot(s.yes, vars, t1), t1 + StmtTemps(s.yes));
    } else if s.IfThen? {
      AllotDistinct(s.yes, vars, t + ExprTemps(s.cond));
    } else if s.While? {
      AllotDistinct(s.body, vars, t + ExprTemps(s.cond));
    } else if s.For? {
      AllotDistinct(s.body, vars, t + StmtTemps(s.init) + StmtTemps(s.update) + ExprTemps(s.cond));
    }
  }

  lemma BelowMore(vars: Vars, t: nat, t2: nat)
    requires Below(vars, t) && t <= t2
    ensures Below(vars, t2)
  {
  }

  lemma ExtendsSooner(vars: Vars, early: Vars, t: nat, t2: nat)
    requires Extends(vars, early, t2) && t <= t2
    ensures Extends(vars, early, t)
  {
  }

  // ---------- functions ----------

  /** The code of a function: its mark, and its body. Parameters and this have temps from before. */
  function FunctionCode(entry: Label, body: Stmt, params: Vars, t: nat, l: nat): Code {
    [Mark(entry)] + TransStmt(body, Allot(body, params, t), [], t, l).code
  }

  ghost predicate FunctionOk(entry: Label, body: Stmt, params: Vars, t: nat, l: nat) {
    WellFormed(body, false) && InScope(body, params.Keys) && Below(params, t) && Separate(params) && entry < l
  }

  /** How the machine ends where the source ends; a body that runs off its end returns nothing. */
  function End<W>(o: Outcome<W>): Config<W>
    requires o.Normal? || o.Back? || o.Ended?
  {
    match o
    case Normal(_, w) => Returned(None, w)
    case Back(v, w) => Returned(v, w)
    case Ended(w) => Halted(w)
  }

  lemma FunctionMarks(entry: Label, body: Stmt, vars: Vars, t: nat, l: nat)
    requires entry < l
    ensures UniqueMarks([Mark(entry)] + TransStmt(body, vars, [], t, l).code)
  {
    var r := TransStmt(body, vars, [], t, l);
    StmtMarks(body, vars, [], t, l);
    OneMark(entry);
    Join([Mark(entry)], {entry}, r.code, Between(l, r.l));
  }

  /** A function's code ends as its body does, and runs on as long as its body does. */
  lemma FunctionPreserved<W>(M: Machine<W>, entry: Label, body: Stmt, params: Vars, vals: Env, env: Env, w: W, t: nat,
                             l: nat, n: nat)
    requires FunctionOk(entry, body, params, t, l) && Ready(Allot(body, params, t), vals, env)
    ensures var P := FunctionCode(entry, body, params, t, l); var o := Perform(M, body, vals, w, n);
      && !o.Broke?
      && (o.Normal? || o.Back? || o.Ended? ==> Leads(M, P, Running(0, env, w), 0, End(o)))
      && (o.OutOfFuel? ==> GoesOn(M, P, Running(0, env, w), n))
  {
    hide Leads, GoesOn, At, Run, TransStmt, Perform, Ready, Laid, InScope, WellFormed, Allot, UniqueMarks, Separate, Below;
    var vars := Allot(body, params, t);
    var P := FunctionCode(entry, body, params, t, l);
    var code := TransStmt(body, vars, [], t, l).code;
    var start := Running(0, env, w);
    AllotLaysAll(body, params, t);
    AllotDistinct(body, params, t);
    FunctionMarks(entry, body, vars, t, l);
    AtSelf(P);
    AtParts(P, 0, [Mark(entry)], code);
    Stays(M, P, start);
    AndDo(M, P, start, 0, 0, env, w, Mark(entry));
    var env2 := SimStmt(M, P, 1, body, vars, vals, env, w, [], t, l, n);
    var o := Perform(M, body, vals, w, n);
    Precede(M, P, start, 0, Running(1, env, w), |P|, [], vars, o, n, env2);
    if o.Normal? {
      AndStep(M, P, start, 0, Running(|P|, env2, o.w));
    }
  }

  lemma AllotLaysAll(body: Stmt, params: Vars, t: nat)
    requires InScope(body, params.Keys) && Below(params, t)
    ensures Laid(body, Allot(body, params, t), t)
  {
    AllotLays(body, params, Allot(body, params, t), t);
  }

  lemma AtSelf(P: Code)
    ensures At(P, 0, P)
  {
  }

  /** The other way round: when the machine ends, the source has ended, in the same way. */
  lemma FunctionReflected<W>(M: Machine<W>, entry: Label, body: Stmt, params: Vars, vals: Env, env: Env, w: W, t: nat,
                             l: nat, n: nat)
    requires FunctionOk(entry, body, params, t, l) && Ready(Allot(body, params, t), vals, env)
    requires !Run(M, FunctionCode(entry, body, params, t, l), Running(0, env, w), n).Running?
    ensures var d := Run(M, FunctionCode(entry, body, params, t, l), Running(0, env, w), n);
      var o := Perform(M, body, vals, w, n);
      o == Unpromised || ((o.Normal? || o.Back? || o.Ended?) && End(o) == d)
  {
    hide Run, Perform, Ready, FunctionOk, FunctionCode, Leads, GoesOn;
    var P := FunctionCode(entry, body, params, t, l);
    var start := Running(0, env, w);
    var o := Perform(M, body, vals, w, n);
    FunctionPreserved(M, entry, body, params, vals, env, w, t, l, n);
    if o.OutOfFuel? {
      RunningBefore(M, P, start, n);
    } else if o != Unpromised {
      SameEnd(M, P, start, End(o), n);
    }
  }
}
