/** The code of an expression computes its value and clobbers nothing but fresh temps. */
module DecafExpressions {
  import opened Lists
  import opened Tac
  import opened TacRuns
  import opened DecafTree
  import opened DecafTranslation

  // ---------- temps ----------

  /** Every variable's temp holds the variable's value. */
  ghost predicate Ready(vars: Vars, vals: Env, env: Env) {
    forall x :: x in vars ==> Get(env, vars[x]) == Get(vals, x)
  }

  /** No variable lives in the temps from `lo` to `hi`. */
  ghost predicate Clear(vars: Vars, lo: nat, hi: nat) {
    forall x :: x in vars ==> vars[x] < lo || vars[x] >= hi
  }

  ghost predicate SameOutside(a: Env, b: Env, lo: nat, hi: nat) {
    forall u: Temp :: u < lo || u >= hi ==> Get(a, u) == Get(b, u)
  }

  /** A value is in a temp of the expression itself or in a variable's. */
  ghost predicate Placed(val: Temp, vars: Vars, lo: nat, hi: nat) {
    lo <= val < hi || exists x :: x in vars && vars[x] == val
  }

  lemma StaysReady(vars: Vars, vals: Env, env: Env, env2: Env, lo: nat, hi: nat)
    requires Ready(vars, vals, env) && Clear(vars, lo, hi) && SameOutside(env, env2, lo, hi)
    ensures Ready(vars, vals, env2)
  {
  }

  lemma StaysPlaced(val: Temp, vars: Vars, lo: nat, mid: nat, hi: nat, env: Env, env2: Env)
    requires Placed(val, vars, lo, mid) && Clear(vars, lo, hi) && lo <= mid <= hi && SameOutside(env, env2, mid, hi)
    ensures Get(env2, val) == Get(env, val) && Placed(val, vars, lo, hi)
  {
  }

  // ---------- scopes ----------

  predicate Scoped(e: Expr, dom: set<Symbol>) {
    match e
    case Var(x) => x in dom
    case Field(o, _) => Scoped(o, dom)
    case Indexed(a, i) => Scoped(a, dom) && Scoped(i, dom)
    case Length(a) => Scoped(a, dom)
    case Infix(_, a, b) => Scoped(a, dom) && Scoped(b, dom)
    case StringEq(a, b, _) => Scoped(a, dom) && Scoped(b, dom)
    case Prefix(_, a) => Scoped(a, dom)
    case Call(_, args) => ScopedArgs(args, dom)
    case Invoke(o, _, args) => Scoped(o, dom) && ScopedArgs(args, dom)
    case NewArray(n) => Scoped(n, dom)
    case TypeTest(o, _) => Scoped(o, dom)
    case TypeCast(o, _, _) => Scoped(o, dom)
    case _ => true
  }

  predicate ScopedArgs(args: Args, dom: set<Symbol>) {
    match args
    case NoArgs => true
    case Arg(e, rest) => Scoped(e, dom) && ScopedArgs(rest, dom)
  }

  // ---------- the claim ----------

  ghost predicate Computed<W>(M: Machine<W>, P: Code, k: nat, o: Out, t: nat, env: Env, w: W, r: Result<W>, env2: Env) {
    && (r.Value? ==>
          && Leads(M, P, Running(k, env, w), 0, Running(k + |o.code|, env2, r.w))
          && Get(env2, o.val) == r.v && SameOutside(env, env2, t, o.t))
    && (r.Stop? ==> Leads(M, P, Running(k, env, w), 0, Halted(r.w)))
  }

  ghost predicate AllHold(env: Env, vals: seq<Temp>, vs: seq<int>) {
    |vals| == |vs| && forall j :: 0 <= j < |vals| ==> Get(env, vals[j]) == vs[j]
  }

  ghost predicate ArgsComputed<W>(M: Machine<W>, P: Code, k: nat, o: ArgsOut, t: nat, env: Env, w: W, r: ArgValues<W>,
                                  env2: Env)
  {
    && (r.Values? ==>
          && Leads(M, P, Running(k, env, w), 0, Running(k + |o.code|, env2, r.w))
          && AllHold(env2, o.vals, r.vs) && SameOutside(env, env2, t, o.t))
    && (r.NoValues? && r.why.Stop? ==> Leads(M, P, Running(k, env, w), 0, Halted(r.why.w)))
  }

  // ---------- pieces of code ----------

  lemma Complains<W>(M: Machine<W>, P: Code, a: Config<W>, k: nat, env: Env, w: W, t: nat, message: string)
    requires Leads(M, P, a, 0, Running(k, env, w)) && At(P, k, ComplainCode(t, message) + [DirectCall(None, HALT)])
    ensures Leads(M, P, a, 0, Halted(Complain(M, w, message)))
  {
    var C := ComplainCode(t, message) + [DirectCall(None, HALT)];
    assert P[k] == C[0] && P[k + 1] == C[1] && P[k + 2] == C[2] && P[k + 3] == C[3];
    var env1 := env[t := M.str(message)];
    AndDo(M, P, a, 0, k, env, w, C[0]);
    AndDo(M, P, a, 0, k + 1, env1, w, C[1]);
    AndDo(M, P, a, 0, k + 2, env1, M.parm(w, M.str(message)), C[2]);
    AndStep(M, P, a, 0, Running(k + 3, env1, Complain(M, w, message)));
  }

  lemma {:induction false} PassesParms<W>(M: Machine<W>, P: Code, a: Config<W>, k: nat, env: Env, w: W,
                                          vals: seq<Temp>, vs: seq<int>)
    requires Leads(M, P, a, 0, Running(k, env, w)) && At(P, k, ParmCode(vals)) && AllHold(env, vals, vs)
    ensures Leads(M, P, a, 0, Running(k + |ParmCode(vals)|, env, ParmAll(M, w, vs)))
    decreases |vals|
  {
    if vals != [] {
      AtParts(P, k, [Parm(vals[0])], ParmCode(vals[1..]));
      assert P[k] == [Parm(vals[0])][0];
      assert Get(env, vals[0]) == vs[0];
      AndDo(M, P, a, 0, k, env, w, Parm(vals[0]));
      PassesParms(M, P, a, k + 1, env, M.parm(w, vs[0]), vals[1..], vs[1..]);
    }
  }

  lemma TestsAbove<W>(M: Machine<W>, P: Code, a: Config<W>, k: nat, env: Env, w: W, arr: Temp, index: Temp, t: nat)
    returns (env2: Env)
    requires Leads(M, P, a, 0, Running(k, env, w)) && At(P, k, BoundsTestAbove(arr, index, t)) && index != t
    ensures Leads(M, P, a, 0, Running(k + 2, env2, w)) && SameOutside(env, env2, t, t + 2)
    ensures Get(env2, t + 1) == M.bin(LES, Get(env, index), M.load(w, Get(env, arr) - WORD_SIZE))
  {
    var C := BoundsTestAbove(arr, index, t);
    assert P[k] == C[0] && P[k + 1] == C[1];
    AndDo(M, P, a, 0, k, env, w, C[0]);
    var env1 := env[t := M.load(w, Get(env, arr) + -WORD_SIZE)];
    AndDo(M, P, a, 0, k + 1, env1, w, C[1]);
    env2 := env1[t + 1 := M.bin(LES, Get(env1, index), Get(env1, t))];
  }

  lemma TestsBelow<W>(M: Machine<W>, P: Code, a: Config<W>, k: nat, env: Env, w: W, index: Temp, t: nat)
    returns (env2: Env)
    requires Leads(M, P, a, 0, Running(k, env, w)) && At(P, k, BoundsTestBelow(index, t)) && index != t
    ensures Leads(M, P, a, 0, Running(k + 2, env2, w)) && SameOutside(env, env2, t, t + 2)
    ensures Get(env2, t + 1) == M.bin(LES, Get(env, index), 0)
  {
    var C := BoundsTestBelow(index, t);
    assert P[k] == C[0] && P[k + 1] == C[1];
    AndDo(M, P, a, 0, k, env, w, C[0]);
    var env1 := env[t := 0];
    AndDo(M, P, a, 0, k + 1, env1, w, C[1]);
    env2 := env1[t + 1 := M.bin(LES, Get(env1, index), Get(env1, t))];
  }

  /** A conditional jump to a mark. */
  lemma Tests<W>(M: Machine<W>, P: Code, a: Config<W>, n: nat, k: nat, env: Env, w: W, c: Temp, l: Label, there: nat)
    requires UniqueMarks(P) && Leads(M, P, a, n, Running(k, env, w)) && k < |P| && P[k] == Beqz(c, l)
    requires there < |P| && P[there] == Mark(l)
    ensures Get(env, c) != 0 ==> Leads(M, P, a, n, Running(k + 1, env, w))
    ensures Get(env, c) == 0 ==> Leads(M, P, a, n, Running(there + 1, env, w))
  {
    TargetIs(P, there, l);
    AndStep(M, P, a, n, Running(k, env, w));
    if Get(env, c) == 0 {
      AndDo(M, P, a, n, there, env, w, Mark(l));
    }
  }

  /** An index in bounds passes the check; any other ends the program with its message. */
  lemma ChecksIndex<W>(M: Machine<W>, P: Code, a: Config<W>, k: nat, env: Env, w: W, arr: Temp, index: Temp, t: nat,
                       l: nat)
    returns (env2: Env)
    requires UniqueMarks(P) && Leads(M, P, a, 0, Running(k, env, w)) && At(P, k, CheckIndexCode(arr, index, t, l))
    requires !(t <= index < t + 5)
    ensures SameOutside(env, env2, t, t + 5)
    ensures var ok := InBounds(M, Get(env, index), M.load(w, Get(env, arr) - WORD_SIZE));
      && (ok ==> Leads(M, P, a, 0, Running(k + |CheckIndexCode(arr, index, t, l)|, env2, w)))
      && (!ok ==> Leads(M, P, a, 0, Halted(Complain(M, w, ARRAY_INDEX_OUT_OF_BOUND))))
  {
    hide At, Leads, UniqueMarks, CheckIndexCode, BoundsTestAbove, BoundsTestBelow, ComplainCode, Complain;
    IndexCodeParts(P, k, arr, index, t, l);
    var env1 := TestsAbove(M, P, a, k, env, w, arr, index, t);
    Tests(M, P, a, 0, k + 2, env1, w, t + 1, l, k + 6);
    env2 := env1;
    if Get(env1, t + 1) != 0 {
      env2 := TestsBelow(M, P, a, k + 3, env1, w, index, t + 2);
      Tests(M, P, a, 0, k + 5, env2, w, t + 3, l + 1, k + 11);
      if Get(env2, t + 3) != 0 {
        AndDo(M, P, a, 0, k + 6, env2, w, Mark(l));
      }
    }
    if !InBounds(M, Get(env, index), M.load(w, Get(env, arr) - WORD_SIZE)) {
      Complains(M, P, a, k + 7, env2, w, t + 4, ARRAY_INDEX_OUT_OF_BOUND);
    }
  }

  lemma IndexCodeParts(P: Code, k: nat, arr: Temp, index: Temp, t: nat, l: nat)
    requires At(P, k, CheckIndexCode(arr, index, t, l))
    ensures |CheckIndexCode(arr, index, t, l)| == 12 && k + 12 <= |P|
    ensures At(P, k, BoundsTestAbove(arr, index, t)) && P[k + 2] == Beqz(t + 1, l)
    ensures At(P, k + 3, BoundsTestBelow(index, t + 2)) && P[k + 5] == Beqz(t + 3, l + 1) && P[k + 6] == Mark(l)
    ensures At(P, k + 7, ComplainCode(t + 4, ARRAY_INDEX_OUT_OF_BOUND) + [DirectCall(None, HALT)])
    ensures P[k + 11] == Mark(l + 1)
  {
    var C := CheckIndexCode(arr, index, t, l);
    assert P[k + 2] == C[2] && P[k + 5] == C[5] && P[k + 6] == C[6] && P[k + 11] == C[11];
    assert P[k] == C[0] && P[k + 1] == C[1] && P[k + 3] == C[3] && P[k + 4] == C[4];
    assert P[k + 7] == C[7] && P[k + 8] == C[8] && P[k + 9] == C[9] && P[k + 10] == C[10];
  }

  lemma FindsElement<W>(M: Machine<W>, P: Code, a: Config<W>, k: nat, env: Env, w: W, arr: Temp, index: Temp, t: nat)
    returns (env2: Env)
    requires Leads(M, P, a, 0, Running(k, env, w)) && At(P, k, AddressCode(arr, index, t))
    requires !(t <= arr < t + 3) && !(t <= index < t + 3)
    ensures Leads(M, P, a, 0, Running(k + 3, env2, w)) && SameOutside(env, env2, t, t + 3)
    ensures Get(env2, t + 2) == ElementAddress(M, Get(env, arr), Get(env, index))
  {
    var C := AddressCode(arr, index, t);
    assert P[k] == C[0] && P[k + 1] == C[1] && P[k + 2] == C[2];
    var env0 := env[t := WORD_SIZE];
    AndDo(M, P, a, 0, k, env, w, C[0]);
    var env1 := env0[t + 1 := M.bin(MUL, Get(env, index), WORD_SIZE)];
    AndDo(M, P, a, 0, k + 1, env0, w, C[1]);
    AndDo(M, P, a, 0, k + 2, env1, w, C[2]);
    env2 := env1[t + 2 := M.bin(ADD, Get(env1, arr), Get(env1, t + 1))];
  }

  /** A negative size ends the program with its message. */
  lemma ChecksSize<W>(M: Machine<W>, P: Code, a: Config<W>, k: nat, env: Env, w: W, size: Temp, t: nat, l: nat)
    returns (env2: Env)
    requires UniqueMarks(P) && Leads(M, P, a, 0, Running(k, env, w)) && At(P, k, CheckSizeCode(size, t, l))
    requires !(t <= size < t + 3)
    ensures SameOutside(env, env2, t, t + 3)
    ensures var negative := M.bin(LES, Get(env, size), 0) != 0;
      && (!negative ==> Leads(M, P, a, 0, Running(k + |CheckSizeCode(size, t, l)|, env2, w)))
      && (negative ==> Leads(M, P, a, 0, Halted(Complain(M, w, NEGATIVE_ARR_SIZE))))
  {
    hide At, Leads, UniqueMarks, CheckSizeCode, BoundsTestBelow, ComplainCode, Complain;
    SizeCodeParts(P, k, size, t, l);
    env2 := TestsBelow(M, P, a, k, env, w, size, t);
    Tests(M, P, a, 0, k + 2, env2, w, t + 1, l, k + 7);
    if Get(env2, t + 1) != 0 {
      Complains(M, P, a, k + 3, env2, w, t + 2, NEGATIVE_ARR_SIZE);
    }
  }

  lemma SizeCodeParts(P: Code, k: nat, size: Temp, t: nat, l: nat)
    requires At(P, k, CheckSizeCode(size, t, l))
    ensures |CheckSizeCode(size, t, l)| == 8 && k + 8 <= |P|
    ensures At(P, k, BoundsTestBelow(size, t)) && P[k + 2] == Beqz(t + 1, l)
    ensures At(P, k + 3, ComplainCode(t + 2, NEGATIVE_ARR_SIZE) + [DirectCall(None, HALT)])
    ensures P[k + 7] == Mark(l)
  {
    var C := CheckSizeCode(size, t, l);
    assert P[k] == C[0] && P[k + 1] == C[1] && P[k + 2] == C[2] && P[k + 3] == C[3];
    assert P[k + 4] == C[4] && P[k + 5] == C[5] && P[k + 6] == C[6] && P[k + 7] == C[7];
  }

  /** The temps in which an array creation keeps the word size, what is left to clear and the position. */
  ghost predicate Clearing(env: Env, t: nat, size: int, obj: int) {
    Get(env, t) == WORD_SIZE && Get(env, t + 2) == size && Get(env, t + 3) == obj && Get(env, t + 4) == 0
  }

  /** The other conditional jump to a mark. */
  lemma TestsNot<W>(M: Machine<W>, P: Code, a: Config<W>, n: nat, k: nat, env: Env, w: W, c: Temp, l: Label, there: nat)
    requires UniqueMarks(P) && Leads(M, P, a, n, Running(k, env, w)) && k < |P| && P[k] == Bnez(c, l)
    requires there < |P| && P[there] == Mark(l)
    ensures Get(env, c) == 0 ==> Leads(M, P, a, n, Running(k + 1, env, w))
    ensures Get(env, c) != 0 ==> Leads(M, P, a, n, Running(there, env, w))
  {
    TargetIs(P, there, l);
    AndStep(M, P, a, n, Running(k, env, w));
  }

  lemma ClimbCodeParts(P: Code, k: nat, t: nat, l: nat)
    requires At(P, k, ClimbCode(t, l))
    ensures k + 5 <= |P| && P[k] == Mark(l) && P[k + 1] == Binary(EQU, t, t + 1, t + 2) && P[k + 2] == Bnez(t, l + 1)
    ensures P[k + 3] == Load(t + 2, t + 2, 0) && P[k + 4] == Bnez(t + 2, l)
  {
    var C := ClimbCode(t, l);
    assert P[k] == C[0] && P[k + 1] == C[1] && P[k + 2] == C[2] && P[k + 3] == C[3] && P[k + 4] == C[4];
  }

  /** Where the climb stops: at the mark if the table was met, behind the loop if not. */
  ghost predicate Climbed<W>(M: Machine<W>, P: Code, c: Config<W>, k: nat, env: Env, w: W, t: nat, there: nat, r: int) {
    && Get(env, t) == r && Leads(M, P, c, 0, Running(if r != 0 then there else k + 5, env, w))
  }

  /** The loop climbs as long as `Climb` does. */
  lemma {:induction false} Climbs<W>(M: Machine<W>, P: Code, c: Config<W>, k: nat, env: Env, w: W, t: nat, l: nat,
                                     there: nat, n: nat)
    returns (env2: Env)
    requires UniqueMarks(P) && Leads(M, P, c, 0, Running(k, env, w)) && At(P, k, ClimbCode(t, l))
    requires there < |P| && P[there] == Mark(l + 1)
    requires Climb(M, w, Get(env, t + 1), Get(env, t + 2), n).Some?
    ensures Climbed(M, P, c, k, env2, w, t, there, Climb(M, w, Get(env, t + 1), Get(env, t + 2), n).value)
    ensures SameOutside(env, env2, t, t + 3)
    decreases n
  {
    hide At, UniqueMarks, Leads;
    ClimbCodeParts(P, k, t, l);
    var target, vp := Get(env, t + 1), Get(env, t + 2);
    env2 := ClimbsOnce(M, P, c, k, env, w, t, l, there);
    if M.bin(EQU, target, vp) == 0 && M.load(w, vp) != 0 {
      env2 := Climbs(M, P, c, k, env2, w, t, l, there, n - 1);
    }
  }

  lemma ClimbsOnce<W>(M: Machine<W>, P: Code, c: Config<W>, k: nat, env: Env, w: W, t: nat, l: nat, there: nat)
    returns (env2: Env)
    requires UniqueMarks(P) && Leads(M, P, c, 0, Running(k, env, w)) && k + 5 <= |P|
    requires P[k] == Mark(l) && P[k + 1] == Binary(EQU, t, t + 1, t + 2) && P[k + 2] == Bnez(t, l + 1)
    requires P[k + 3] == Load(t + 2, t + 2, 0) && P[k + 4] == Bnez(t + 2, l)
    requires there < |P| && P[there] == Mark(l + 1)
    ensures SameOutside(env, env2, t, t + 3) && Get(env2, t + 1) == Get(env, t + 1)
    ensures var (met, parent) := (M.bin(EQU, Get(env, t + 1), Get(env, t + 2)), M.load(w, Get(env, t + 2)));
      && (met != 0 ==> Climbed(M, P, c, k, env2, w, t, there, met))
      && (met == 0 && parent == 0 ==> Climbed(M, P, c, k, env2, w, t, there, 0))
      && (met == 0 && parent != 0 ==> Leads(M, P, c, 0, Running(k, env2, w)) && Get(env2, t + 2) == parent)
  {
    hide UniqueMarks, Leads;
    AndDo(M, P, c, 0, k, env, w, P[k]);
    AndDo(M, P, c, 0, k + 1, env, w, P[k + 1]);
    env2 := env[t := M.bin(EQU, Get(env, t + 1), Get(env, t + 2))];
    TestsNot(M, P, c, 0, k + 2, env2, w, t, l + 1, there);
    if Get(env2, t) == 0 {
      AndDo(M, P, c, 0, k + 3, env2, w, P[k + 3]);
      env2 := env2[t + 2 := M.load(w, Get(env2, t + 2) + 0)];
      TestsNot(M, P, c, 0, k + 4, env2, w, t + 2, l, k);
    }
  }

  lemma Allocates<W>(M: Machine<W>, P: Code, c: Config<W>, k: nat, env: Env, w: W, n: Temp, t: nat)
    returns (env2: Env)
    requires Leads(M, P, c, 0, Running(k, env, w)) && At(P, k, AllocateCode(n, t)) && !(t <= n < t + 5)
    ensures var a := Allocated(M, Get(env, n), w);
      var size := M.bin(ADD, WORD_SIZE, M.bin(MUL, WORD_SIZE, Get(env, n)));
      && Leads(M, P, c, 0, Running(k + 8, env2, M.store(a.1, a.0, Get(env, n))))
      && Clearing(env2, t, size, M.bin(ADD, a.0, size))
    ensures SameOutside(env, env2, t, t + 5)
  {
    AllocateCodeParts(P, k, n, t);
    var env1 := SizesArray(M, P, c, k, env, w, n, t);
    var size := M.bin(ADD, WORD_SIZE, M.bin(MUL, WORD_SIZE, Get(env, n)));
    env2 := StoresLength(M, P, c, k + 4, env1, M.parm(w, size), n, t);
  }

  lemma AllocateCodeParts(P: Code, k: nat, n: Temp, t: nat)
    requires At(P, k, AllocateCode(n, t))
    ensures k + 8 <= |P| && P[k] == LoadImm4(t, WORD_SIZE) && P[k + 1] == Binary(MUL, t + 1, t, n)
    ensures P[k + 2] == Binary(ADD, t + 2, t, t + 1) && P[k + 3] == Parm(t + 2)
    ensures P[k + 4] == DirectCall(Some(t + 3), ALLOCATE) && P[k + 5] == Store(n, t + 3, 0)
    ensures P[k + 6] == LoadImm4(t + 4, 0) && P[k + 7] == Binary(ADD, t + 3, t + 3, t + 2)
  {
    var C := AllocateCode(n, t);
    assert P[k] == C[0] && P[k + 1] == C[1] && P[k + 2] == C[2] && P[k + 3] == C[3];
    assert P[k + 4] == C[4] && P[k + 5] == C[5] && P[k + 6] == C[6] && P[k + 7] == C[7];
  }

  lemma SizesArray<W>(M: Machine<W>, P: Code, c: Config<W>, k: nat, env: Env, w: W, n: Temp, t: nat)
    returns (env2: Env)
    requires Leads(M, P, c, 0, Running(k, env, w)) && !(t <= n < t + 5)
    requires k + 4 <= |P| && P[k] == LoadImm4(t, WORD_SIZE) && P[k + 1] == Binary(MUL, t + 1, t, n)
    requires P[k + 2] == Binary(ADD, t + 2, t, t + 1) && P[k + 3] == Parm(t + 2)
    ensures var size := M.bin(ADD, WORD_SIZE, M.bin(MUL, WORD_SIZE, Get(env, n)));
      && Leads(M, P, c, 0, Running(k + 4, env2, M.parm(w, size)))
      && Get(env2, t) == WORD_SIZE && Get(env2, t + 2) == size
    ensures SameOutside(env, env2, t, t + 3)
  {
    var env0 := env[t := WORD_SIZE];
    var env1 := env0[t + 1 := M.bin(MUL, WORD_SIZE, Get(env, n))];
    env2 := env1[t + 2 := M.bin(ADD, WORD_SIZE, M.bin(MUL, WORD_SIZE, Get(env, n)))];
    AndDo(M, P, c, 0, k, env, w, P[k]);
    AndDo(M, P, c, 0, k + 1, env0, w, P[k + 1]);
    AndDo(M, P, c, 0, k + 2, env1, w, P[k + 2]);
    AndDo(M, P, c, 0, k + 3, env2, w, P[k + 3]);
  }

  lemma StoresLength<W>(M: Machine<W>, P: Code, c: Config<W>, k: nat, env: Env, w: W, n: Temp, t: nat)
    returns (env2: Env)
    requires Leads(M, P, c, 0, Running(k, env, w)) && !(t <= n < t + 5)
    requires k + 4 <= |P| && P[k] == DirectCall(Some(t + 3), ALLOCATE) && P[k + 1] == Store(n, t + 3, 0)
    requires P[k + 2] == LoadImm4(t + 4, 0) && P[k + 3] == Binary(ADD, t + 3, t + 3, t + 2)
    requires Get(env, t) == WORD_SIZE
    ensures var a := M.call(w, ALLOCATE);
      && Leads(M, P, c, 0, Running(k + 4, env2, M.store(a.1, a.0, Get(env, n))))
      && Clearing(env2, t, Get(env, t + 2), M.bin(ADD, a.0, Get(env, t + 2)))
    ensures SameOutside(env, env2, t + 3, t + 5)
  {
    var a := M.call(w, ALLOCATE);
    var w2 := M.store(a.1, a.0, Get(env, n));
    var env1 := env[t + 3 := a.0];
    AndDo(M, P, c, 0, k, env, w, P[k]);
    AndDo(M, P, c, 0, k + 1, env1, a.1, P[k + 1]);
    AndDo(M, P, c, 0, k + 2, env1, w2, P[k + 2]);
    AndDo(M, P, c, 0, k + 3, env1[t + 4 := 0], w2, P[k + 3]);
    env2 := env1[t + 4 := 0][t + 3 := M.bin(ADD, a.0, Get(env, t + 2))];
  }

  /** The loop clears exactly the elements and leaves with the address of the first. */
  lemma {:induction false} Clears<W>(M: Machine<W>, P: Code, c: Config<W>, k: nat, env: Env, w: W, t: nat, l: nat,
                                     base: int, n: nat)
    returns (env2: Env)
    requires UniqueMarks(P) && Leads(M, P, c, 0, Running(k, env, w)) && At(P, k, ClearCode(t, t + 2, t + 3, t + 4, l))
    requires Clearing(env, t, WORD_SIZE * (n + 1), base + WORD_SIZE * (n + 1))
    requires forall j :: 0 <= j <= n ==> CountsDown(M, base, j)
    ensures Leads(M, P, c, 0, Running(k + 7, env2, Cleared(M, w, base, n)))
    ensures Get(env2, t + 3) == base + WORD_SIZE && SameOutside(env, env2, t, t + 5)
    decreases n
  {
    ClearCodeParts(P, k, t, l);
    assert CountsDown(M, base, n);
    env2 := CountsSize(M, P, c, k, env, w, t, l, base, n);
    if n > 0 {
      env2 := ClearsOne(M, P, c, k, env2, w, t, l, base, n);
      env2 := Clears(M, P, c, k, env2, M.store(w, base + WORD_SIZE * n, 0), t, l, base, n - 1);
    }
  }

  lemma ClearCodeParts(P: Code, k: nat, t: nat, l: nat)
    requires At(P, k, ClearCode(t, t + 2, t + 3, t + 4, l))
    ensures k + 7 <= |P| && P[k] == Mark(l) && P[k + 1] == Binary(SUB, t + 2, t + 2, t)
    ensures P[k + 2] == Beqz(t + 2, l + 1) && P[k + 3] == Binary(SUB, t + 3, t + 3, t)
    ensures P[k + 4] == Store(t + 4, t + 3, 0) && P[k + 5] == Branch(l) && P[k + 6] == Mark(l + 1)
  {
    var C := ClearCode(t, t + 2, t + 3, t + 4, l);
    assert P[k] == C[0] && P[k + 1] == C[1] && P[k + 2] == C[2] && P[k + 3] == C[3];
    assert P[k + 4] == C[4] && P[k + 5] == C[5] && P[k + 6] == C[6];
  }

  lemma CountsSize<W>(M: Machine<W>, P: Code, c: Config<W>, k: nat, env: Env, w: W, t: nat, l: nat, base: int, n: nat)
    returns (env2: Env)
    requires UniqueMarks(P) && Leads(M, P, c, 0, Running(k, env, w)) && k + 7 <= |P|
    requires P[k] == Mark(l) && P[k + 1] == Binary(SUB, t + 2, t + 2, t) && P[k + 2] == Beqz(t + 2, l + 1)
    requires P[k + 6] == Mark(l + 1)
    requires Clearing(env, t, WORD_SIZE * (n + 1), base + WORD_SIZE * (n + 1)) && CountsDown(M, base, n)
    ensures Clearing(env2, t, WORD_SIZE * n, base + WORD_SIZE * (n + 1)) && SameOutside(env, env2, t, t + 5)
    ensures Leads(M, P, c, 0, Running(if n == 0 then k + 7 else k + 3, env2, w))
  {
    AndDo(M, P, c, 0, k, env, w, P[k]);
    AndDo(M, P, c, 0, k + 1, env, w, P[k + 1]);
    env2 := env[t + 2 := WORD_SIZE * n];
    Tests(M, P, c, 0, k + 2, env2, w, t + 2, l + 1, k + 6);
  }

  lemma ClearsOne<W>(M: Machine<W>, P: Code, c: Config<W>, k: nat, env: Env, w: W, t: nat, l: nat, base: int, n: nat)
    returns (env2: Env)
    requires UniqueMarks(P) && Leads(M, P, c, 0, Running(k + 3, env, w)) && k + 7 <= |P| && n > 0
    requires P[k] == Mark(l) && P[k + 3] == Binary(SUB, t + 3, t + 3, t) && P[k + 4] == Store(t + 4, t + 3, 0)
    requires P[k + 5] == Branch(l)
    requires Clearing(env, t, WORD_SIZE * n, base + WORD_SIZE * (n + 1)) && CountsDown(M, base, n)
    ensures Clearing(env2, t, WORD_SIZE * n, base + WORD_SIZE * n) && SameOutside(env, env2, t, t + 5)
    ensures Leads(M, P, c, 0, Running(k, env2, M.store(w, base + WORD_SIZE * n, 0)))
  {
    AndDo(M, P, c, 0, k + 3, env, w, P[k + 3]);
    env2 := env[t + 3 := base + WORD_SIZE * n];
    AndDo(M, P, c, 0, k + 4, env2, w, P[k + 4]);
    AndStep(M, P, c, 0, Running(k + 5, env2, M.store(w, base + WORD_SIZE * n, 0)));
    TargetIs(P, k, l);
  }
}
