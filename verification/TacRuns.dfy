/** Runs of a piece of three-address code that sits inside a larger one. */
module TacRuns {
  import opened Tac

  predicate At(P: Code, k: nat, C: Code) {
    k + |C| <= |P| && forall j :: 0 <= j < |C| ==> P[k + j] == C[j]
  }

  lemma AtParts(P: Code, k: nat, A: Code, B: Code)
    requires At(P, k, A + B)
    ensures At(P, k, A) && At(P, k + |A|, B)
  {
    forall j | 0 <= j < |A| ensures P[k + j] == A[j] {
      assert (A + B)[j] == A[j];
    }
    forall j | 0 <= j < |B| ensures P[k + |A| + j] == B[j] {
      assert (A + B)[|A| + j] == B[j];
    }
  }

  /** Code that ends with one instruction. */
  lemma AtLast(P: Code, k: nat, A: Code, i: Instr)
    requires At(P, k, A + [i])
    ensures At(P, k, A) && k + |A| < |P| && P[k + |A|] == i
  {
    AtParts(P, k, A, [i]);
    assert P[k + |A|] == [i][0];
  }

  // ---------- marks ----------

  ghost predicate UniqueMarks(P: Code) {
    forall i, j :: 0 <= i < j < |P| && P[i].Mark? && P[j].Mark? ==> P[i].target != P[j].target
  }

  lemma {:induction false} TargetAtMost(P: Code, k: nat)
    requires k < |P| && P[k].Mark?
    ensures Target(P, P[k].target) <= k
  {
    if P[0] != P[k] {
      TargetAtMost(P[1..], k - 1);
    }
  }

  lemma TargetIs(P: Code, k: nat, l: Label)
    requires UniqueMarks(P) && k < |P| && P[k] == Mark(l)
    ensures Target(P, l) == k
  {
    TargetAtMost(P, k);
  }

  // ---------- runs ----------

  /** In `n` steps or more the machine gets from `c` to `d`. */
  ghost predicate Leads<W>(M: Machine<W>, P: Code, c: Config<W>, n: nat, d: Config<W>) {
    exists m: nat :: m >= n && Run(M, P, c, m) == d
  }

  /** After `n` steps or more the machine has not ended. */
  ghost predicate GoesOn<W>(M: Machine<W>, P: Code, c: Config<W>, n: nat) {
    exists m: nat :: m >= n && Run(M, P, c, m).Running?
  }

  lemma Stays<W>(M: Machine<W>, P: Code, c: Config<W>)
    ensures Leads(M, P, c, 0, c)
  {
    assert Run(M, P, c, 0) == c;
  }

  lemma Onward<W>(M: Machine<W>, P: Code, a: Config<W>, m: nat, b: Config<W>, n: nat, c: Config<W>)
    requires Leads(M, P, a, m, b) && Leads(M, P, b, n, c)
    ensures Leads(M, P, a, m + n, c)
  {
    var i: nat :| i >= m && Run(M, P, a, i) == b;
    var j: nat :| j >= n && Run(M, P, b, j) == c;
    RunTwice(M, P, a, i, j);
  }

  lemma OnAndOn<W>(M: Machine<W>, P: Code, a: Config<W>, m: nat, b: Config<W>, n: nat)
    requires Leads(M, P, a, m, b) && GoesOn(M, P, b, n)
    ensures GoesOn(M, P, a, m + n)
  {
    var i: nat :| i >= m && Run(M, P, a, i) == b;
    var j: nat :| j >= n && Run(M, P, b, j).Running?;
    RunTwice(M, P, a, i, j);
  }

  lemma OneStep<W>(M: Machine<W>, P: Code, c: Config<W>)
    ensures Leads(M, P, c, 1, Step(M, P, c))
  {
    assert Run(M, P, Step(M, P, c), 0) == Step(M, P, c);
    assert Run(M, P, c, 1) == Step(M, P, c);
  }

  /** One more step at the end. */
  lemma AndStep<W>(M: Machine<W>, P: Code, a: Config<W>, n: nat, b: Config<W>)
    requires Leads(M, P, a, n, b)
    ensures Leads(M, P, a, n + 1, Step(M, P, b)) && Leads(M, P, a, n, Step(M, P, b))
  {
    OneStep(M, P, b);
    Onward(M, P, a, n, b, 1, Step(M, P, b));
    var m: nat :| m >= n + 1 && Run(M, P, a, m) == Step(M, P, b);
  }

  /** One more instruction that is not a jump. */
  lemma AndDo<W>(M: Machine<W>, P: Code, a: Config<W>, n: nat, k: nat, env: Env, w: W, i: Instr)
    requires Leads(M, P, a, n, Running(k, env, w)) && k < |P| && P[k] == i && !IsJump(i)
    ensures Leads(M, P, a, n, Running(k + 1, Do(M, i, env, w).0, Do(M, i, env, w).1))
  {
    AndStep(M, P, a, n, Running(k, env, w));
  }

  /** A jump back to a mark takes at least a step. */
  lemma AndJump<W>(M: Machine<W>, P: Code, a: Config<W>, k: nat, env: Env, w: W, l: Label, there: nat)
    requires UniqueMarks(P) && Leads(M, P, a, 0, Running(k, env, w)) && k < |P| && P[k] == Branch(l)
    requires there < |P| && P[there] == Mark(l)
    ensures Leads(M, P, a, 1, Running(there, env, w)) && Leads(M, P, a, 0, Running(there, env, w))
  {
    AndStep(M, P, a, 0, Running(k, env, w));
    TargetIs(P, there, l);
  }

  lemma Sooner<W>(M: Machine<W>, P: Code, a: Config<W>, m: nat, b: Config<W>)
    requires Leads(M, P, a, m, b)
    ensures Leads(M, P, a, 0, b)
  {
    var i: nat :| i >= m && Run(M, P, a, i) == b;
  }

  lemma StillThere<W>(M: Machine<W>, P: Code, k: nat, env: Env, w: W)
    ensures GoesOn(M, P, Running(k, env, w), 0)
  {
    assert Run(M, P, Running(k, env, w), 0).Running?;
  }

  /** A machine that has ended stays as it is. */
  lemma {:induction false} EndsForGood<W>(M: Machine<W>, P: Code, c: Config<W>, n: nat)
    requires !c.Running?
    ensures Run(M, P, c, n) == c
    decreases n
  {
    if n > 0 {
      EndsForGood(M, P, c, n - 1);
    }
  }

  /** A machine that goes on after `n` steps has not ended before. */
  lemma RunningBefore<W>(M: Machine<W>, P: Code, c: Config<W>, n: nat)
    requires GoesOn(M, P, c, n)
    ensures Run(M, P, c, n).Running?
  {
    var m: nat :| m >= n && Run(M, P, c, m).Running?;
    RunTwice(M, P, c, n, m - n);
    if !Run(M, P, c, n).Running? {
      EndsForGood(M, P, Run(M, P, c, n), m - n);
    }
  }

  /** Only one end can be reached. */
  lemma SameEnd<W>(M: Machine<W>, P: Code, c: Config<W>, d: Config<W>, n: nat)
    requires Leads(M, P, c, 0, d) && !d.Running? && !Run(M, P, c, n).Running?
    ensures Run(M, P, c, n) == d
  {
    var m: nat :| m >= 0 && Run(M, P, c, m) == d;
    if m <= n {
      RunTwice(M, P, c, m, n - m);
      EndsForGood(M, P, d, n - m);
    } else {
      RunTwice(M, P, c, n, m - n);
      EndsForGood(M, P, Run(M, P, c, n), m - n);
    }
  }
}
