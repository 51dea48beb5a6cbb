/** Running the code of an expression computes what the expression means. */
module DecafSimulation {
  import opened Lists
  import opened Tac
  import opened TacRuns
  import opened DecafTree
  import opened DecafTranslation
  import opened DecafExpressions
  import opened DecafOperations

  ghost predicate Away(ts: seq<Temp>, lo: nat, hi: nat) {
    forall j :: 0 <= j < |ts| ==> ts[j] < lo || ts[j] >= hi
  }

  /** From the operands' values to the result of the operation, or to the end of the program. */
  ghost predicate Worked<W>(M: Machine<W>, P: Code, a: Config<W>, k: nat, e: Expr, ts: seq<Temp>, t: nat, l: nat,
                            env: Env, w: W, vs: seq<int>, env2: Env)
    requires !e.Var? && |ts| == |vs| == |Operands(e)|
  {
    var r := OwnMeaning(M, e, vs, w);
    && (r.Value? ==>
          && Leads(M, P, a, 0, Running(k + |OwnCode(e, ts, t, l)|, env2, r.w))
          && Get(env2, OwnResult(e, ts, t)) == r.v && SameOutside(env, env2, t, t + OwnTemps(e)))
    && (r.Stop? ==> Leads(M, P, a, 0, Halted(r.w)))
  }

  // ---------- the operations ----------

  lemma Lengths(arr: Temp, index: Temp, negated: bool, t: nat, l: nat)
    ensures |CheckIndexCode(arr, index, t, l)| == 12 && |AddressCode(arr, index, t + 5)| == 3
    ensures |StringEqCode(arr, index, negated, t)| == if negated then 4 else 3
    ensures |CheckSizeCode(index, t, l)| == 8
  {
  }

  lemma ComparesStrings<W>(M: Machine<W>, P: Code, a: Config<W>, k: nat, env: Env, w: W, x: Temp, y: Temp,
                           negated: bool, t: nat)
    returns (env2: Env)
    requires Leads(M, P, a, 0, Running(k, env, w))
    requires At(P, k, StringEqCode(x, y, negated, t))
    ensures var r := M.call(M.parm(M.parm(w, Get(env, x)), Get(env, y)), STRING_EQUAL);
      && Leads(M, P, a, 0, Running(if negated then k + 4 else k + 3, env2, r.1))
      && Get(env2, if negated then t + 1 else t) == (if negated then M.un(LNOT, r.0) else r.0)
    ensures SameOutside(env, env2, t, t + 2) && (!negated ==> SameOutside(env, env2, t, t + 1))
  {
    var C := StringEqCode(x, y, negated, t);
    assert P[k] == C[0] && P[k + 1] == C[1] && P[k + 2] == C[2];
    var w2 := M.parm(M.parm(w, Get(env, x)), Get(env, y));
    AndDo(M, P, a, 0, k, env, w, C[0]);
    AndDo(M, P, a, 0, k + 1, env, M.parm(w, Get(env, x)), C[1]);
    AndDo(M, P, a, 0, k + 2, env, w2, C[2]);
    env2 := env[t := M.call(w2, STRING_EQUAL).0];
    if negated {
      assert P[k + 3] == C[3];
      AndDo(M, P, a, 0, k + 3, env2, M.call(w2, STRING_EQUAL).1, C[3]);
      env2 := env2[t + 1 := M.un(LNOT, Get(env2, t))];
    }
  }


  lemma Dispatches<W>(M: Machine<W>, P: Code, c: Config<W>, k: nat, env: Env, w: W, receiver: Temp, vals: seq<Temp>,
                      vs: seq<int>, offset: int, dst: Option<Temp>, t: nat)
    returns (env2: Env)
    requires Leads(M, P, c, 0, Running(k, env, w)) && At(P, k, DispatchCode(receiver, vals, offset, dst, t))
    requires AllHold(env, vals, vs) && !(t <= receiver < t + 2) && dst in {None, Some(t + 2)}
    ensures var r := Dispatch(M, w, Get(env, receiver), offset, vs);
      && Leads(M, P, c, 0, Running(k + |DispatchCode(receiver, vals, offset, dst, t)|, env2, r.1))
      && (dst.Some? ==> Get(env2, dst.value) == r.0)
    ensures SameOutside(env, env2, t, if dst == None then t + 2 else t + 3)
  {
    var C := ParmCode(vals);
    var D := [Load(t, receiver, 0), Load(t + 1, t, offset), IndirectCall(dst, t + 1)];
    AtParts(P, k, [Parm(receiver)] + C, D);
    AtParts(P, k, [Parm(receiver)], C);
    assert P[k] == [Parm(receiver)][0];
    AndDo(M, P, c, 0, k, env, w, Parm(receiver));
    PassesParms(M, P, c, k + 1, env, M.parm(w, Get(env, receiver)), vals, vs);
    env2 := CallsVirtual(M, P, c, k + 1 + |C|, env, ParmAll(M, M.parm(w, Get(env, receiver)), vs), receiver, offset,
                         dst, t);
  }


  lemma CallsVirtual<W>(M: Machine<W>, P: Code, c: Config<W>, k: nat, env: Env, w: W, receiver: Temp, offset: int,
                        dst: Option<Temp>, t: nat)
    returns (env2: Env)
    requires Leads(M, P, c, 0, Running(k, env, w)) && dst in {None, Some(t + 2)}
    requires At(P, k, [Load(t, receiver, 0), Load(t + 1, t, offset), IndirectCall(dst, t + 1)])
    ensures var r := M.icall(w, M.load(w, M.load(w, Get(env, receiver)) + offset));
      && Leads(M, P, c, 0, Running(k + 3, env2, r.1)) && (dst.Some? ==> Get(env2, dst.value) == r.0)
    ensures SameOutside(env, env2, t, if dst == None then t + 2 else t + 3)
  {
    var D := [Load(t, receiver, 0), Load(t + 1, t, offset), IndirectCall(dst, t + 1)];
    assert P[k] == D[0] && P[k + 1] == D[1] && P[k + 2] == D[2];
    var table := M.load(w, Get(env, receiver) + 0);
    var env1 := env[t := table];
    var env3 := env1[t + 1 := M.load(w, table + offset)];
    AndDo(M, P, c, 0, k, env, w, D[0]);
    AndDo(M, P, c, 0, k + 1, env1, w, D[1]);
    AndDo(M, P, c, 0, k + 2, env3, w, D[2]);
    env2 := SetOpt(env3, dst, M.icall(w, M.load(w, table + offset)).0);
  }


  lemma CreatesArray<W>(M: Machine<W>, P: Code, c: Config<W>, k: nat, env: Env, w: W, n: Temp, t: nat, l: nat)
    returns (env2: Env)
    requires UniqueMarks(P) && Leads(M, P, c, 0, Running(k, env, w)) && !(t <= n < t + 8)
    requires At(P, k, CheckSizeCode(n, t, l)) && At(P, k + 8, AllocateCode(n, t + 3))
    requires At(P, k + 16, ClearCode(t + 3, t + 5, t + 6, t + 7, l + 1))
    ensures SameOutside(env, env2, t, t + 8)
    ensures var v := Get(env, n); var a := Allocated(M, v, w);
      && (M.bin(LES, v, 0) != 0 ==> Leads(M, P, c, 0, Halted(Complain(M, w, NEGATIVE_ARR_SIZE))))
      && (M.bin(LES, v, 0) == 0 && Fits(M, v, a.0) ==>
            && Leads(M, P, c, 0, Running(k + 23, env2, Cleared(M, M.store(a.1, a.0, v), a.0, v)))
            && Get(env2, t + 6) == a.0 + WORD_SIZE)
  {
    hide At, Leads, UniqueMarks, Cleared, CountsDown, Complain, CheckSizeCode, AllocateCode, ClearCode;
    assert |CheckSizeCode(n, t, l)| == 8 by { Lengths(n, n, false, t, l); }
    var v := Get(env, n);
    env2 := ChecksSize(M, P, c, k, env, w, n, t, l);
    if M.bin(LES, v, 0) == 0 {
      var env1 := env2;
      env2 := Allocates(M, P, c, k + 8, env1, w, n, t + 3);
      var a := Allocated(M, v, w);
      if Fits(M, v, a.0) {
        env2 := Clears(M, P, c, k + 16, env2, M.store(a.1, a.0, v), t + 3, l + 1, a.0, v);
      }
    }
  }


  // ---------- classes ----------

  lemma InstanceFound<W>(M: Machine<W>, w: W, v: int, cls: string) returns (n: nat)
    requires InstanceOf(M, w, v, cls).Some?
    ensures Climb(M, w, M.vtbl(cls), M.load(w, v), n) == InstanceOf(M, w, v, cls)
  {
    n :| Climb(M, w, M.vtbl(cls), M.load(w, v), n) == InstanceOf(M, w, v, cls);
  }

  /** From the table of the object upwards. */
  lemma SearchesClass<W>(M: Machine<W>, P: Code, c: Config<W>, k: nat, env: Env, w: W, obj: Temp, cls: string, t: nat,
                         l: nat, there: nat)
    returns (env2: Env)
    requires UniqueMarks(P) && Leads(M, P, c, 0, Running(k, env, w)) && !(t <= obj < t + 3)
    requires At(P, k, [LoadVtbl(t + 1, cls), Load(t + 2, obj, 0)] + ClimbCode(t, l))
    requires there < |P| && P[there] == Mark(l + 1) && InstanceOf(M, w, Get(env, obj), cls).Some?
    ensures Climbed(M, P, c, k + 2, env2, w, t, there, InstanceOf(M, w, Get(env, obj), cls).value)
    ensures SameOutside(env, env2, t, t + 3)
  {
    var C := [LoadVtbl(t + 1, cls), Load(t + 2, obj, 0)];
    AtParts(P, k, C, ClimbCode(t, l));
    assert P[k] == C[0] && P[k + 1] == C[1];
    hide At, UniqueMarks, Leads, Climbed, ClimbCode, InstanceOf, Climb;
    var n := InstanceFound(M, w, Get(env, obj), cls);
    AndDo(M, P, c, 0, k, env, w, C[0]);
    var env1 := env[t + 1 := M.vtbl(cls)];
    AndDo(M, P, c, 0, k + 1, env1, w, C[1]);
    env2 := env1[t + 2 := M.load(w, Get(env, obj) + 0)];
    env2 := Climbs(M, P, c, k + 2, env2, w, t, l, there, n);
  }

  lemma TestParts(P: Code, k: nat, obj: Temp, cls: string, t: nat, l: nat)
    requires At(P, k, TestClassCode(obj, cls, t, l))
    ensures At(P, k, [LoadVtbl(t + 1, cls), Load(t + 2, obj, 0)] + ClimbCode(t, l))
    ensures |TestClassCode(obj, cls, t, l)| == 9
    ensures k + 9 <= |P| && P[k + 7] == LoadImm4(t, 0) && P[k + 8] == Mark(l + 1)
  {
    AtParts(P, k, [LoadVtbl(t + 1, cls), Load(t + 2, obj, 0)] + ClimbCode(t, l), [LoadImm4(t, 0), Mark(l + 1)]);
    var C := TestClassCode(obj, cls, t, l);
    assert P[k + 7] == C[7] && P[k + 8] == C[8];
  }

  /** genInstanceof: the answer is in the first temp. */
  lemma TestsClass<W>(M: Machine<W>, P: Code, c: Config<W>, k: nat, env: Env, w: W, obj: Temp, cls: string, t: nat,
                      l: nat)
    returns (env2: Env)
    requires UniqueMarks(P) && Leads(M, P, c, 0, Running(k, env, w)) && !(t <= obj < t + 3)
    requires At(P, k, TestClassCode(obj, cls, t, l)) && InstanceOf(M, w, Get(env, obj), cls).Some?
    ensures Leads(M, P, c, 0, Running(k + 9, env2, w)) && SameOutside(env, env2, t, t + 3)
    ensures Get(env2, t) == InstanceOf(M, w, Get(env, obj), cls).value
  {
    hide At, UniqueMarks, Leads, ClimbCode, InstanceOf, TestClassCode;
    TestParts(P, k, obj, cls, t, l);
    env2 := SearchesClass(M, P, c, k, env, w, obj, cls, t, l, k + 8);
    if InstanceOf(M, w, Get(env, obj), cls).value == 0 {
      AndDo(M, P, c, 0, k + 7, env2, w, LoadImm4(t, 0));
      env2 := env2[t := 0];
    }
    AndDo(M, P, c, 0, k + 8, env2, w, Mark(l + 1));
  }

  lemma SaysMessage<W>(M: Machine<W>, P: Code, c: Config<W>, k: nat, env: Env, w: W, t: nat, message: string)
    returns (env2: Env)
    requires Leads(M, P, c, 0, Running(k, env, w)) && At(P, k, ComplainCode(t, message))
    ensures Leads(M, P, c, 0, Running(k + 3, env2, Say(M, w, M.str(message)))) && SameOutside(env, env2, t, t + 1)
  {
    var C := ComplainCode(t, message);
    assert P[k] == C[0] && P[k + 1] == C[1] && P[k + 2] == C[2];
    env2 := env[t := M.str(message)];
    AndDo(M, P, c, 0, k, env, w, C[0]);
    AndDo(M, P, c, 0, k + 1, env2, w, C[1]);
    AndDo(M, P, c, 0, k + 2, env2, M.parm(w, M.str(message)), C[2]);
  }

  lemma SaysName<W>(M: Machine<W>, P: Code, c: Config<W>, k: nat, env: Env, w: W, vt: Temp, t: nat)
    returns (env2: Env)
    requires Leads(M, P, c, 0, Running(k, env, w)) && At(P, k, NameCode(vt, t))
    ensures Leads(M, P, c, 0, Running(k + 3, env2, Say(M, w, M.load(w, Get(env, vt) + WORD_SIZE))))
    ensures SameOutside(env, env2, t, t + 1)
  {
    var C := NameCode(vt, t);
    assert P[k] == C[0] && P[k + 1] == C[1] && P[k + 2] == C[2];
    var v := M.load(w, Get(env, vt) + WORD_SIZE);
    env2 := env[t := v];
    AndDo(M, P, c, 0, k, env, w, C[0]);
    AndDo(M, P, c, 0, k + 1, env2, w, C[1]);
    AndDo(M, P, c, 0, k + 2, env2, M.parm(w, v), C[2]);
  }

  lemma ComplainParts(P: Code, k: nat, obj: Temp, cls: string, t: nat)
    requires At(P, k, ComplainCastCode(obj, cls, t))
    ensures |ComplainCastCode(obj, cls, t)| == 18 && k + 18 <= |P|
    ensures At(P, k, ComplainCode(t, CLASS_CAST_ERROR1)) && P[k + 3] == Load(t + 1, obj, 0)
    ensures At(P, k + 4, NameCode(t + 1, t + 2)) && At(P, k + 7, ComplainCode(t + 3, CLASS_CAST_ERROR2))
    ensures P[k + 10] == LoadVtbl(t + 4, cls) && At(P, k + 11, NameCode(t + 4, t + 5))
    ensures At(P, k + 14, ComplainCode(t + 6, CLASS_CAST_ERROR3)) && P[k + 17] == DirectCall(None, HALT)
  {
    hide At;
    var A := ComplainCode(t, CLASS_CAST_ERROR1);
    var B := A + [Load(t + 1, obj, 0)];
    var C := B + NameCode(t + 1, t + 2);
    var D := C + ComplainCode(t + 3, CLASS_CAST_ERROR2);
    var E := D + [LoadVtbl(t + 4, cls)];
    var F := E + NameCode(t + 4, t + 5);
    var G := F + ComplainCode(t + 6, CLASS_CAST_ERROR3);
    assert |A| == 3 && |C| == 7 && |D| == 10 && |F| == 14 && |G| == 17;
    hide ComplainCode, NameCode;
    AtLast(P, k, G, DirectCall(None, HALT));
    AtParts(P, k, F, ComplainCode(t + 6, CLASS_CAST_ERROR3));
    AtParts(P, k, E, NameCode(t + 4, t + 5));
    AtLast(P, k, D, LoadVtbl(t + 4, cls));
    AtParts(P, k, C, ComplainCode(t + 3, CLASS_CAST_ERROR2));
    AtParts(P, k, B, NameCode(t + 1, t + 2));
    AtLast(P, k, A, Load(t + 1, obj, 0));
  }

  /** The message of a failed cast, and the end of the program. */
  lemma ComplainsCast<W>(M: Machine<W>, P: Code, c: Config<W>, k: nat, env: Env, w: W, obj: Temp, cls: string, t: nat)
    requires Leads(M, P, c, 0, Running(k, env, w)) && At(P, k, ComplainCastCode(obj, cls, t)) && !(t <= obj < t + 7)
    ensures Leads(M, P, c, 0, Halted(ComplainCast(M, w, Get(env, obj), cls)))
  {
    hide At, Leads, ComplainCode, NameCode, ComplainCastCode, Say;
    ComplainParts(P, k, obj, cls, t);
    var v := Get(env, obj);
    var w1 := Say(M, w, M.str(CLASS_CAST_ERROR1));
    var env1 := SaysMessage(M, P, c, k, env, w, t, CLASS_CAST_ERROR1);
    AndDo(M, P, c, 0, k + 3, env1, w1, Load(t + 1, obj, 0));
    env1 := env1[t + 1 := M.load(w1, v + 0)];
    env1 := SaysName(M, P, c, k + 4, env1, w1, t + 1, t + 2);
    var w2 := Say(M, w1, M.load(w1, M.load(w1, v) + WORD_SIZE));
    env1 := SaysMessage(M, P, c, k + 7, env1, w2, t + 3, CLASS_CAST_ERROR2);
    SaysTarget(M, P, c, k + 10, env1, Say(M, w2, M.str(CLASS_CAST_ERROR2)), cls, t);
  }

  lemma SaysTarget<W>(M: Machine<W>, P: Code, c: Config<W>, k: nat, env: Env, w3: W, cls: string, t: nat)
    requires Leads(M, P, c, 0, Running(k, env, w3)) && k + 8 <= |P| && P[k] == LoadVtbl(t + 4, cls)
    requires At(P, k + 1, NameCode(t + 4, t + 5)) && At(P, k + 4, ComplainCode(t + 6, CLASS_CAST_ERROR3))
    requires P[k + 7] == DirectCall(None, HALT)
    ensures var w4 := Say(M, w3, M.load(w3, M.vtbl(cls) + WORD_SIZE));
      Leads(M, P, c, 0, Halted(Say(M, w4, M.str(CLASS_CAST_ERROR3))))
  {
    hide At, Leads, ComplainCode, NameCode, Say;
    AndDo(M, P, c, 0, k, env, w3, LoadVtbl(t + 4, cls));
    var env1 := env[t + 4 := M.vtbl(cls)];
    var w4 := Say(M, w3, M.load(w3, M.vtbl(cls) + WORD_SIZE));
    env1 := SaysName(M, P, c, k + 1, env1, w3, t + 4, t + 5);
    env1 := SaysMessage(M, P, c, k + 4, env1, w4, t + 6, CLASS_CAST_ERROR3);
    AndStep(M, P, c, 0, Running(k + 7, env1, Say(M, w4, M.str(CLASS_CAST_ERROR3))));
  }

  lemma CastParts(P: Code, k: nat, obj: Temp, cls: string, t: nat, l: nat)
    requires At(P, k, CastClassCode(obj, cls, t, l))
    ensures At(P, k, [LoadVtbl(t + 1, cls), Load(t + 2, obj, 0)] + ClimbCode(t, l))
    ensures At(P, k + 7, ComplainCastCode(obj, cls, t + 3)) && |CastClassCode(obj, cls, t, l)| == 26
    ensures k + 26 <= |P| && P[k + 25] == Mark(l + 1)
  {
    var A := [LoadVtbl(t + 1, cls), Load(t + 2, obj, 0)] + ClimbCode(t, l);
    AtLast(P, k, A + ComplainCastCode(obj, cls, t + 3), Mark(l + 1));
    AtParts(P, k, A, ComplainCastCode(obj, cls, t + 3));
    ComplainParts(P, k + 7, obj, cls, t + 3);
  }

  /** genClassCast: goes on with an object of the class, ends the program with any other. */
  lemma CastsClass<W>(M: Machine<W>, P: Code, c: Config<W>, k: nat, env: Env, w: W, obj: Temp, cls: string, t: nat,
                      l: nat)
    returns (env2: Env)
    requires UniqueMarks(P) && Leads(M, P, c, 0, Running(k, env, w)) && !(t <= obj < t + 10)
    requires At(P, k, CastClassCode(obj, cls, t, l)) && InstanceOf(M, w, Get(env, obj), cls).Some?
    ensures SameOutside(env, env2, t, t + 10)
    ensures var r := InstanceOf(M, w, Get(env, obj), cls).value;
      && (r != 0 ==> Leads(M, P, c, 0, Running(k + 26, env2, w)))
      && (r == 0 ==> Leads(M, P, c, 0, Halted(ComplainCast(M, w, Get(env, obj), cls))))
  {
    hide At, UniqueMarks, Leads, ClimbCode, InstanceOf, ComplainCastCode, ComplainCast, CastClassCode;
    CastParts(P, k, obj, cls, t, l);
    env2 := SearchesClass(M, P, c, k, env, w, obj, cls, t, l, k + 25);
    if InstanceOf(M, w, Get(env, obj), cls).value == 0 {
      ComplainsCast(M, P, c, k + 7, env2, w, obj, cls, t + 3);
    } else {
      AndDo(M, P, c, 0, k + 25, env2, w, Mark(l + 1));
    }
  }

  lemma SimClass<W>(M: Machine<W>, P: Code, a: Config<W>, k: nat, env: Env, w: W, e: Expr, ts: seq<Temp>,
                    vs: seq<int>, t: nat, l: nat)
    returns (env2: Env)
    requires (e.TypeTest? || e.TypeCast?) && |ts| == |Operands(e)| && UniqueMarks(P)
    requires Leads(M, P, a, 0, Running(k, env, w))
    requires At(P, k, OwnCode(e, ts, t, l)) && AllHold(env, ts, vs) && Away(ts, t, t + OwnTemps(e))
    ensures Worked(M, P, a, k, e, ts, t, l, env, w, vs, env2)
  {
    hide Leads, At, UniqueMarks, InstanceOf, ComplainCast, TestClassCode, CastClassCode;
    env2 := env;
    assert Get(env, ts[0]) == vs[0];
    if (e.TypeTest? || e.checked) && InstanceOf(M, w, vs[0], e.cls).Some? {
      if e.TypeTest? {
        TestParts(P, k, ts[0], e.cls, t, l);
        env2 := TestsClass(M, P, a, k, env, w, ts[0], e.cls, t, l);
      } else {
        CastParts(P, k, ts[0], e.cls, t, l);
        env2 := CastsClass(M, P, a, k, env, w, ts[0], e.cls, t, l);
      }
    }
  }

  lemma Indexes<W>(M: Machine<W>, P: Code, a: Config<W>, k: nat, env: Env, w: W, arr: Temp, index: Temp, t: nat, l: nat)
    returns (env2: Env)
    requires UniqueMarks(P) && Leads(M, P, a, 0, Running(k, env, w)) && !(t <= arr < t + 9) && !(t <= index < t + 9)
    requires At(P, k, CheckIndexCode(arr, index, t, l) + AddressCode(arr, index, t + 5) + [Load(t + 8, t + 7, 0)])
    ensures var av := Get(env, arr); var iv := Get(env, index); var ok := InBounds(M, iv, M.load(w, av - WORD_SIZE));
      && (ok ==>
            && Leads(M, P, a, 0, Running(k + 16, env2, w))
            && Get(env2, t + 8) == M.load(w, ElementAddress(M, av, iv)))
      && (!ok ==> Leads(M, P, a, 0, Halted(Complain(M, w, ARRAY_INDEX_OUT_OF_BOUND))))
    ensures SameOutside(env, env2, t, t + 9)
  {
    var check := CheckIndexCode(arr, index, t, l);
    var address := AddressCode(arr, index, t + 5);
    AtLast(P, k, check + address, Load(t + 8, t + 7, 0));
    AtParts(P, k, check, address);
    env2 := ChecksIndex(M, P, a, k, env, w, arr, index, t, l);
    if InBounds(M, Get(env, index), M.load(w, Get(env, arr) - WORD_SIZE)) {
      env2 := FindsElement(M, P, a, k + 12, env2, w, arr, index, t + 5);
      AndDo(M, P, a, 0, k + 15, env2, w, Load(t + 8, t + 7, 0));
      env2 := env2[t + 8 := M.load(w, Get(env2, t + 7) + 0)];
    }
  }

  lemma InstructionWorks<W>(M: Machine<W>, i: Instr, env: Env, w: W, e: Expr, ts: seq<Temp>, vs: seq<int>, t: nat,
                            l: nat)
    requires !e.Var? && !e.Indexed? && !e.StringEq? && !e.Call? && !e.Invoke? && !e.NewArray? && !e.TypeTest? && !e.TypeCast?
    requires |ts| == |Operands(e)| && OwnCode(e, ts, t, l) == [i] && AllHold(env, ts, vs)
    ensures !IsJump(i) && OwnResult(e, ts, t) == t && OwnTemps(e) == 1
    ensures var r := OwnMeaning(M, e, vs, w); r.Value? && Do(M, i, env, w) == (env[t := r.v], r.w)
  {
    assert i == OwnCode(e, ts, t, l)[0];
  }

  lemma OneInstruction<W>(M: Machine<W>, P: Code, a: Config<W>, k: nat, env: Env, w: W, e: Expr, ts: seq<Temp>,
                          vs: seq<int>, t: nat, l: nat)
    returns (env2: Env)
    requires !e.Var? && !e.Indexed? && !e.StringEq? && !e.Call? && !e.Invoke? && !e.NewArray? && !e.TypeTest? && !e.TypeCast?
    requires |ts| == |Operands(e)| && Leads(M, P, a, 0, Running(k, env, w)) && At(P, k, OwnCode(e, ts, t, l))
    requires AllHold(env, ts, vs)
    ensures Worked(M, P, a, k, e, ts, t, l, env, w, vs, env2)
  {
    hide Leads, OwnMeaning, OwnTemps, OwnResult;
    var C := OwnCode(e, ts, t, l);
    assert P[k] == C[0];
    AndDo(M, P, a, 0, k, env, w, C[0]);
    env2 := Do(M, C[0], env, w).0;
    InstructionWorks(M, C[0], env, w, e, ts, vs, t, l);
  }

  lemma SimIndexed<W>(M: Machine<W>, P: Code, a: Config<W>, k: nat, env: Env, w: W, e: Expr, ts: seq<Temp>,
                      vs: seq<int>, t: nat, l: nat)
    returns (env2: Env)
    requires e.Indexed? && |ts| == |Operands(e)| && UniqueMarks(P) && Leads(M, P, a, 0, Running(k, env, w))
    requires At(P, k, OwnCode(e, ts, t, l)) && AllHold(env, ts, vs) && Away(ts, t, t + OwnTemps(e))
    ensures Worked(M, P, a, k, e, ts, t, l, env, w, vs, env2)
  {
    hide Leads, At, UniqueMarks, InBounds, ElementAddress, CheckIndexCode, AddressCode, Complain;
    Lengths(ts[0], ts[1], false, t, l);
    env2 := Indexes(M, P, a, k, env, w, ts[0], ts[1], t, l);
  }

  lemma SimStringEq<W>(M: Machine<W>, P: Code, a: Config<W>, k: nat, env: Env, w: W, e: Expr, ts: seq<Temp>,
                       vs: seq<int>, t: nat, l: nat)
    returns (env2: Env)
    requires e.StringEq? && |ts| == |Operands(e)| && UniqueMarks(P) && Leads(M, P, a, 0, Running(k, env, w))
    requires At(P, k, OwnCode(e, ts, t, l)) && AllHold(env, ts, vs) && Away(ts, t, t + OwnTemps(e))
    ensures Worked(M, P, a, k, e, ts, t, l, env, w, vs, env2)
  {
    hide Leads, At, UniqueMarks, StringEqCode;
    Lengths(ts[0], ts[1], e.negated, t, l);
    env2 := ComparesStrings(M, P, a, k, env, w, ts[0], ts[1], e.negated, t);
  }

  lemma SimCall<W>(M: Machine<W>, P: Code, a: Config<W>, k: nat, env: Env, w: W, e: Expr, ts: seq<Temp>,
                   vs: seq<int>, t: nat, l: nat)
    returns (env2: Env)
    requires e.Call? && |ts| == |Operands(e)| && UniqueMarks(P) && Leads(M, P, a, 0, Running(k, env, w))
    requires At(P, k, OwnCode(e, ts, t, l)) && AllHold(env, ts, vs) && Away(ts, t, t + OwnTemps(e))
    ensures Worked(M, P, a, k, e, ts, t, l, env, w, vs, env2)
  {
    hide Leads, At, UniqueMarks, ParmAll, ParmCode;
    var call := DirectCall(Some(t), Function(e.entry));
    AtLast(P, k, ParmCode(ts), call);
    PassesParms(M, P, a, k, env, w, ts, vs);
    var w1 := ParmAll(M, w, vs);
    AndDo(M, P, a, 0, k + |ParmCode(ts)|, env, w1, call);
    env2 := env[t := M.call(w1, Function(e.entry)).0];
  }

  lemma SimInvoke<W>(M: Machine<W>, P: Code, a: Config<W>, k: nat, env: Env, w: W, e: Expr, ts: seq<Temp>,
                     vs: seq<int>, t: nat, l: nat)
    returns (env2: Env)
    requires e.Invoke? && |ts| == |Operands(e)| && UniqueMarks(P) && Leads(M, P, a, 0, Running(k, env, w))
    requires At(P, k, OwnCode(e, ts, t, l)) && AllHold(env, ts, vs) && Away(ts, t, t + OwnTemps(e))
    ensures Worked(M, P, a, k, e, ts, t, l, env, w, vs, env2)
  {
    hide Leads, At, UniqueMarks, Dispatch, DispatchCode;
    env2 := Dispatches(M, P, a, k, env, w, ts[0], ts[1..], vs[1..], e.offset, Some(t + 2), t);
  }

  lemma SimNewArray<W>(M: Machine<W>, P: Code, a: Config<W>, k: nat, env: Env, w: W, e: Expr, ts: seq<Temp>,
                       vs: seq<int>, t: nat, l: nat)
    returns (env2: Env)
    requires e.NewArray? && |ts| == |Operands(e)| && UniqueMarks(P) && Leads(M, P, a, 0, Running(k, env, w))
    requires At(P, k, OwnCode(e, ts, t, l)) && AllHold(env, ts, vs) && Away(ts, t, t + OwnTemps(e))
    ensures Worked(M, P, a, k, e, ts, t, l, env, w, vs, env2)
  {
    hide Leads, At, UniqueMarks, Fits, Cleared, Allocated, Complain;
    var check := CheckSizeCode(ts[0], t, l);
    var allocate := AllocateCode(ts[0], t + 3);
    var clear := ClearCode(t + 3, t + 5, t + 6, t + 7, l + 1);
    AtParts(P, k, check + allocate, clear);
    AtParts(P, k, check, allocate);
    env2 := CreatesArray(M, P, a, k, env, w, ts[0], t, l);
  }

  /** The operation itself. */
  lemma SimOwn<W>(M: Machine<W>, P: Code, a: Config<W>, k: nat, env: Env, w: W, e: Expr, ts: seq<Temp>,
                  vs: seq<int>, t: nat, l: nat)
    returns (env2: Env)
    requires !e.Var? && |ts| == |Operands(e)| && UniqueMarks(P) && Leads(M, P, a, 0, Running(k, env, w))
    requires At(P, k, OwnCode(e, ts, t, l)) && AllHold(env, ts, vs) && Away(ts, t, t + OwnTemps(e))
    ensures Worked(M, P, a, k, e, ts, t, l, env, w, vs, env2)
  {
    hide Leads, At, UniqueMarks, Worked, OwnCode, OwnTemps, OwnMeaning;
    if e.Indexed? {
      env2 := SimIndexed(M, P, a, k, env, w, e, ts, vs, t, l);
    } else if e.StringEq? {
      env2 := SimStringEq(M, P, a, k, env, w, e, ts, vs, t, l);
    } else if e.Call? {
      env2 := SimCall(M, P, a, k, env, w, e, ts, vs, t, l);
    } else if e.Invoke? {
      env2 := SimInvoke(M, P, a, k, env, w, e, ts, vs, t, l);
    } else if e.NewArray? {
      env2 := SimNewArray(M, P, a, k, env, w, e, ts, vs, t, l);
    } else if e.TypeTest? || e.TypeCast? {
      env2 := SimClass(M, P, a, k, env, w, e, ts, vs, t, l);
    } else {
      env2 := OneInstruction(M, P, a, k, env, w, e, ts, vs, t, l);
    }
  }

  // ---------- the induction ----------

  /** The code of `e` is at `k`, and no variable lives in the temps it uses. */
  ghost predicate ExprAt(P: Code, k: nat, e: Expr, vars: Vars, t: nat, l: nat) {
    && UniqueMarks(P) && At(P, k, TransExpr(e, vars, t, l).code)
    && Scoped(e, vars.Keys) && Clear(vars, t, TransExpr(e, vars, t, l).t)
  }

  ghost predicate SeqAt(P: Code, k: nat, es: seq<Expr>, vars: Vars, t: nat, l: nat) {
    && UniqueMarks(P) && At(P, k, TransSeq(es, vars, t, l).code)
    && ScopedSeq(es, vars.Keys) && Clear(vars, t, TransSeq(es, vars, t, l).t)
  }

  ghost predicate ScopedSeq(es: seq<Expr>, dom: set<Symbol>) {
    forall i :: 0 <= i < |es| ==> Scoped(es[i], dom)
  }

  ghost predicate AllPlaced(ts: seq<Temp>, vars: Vars, lo: nat, hi: nat) {
    forall j :: 0 <= j < |ts| ==> Placed(ts[j], vars, lo, hi)
  }

  lemma {:induction false} ScopedList(args: Args, dom: set<Symbol>)
    requires ScopedArgs(args, dom)
    ensures ScopedSeq(ListOf(args), dom)
    decreases args
  {
    if args.Arg? {
      ScopedList(args.rest, dom);
    }
  }

  lemma ScopedOperands(e: Expr, dom: set<Symbol>)
    requires Scoped(e, dom)
    ensures ScopedSeq(Operands(e), dom)
  {
    if e.Call? || e.Invoke? {
      ScopedList(e.args, dom);
    }
  }

  /** Where the value of an expression is known, it stays while fresh temps change. */
  lemma Keeps(val: Temp, v: int, vars: Vars, env: Env, env2: Env, env3: Env, lo: nat, mid: nat, hi: nat)
    requires Get(env2, val) == v && SameOutside(env, env2, lo, mid) && SameOutside(env2, env3, mid, hi)
    requires Placed(val, vars, lo, mid) && Clear(vars, lo, hi) && lo <= mid <= hi
    ensures Get(env3, val) == v && SameOutside(env, env3, lo, hi) && Placed(val, vars, lo, hi)
  {
    StaysPlaced(val, vars, lo, mid, hi, env2, env3);
  }

  lemma PlacedAway(ts: seq<Temp>, vars: Vars, lo: nat, mid: nat, hi: nat)
    requires AllPlaced(ts, vars, lo, mid) && Clear(vars, lo, hi) && lo <= mid <= hi
    ensures Away(ts, mid, hi)
  {
    forall j | 0 <= j < |ts| ensures ts[j] < mid || ts[j] >= hi {
      assert Placed(ts[j], vars, lo, mid);
    }
  }

  lemma ExprPlaced(e: Expr, vars: Vars, t: nat, l: nat)
    requires Scoped(e, vars.Keys)
    ensures Placed(TransExpr(e, vars, t, l).val, vars, t, TransExpr(e, vars, t, l).t)
  {
    if e.TypeCast? {
      ExprPlaced(e.val, vars, t, l);
    } else if !e.Var? {
      CodeShape(e, vars, t, l);
    }
  }

  lemma {:induction false} SeqPlaced(es: seq<Expr>, vars: Vars, t: nat, l: nat)
    requires ScopedSeq(es, vars.Keys)
    ensures AllPlaced(TransSeq(es, vars, t, l).vals, vars, t, TransSeq(es, vars, t, l).t)
    decreases es
  {
    hide TransExpr, Scoped;
    if es != [] {
      var a := TransExpr(es[0], vars, t, l);
      ExprPlaced(es[0], vars, t, l);
      SeqPlaced(es[1..], vars, a.t, a.l);
    }
  }

  lemma ExprParts(P: Code, k: nat, e: Expr, vars: Vars, t: nat, l: nat)
    requires !e.Var? && ExprAt(P, k, e, vars, t, l)
    ensures SeqAt(P, k, Operands(e), vars, t, l)
    ensures var o := TransSeq(Operands(e), vars, t, l);
      At(P, k + |o.code|, OwnCode(e, o.vals, o.t, o.l)) && Clear(vars, t, o.t + OwnTemps(e))
  {
    hide TransExpr, Scoped, At, OwnCode, OwnTemps, OwnLabels;
    CodeShape(e, vars, t, l);
    ScopedOperands(e, vars.Keys);
    var o := TransSeq(Operands(e), vars, t, l);
    AtParts(P, k, o.code, OwnCode(e, o.vals, o.t, o.l));
  }

  lemma {:induction false} SimExpr<W>(M: Machine<W>, P: Code, k: nat, e: Expr, vars: Vars, vals: Env, env: Env, w: W,
                                      t: nat, l: nat)
    returns (env2: Env)
    requires ExprAt(P, k, e, vars, t, l) && Ready(vars, vals, env)
    ensures Computed(M, P, k, TransExpr(e, vars, t, l), t, env, w, Eval(M, e, vals, w), env2)
    decreases e, 1
  {
    if e.Var? {
      Stays(M, P, Running(k, env, w));
      env2 := env;
    } else {
      env2 := SimOperation(M, P, k, e, vars, vals, env, w, t, l);
    }
  }

  lemma SimOperation<W>(M: Machine<W>, P: Code, k: nat, e: Expr, vars: Vars, vals: Env, env: Env, w: W, t: nat, l: nat)
    returns (env2: Env)
    requires !e.Var? && ExprAt(P, k, e, vars, t, l) && Ready(vars, vals, env)
    ensures Computed(M, P, k, TransExpr(e, vars, t, l), t, env, w, Eval(M, e, vals, w), env2)
    decreases e, 0
  {
    hide TransExpr, Eval, Leads, At, Scoped, OwnCode, OwnMeaning, OwnLabels, EvalSeq, TransSeq, Operands;
    var o := TransSeq(Operands(e), vars, t, l);
    ExprParts(P, k, e, vars, t, l);
    CodeShape(e, vars, t, l);
    MeaningShape(M, e, vals, w);
    OperandsRank(e);
    env2 := SimSeq(M, P, k, Operands(e), e, vars, vals, env, w, t, l);
    var r := EvalSeq(M, Operands(e), vals, w);
    if r.Values? {
      SeqPlaced(Operands(e), vars, t, l);
      PlacedAway(o.vals, vars, t, o.t, o.t + OwnTemps(e));
      env2 := SimOwn(M, P, Running(k, env, w), k + |o.code|, env2, r.w, e, o.vals, r.vs, o.t, o.l);
    }
  }

  /** Expressions one after the other; they are all smaller than `parent`. */
  lemma {:induction false} SimSeq<W>(M: Machine<W>, P: Code, k: nat, es: seq<Expr>, parent: Expr, vars: Vars, vals: Env,
                                     env: Env, w: W, t: nat, l: nat)
    returns (env2: Env)
    requires SeqAt(P, k, es, vars, t, l) && Ready(vars, vals, env) && Ranks(es, parent)
    ensures var o := TransSeq(es, vars, t, l);
      ArgsComputed(M, P, k, o, t, env, w, EvalSeq(M, es, vals, w), env2)
    decreases parent, 0, es
  {
    hide TransExpr, Eval, Leads, At, Scoped;
    Stays(M, P, Running(k, env, w));
    env2 := env;
    if es != [] {
      var a := TransExpr(es[0], vars, t, l);
      var b := TransSeq(es[1..], vars, a.t, a.l);
      AtParts(P, k, a.code, b.code);
      var env1 := SimExpr(M, P, k, es[0], vars, vals, env, w, t, l);
      env2 := env1;
      var r := Eval(M, es[0], vals, w);
      if r.Value? {
        StaysReady(vars, vals, env, env1, t, a.t);
        env2 := SimSeq(M, P, k + |a.code|, es[1..], parent, vars, vals, env1, r.w, a.t, a.l);
        ExprPlaced(es[0], vars, t, l);
        Joins(M, P, k, a, b, t, env, w, r, env1, EvalSeq(M, es[1..], vals, r.w), env2, vars);
      }
    }
  }

  lemma Joins<W>(M: Machine<W>, P: Code, k: nat, a: Out, b: ArgsOut, t: nat, env: Env, w: W, r: Result<W>, env1: Env,
                 rs: ArgValues<W>, env2: Env, vars: Vars)
    requires r.Value? && Computed(M, P, k, a, t, env, w, r, env1) && Placed(a.val, vars, t, a.t)
    requires ArgsComputed(M, P, k + |a.code|, b, a.t, env1, r.w, rs, env2)
    requires t <= a.t <= b.t && Clear(vars, t, b.t)
    ensures var o := ArgsOut(a.code + b.code, [a.val] + b.vals, b.t, b.l);
      && (rs.Values? ==> ArgsComputed(M, P, k, o, t, env, w, Values([r.v] + rs.vs, rs.w), env2))
      && (rs.NoValues? ==> ArgsComputed(M, P, k, o, t, env, w, rs, env2))
  {
    hide Leads;
    if rs.Values? {
      Keeps(a.val, r.v, vars, env, env1, env2, t, a.t, b.t);
      Onward(M, P, Running(k, env, w), 0, Running(k + |a.code|, env1, r.w), 0,
             Running(k + |a.code + b.code|, env2, rs.w));
    } else if rs.why.Stop? {
      Onward(M, P, Running(k, env, w), 0, Running(k + |a.code|, env1, r.w), 0, Halted(rs.why.w));
    }
  }
}
