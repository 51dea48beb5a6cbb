/** Three-address code of the Decaf compiler (decaf/src/decaf/tac) and a machine that runs it. */
module Tac {
  import opened Lists

  type Temp = nat

  type Label = nat

  datatype BinOp = ADD | SUB | MUL | DIV | MOD | LAND | LOR | GTR | GEQ | EQU | NEQ | LEQ | LES

  datatype UnOp = NEG | LNOT

  /** The targets of direct calls: functions of the program and runtime intrinsics. */
  datatype Callee = Function(entry: Label) | ALLOCATE | READ_INT | READ_LINE | STRING_EQUAL
                  | PRINT_INT | PRINT_STRING | PRINT_BOOL | HALT

  datatype Instr =
    | Binary(op: BinOp, op0: Temp, op1: Temp, op2: Temp)
    | Unary(un: UnOp, op0: Temp, op1: Temp)
    | Assign(op0: Temp, op1: Temp)
    | LoadVtbl(op0: Temp, vt: string)
    | IndirectCall(dst: Option<Temp>, op1: Temp)
    | DirectCall(dst: Option<Temp>, callee: Callee)
    | Return(src: Option<Temp>)
    | Branch(target: Label)
    | Beqz(op0: Temp, target: Label)
    | Bnez(op0: Temp, target: Label)
    | Load(op0: Temp, op1: Temp, offset: int)
    | Store(op0: Temp, op1: Temp, offset: int)
    | LoadImm4(op0: Temp, imm: int)
    | LoadStrConst(op0: Temp, str: string)
    | Memo(str: string)
    | Mark(target: Label)
    | Parm(op0: Temp)

  type Code = seq<Instr>

  /** Values of temps; a temp that was never written holds 0. */
  type Env = map<Temp, int>

  function Get(env: Env, t: Temp): int {
    if t in env then env[t] else 0
  }

  /**
   * What the code runs on. `W` is everything outside the temps: memory, pending parameters, output
   * and input. Arithmetic is a parameter too, so nothing below depends on word size.
   */
  datatype Machine<!W> = Machine(
    bin: (BinOp, int, int) -> int,
    un: (UnOp, int) -> int,
    load: (W, int) -> int,
    store: (W, int, int) -> W,
    parm: (W, int) -> W,
    call: (W, Callee) -> (int, W),
    icall: (W, int) -> (int, W),
    str: string -> int,
    vtbl: string -> int)

  function SetOpt(env: Env, dst: Option<Temp>, v: int): Env {
    match dst
    case None => env
    case Some(t) => env[t := v]
  }

  predicate IsJump(i: Instr) {
    i.Return? || i.Branch? || i.Beqz? || i.Bnez? || (i.DirectCall? && i.callee == HALT)
  }

  /** The effect of an instruction that goes on to the next one. */
  function Do<W>(M: Machine<W>, i: Instr, env: Env, w: W): (Env, W)
    requires !IsJump(i)
  {
    match i
    case Binary(op, t, a, b) => (env[t := M.bin(op, Get(env, a), Get(env, b))], w)
    case Unary(op, t, a) => (env[t := M.un(op, Get(env, a))], w)
    case Assign(t, a) => (env[t := Get(env, a)], w)
    case LoadVtbl(t, vt) => (env[t := M.vtbl(vt)], w)
    case IndirectCall(dst, f) => var r := M.icall(w, Get(env, f)); (SetOpt(env, dst, r.0), r.1)
    case DirectCall(dst, callee) => var r := M.call(w, callee); (SetOpt(env, dst, r.0), r.1)
    case Load(t, a, off) => (env[t := M.load(w, Get(env, a) + off)], w)
    case Store(t, a, off) => (env, M.store(w, Get(env, a) + off, Get(env, t)))
    case LoadImm4(t, imm) => (env[t := imm], w)
    case LoadStrConst(t, s) => (env[t := M.str(s)], w)
    case Memo(_) => (env, w)
    case Mark(_) => (env, w)
    case Parm(t) => (env, M.parm(w, Get(env, t)))
  }

  /** Where the machine is: before instruction `pc`, returned with a value, or halted. */
  datatype Config<W> = Running(pc: nat, env: Env, w: W) | Returned(value: Option<int>, w: W) | Halted(w: W)

  /** The position of the first mark of `l`, or the end of the code. */
  function Target(P: Code, l: Label): (k: nat)
    ensures k <= |P|
    ensures k < |P| ==> P[k] == Mark(l)
  {
    if P == [] then 0 else if P[0] == Mark(l) then 0 else 1 + Target(P[1..], l)
  }

  function Step<W>(M: Machine<W>, P: Code, c: Config<W>): Config<W> {
    if !c.Running? then c
    else if c.pc >= |P| then Returned(None, c.w)
    else
      match P[c.pc]
      case Return(None) => Returned(None, c.w)
      case Return(Some(t)) => Returned(Some(Get(c.env, t)), c.w)
      case Branch(l) => Running(Target(P, l), c.env, c.w)
      case Beqz(t, l) => Running(if Get(c.env, t) == 0 then Target(P, l) else c.pc + 1, c.env, c.w)
      case Bnez(t, l) => Running(if Get(c.env, t) != 0 then Target(P, l) else c.pc + 1, c.env, c.w)
      case i =>
        if IsJump(i) then Halted(c.w)
        else var r := Do(M, i, c.env, c.w); Running(c.pc + 1, r.0, r.1)
  }

  function Run<W>(M: Machine<W>, P: Code, c: Config<W>, n: nat): Config<W>
    decreases n
  {
    if n == 0 then c else Run(M, P, Step(M, P, c), n - 1)
  }

  lemma {:induction false} RunTwice<W>(M: Machine<W>, P: Code, c: Config<W>, m: nat, n: nat)
    ensures Run(M, P, c, m + n) == Run(M, P, Run(M, P, c, m), n)
    decreases m
  {
    if m > 0 {
      RunTwice(M, P, Step(M, P, c), m - 1, n);
    }
  }
}
