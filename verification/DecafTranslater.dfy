/** Emission of three-address code: every operation appends to the code of the current function. */
module DecafTranslater {
  import opened Lists
  import opened Tac
  import opened DecafTree
  import opened DecafTranslation

  class Translater {
    var code: Code        // the instruction list of the current function
    var tempCount: nat    // Temp.tempCount
    var labelCount: nat   // Label.labelCount

    constructor ()
      ensures code == [] && tempCount == 0 && labelCount == 0
    {
      code, tempCount, labelCount := [], 0, 0;
    }

    /** The code grows by `c`, and the counters move to `t` and `l`. */
    twostate predicate Emits(c: Code, t: nat, l: nat)
      reads this
    {
      code == old(code) + c && tempCount == t && labelCount == l
    }

    method Append(i: Instr)
      modifies this
      ensures Emits([i], old(tempCount), old(labelCount))
    {
      code := code + [i];
    }

    method CreateTemp() returns (t: Temp)
      modifies this`tempCount
      ensures t == old(tempCount) && tempCount == t + 1
    {
      t := tempCount;
      tempCount := tempCount + 1;
    }

    method CreateLabel() returns (l: Label)
      modifies this`labelCount
      ensures l == old(labelCount) && labelCount == l + 1
    {
      l := labelCount;
      labelCount := labelCount + 1;
    }

    /** genAdd, genSub, ..., genLes. */
    method GenBinary(op: BinOp, src1: Temp, src2: Temp) returns (dst: Temp)
      modifies this
      ensures dst == old(tempCount) && Emits([Binary(op, dst, src1, src2)], dst + 1, old(labelCount))
    {
      dst := CreateTemp();
      Append(Binary(op, dst, src1, src2));
    }

    /** genNeg and genLNot. */
    method GenUnary(op: UnOp, src: Temp) returns (dst: Temp)
      modifies this
      ensures dst == old(tempCount) && Emits([Unary(op, dst, src)], dst + 1, old(labelCount))
    {
      dst := CreateTemp();
      Append(Unary(op, dst, src));
    }

    method GenLoad(base: Temp, offset: int) returns (dst: Temp)
      modifies this
      ensures dst == old(tempCount) && Emits([Load(dst, base, offset)], dst + 1, old(labelCount))
    {
      dst := CreateTemp();
      Append(Load(dst, base, offset));
    }

    method GenLoadImm4(imm: int) returns (dst: Temp)
      modifies this
      ensures dst == old(tempCount) && Emits([LoadImm4(dst, imm)], dst + 1, old(labelCount))
    {
      dst := CreateTemp();
      Append(LoadImm4(dst, imm));
    }

    method GenLoadStrConst(value: string) returns (dst: Temp)
      modifies this
      ensures dst == old(tempCount) && Emits([LoadStrConst(dst, value)], dst + 1, old(labelCount))
    {
      dst := CreateTemp();
      Append(LoadStrConst(dst, value));
    }

    method GenLoadVTable(vtbl: string) returns (dst: Temp)
      modifies this
      ensures dst == old(tempCount) && Emits([LoadVtbl(dst, vtbl)], dst + 1, old(labelCount))
    {
      dst := CreateTemp();
      Append(LoadVtbl(dst, vtbl));
    }

    /** A call whose result type is void has no destination. */
    method GenDirectCall(callee: Callee, void: bool) returns (dst: Option<Temp>)
      modifies this
      ensures dst == if void then None else Some(old(tempCount))
      ensures Emits([DirectCall(dst, callee)], if void then old(tempCount) else old(tempCount) + 1, old(labelCount))
    {
      dst := None;
      if !void {
        var t := CreateTemp();
        dst := Some(t);
      }
      Append(DirectCall(dst, callee));
    }

    method GenIndirectCall(func: Temp, void: bool) returns (dst: Option<Temp>)
      modifies this
      ensures dst == if void then None else Some(old(tempCount))
      ensures Emits([IndirectCall(dst, func)], if void then old(tempCount) else old(tempCount) + 1, old(labelCount))
    {
      dst := None;
      if !void {
        var t := CreateTemp();
        dst := Some(t);
      }
      Append(IndirectCall(dst, func));
    }

    /** A message, and the end of the program. */
    method GenComplain(message: string)
      modifies this
      ensures Emits(ComplainCode(old(tempCount), message) + [DirectCall(None, HALT)], old(tempCount) + 1, old(labelCount))
    {
      var msg := GenLoadStrConst(message);
      Append(Parm(msg));
      var _ := GenDirectCall(PRINT_STRING, true);
      var _ := GenDirectCall(HALT, true);
    }

    method GenCheckArrayIndex(arr: Temp, index: Temp)
      modifies this
      ensures Emits(CheckIndexCode(arr, index, old(tempCount), old(labelCount)), old(tempCount) + 5, old(labelCount) + 2)
    {
      var length := GenLoad(arr, -WORD_SIZE);
      var cond := GenBinary(LES, index, length);
      var err := CreateLabel();
      Append(Beqz(cond, err));
      var zero := GenLoadImm4(0);
      cond := GenBinary(LES, index, zero);
      var exit := CreateLabel();
      Append(Beqz(cond, exit));
      Append(Mark(err));
      GenComplain(ARRAY_INDEX_OUT_OF_BOUND);
      Append(Mark(exit));
    }

    method GenCheckNewArraySize(size: Temp)
      modifies this
      ensures Emits(CheckSizeCode(size, old(tempCount), old(labelCount)), old(tempCount) + 3, old(labelCount) + 1)
    {
      var exit := CreateLabel();
      var zero := GenLoadImm4(0);
      var cond := GenBinary(LES, size, zero);
      Append(Beqz(cond, exit));
      GenComplain(NEGATIVE_ARR_SIZE);
      Append(Mark(exit));
    }

    /** One parameter after the other. */
    method GenParms(vals: seq<Temp>)
      modifies this
      ensures Emits(ParmCode(vals), old(tempCount), old(labelCount))
    {
      var i := 0;
      while i < |vals|
        invariant 0 <= i <= |vals| && tempCount == old(tempCount) && labelCount == old(labelCount)
        invariant code + ParmCode(vals[i..]) == old(code) + ParmCode(vals)
      {
        ghost var rest := vals[i..];
        Append(Parm(vals[i]));
        i := i + 1;
        assert rest[1..] == vals[i..];
      }
    }

    /** The first part of genNewArray: room for the elements, and their number stored before them. */
    method GenAllocate(length: Temp) returns (unit: Temp, size: Temp, obj: Temp, zero: Temp)
      modifies this
      ensures var t := old(tempCount);
        unit == t && size == t + 2 && obj == t + 3 && zero == t + 4
      ensures Emits(AllocateCode(length, old(tempCount)), old(tempCount) + 5, old(labelCount))
    {
      unit := GenLoadImm4(WORD_SIZE);
      var product := GenBinary(MUL, unit, length);
      size := GenBinary(ADD, unit, product);
      Append(Parm(size));
      var dst := GenDirectCall(ALLOCATE, false);
      obj := dst.value;
      Append(Store(length, obj, 0));
      zero := GenLoadImm4(0);
      Append(Binary(ADD, obj, obj, size));
    }

    /** The second part: the loop that clears the elements. */
    method GenClear(unit: Temp, size: Temp, obj: Temp, zero: Temp)
      modifies this
      ensures Emits(ClearCode(unit, size, obj, zero, old(labelCount)), old(tempCount), old(labelCount) + 2)
    {
      var loop := CreateLabel();
      var exit := CreateLabel();
      Append(Mark(loop));
      Append(Binary(SUB, size, size, unit));
      Append(Beqz(size, exit));
      Append(Binary(SUB, obj, obj, unit));
      Append(Store(zero, obj, 0));
      Append(Branch(loop));
      Append(Mark(exit));
    }

    /** The loop from the table of an object upwards; `cond` tells whether the table in `targetVp` was met. */
    method GenClimb(instance: Temp, cls: string) returns (cond: Temp, exit: Label)
      modifies this
      ensures var (t, l) := (old(tempCount), old(labelCount));
        && cond == t && exit == l + 1
        && Emits([LoadVtbl(t + 1, cls), Load(t + 2, instance, 0)] + ClimbCode(t, l), t + 3, l + 2)
    {
      cond := CreateTemp();
      var loop := CreateLabel();
      exit := CreateLabel();
      var targetVp := GenLoadVTable(cls);
      var vp := GenLoad(instance, 0);
      Append(Mark(loop));
      Append(Binary(EQU, cond, targetVp, vp));
      Append(Bnez(cond, exit));
      Append(Load(vp, vp, 0));
      Append(Bnez(vp, loop));
    }

    method GenInstanceof(instance: Temp, cls: string) returns (dst: Temp)
      modifies this
      ensures var (t, l) := (old(tempCount), old(labelCount));
        dst == t && Emits(TestClassCode(instance, cls, t, l), t + 3, l + 2)
    {
      hide ClimbCode;
      var exit;
      dst, exit := GenClimb(instance, cls);
      Append(LoadImm4(dst, 0));
      Append(Mark(exit));
    }

    /** The name of a class, from its table. */
    method GenName(vt: Temp)
      modifies this
      ensures Emits(NameCode(vt, old(tempCount)), old(tempCount) + 1, old(labelCount))
    {
      var name := GenLoad(vt, WORD_SIZE);
      Append(Parm(name));
      var dst := GenDirectCall(PRINT_STRING, true);
    }

    method GenMessage(message: string)
      modifies this
      ensures Emits(ComplainCode(old(tempCount), message), old(tempCount) + 1, old(labelCount))
    {
      var msg := GenLoadStrConst(message);
      Append(Parm(msg));
      var dst := GenDirectCall(PRINT_STRING, true);
    }

    /** The message of a failed cast, and the end of the program. */
    method GenComplainCast(val: Temp, cls: string)
      modifies this
      ensures Emits(ComplainCastCode(val, cls, old(tempCount)), old(tempCount) + 7, old(labelCount))
    {
      hide ComplainCode, NameCode;
      GenMessage(CLASS_CAST_ERROR1);
      var vt := GenLoad(val, 0);
      GenName(vt);
      GenMessage(CLASS_CAST_ERROR2);
      vt := GenLoadVTable(cls);
      GenName(vt);
      GenMessage(CLASS_CAST_ERROR3);
      var dst := GenDirectCall(HALT, true);
    }

    method GenClassCast(val: Temp, cls: string)
      modifies this
      ensures Emits(CastClassCode(val, cls, old(tempCount), old(labelCount)), old(tempCount) + 10, old(labelCount) + 2)
    {
      hide ClimbCode, ComplainCastCode;
      var cond, exit := GenClimb(val, cls);
      GenComplainCast(val, cls);
      Append(Mark(exit));
    }

    method GenNewArray(length: Temp) returns (obj: Temp)
      modifies this
      ensures var t := old(tempCount); var l := old(labelCount);
        && obj == t + 6
        && Emits(CheckSizeCode(length, t, l) + AllocateCode(length, t + 3)
                 + ClearCode(t + 3, t + 5, t + 6, t + 7, l + 1), t + 8, l + 3)
    {
      hide CheckSizeCode, AllocateCode, ClearCode;
      GenCheckNewArraySize(length);
      var unit, size, array_, zero := GenAllocate(length);
      obj := array_;
      GenClear(unit, size, obj, zero);
    }
  }
}
