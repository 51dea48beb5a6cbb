/** The liveness analysis of the Decaf compiler as it runs: per block, over the graph, and per instruction. */
module FlowGraph {
  import opened Lists
  import opened Tac
  import opened Liveness
  import LivePaths

  // ---------- one block ----------

  /** What a block does to any set of temps that are live behind it. */
  ghost predicate Summary(tacs: Code, use: set<Temp>, def: set<Temp>) {
    forall S :: LiveBefore(tacs, S) == use + (S - def)
  }

  lemma {:induction false} LiveBeforeLast(tacs: Code, i: Instr, S: set<Temp>)
    ensures LiveBefore(tacs + [i], S) == LiveBefore(tacs, Uses(i) + (S - Defs(i)))
    ensures Touched(tacs + [i]) == Touched(tacs) + Uses(i) + Defs(i)
    decreases tacs
  {
    if tacs == [] {
      assert [i][1..] == [];
      assert [] + [i] == [i];
    } else {
      assert (tacs + [i])[1..] == tacs[1..] + [i];
      LiveBeforeLast(tacs[1..], i, S);
    }
  }

  /** First uses and first definitions after one more instruction. */
  lemma SummaryStep(tacs: Code, i: Instr, use: set<Temp>, def: set<Temp>)
    requires Summary(tacs, use, def) && use !! def && use + def == Touched(tacs)
    ensures var use2 := use + (Uses(i) - def); var def2 := def + (Defs(i) - use2);
      Summary(tacs + [i], use2, def2) && use2 !! def2 && use2 + def2 == Touched(tacs + [i])
  {
    var use2 := use + (Uses(i) - def);
    var def2 := def + (Defs(i) - use2);
    LiveBeforeLast(tacs, i, {});
    forall S ensures LiveBefore(tacs + [i], S) == use2 + (S - def2) {
      LiveBeforeLast(tacs, i, S);
      assert LiveBefore(tacs, Uses(i) + (S - Defs(i))) == use + ((Uses(i) + (S - Defs(i))) - def);
    }
  }

  lemma AddOne(S: set<Temp>, D: set<Temp>, t: Temp)
    ensures t !in S + D ==> S + ({t} - D) == S + {t}
    ensures t in S + D ==> S + ({t} - D) == S
  {
  }

  /** Temp.lastVisitedBB of all temps; -1 before the first visit. */
  class Visits {
    var lastVisitedBB: map<Temp, nat>

    constructor ()
      ensures lastVisitedBB == map[]
    {
      lastVisitedBB := map[];
    }

    predicate Seen(t: Temp, bbNum: nat)
      reads this
    {
      t in lastVisitedBB && lastVisitedBB[t] == bbNum
    }
  }

  class BasicBlock {
    const bbNum: nat
    const block: Block
    var def: set<Temp>
    var liveUse: set<Temp>
    var liveIn: set<Temp>
    var liveOut: set<Temp>
    var tacLiveOut: seq<set<Temp>>   // Tac.liveOut along the list

    constructor (bbNum: nat, block: Block)
      ensures this.bbNum == bbNum && this.block == block
      ensures def == {} && liveUse == {} && liveIn == {} && liveOut == {} && tacLiveOut == []
    {
      this.bbNum, this.block := bbNum, block;
      def, liveUse, liveIn, liveOut, tacLiveOut := {}, {}, {}, {}, [];
    }

    /** The visits say which temps the block has touched so far. */
    ghost predicate Follows(visits: Visits)
      reads this, visits
    {
      forall t :: visits.Seen(t, bbNum) <==> t in liveUse + def
    }

    method Use(t: Temp, visits: Visits)
      requires Follows(visits)
      modifies this`liveUse, visits
      ensures Follows(visits) && liveUse == old(liveUse) + ({t} - def)
      ensures forall u, b :: b != bbNum && visits.Seen(u, b) ==> old(visits.Seen(u, b))
    {
      AddOne(liveUse, def, t);
      if !visits.Seen(t, bbNum) {
        liveUse := liveUse + {t};
        visits.lastVisitedBB := visits.lastVisitedBB[t := bbNum];
        forall u ensures visits.Seen(u, bbNum) <==> u in liveUse + def {
          assert old(visits.Seen(u, bbNum)) <==> u in old(liveUse) + def;
        }
      }
    }

    method Define(t: Temp, visits: Visits)
      requires Follows(visits)
      modifies this`def, visits
      ensures Follows(visits) && def == old(def) + ({t} - liveUse)
      ensures forall u, b :: b != bbNum && visits.Seen(u, b) ==> old(visits.Seen(u, b))
    {
      AddOne(def, liveUse, t);
      if !visits.Seen(t, bbNum) {
        def := def + {t};
        visits.lastVisitedBB := visits.lastVisitedBB[t := bbNum];
        forall u ensures visits.Seen(u, bbNum) <==> u in liveUse + def {
          assert old(visits.Seen(u, bbNum)) <==> u in liveUse + old(def);
        }
      }
    }

    method DefineOpt(dst: Option<Temp>, visits: Visits)
      requires Follows(visits)
      modifies this`def, visits
      ensures Follows(visits) && def == old(def) + (OptSet(dst) - liveUse)
      ensures forall u, b :: b != bbNum && visits.Seen(u, b) ==> old(visits.Seen(u, b))
    {
      if dst.Some? {
        Define(dst.value, visits);
      }
    }

    /** One case of the switch: the operands that are used, then the one that is defined. */
    method Touch(i: Instr, visits: Visits)
      requires Follows(visits) && liveUse !! def
      modifies this`liveUse, this`def, visits
      ensures Follows(visits)
      ensures liveUse == old(liveUse) + (Uses(i) - old(def)) && def == old(def) + (Defs(i) - liveUse)
      ensures forall u, b :: b != bbNum && visits.Seen(u, b) ==> old(visits.Seen(u, b))
    {
      match i
      case Binary(_, op0, op1, op2) => Use(op1, visits); Use(op2, visits); Define(op0, visits);
      case Unary(_, op0, op1) => Use(op1, visits); Define(op0, visits);
      case Assign(op0, op1) => Use(op1, visits); Define(op0, visits);
      case IndirectCall(dst, op1) => Use(op1, visits); DefineOpt(dst, visits);
      case Load(op0, op1, _) => Use(op1, visits); Define(op0, visits);
      case LoadVtbl(op0, _) => Define(op0, visits);
      case DirectCall(dst, _) => DefineOpt(dst, visits);
      case LoadStrConst(op0, _) => Define(op0, visits);
      case LoadImm4(op0, _) => Define(op0, visits);
      case Store(op0, op1, _) => Use(op0, visits); Use(op1, visits);
      case Parm(op0) => Use(op0, visits);
      case _ =>
    }

    /** Uses before any definition, and definitions before any use, tell what the block does to live temps. */
    method ComputeDefAndLiveUse(visits: Visits)
      requires def == {} && liveUse == {} && forall t :: !visits.Seen(t, bbNum)
      modifies this`liveUse, this`def, this`liveIn, visits
      ensures liveUse == LiveIn(block, {}) && liveUse !! def
      ensures liveUse + def == Touched(block.tacs) + OptSet(block.source)
      ensures forall out :: LiveIn(block, out) == liveUse + (out - def)
      ensures liveIn == old(liveIn) + liveUse
      ensures forall u, b :: b != bbNum && visits.Seen(u, b) ==> old(visits.Seen(u, b))
    {
      var k := 0;
      while k < |block.tacs|
        invariant 0 <= k <= |block.tacs| && Follows(visits) && liveUse !! def && liveIn == old(liveIn)
        invariant Summary(block.tacs[..k], liveUse, def) && liveUse + def == Touched(block.tacs[..k])
        invariant forall u, b :: b != bbNum && visits.Seen(u, b) ==> old(visits.Seen(u, b))
      {
        hide Summary, Touched;
        SummaryStep(block.tacs[..k], block.tacs[k], liveUse, def);
        assert block.tacs[..k + 1] == block.tacs[..k] + [block.tacs[k]];
        Touch(block.tacs[k], visits);
        k := k + 1;
      }
      assert block.tacs[..k] == block.tacs;
      ghost var use := liveUse;
      if block.source.Some? {
        Use(block.source.value, visits);
      }
      liveIn := liveIn + liveUse;
      forall out ensures LiveIn(block, out) == liveUse + (out - def) {
        assert LiveBefore(block.tacs, out + OptSet(block.source)) == use + ((out + OptSet(block.source)) - def);
      }
      assert LiveIn(block, {}) == liveUse;
    }

    /** Live temps behind every instruction, from the last to the first. */
    method AnalyzeLiveness()
      modifies this`tacLiveOut
      ensures |tacLiveOut| == |block.tacs|
      ensures forall k :: 0 <= k < |block.tacs| ==>
                tacLiveOut[k] == LiveBefore(block.tacs[k + 1..], liveOut + OptSet(block.source))
    {
      if block.tacs == [] {
        tacLiveOut := [];
        return;
      }
      var k := |block.tacs| - 1;
      tacLiveOut := seq(|block.tacs|, _ => {});
      tacLiveOut := tacLiveOut[k := liveOut + OptSet(block.source)];
      while k > 0
        invariant 0 <= k < |block.tacs| && |tacLiveOut| == |block.tacs| && liveOut == old(liveOut)
        invariant forall j :: k <= j < |block.tacs| ==>
                    tacLiveOut[j] == LiveBefore(block.tacs[j + 1..], liveOut + OptSet(block.source))
      {
        var i := block.tacs[k];
        assert block.tacs[k..][1..] == block.tacs[k + 1..];
        tacLiveOut := tacLiveOut[k - 1 := Uses(i) + (tacLiveOut[k] - Defs(i))];
        k := k - 1;
      }
    }
  }

  // ---------- the graph ----------

  class FlowGraph {
    const bbs: seq<BasicBlock>

    constructor (bbs: seq<BasicBlock>)
      ensures this.bbs == bbs
    {
      this.bbs := bbs;
    }

    ghost function Blocks(): (r: seq<Block>)
      ensures |r| == |bbs| && forall i :: 0 <= i < |bbs| ==> r[i] == bbs[i].block
    {
      seq(|bbs|, i requires 0 <= i < |bbs| => bbs[i].block)
    }

    ghost function Ins(): (r: seq<set<Temp>>)
      reads bbs
      ensures |r| == |bbs| && forall i :: 0 <= i < |bbs| ==> r[i] == bbs[i].liveIn
    {
      seq(|bbs|, i requires 0 <= i < |bbs| reads bbs => bbs[i].liveIn)
    }

    ghost function Outs(): (r: seq<set<Temp>>)
      reads bbs
      ensures |r| == |bbs| && forall i :: 0 <= i < |bbs| ==> r[i] == bbs[i].liveOut
    {
      seq(|bbs|, i requires 0 <= i < |bbs| reads bbs => bbs[i].liveOut)
    }

    ghost predicate Valid() {
      && WellBuilt(Blocks())
      && forall i, j :: 0 <= i < j < |bbs| ==> bbs[i] != bbs[j] && bbs[i].bbNum != bbs[j].bbNum
    }

    /** What the local analysis has found out about a block. */
    ghost predicate Known(bb: BasicBlock)
      reads bb
    {
      bb.liveUse == LiveIn(bb.block, {}) && forall out :: LiveIn(bb.block, out) == bb.liveUse + (out - bb.def)
    }

    /** The body of the loop over the blocks. */
    method Propagate(ghost b: nat, bb: BasicBlock) returns (changed: bool)
      requires Valid() && b < |bbs| && bb == bbs[b] && Known(bb) && Between(Blocks(), Ins(), Outs())
      modifies bb`liveIn, bb`liveOut
      ensures BlockOk(Blocks()[b], |bbs|)
      ensures var bs := Blocks(); var ins := old(Ins());
        && Ins() == ins[b := ins[b] + LiveIn(bs[b], Out(bs, ins, b))]
        && Outs() == old(Outs())[b := Out(bs, Ins(), b)]
      ensures changed == (Ins() != old(Ins()))
    {
      ghost var bs, ins, outs := Blocks(), Ins(), Outs();
      assert BlockOk(bs[b], |bs|) && Approaches(bs, ins, Outs(), b);
      bb.liveOut := bb.liveOut + bbs[bb.block.next0].liveIn;
      bb.liveOut := bb.liveOut + bbs[bb.block.next1].liveIn;
      assert bb.liveOut == Out(bs, ins, b);
      bb.liveOut := bb.liveOut - bb.def;
      var before := bb.liveIn;
      bb.liveIn := bb.liveIn + bb.liveOut;
      changed := bb.liveIn != before;
      assert bb.liveIn == ins[b] + LiveIn(bs[b], Out(bs, ins, b));
      ghost var ins2 := ins[b := bb.liveIn];
      assert Ins() == ins2;
      assert Under(ins, ins2);
      OutMore(bs, ins, ins2, b);
      bb.liveOut := bb.liveOut + bbs[bb.block.next0].liveIn;
      bb.liveOut := bb.liveOut + bbs[bb.block.next1].liveIn;
      assert bb.liveOut == Out(bs, ins2, b);
      assert Ins() == ins2;
      assert Outs() == outs[b := bb.liveOut];
      assert changed ==> Ins()[b] != ins[b];
    }

    /** The local analysis of every block; block numbers tell the visits of different blocks apart. */
    method AnalyzeBlocks(visits: Visits)
      requires Valid() && forall i, t :: 0 <= i < |bbs| ==> !visits.Seen(t, bbs[i].bbNum)
      requires forall i :: 0 <= i < |bbs| ==> bbs[i].def == {} && bbs[i].liveUse == {} && bbs[i].liveIn == {}
      modifies bbs, visits
      ensures forall i :: 0 <= i < |bbs| ==> Known(bbs[i]) && bbs[i].liveIn == bbs[i].liveUse
      ensures Outs() == old(Outs())
    {
      var k := 0;
      while k < |bbs|
        invariant 0 <= k <= |bbs|
        invariant forall i :: 0 <= i < k ==> Known(bbs[i]) && bbs[i].liveIn == bbs[i].liveUse
        invariant forall i :: k <= i < |bbs| ==> bbs[i].def == {} && bbs[i].liveUse == {} && bbs[i].liveIn == {}
        invariant forall i, t :: k <= i < |bbs| ==> !visits.Seen(t, bbs[i].bbNum)
        invariant forall i :: 0 <= i < |bbs| ==> bbs[i].liveOut == old(bbs[i].liveOut)
      {
        bbs[k].ComputeDefAndLiveUse(visits);
        k := k + 1;
      }
    }

    /** The local results are known, and live temps are used somewhere. */
    ghost predicate Ready(all: set<Temp>)
      reads bbs
    {
      && Between(Blocks(), Ins(), Outs())
      && forall i :: 0 <= i < |bbs| ==> Known(bbs[i]) && bbs[i].liveIn <= all
    }

    lemma StartsUsed(bs: seq<Block>, ins: seq<set<Temp>>, outs: seq<set<Temp>>, b: nat)
      requires Between(bs, ins, outs) && b < |bs|
      ensures LiveIn(bs[b], {}) <= ins[b]
    {
      assert Approaches(bs, ins, outs, b);
    }

    ghost predicate SettledTo(b: nat)
      requires WellBuilt(Blocks()) && b <= |bbs|
      reads bbs
    {
      forall i {:trigger Settled(Blocks(), Ins(), Outs(), i)} :: 0 <= i < b ==> Settled(Blocks(), Ins(), Outs(), i)
    }

    /** One block in a round: it meets its equations if nothing has changed. */
    method Visit(ghost b: nat, bb: BasicBlock, ghost all: set<Temp>) returns (changed: bool)
      requires Valid() && Ready(all) && b < |bbs| && bb == bbs[b]
      modifies bb`liveIn, bb`liveOut
      ensures Ready(all) && Under(old(Ins()), Ins()) && changed == (Ins() != old(Ins()))
      ensures !changed && old(SettledTo(b)) ==> SettledTo(b + 1)
    {
      hide Approaches, Least;
      ghost var bs, ins, outs := Blocks(), Ins(), Outs();
      StartsUsed(bs, ins, outs, b);
      assert BlockOk(bs[b], |bs|);
      StaysUsed(ins, b, all);
      hide WellBuilt, Settled;
      changed := Propagate(b, bb);
      StepKeeps(bs, ins, outs, b, Ins(), Outs());
    }

    /** One round over all blocks; a round without change has met the equations. */
    method Round(ghost all: set<Temp>) returns (changed: bool)
      requires Valid() && Ready(all)
      modifies bbs
      ensures Ready(all) && Under(old(Ins()), Ins()) && changed == (Ins() != old(Ins()))
      ensures !changed ==> SettledTo(|bbs|)
    {
      ghost var before := Ins();
      changed := false;
      var b := 0;
      assert SettledTo(0);
      hide WellBuilt, Ready, SettledTo;
      while b < |bbs|
        invariant 0 <= b <= |bbs| && Ready(all) && Under(before, Ins()) && changed == (before != Ins())
        invariant !changed ==> SettledTo(b)
      {
        ghost var ins := Ins();
        var grown := Visit(b, bbs[b], all);
        GrowthAdds(before, ins, Ins());
        if grown {
          changed := true;
        }
        b := b + 1;
      }
    }

    lemma GrowthAdds(a: seq<set<Temp>>, b: seq<set<Temp>>, c: seq<set<Temp>>)
      requires Under(a, b) && Under(b, c)
      ensures Under(a, c) && (a == c <==> a == b && b == c)
    {
      if a == c {
        forall i | 0 <= i < |a| ensures a[i] == b[i] && b[i] == c[i] {
          assert a[i] <= b[i] <= c[i];
        }
      }
    }

    lemma StaysUsed(ins: seq<set<Temp>>, b: nat, all: set<Temp>)
      requires Valid() && |ins| == |bbs| && b < |bbs| && BlockOk(Blocks()[b], |bbs|) && Known(bbs[b])
      requires forall i :: 0 <= i < |bbs| ==> ins[i] <= all
      requires LiveIn(bbs[b].block, {}) <= ins[b]
      ensures LiveIn(Blocks()[b], Out(Blocks(), ins, b)) <= all
    {
    }

    lemma AllUsed(all: set<Temp>)
      requires Ready(all)
      ensures forall i :: 0 <= i < |bbs| ==> Ins()[i] <= all
    {
    }

    /** The fixpoint iteration ends, with the least solution of the liveness equations. */
    method AnalyzeLiveness(visits: Visits)
      requires Valid() && forall i, t :: 0 <= i < |bbs| ==> !visits.Seen(t, bbs[i].bbNum)
      requires forall i :: 0 <= i < |bbs| ==> bbs[i].def == {} && bbs[i].liveUse == {}
      requires forall i :: 0 <= i < |bbs| ==> bbs[i].liveIn == {} && bbs[i].liveOut == {}
      modifies bbs, visits
      ensures IsLeastSolution(Blocks(), Ins(), Outs())
    {
      AnalyzeBlocks(visits);
      ghost var bs := Blocks();
      StartLeast(bs, Ins(), Outs());
      ghost var all := set i, t | 0 <= i < |bbs| && t in bbs[i].liveIn :: t;
      var changed := true;
      assert Ready(all) by { assert forall i :: 0 <= i < |bbs| ==> Known(bbs[i]); }
      hide Known;
      while changed
        invariant Ready(all) && (!changed ==> SettledTo(|bbs|))
        decreases Missing(Ins(), all), changed
      {
        ghost var before := Ins();
        changed := Round(all);
        if changed {
          AllUsed(all);
          MissingShrinks(before, Ins(), all);
        }
      }
    }

    /** The whole analysis, down to the instructions. */
    method Analyze(visits: Visits)
      requires Valid() && forall i, t :: 0 <= i < |bbs| ==> !visits.Seen(t, bbs[i].bbNum)
      requires forall i :: 0 <= i < |bbs| ==> bbs[i].def == {} && bbs[i].liveUse == {}
      requires forall i :: 0 <= i < |bbs| ==> bbs[i].liveIn == {} && bbs[i].liveOut == {}
      modifies bbs, visits
      ensures IsLeastSolution(Blocks(), Ins(), Outs()) && Suffices(Blocks(), Ins())
      ensures forall i :: 0 <= i < |bbs| ==> TacsKnown(bbs[i])
      ensures forall X :: Exact(Blocks(), X) && |X| > 0 && ReturnsToStart(Blocks()) ==>
                (Ins() == X <==> TouchedAtReturns(Blocks(), X[0]))
      ensures forall i: nat, t :: i < |bbs| ==> (t in Ins()[i] <==> LivePaths.Reaches(Blocks(), i, t, false))
    {
      hide LivePaths.Reaches, Exact, TouchedAtReturns, ReturnsToStart, Suffices, Solves, Least;
      AnalyzeLiveness(visits);
      LeastSolves(Blocks(), Ins(), Outs());
      ExactOrNot(Blocks(), Ins());
      LiveOnPaths(Blocks(), Ins());
      SolvesSuffices(Blocks(), Ins());
      ghost var ins, outs := Ins(), Outs();
      var k := 0;
      while k < |bbs|
        invariant 0 <= k <= |bbs| && Ins() == ins && Outs() == outs
        invariant forall i :: 0 <= i < k ==> TacsKnown(bbs[i])
      {
        hide TacsKnown;
        AnalyzeTacs(bbs[k]);
        k := k + 1;
      }
    }

    lemma ExactOrNot(bs: seq<Block>, ins: seq<set<Temp>>)
      requires Solves(bs, ins) && Least(bs, ins)
      ensures forall X :: Exact(bs, X) && |X| > 0 && ReturnsToStart(bs) ==> (ins == X <==> TouchedAtReturns(bs, X[0]))
    {
      forall X | Exact(bs, X) && |X| > 0 && ReturnsToStart(bs) ensures ins == X <==> TouchedAtReturns(bs, X[0]) {
        ExactIff(bs, ins, X);
      }
    }

    lemma LiveOnPaths(bs: seq<Block>, ins: seq<set<Temp>>)
      requires Solves(bs, ins) && Least(bs, ins)
      ensures forall i: nat, t :: i < |bs| ==> (t in ins[i] <==> LivePaths.Reaches(bs, i, t, false))
    {
      forall i: nat, t | i < |bs| ensures t in ins[i] <==> LivePaths.Reaches(bs, i, t, false) {
        LivePaths.LiveIffPath(bs, ins, i, t);
      }
    }

    /** Behind every instruction exactly the temps are live that the rest of the block and its followers need. */
    ghost predicate TacsKnown(bb: BasicBlock)
      reads bb
    {
      && |bb.tacLiveOut| == |bb.block.tacs|
      && forall k :: 0 <= k < |bb.block.tacs| ==>
           bb.tacLiveOut[k] == LiveBefore(bb.block.tacs[k + 1..], bb.liveOut + OptSet(bb.block.source))
    }

    method AnalyzeTacs(bb: BasicBlock)
      modifies bb`tacLiveOut
      ensures TacsKnown(bb)
    {
      bb.AnalyzeLiveness();
    }
  }
}
