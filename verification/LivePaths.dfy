/** Which temps instructions really use and write, and which temps are live along paths of a flow graph. */
module LivePaths {
  import opened Tac
  import opened Liveness

  // ---------- instructions ----------

  /** The temps that an instruction gives a value: those it leaves in an environment that had none. */
  ghost function Written<W>(M: Machine<W>, i: Instr, w: W): set<Temp>
    requires !IsJump(i)
  {
    Do(M, i, map[], w).0.Keys
  }

  lemma DefsAreWritten<W>(M: Machine<W>, i: Instr, w: W)
    requires !IsJump(i)
    ensures Defs(i) == Written(M, i, w)
  {
  }

  ghost predicate Changes(M: Machine<int>, i: Instr, env: Env, w: int, t: Temp) {
    !IsJump(i) && Get(Do(M, i, env, w).0, t) != Get(env, t)
  }

  /** A machine of which every operation yields 1. */
  function Ones(): Machine<int> {
    Machine((_, _, _) => 1, (_, _) => 1, (_, _) => 1, (w, _, _) => w, (w, _) => w, (w, _) => (1, w), (w, _) => (1, w),
            _ => 1, _ => 1)
  }

  /** They are the temps whose values it can change, except where it assigns a temp to itself. */
  lemma DefsCanChange(i: Instr, t: Temp)
    requires !IsJump(i)
    ensures t in Defs(i) && i != Assign(t, t) <==> exists M, env, w :: Changes(M, i, env, w, t)
  {
    if t in Defs(i) && i != Assign(t, t) {
      var env := if i.LoadImm4? then map[t := i.imm + 1] else if i.Assign? then map[i.op1 := 1] else map[];
      assert Changes(Ones(), i, env, 0, t);
    }
  }

  /** What an instruction does to the world and to the temps that it writes. */
  ghost predicate SameEffect<W(!new)>(M: Machine<W>, i: Instr, a: Env, b: Env, w: W)
    requires !IsJump(i)
  {
    var (r, s) := (Do(M, i, a, w), Do(M, i, b, w));
    r.1 == s.1 && Agree(Written(M, i, w), r.0, s.0)
  }

  /** The values of the temps in `U` decide it. */
  ghost predicate Decide(i: Instr, U: set<Temp>)
    requires !IsJump(i)
  {
    forall M: Machine<int>, a: Env, b: Env, w: int :: Agree(U, a, b) ==> SameEffect(M, i, a, b, w)
  }

  lemma UsesDecide<W(!new)>(M: Machine<W>, i: Instr, a: Env, b: Env, w: W)
    requires !IsJump(i) && Agree(Uses(i), a, b)
    ensures SameEffect(M, i, a, b, w)
  {
  }

  /** A machine of which every operation tells all its operands: sums of numbers that are not negative. */
  function Sums(): Machine<int> {
    Machine((_, x, y) => x + y, (_, x) => x, (_, x) => x, (w, x, y) => w + x + y, (w, x) => w + x, (w, _) => (0, w),
            (w, x) => (0, w + x), _ => 0, _ => 0)
  }

  /** Each of them is needed: some machine shows a change of it alone. */
  lemma UsesShow(i: Instr, t: Temp)
    requires !IsJump(i) && t in Uses(i)
    ensures !SameEffect(Sums(), i, map[], map[t := 1], 0)
  {
    var (r, s) := (Do(Sums(), i, map[], 0), Do(Sums(), i, map[t := 1], 0));
    DefsAreWritten(Sums(), i, 0);
    if i.Binary? || i.Unary? || i.Assign? || i.Load? {
      assert Get(r.0, i.op0) != Get(s.0, i.op0) && i.op0 in Defs(i);
    } else {
      assert r.1 != s.1;
    }
  }

  /** So they are the least set of temps whose values decide what the instruction does. */
  lemma UsesAreLeast(i: Instr, U: set<Temp>)
    requires !IsJump(i)
    ensures Decide(i, U) <==> Uses(i) <= U
  {
    if Uses(i) <= U {
      forall M: Machine<int>, a: Env, b: Env, w: int | Agree(U, a, b) ensures SameEffect(M, i, a, b, w) {
        UsesDecide(M, i, a, b, w);
      }
    } else {
      var t :| t in Uses(i) && t !in U;
      UsesShow(i, t);
      assert Agree(U, map[], map[t := 1]);
    }
  }

  // ---------- blocks ----------

  /** No instruction of the code writes the temp. */
  predicate Passes(tacs: Code, t: Temp) {
    forall k :: 0 <= k < |tacs| ==> t !in Defs(tacs[k])
  }

  /** Instruction `k`, or the end of the block, uses the temp, and nothing before that writes it. */
  predicate UsedAt(b: Block, t: Temp, k: nat) {
    k <= |b.tacs| && Passes(b.tacs[..k], t) && t in if k < |b.tacs| then Uses(b.tacs[k]) else OptSet(b.source)
  }

  ghost predicate UsedIn(b: Block, t: Temp) {
    exists k :: UsedAt(b, t, k)
  }

  lemma {:induction false} LiveInMeans(b: Block, out: set<Temp>, t: Temp)
    ensures t in LiveIn(b, out) <==> UsedIn(b, t) || (t in out && Passes(b.tacs, t))
    decreases b.tacs
  {
    if b.tacs == [] {
      assert UsedIn(b, t) <==> UsedAt(b, t, 0);
    } else {
      var rest := b.(tacs := b.tacs[1..]);
      LiveInMeans(rest, out, t);
      FirstUse(b, t);
      assert Passes(b.tacs, t) <==> t !in Defs(b.tacs[0]) && Passes(rest.tacs, t) by {
        assert b.tacs == [b.tacs[0]] + rest.tacs;
      }
    }
  }

  lemma FirstUse(b: Block, t: Temp)
    requires b.tacs != []
    ensures UsedIn(b, t) <==> t in Uses(b.tacs[0]) || (t !in Defs(b.tacs[0]) && UsedIn(b.(tacs := b.tacs[1..]), t))
  {
    var rest := b.(tacs := b.tacs[1..]);
    if t in Uses(b.tacs[0]) {
      assert UsedAt(b, t, 0);
    }
    if t !in Defs(b.tacs[0]) && UsedIn(rest, t) {
      var k: nat :| UsedAt(rest, t, k);
      assert b.tacs[..k + 1] == [b.tacs[0]] + rest.tacs[..k];
      assert UsedAt(b, t, k + 1);
    }
    if UsedIn(b, t) {
      var k: nat :| UsedAt(b, t, k);
      if k > 0 {
        assert b.tacs[..k] == [b.tacs[0]] + rest.tacs[..k - 1];
        assert b.tacs[..k][0] == b.tacs[0];
        var early := rest.tacs[..k - 1];
        forall j | 0 <= j < |early| ensures t !in Defs(early[j]) {
          assert early[j] == b.tacs[..k][j + 1];
        }
        assert UsedAt(rest, t, k - 1);
      }
    }
  }

  // ---------- paths ----------

  /** An edge of the graph; in fact nothing comes behind a block that returns. */
  predicate Edge(b: Block, to: nat, actual: bool) {
    (to == b.next0 || to == b.next1) && (actual ==> !b.end.ByReturn?)
  }

  /** From block to block along edges, through blocks that do not write the temp, to one that uses its old value. */
  ghost predicate Path(bs: seq<Block>, p: seq<nat>, t: Temp, actual: bool) {
    && p != [] && p[0] < |bs|
    && if |p| == 1 then UsedIn(bs[p[0]], t)
       else Edge(bs[p[0]], p[1], actual) && Passes(bs[p[0]].tacs, t) && Path(bs, p[1..], t, actual)
  }

  ghost predicate Reaches(bs: seq<Block>, i: nat, t: Temp, actual: bool) {
    exists p :: Path(bs, p, t, actual) && p[0] == i
  }

  /** A path goes on where a follower has one. */
  lemma PathOn(bs: seq<Block>, i: nat, j: nat, t: Temp, actual: bool)
    requires i < |bs| && Edge(bs[i], j, actual) && Passes(bs[i].tacs, t) && Reaches(bs, j, t, actual)
    ensures Reaches(bs, i, t, actual)
  {
    var p :| Path(bs, p, t, actual) && p[0] == j;
    assert ([i] + p)[1..] == p;
    assert Path(bs, [i] + p, t, actual);
  }

  /** What a block has to know when its followers have `X`. */
  function Asked(bs: seq<Block>, X: seq<set<Temp>>, i: nat, actual: bool): set<Temp>
    requires WellBuilt(bs) && |X| == |bs| && i < |bs|
  {
    assert BlockOk(bs[i], |bs|);
    if actual then Behind(bs, X, i) else Out(bs, X, i)
  }

  lemma {:induction false} PathIsLive(bs: seq<Block>, X: seq<set<Temp>>, p: seq<nat>, t: Temp, actual: bool)
    requires WellBuilt(bs) && |X| == |bs| && Path(bs, p, t, actual)
    requires forall i :: 0 <= i < |bs| ==> LiveIn(bs[i], Asked(bs, X, i, actual)) <= X[i]
    ensures t in X[p[0]]
    decreases p
  {
    hide LiveIn, Passes, UsedIn;
    var b := bs[p[0]];
    if |p| > 1 {
      PathIsLive(bs, X, p[1..], t, actual);
    }
    LiveInMeans(b, Asked(bs, X, p[0], actual), t);
    assert LiveIn(b, Asked(bs, X, p[0], actual)) <= X[p[0]];
  }

  /** What is live in `X` and has a path. */
  ghost function OnPaths(bs: seq<Block>, X: seq<set<Temp>>, actual: bool): (Y: seq<set<Temp>>)
    ensures |Y| == |X| && forall i :: 0 <= i < |X| ==> Y[i] == set t | t in X[i] && Reaches(bs, i, t, actual)
  {
    seq(|X|, i requires 0 <= i < |X| => set t | t in X[i] && Reaches(bs, i, t, actual))
  }

  lemma OnPathsCovers(bs: seq<Block>, X: seq<set<Temp>>, i: nat, actual: bool)
    requires WellBuilt(bs) && |X| == |bs| && i < |bs| && LiveIn(bs[i], Asked(bs, X, i, actual)) <= X[i]
    ensures var Y := OnPaths(bs, X, actual); LiveIn(bs[i], Asked(bs, Y, i, actual)) <= Y[i]
  {
    hide LiveIn, Passes, UsedIn, Reaches;
    var Y := OnPaths(bs, X, actual);
    assert BlockOk(bs[i], |bs|);
    forall t | t in LiveIn(bs[i], Asked(bs, Y, i, actual)) ensures t in Y[i] {
      LiveInMeans(bs[i], Asked(bs, Y, i, actual), t);
      LiveInMeans(bs[i], Asked(bs, X, i, actual), t);
      if UsedIn(bs[i], t) {
        OneBlockPath(bs, i, t, actual);
      } else {
        var j := if t in Y[bs[i].next0] then bs[i].next0 else bs[i].next1;
        PathOn(bs, i, j, t, actual);
      }
    }
  }

  lemma OneBlockPath(bs: seq<Block>, i: nat, t: Temp, actual: bool)
    requires i < |bs| && UsedIn(bs[i], t)
    ensures Reaches(bs, i, t, actual)
  {
    assert Path(bs, [i], t, actual);
  }

  /** In the least solution a temp is live before a block exactly if there is a path from the block to a use of it. */
  lemma LiveIffPath(bs: seq<Block>, ins: seq<set<Temp>>, i: nat, t: Temp)
    requires Solves(bs, ins) && Least(bs, ins) && i < |bs|
    ensures t in ins[i] <==> Reaches(bs, i, t, false)
  {
    hide LiveIn, Reaches, Path;
    forall j | 0 <= j < |bs| ensures LiveIn(bs[j], Asked(bs, ins, j, false)) <= ins[j] {
      assert BlockOk(bs[j], |bs|) && Covers(bs, ins, j);
    }
    var Y := OnPaths(bs, ins, false);
    forall j | 0 <= j < |bs| ensures Covers(bs, Y, j) {
      assert BlockOk(bs[j], |bs|);
      OnPathsCovers(bs, ins, j, false);
    }
    assert Under(ins, Y);
    if Reaches(bs, i, t, false) {
      OnlyLive(bs, ins, i, t, false);
    }
  }

  lemma OnlyLive(bs: seq<Block>, X: seq<set<Temp>>, i: nat, t: Temp, actual: bool)
    requires WellBuilt(bs) && |X| == |bs| && i < |bs| && Reaches(bs, i, t, actual)
    requires forall j :: 0 <= j < |bs| ==> LiveIn(bs[j], Asked(bs, X, j, actual)) <= X[j]
    ensures t in X[i]
  {
    var p :| Path(bs, p, t, actual) && p[0] == i;
    PathIsLive(bs, X, p, t, actual);
  }

  /** The same for the exact solution and paths that a run can take. */
  lemma ExactIffPath(bs: seq<Block>, X: seq<set<Temp>>, i: nat, t: Temp)
    requires Exact(bs, X) && i < |bs|
    ensures t in X[i] <==> Reaches(bs, i, t, true)
  {
    hide LiveIn, Reaches, Path;
    forall j | 0 <= j < |bs| ensures LiveIn(bs[j], Asked(bs, X, j, true)) <= X[j] {
      assert BlockOk(bs[j], |bs|) && Enough(bs, X, j);
    }
    var Y := OnPaths(bs, X, true);
    forall j | 0 <= j < |bs| ensures Enough(bs, Y, j) {
      assert BlockOk(bs[j], |bs|);
      OnPathsCovers(bs, X, j, true);
    }
    assert Suffices(bs, Y);
    assert Under(X, Y);
    if Reaches(bs, i, t, true) {
      OnlyLive(bs, X, i, t, true);
    }
  }
}
