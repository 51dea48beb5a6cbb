/** Searching a tree by a comparison with a key. */
module RbSearching {
  import opened RbShapes
  import opened RbMemory
  import opened RbDeletion

  /** The comparison with the key agrees with the order of the nodes: below, equal, above. */
  ghost predicate Monotone(cmp: Ptr -> int, s: seq<Ptr>) {
    forall i, j :: 0 <= i < j < |s| ==> (cmp(s[i]) >= 0 ==> cmp(s[j]) >= 0) && (cmp(s[i]) > 0 ==> cmp(s[j]) > 0)
  }

  /** No match has been passed by. */
  ghost predicate NoneOutside(cmp: Ptr -> int, c: Ctx) {
    && (forall i :: 0 <= i < |Before(c)| ==> cmp(Before(c)[i]) < 0)
    && (forall i :: 0 <= i < |After(c)| ==> cmp(After(c)[i]) > 0)
  }

  ghost predicate Searching(m: Mem, e: Arena, cmp: Ptr -> int, c: Ctx, t: Tree, tree: Tree) {
    && Focus(m, e, c, t) && Plug(c, t) == tree && Monotone(cmp, Order(c, t)) && NoneOutside(cmp, c)
    && e.nodes == Ids(tree)
  }

  lemma StepNoneOutside(cmp: Ptr -> int, c: Ctx, t: Tree, d: Dir)
    requires t.Node? && Monotone(cmp, Order(c, t)) && NoneOutside(cmp, c)
    requires cmp(t.it) != 0 && d == if cmp(t.it) > 0 then L else R
    ensures NoneOutside(cmp, Hole(d, t.it, t.red, Kid(t, Opp(d)), c))
  {
    var c' := Hole(d, t.it, t.red, Kid(t, Opp(d)), c);
    var s, k := Order(c, t), |Before(c)| + |Inorder(t.left)|;
    assert s[k] == t.it;
    if d == L {
      forall i | 0 <= i < |After(c')|
        ensures cmp(After(c')[i]) > 0
      {
        assert After(c')[i] == s[k + i];
      }
    } else {
      forall i | 0 <= i < |Before(c')|
        ensures cmp(Before(c')[i]) < 0
      {
        assert Before(c')[i] == s[i];
      }
    }
  }

  lemma SearchStep(m: Mem, e: Arena, cmp: Ptr -> int, c: Ctx, t: Tree, tree: Tree, d: Dir)
    requires Searching(m, e, cmp, c, t, tree) && t.Node?
    requires cmp(t.it) != 0 && d == if cmp(t.it) > 0 then L else R
    ensures Searching(m, e, cmp, Hole(d, t.it, t.red, Kid(t, Opp(d)), c), Kid(t, d), tree)
    ensures t.it in m && m[t.it].Child(d) == PtrOf(e, Kid(t, d))
  {
    StepNoneOutside(cmp, c, t, d);
    MoveDown(m, e, c, t, d);
    OrderUp(Hole(d, t.it, t.red, Kid(t, Opp(d)), c), Kid(t, d), t.red);
  }

  lemma SearchEnds(m: Mem, e: Arena, cmp: Ptr -> int, c: Ctx, t: Tree, tree: Tree)
    requires Searching(m, e, cmp, c, t, tree) && (t.Node? ==> cmp(t.it) == 0)
    ensures forall x :: x in Ids(tree) && cmp(x) == 0 ==> x in Ids(t)
    ensures t.Node? ==> t.it in Ids(tree) && t.it in Ids(t)
  {
    CtxOrderIds(c);
    assert forall x :: x in Ids(tree) <==> x in Ids(t) || x in CtxIds(c);
  }
}
