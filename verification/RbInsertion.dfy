/** Why the climb of rb_insert restores the red-black conditions, on plain trees. */
module RbInsertion {
  import opened RbShapes
  import opened RbMemory

  /** Everything is in order but the edge from the red focus to its parent, which may be red too. */
  predicate Climbing(c: Ctx, t: Tree) {
    && IsRed(t) && NoRedRed(t) && Balanced(t)
    && CtxBalanced(c, BlackHeight(t)) && CtxNoRedRed(c, false)
  }

  /** A red parent has a black parent of its own. */
  predicate HasGrandparent(c: Ctx) {
    c.Hole? && c.red && c.up.Hole?
  }

  function Uncle(c: Ctx): Tree
    requires HasGrandparent(c)
  {
    c.up.sib
  }

  lemma RedParentHasParent(c: Ctx, t: Tree)
    requires Climbing(c, t) && c.Hole? && c.red
    ensures HasGrandparent(c) && !c.up.red
  {
    assert CtxNoRedRed(c.up, true);
  }

  /** The grandparent's subtree after a red uncle, the parent and the grandparent change colour. */
  function PushedUp(c: Ctx, t: Tree): Tree
    requires HasGrandparent(c) && IsRed(Uncle(c))
  {
    Mk(c.up.dir, Mk(c.dir, t, c.it, false, c.sib), c.up.it, true, Recoloured(Uncle(c), false))
  }

  lemma PushedUpClimbs(c: Ctx, t: Tree)
    requires Climbing(c, t) && HasGrandparent(c) && IsRed(Uncle(c))
    ensures Climbing(c.up.up, PushedUp(c, t)) && Order(c.up.up, PushedUp(c, t)) == Order(c, t)
  {
    RedParentHasParent(c, t);
    var g, parent, uncle := c.up, Mk(c.dir, t, c.it, false, c.sib), Recoloured(Uncle(c), false);
    assert CtxBalanced(g, BlackHeight(t)) && CtxNoRedRed(g, true);
    assert Balanced(parent) && NoRedRed(parent) && BlackHeight(parent) == BlackHeight(t) + 1;
    assert Balanced(uncle) && NoRedRed(uncle) && BlackHeight(uncle) == BlackHeight(t) + 1;
    OrderUp(c, t, false);
    OrderUp(g.(sib := uncle), parent, true);
  }

  /** The parent's subtree rotated so that the red focus becomes an outer grandchild. */
  function TurnedOut(c: Ctx, t: Tree): (Ctx, Tree)
    requires HasGrandparent(c) && t.Node?
  {
    var d := c.up.dir;
    (Hole(d, t.it, t.red, Kid(t, Opp(d)), c.up), Mk(d, c.sib, c.it, c.red, Kid(t, d)))
  }

  lemma TurnedOutClimbs(c: Ctx, t: Tree)
    requires Climbing(c, t) && HasGrandparent(c) && c.dir != c.up.dir
    ensures var (c', t') := TurnedOut(c, t);
      Climbing(c', t') && HasGrandparent(c') && c'.dir == c'.up.dir && c'.up == c.up && Order(c', t') == Order(c, t)
  {
    var d := c.up.dir;
    var (c', t') := TurnedOut(c, t);
    assert CtxNoRedRed(c.up, true);
    OrderUp(c, t, c.red);
    OrderUp(c', t', c'.red);
    var p := Mk(c.dir, t, c.it, c.red, c.sib);
    assert Rotated(d, p) == Mk(d, t', t.it, t.red, Kid(t, Opp(d)));
    RotatedKeepsOrder(d, p);
  }

  /** The grandparent rotated below the parent, which takes over its black. */
  function TurnedOver(c: Ctx): Ctx
    requires HasGrandparent(c)
  {
    Hole(c.dir, c.it, false, Mk(c.dir, c.sib, c.up.it, true, Uncle(c)), c.up.up)
  }

  lemma TurnedOverIsDone(c: Ctx, t: Tree)
    requires Climbing(c, t) && HasGrandparent(c) && c.dir == c.up.dir && !IsRed(Uncle(c))
    ensures Climbing(TurnedOver(c), t) && Order(TurnedOver(c), t) == Order(c, t)
  {
    RedParentHasParent(c, t);
    var d, g := c.dir, c.up;
    assert CtxBalanced(g, BlackHeight(t)) && CtxNoRedRed(g, true);
    var parent := Mk(d, t, c.it, false, c.sib);
    var grand := Mk(d, parent, g.it, true, Uncle(c));
    OrderUp(c, t, false);
    OrderUp(g, parent, true);
    OrderUp(TurnedOver(c), t, false);
    RotatedKeepsOrder(Opp(d), grand);
    assert Rotated(Opp(d), grand) == Mk(d, t, c.it, false, Mk(d, c.sib, g.it, true, Uncle(c)));
  }

  // ---------- the same in memory ----------

  lemma ConfinedRefl(m: Mem, e: Arena)
    ensures Confined(m, m, e)
  {
  }

  lemma ConfinedTwice(m0: Mem, m1: Mem, m2: Mem, e: Arena)
    requires Confined(m0, m1, e) && Confined(m1, m2, e)
    ensures Confined(m0, m2, e)
  {
  }

  /** Recolouring parent, uncle and grandparent, in the order of the code. */
  lemma PushUpInMemory(m: Mem, e: Arena, c: Ctx, t: Tree)
    requires Focus(m, e, c, t) && HasGrandparent(c) && IsRed(Uncle(c))
    ensures {c.it, Uncle(c).it, c.up.it} <= m.Keys
    ensures var m1 := m[c.it := m[c.it].(red := false)];
      var m2 := m1[Uncle(c).it := m1[Uncle(c).it].(red := false)];
      var m3 := m2[c.up.it := m2[c.up.it].(red := true)];
      Focus(m3, e, c.up.up, PushedUp(c, t)) && Confined(m, m3, e) && m3[e.nil] == m[e.nil]
  {
    var g, u := c.up, Uncle(c);
    var p := Mk(c.dir, t, c.it, c.red, c.sib);
    var p1, u1 := Recoloured(p, false), Recoloured(u, false);
    MoveUp(m, e, c, t);
    var m1 := m[c.it := m[c.it].(red := false)];
    SetRedFocus(m, e, g, p, false, m1);
    MoveUp(m1, e, g, p1);
    MoveDown(m1, e, g.up, Mk(g.dir, p1, g.it, g.red, u), Opp(g.dir));
    var m2 := m1[u.it := m1[u.it].(red := false)];
    SetRedFocus(m1, e, Hole(Opp(g.dir), g.it, g.red, p1, g.up), u, false, m2);
    MoveUp(m2, e, Hole(Opp(g.dir), g.it, g.red, p1, g.up), u1);
    assert Mk(Opp(g.dir), u1, g.it, g.red, p1) == Mk(g.dir, p1, g.it, g.red, u1);
    SetRedFocus(m2, e, g.up, Mk(g.dir, p1, g.it, g.red, u1), true, m2[g.it := m2[g.it].(red := true)]);
  }

  /** Colouring the parent black and the grandparent red. */
  lemma SwapColoursInMemory(m: Mem, e: Arena, c: Ctx, t: Tree)
    requires Focus(m, e, c, t) && HasGrandparent(c)
    ensures {c.it, c.up.it} <= m.Keys
    ensures var m1 := m[c.it := m[c.it].(red := false)];
      var m2 := m1[c.up.it := m1[c.up.it].(red := true)];
      Focus(m2, e, c.up.up, Mk(c.up.dir, Mk(c.dir, t, c.it, false, c.sib), c.up.it, true, Uncle(c)))
      && Confined(m, m2, e) && m2[e.nil] == m[e.nil]
  {
    var g := c.up;
    var p := Mk(c.dir, t, c.it, c.red, c.sib);
    MoveUp(m, e, c, t);
    var m1 := m[c.it := m[c.it].(red := false)];
    SetRedFocus(m, e, g, p, false, m1);
    MoveUp(m1, e, g, Recoloured(p, false));
    SetRedFocus(m1, e, g.up, Mk(g.dir, Recoloured(p, false), g.it, g.red, Uncle(c)), true,
                m1[g.it := m1[g.it].(red := true)]);
  }

  // ---------- finding the place ----------

  ghost predicate SortedBy(rank: Ptr -> int, s: seq<Ptr>) {
    forall i, j :: 0 <= i < j < |s| ==> rank(s[i]) <= rank(s[j])
  }

  /** `z` put behind everything that does not rank above it. */
  ghost function InsertedAfterEquals(rank: Ptr -> int, s: seq<Ptr>, z: Ptr): (r: seq<Ptr>) {
    if s == [] then [z] else if rank(s[0]) > rank(z) then [z] + s else [s[0]] + InsertedAfterEquals(rank, s[1..], z)
  }

  lemma {:induction false} InsertedBetween(rank: Ptr -> int, a: seq<Ptr>, b: seq<Ptr>, z: Ptr)
    requires forall i :: 0 <= i < |a| ==> rank(a[i]) <= rank(z)
    requires forall i :: 0 <= i < |b| ==> rank(b[i]) > rank(z)
    ensures InsertedAfterEquals(rank, a + b, z) == a + [z] + b
  {
    if a == [] {
      assert a + b == b && a + [z] + b == [z] + b;
    } else {
      InsertedBetween(rank, a[1..], b, z);
      assert (a + b)[1..] == a[1..] + b;
      assert a + [z] + b == [a[0]] + (a[1..] + [z] + b);
    }
  }

  lemma {:induction false} InsertedIsSorted(rank: Ptr -> int, s: seq<Ptr>, z: Ptr)
    requires SortedBy(rank, s)
    ensures SortedBy(rank, InsertedAfterEquals(rank, s, z))
    ensures forall x :: x in InsertedAfterEquals(rank, s, z) <==> x == z || x in s
  {
    if s != [] && rank(s[0]) <= rank(z) {
      InsertedIsSorted(rank, s[1..], z);
      var r := InsertedAfterEquals(rank, s[1..], z);
      assert s == [s[0]] + s[1..];
      forall j | 0 <= j < |r|
        ensures rank(s[0]) <= rank(r[j])
      {
        if r[j] != z {
          assert r[j] in s[1..];
          var i :| 0 <= i < |s[1..]| && s[1..][i] == r[j];
          assert s[i + 1] == r[j];
        }
      }
    } else if s != [] {
      assert s == [s[0]] + s[1..];
    }
  }

  /** The focus is where `z` belongs: what is before the hole does not rank above `z`, what is after it does. */
  ghost predicate Placed(rank: Ptr -> int, c: Ctx, z: Ptr) {
    && (forall i :: 0 <= i < |Before(c)| ==> rank(Before(c)[i]) <= rank(z))
    && (forall i :: 0 <= i < |After(c)| ==> rank(After(c)[i]) > rank(z))
  }

  /** Going to the side that the comparison says. */
  lemma StepDownPlaced(rank: Ptr -> int, c: Ctx, t: Tree, z: Ptr, d: Dir)
    requires t.Node? && SortedBy(rank, Order(c, t)) && Placed(rank, c, z)
    requires d == if rank(t.it) > rank(z) then L else R
    ensures Placed(rank, Hole(d, t.it, t.red, Kid(t, Opp(d)), c), z)
    ensures Order(Hole(d, t.it, t.red, Kid(t, Opp(d)), c), Kid(t, d)) == Order(c, t)
  {
    var c' := Hole(d, t.it, t.red, Kid(t, Opp(d)), c);
    OrderUp(c', Kid(t, d), t.red);
    var s, k := Order(c, t), |Before(c)| + |Inorder(t.left)|;
    assert s[k] == t.it;
    if d == L {
      forall i | 0 <= i < |After(c')|
        ensures rank(After(c')[i]) > rank(z)
      {
        assert After(c')[i] == s[k + i];
      }
    } else {
      forall i | 0 <= i < |Before(c')|
        ensures rank(Before(c')[i]) <= rank(z)
      {
        assert Before(c')[i] == s[i];
      }
    }
  }

  lemma OrderOfHole(c: Ctx)
    ensures Order(c, Leaf) == Before(c) + After(c)
  {
    hide Before, After;
  }

  lemma PlacedOrder(rank: Ptr -> int, c: Ctx, z: Ptr, t: Tree)
    requires Placed(rank, c, z) && Inorder(t) == [z]
    ensures Order(c, t) == InsertedAfterEquals(rank, Order(c, Leaf), z)
  {
    InsertedBetween(rank, Before(c), After(c), z);
    OrderOfHole(c);
  }

  /** A red-black tree seen from any of its subtrees. */
  predicate InOrder(c: Ctx, t: Tree) {
    Balanced(t) && NoRedRed(t) && CtxBalanced(c, BlackHeight(t)) && CtxNoRedRed(c, IsRed(t))
  }

  lemma StepDownInOrder(c: Ctx, t: Tree, d: Dir)
    requires InOrder(c, t) && t.Node?
    ensures InOrder(Hole(d, t.it, t.red, Kid(t, Opp(d)), c), Kid(t, d))
  {
  }

  /** On the way down to the place of `z` in a tree whose nodes are `s` in order. */
  ghost predicate Descending(rank: Ptr -> int, m: Mem, e: Arena, c: Ctx, t: Tree, s: seq<Ptr>, z: Ptr) {
    && Focus(m, e, c, t) && InOrder(c, t) && Order(c, t) == s && SortedBy(rank, s)
    && Placed(rank, c, z) && (c.Hole? ==> c.dir == if rank(c.it) > rank(z) then L else R)
  }

  lemma Descend(rank: Ptr -> int, m: Mem, e: Arena, c: Ctx, t: Tree, s: seq<Ptr>, z: Ptr, d: Dir)
    requires Descending(rank, m, e, c, t, s, z) && t.Node?
    requires d == if rank(t.it) > rank(z) then L else R
    ensures t.it in m && m[t.it].Child(d) == PtrOf(e, Kid(t, d)) && t.it != e.nil && t.it != e.root
    ensures Descending(rank, m, e, Hole(d, t.it, t.red, Kid(t, Opp(d)), c), Kid(t, d), s, z)
  {
    StepDownPlaced(rank, c, t, z, d);
    StepDownInOrder(c, t, d);
    MoveDown(m, e, c, t, d);
  }

  lemma NewLeafClimbs(c: Ctx, z: Ptr)
    requires InOrder(c, Leaf)
    ensures Climbing(c, Node(Leaf, z, true, Leaf))
  {
  }

  lemma FocusKeeps(m: Mem, m': Mem, e: Arena, c: Ctx, t: Tree)
    requires Focus(m, e, c, t)
    requires forall q :: q in m && (q in e.nodes || q == e.nil || q == e.root) ==> q in m' && m'[q] == m[q]
    ensures Focus(m', e, c, t)
  {
    RepIds(m, e, t, Par(e, c));
    RepCtxIds(m, e, c, PtrOf(e, t));
    RepKeeps(m, m', e, t, Par(e, c));
    RepCtxKeeps(m, m', e, c, PtrOf(e, t));
  }

  /** Filling the hole with a new node. */
  lemma LinkInMemory(m: Mem, e: Arena, c: Ctx, z: Ptr, red: bool)
    requires Focus(m, e, c, Leaf) && z in m && z !in e.nodes && z != e.nil && z != e.root
    ensures Par(e, c) in m && Par(e, c) != z
    ensures var m' := m[z := RbNode(red, Par(e, c), e.nil, e.nil)][Par(e, c) := m[Par(e, c)].WithChild(DirOf(c), z)];
      var e' := e.(nodes := e.nodes + {z});
      Focus(m', e', c, Node(Leaf, z, red, Leaf)) && Confined(m, m', e') && m'[e.nil] == m[e.nil]
  {
    var m' := m[z := RbNode(red, Par(e, c), e.nil, e.nil)][Par(e, c) := m[Par(e, c)].WithChild(DirOf(c), z)];
    var e' := e.(nodes := e.nodes + {z});
    RepCtxIds(m, e, c, e.nil);
    RepCtxRepoint(m, m', e, c, e.nil, z);
    RepCtxArena(m', e, e', c, z);
  }

  lemma {:induction false} RepArena(m: Mem, e: Arena, e': Arena, t: Tree, par: Ptr)
    requires Rep(m, e, t, par) && e'.nil == e.nil
    ensures Rep(m, e', t, par)
  {
    if t.Node? {
      RepArena(m, e, e', t.left, t.it);
      RepArena(m, e, e', t.right, t.it);
    }
  }

  lemma {:induction false} RepCtxArena(m: Mem, e: Arena, e': Arena, c: Ctx, p: Ptr)
    requires RepCtx(m, e, c, p) && e'.nil == e.nil && e'.root == e.root
    ensures RepCtx(m, e', c, p)
  {
    if c.Hole? {
      RepArena(m, e, e', c.sib, c.it);
      RepCtxArena(m, e, e', c.up, c.it);
    }
  }

  // ---------- the end of the climb ----------

  lemma ClimbEnds(c: Ctx, t: Tree)
    requires Climbing(c, t) && (c.Top? || !c.red)
    ensures c.Hole? ==> RedBlack(Plug(c, t))
    ensures c.Top? ==> RedBlack(Recoloured(t, false))
  {
    if c.Hole? {
      PlugRedBlack(c, t);
    }
  }

  /** Colouring the top node black ends the insertion. */
  lemma BlackenTop(m: Mem, e: Arena, c: Ctx, t: Tree) returns (r: Tree)
    requires Focus(m, e, c, t) && Climbing(c, t) && (c.Top? || !c.red)
    ensures e.root in m && m[e.root].left in m && m[e.root].left != e.nil
    ensures var x := m[e.root].left;
      var m' := m[x := m[x].(red := false)];
      Focus(m', e, Top, r) && Confined(m, m', e) && m'[e.nil] == m[e.nil]
    ensures RedBlack(r) && Inorder(r) == Order(c, t) && Ids(r) == e.nodes
  {
    ClimbEnds(c, t);
    MoveToTop(m, e, c, t);
    PlugInorder(c, t);
    var top := Plug(c, t);
    PlugIsNode(c, t);
    r := Recoloured(top, false);
    SetRedFocus(m, e, Top, top, false, m[top.it := m[top.it].(red := false)]);
  }

  lemma {:induction false} PlugIsNode(c: Ctx, t: Tree)
    requires t.Node?
    ensures Plug(c, t).Node?
    decreases c
  {
    if c.Hole? {
      PlugIsNode(c.up, Mk(c.dir, t, c.it, c.red, c.sib));
    }
  }
}
