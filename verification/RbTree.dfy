/** The red-black tree of ucore/kern/libs/rb_tree.c. */
module RbTrees {
  import opened RbShapes
  import opened RbMemory
  import opened RbInsertion
  import opened RbDeletion
  import opened RbSearching

  /** The four pointers a rotation works on. */
  lemma RotationReads(m: Mem, e: Arena, d: Dir, c: Ctx, t: Tree)
    requires Focus(m, e, c, t) && CanRotate(d, t)
    ensures var x, y, p := t.it, Kid(t, Opp(d)).it, Par(e, c);
      var b := PtrOf(e, Kid(Kid(t, Opp(d)), d));
      && {x, y, p, b} <= m.Keys && e.nil in m
      && x != y && p !in {x, y, b, e.nil} && b !in {x, y} && e.nil !in {x, y}
      && m[x].Child(Opp(d)) == y && m[x].parent == p && m[y].Child(d) == b
      && m[p].Child(DirOf(c)) == x && m[p].Child(Opp(DirOf(c))) != x
      && (b == e.nil <==> Kid(Kid(t, Opp(d)), d).Leaf?)
  {
    var y := Kid(t, Opp(d));
    var below := Hole(Opp(d), t.it, t.red, Kid(t, d), c);
    Around(m, e, c, t);
    MoveDown(m, e, c, t, Opp(d));
    Around(m, e, below, y);
    MoveDown(m, e, below, y, d);
    Around(m, e, Hole(d, y.it, y.red, Kid(y, Opp(d)), below), Kid(y, d));
    RotatedIds(d, t);
  }

  /** What the climb reads off parent, grandparent and uncle. */
  lemma GrandparentReads(m: Mem, e: Arena, c: Ctx, t: Tree)
    requires Focus(m, e, c, t) && HasGrandparent(c) && t.Node?
    ensures {t.it, c.it, c.up.it, PtrOf(e, Uncle(c))} <= m.Keys && e.nil in m
    ensures m[t.it].parent == c.it && m[c.it].parent == c.up.it
    ensures m[c.up.it].Child(Opp(c.up.dir)) == PtrOf(e, Uncle(c))
    ensures m[PtrOf(e, Uncle(c))].red == IsRed(Uncle(c))
    ensures t.it == m[c.it].Child(Opp(c.up.dir)) <==> c.dir == Opp(c.up.dir)
    ensures t.it != c.it && t.it != c.up.it && c.it != c.up.it
    ensures PtrOf(e, Uncle(c)) !in {t.it, c.it, c.up.it}
    ensures c.it == m[c.up.it].left <==> c.up.dir == L
  {
    var p := Mk(c.dir, t, c.it, c.red, c.sib);
    Around(m, e, c, t);
    MoveUp(m, e, c, t);
    Around(m, e, c.up, p);
    MoveUp(m, e, c.up, p);
    MoveDown(m, e, c.up.up, Mk(c.up.dir, p, c.up.it, c.up.red, c.up.sib), Opp(c.up.dir));
    Around(m, e, Hole(Opp(c.up.dir), c.up.it, c.up.red, p, c.up.up), c.up.sib);
  }

  lemma NotALeaf(rank: Ptr -> int, m: Mem, e: Arena, c: Ctx, t: Tree, s: seq<Ptr>, z: Ptr)
    requires Descending(rank, m, e, c, t, s, z)
    ensures PtrOf(e, t) == e.nil <==> t.Leaf?
    ensures Focus(m, e, c, t) && InOrder(c, t) && Placed(rank, c, z) && Order(c, t) == s
    ensures c.Hole? ==> c.dir == if rank(c.it) > rank(z) then L else R
  {
  }

  lemma ParentReads(m: Mem, e: Arena, c: Ctx, t: Tree)
    requires Focus(m, e, c, t) && t.Node?
    ensures t.it in m && m[t.it].parent in m && (m[m[t.it].parent].red <==> c.Hole? && c.red)
  {
  }

  ghost function RotationWrites(m: Mem, nil: Ptr, d: Dir, x: Ptr, y: Ptr, b: Ptr, p: Ptr): Mem
    requires {x, y, b, p} <= m.Keys
  {
    var m1 := m[x := m[x].WithChild(Opp(d), b)];
    var m2 := if b != nil then m1[b := m1[b].(parent := x)] else m1;
    var m3 := m2[y := m2[y].(parent := p)];
    var m4 := if x == m3[p].Child(d) then m3[p := m3[p].WithChild(d, y)] else m3[p := m3[p].WithChild(Opp(d), y)];
    var m5 := m4[y := m4[y].WithChild(d, x)];
    m5[x := m5[x].(parent := y)]
  }

  lemma RotationKeepsFocus(m: Mem, e: Arena, d: Dir, c: Ctx, t: Tree)
    requires Focus(m, e, c, t) && CanRotate(d, t)
    ensures var x, y, b, p := t.it, Kid(t, Opp(d)).it, PtrOf(e, Kid(Kid(t, Opp(d)), d)), Par(e, c);
      && {x, y, b, p} <= m.Keys
      && var m' := RotationWrites(m, e.nil, d, x, y, b, p);
         Focus(m', e, c, Rotated(d, t)) && Confined(m, m', e) && m'[e.nil] == m[e.nil]
  {
    var x, y, b, p := t.it, Kid(t, Opp(d)).it, PtrOf(e, Kid(Kid(t, Opp(d)), d)), Par(e, c);
    RotationReads(m, e, d, c, t);
    RotationIsRotated(m, e, d, c, t, x, y, b, p);
    RotateFocus(m, RotationWrites(m, e.nil, d, x, y, b, p), e, d, c, t);
  }

  lemma RotationIsRotated(m: Mem, e: Arena, d: Dir, c: Ctx, t: Tree, x: Ptr, y: Ptr, b: Ptr, p: Ptr)
    requires Focus(m, e, c, t) && CanRotate(d, t)
    requires x == t.it && y == Kid(t, Opp(d)).it && b == PtrOf(e, Kid(Kid(t, Opp(d)), d)) && p == Par(e, c)
    requires {x, y, b, p} <= m.Keys
    ensures RotatedMem(m, RotationWrites(m, e.nil, d, x, y, b, p), e, d, t, c)
  {
    RotationReads(m, e, d, c, t);
    hide Focus;
  }

  class RbTree {
    const nil: Ptr
    const root: Ptr
    const rank: Ptr -> int  // compare(a, b) has the sign of rank(a) - rank(b)
    var mem: Mem
    ghost var tree: Tree

    ghost function Here(): Arena
      reads this`tree
    {
      Arena(nil, root, Ids(tree))
    }

    /** An empty tree between two new sentinels. */
    constructor (nilNode: Ptr, rootNode: Ptr, compareRank: Ptr -> int, rest: Mem)
      requires nilNode != rootNode
      ensures Valid() && tree == Leaf && nil == nilNode && root == rootNode && rank == compareRank
      ensures forall q :: q in rest && q != nilNode && q != rootNode ==> q in mem && mem[q] == rest[q]
    {
      nil, root, rank := nilNode, rootNode, compareRank;
      mem := rest[nilNode := RbNode(false, nilNode, nilNode, nilNode)][
        rootNode := RbNode(false, nilNode, nilNode, nilNode)];
      tree := Leaf;
    }

    /** The arena with one more node. */
    ghost function Grown(z: Ptr): Arena
      reads this`tree
    {
      Arena(nil, root, Ids(tree) + {z})
    }

    /** The tree between the sentinels is a red-black search tree. */
    ghost predicate Valid()
      reads this
    {
      Focus(mem, Here(), Top, tree) && RedBlack(tree) && SortedBy(rank, Inorder(tree))
    }

    method Rotate(d: Dir, x: Ptr, ghost e: Arena, ghost c: Ctx, ghost t: Tree)
      requires e.nil == nil && e.root == root && Focus(mem, e, c, t)
      requires CanRotate(d, t) && t.it == x
      modifies this`mem
      ensures Focus(mem, e, c, Rotated(d, t)) && Confined(old(mem), mem, e) && mem[nil] == old(mem)[nil]
    {
      RotationReads(mem, e, d, c, t);
      RotationKeepsFocus(mem, e, d, c, t);
      hide Focus, Confined, CanRotate, Rotated;
      var y := mem[x].Child(Opp(d));
      var b := mem[y].Child(d);
      mem := mem[x := mem[x].WithChild(Opp(d), b)];
      if b != nil {
        mem := mem[b := mem[b].(parent := x)];
      }
      mem := mem[y := mem[y].(parent := mem[x].parent)];
      var p := mem[x].parent;
      if x == mem[p].Child(d) {
        mem := mem[p := mem[p].WithChild(d, y)];
      } else {
        mem := mem[p := mem[p].WithChild(Opp(d), y)];
      }
      mem := mem[y := mem[y].WithChild(d, x)];
      mem := mem[x := mem[x].(parent := y)];
      assert mem == RotationWrites(old(mem), nil, d, x, y, b, p);
    }
 
    /** RB_INSERT_SUB: one round of the climb, with the red parent of `x` on side `d` of its own parent. */
    method InsertSub(d: Dir, x0: Ptr, ghost e: Arena, ghost c0: Ctx, ghost t0: Tree)
      returns (x: Ptr, ghost c: Ctx, ghost t: Tree)
      requires e.nil == nil && e.root == root && Focus(mem, e, c0, t0) && Climbing(c0, t0)
      requires t0.it == x0 && HasGrandparent(c0) && c0.up.dir == d
      modifies this`mem
      ensures Focus(mem, e, c, t) && Climbing(c, t) && t.it == x && Order(c, t) == Order(c0, t0)
      ensures Depth(c) < Depth(c0) && Confined(old(mem), mem, e) && mem[nil] == old(mem)[nil]
    {
      x, c, t := x0, c0, t0;
      ghost var m0 := mem;
      GrandparentReads(mem, e, c, t);
      hide Focus, Climbing, Order, Confined, Rotated;
      var y := mem[mem[mem[x].parent].parent].Child(Opp(d));
      if mem[y].red {
        PushUpInMemory(mem, e, c, t);
        PushedUpClimbs(c, t);
        mem := mem[mem[x].parent := mem[mem[x].parent].(red := false)];
        mem := mem[y := mem[y].(red := false)];
        mem := mem[mem[mem[x].parent].parent := mem[mem[mem[x].parent].parent].(red := true)];
        x := mem[mem[x].parent].parent;
        c, t := c.up.up, PushedUp(c, t);
      } else {
        if x == mem[mem[x].parent].Child(Opp(d)) {
          TurnedOutClimbs(c, t);
          x := mem[x].parent;
          MoveUp(mem, e, c, t);
          Rotate(d, x, e, c.up, Mk(c.dir, t, c.it, c.red, c.sib));
          MoveDown(mem, e, c.up, Rotated(d, Mk(c.dir, t, c.it, c.red, c.sib)), d);
          var (c1, t1) := TurnedOut(c, t);
          c, t := c1, t1;
          GrandparentReads(mem, e, c, t);
        }
        TurnedOverIsDone(c, t);
        SwapColoursInMemory(mem, e, c, t);
        mem := mem[mem[x].parent := mem[mem[x].parent].(red := false)];
        mem := mem[mem[mem[x].parent].parent := mem[mem[mem[x].parent].parent].(red := true)];
        ghost var grand := Mk(d, Mk(d, t, c.it, false, c.sib), c.up.it, true, Uncle(c));
        Rotate(Opp(d), mem[mem[x].parent].parent, e, c.up.up, grand);
        MoveDown(mem, e, c.up.up, Rotated(Opp(d), grand), d);
        c := TurnedOver(c);
      }
    }
 
    /** Hang `z` into the tree as into an ordinary search tree. */
    method InsertBinary(z: Ptr) returns (ghost c: Ctx)
      requires Valid() && z in mem && z !in Ids(tree) && z != nil && z != root
      modifies this`mem
      ensures Focus(mem, Grown(z), c, Node(Leaf, z, old(mem)[z].red, Leaf))
      ensures InOrder(c, Leaf) && Placed(rank, c, z) && Order(c, Leaf) == Inorder(tree)
      ensures Confined(old(mem), mem, Grown(z)) && mem[nil] == old(mem)[nil]
    {
      ghost var e, m0 := Here(), mem;
      mem := mem[z := mem[z].(left := nil, right := nil)];
      FocusKeeps(m0, mem, e, Top, tree);
      ghost var t := tree;
      c := Top;
      Around(mem, e, c, t);
      var y, x := root, mem[root].left;
      assert Descending(rank, mem, e, c, t, Inorder(tree), z);
      hide Descending, Confined, Inorder, Ids;
      while x != nil
        invariant Descending(rank, mem, e, c, t, Inorder(tree), z)
        invariant x == PtrOf(e, t) && y == Par(e, c) && mem == m0[z := m0[z].(left := nil, right := nil)]
        invariant c.Hole? ==> c.it != root
        decreases t
      {
        ghost var d := if rank(x) > rank(z) then L else R;
        NotALeaf(rank, mem, e, c, t, Inorder(tree), z);
        Descend(rank, mem, e, c, t, Inorder(tree), z, d);
        y := x;
        x := if rank(x) > rank(z) then mem[x].left else mem[x].right;
        c, t := Hole(d, t.it, t.red, Kid(t, Opp(d)), c), Kid(t, d);
      }
      NotALeaf(rank, mem, e, c, t, Inorder(tree), z);
      Link(z, y, c);
    }

    /** The last steps of `InsertBinary`, with the place found. */
    method Link(z: Ptr, y: Ptr, ghost c: Ctx)
      requires Focus(mem, Here(), c, Leaf) && z in mem && z !in Ids(tree) && z != nil && z != root
      requires y == Par(Here(), c) && mem[z].left == mem[z].right == nil
      requires c.Hole? ==> c.it != root && c.dir == if rank(c.it) > rank(z) then L else R
      modifies this`mem
      ensures Focus(mem, Grown(z), c, Node(Leaf, z, old(mem)[z].red, Leaf))
      ensures Confined(old(mem), mem, Grown(z)) && mem[nil] == old(mem)[nil]
    {
      LinkInMemory(mem, Here(), c, z, mem[z].red);
      hide Focus, Confined;
      mem := mem[z := mem[z].(parent := y)];
      if y == root || rank(y) > rank(z) {
        mem := mem[y := mem[y].(left := z)];
      } else {
        mem := mem[y := mem[y].(right := z)];
      }
    }
 
    /** The climb of `RbInsert`, from the new red node up, and the colouring of the top node. */
    method Climb(node: Ptr, ghost e: Arena, ghost c0: Ctx, ghost t0: Tree) returns (ghost r: Tree)
      requires e.nil == nil && e.root == root && Focus(mem, e, c0, t0) && Climbing(c0, t0) && t0.it == node
      modifies this`mem
      ensures Focus(mem, e, Top, r) && RedBlack(r) && Inorder(r) == Order(c0, t0) && Ids(r) == e.nodes
      ensures Confined(old(mem), mem, e)
    {
      ghost var c, t := c0, t0;
      ParentReads(mem, e, c, t);
      hide Focus, Climbing, Confined, Order, Inorder, RedBlack;
      var x := node;
      assert Confined(mem, mem, e) by {
        ConfinedRefl(mem, e);
      }
      while mem[mem[x].parent].red
        invariant Focus(mem, e, c, t) && Climbing(c, t) && t.it == x && Confined(old(mem), mem, e)
        invariant Order(c, t) == Order(c0, t0)
        invariant x in mem && mem[x].parent in mem && (mem[mem[x].parent].red <==> c.Hole? && c.red)
        decreases Depth(c)
      {
        ghost var m1 := mem;
        RedParentHasParent(c, t);
        GrandparentReads(mem, e, c, t);
        if mem[x].parent == mem[mem[mem[x].parent].parent].left {
          x, c, t := InsertSub(L, x, e, c, t);
        } else {
          x, c, t := InsertSub(R, x, e, c, t);
        }
        ParentReads(mem, e, c, t);
        ConfinedTwice(old(mem), m1, mem, e);
      }
      r := BlackenTop(mem, e, c, t);
      ghost var m1 := mem;
      mem := mem[mem[root].left := mem[mem[root].left].(red := false)];
      ConfinedTwice(old(mem), m1, mem, e);
    }

    /** `node` joins the tree behind all nodes that compare equal to it. */
    method RbInsert(node: Ptr)
      requires Valid() && node in mem && node !in Ids(tree) && node != nil && node != root
      modifies this`mem, this`tree
      ensures Valid() && Ids(tree) == old(Ids(tree)) + {node}
      ensures Inorder(tree) == InsertedAfterEquals(rank, old(Inorder(tree)), node)
      ensures Confined(old(mem), mem, Here())
    {
      ghost var e, m0, s := Grown(node), mem, Inorder(tree);
      InsertedIsSorted(rank, s, node);
      ghost var c := InsertBinary(node);
      ghost var m1, t := mem, Node(Leaf, node, true, Leaf);
      PlacedOrder(rank, c, node, t);
      NewLeafClimbs(c, node);
      ParentReads(mem, e, c, t.(red := mem[node].red));
      hide Focus, Climbing, Confined, SortedBy, Placed, InOrder, Order, Inorder, InsertedAfterEquals, RedBlack;
      SetRedFocus(mem, e, c, Node(Leaf, node, m0[node].red, Leaf), true, mem[node := mem[node].(red := true)]);
      mem := mem[node := mem[node].(red := true)];
      ConfinedTwice(m0, m1, mem, e);
      m1 := mem;
      ghost var r := Climb(node, e, c, t);
      ConfinedTwice(m0, m1, mem, e);
      tree := r;
    }
 
    /** Rotate the parent of the focus towards it: the sibling comes up, the focus goes down. */
    method RotateParent(d: Dir, p: Ptr, ghost e: Arena, ghost c: Ctx, ghost t: Tree)
      requires e.nil == nil && e.root == root && Focus(mem, e, c, t)
      requires c.Hole? && c.dir == d && c.it == p && c.sib.Node?
      modifies this`mem
      ensures Focus(mem, e, Hole(d, p, c.red, Kid(c.sib, d), Hole(d, c.sib.it, c.sib.red, Kid(c.sib, Opp(d)), c.up)), t)
      ensures Confined(old(mem), mem, e) && mem[nil] == old(mem)[nil]
    {
      ghost var top := Mk(d, t, p, c.red, c.sib);
      MoveUp(mem, e, c, t);
      Rotate(d, p, e, c.up, top);
      assert Rotated(d, top) == Mk(d, Mk(d, t, p, c.red, Kid(c.sib, d)), c.sib.it, c.sib.red, Kid(c.sib, Opp(d)));
      hide Focus;
      MoveDown(mem, e, c.up, Rotated(d, top), d);
      MoveDown(mem, e, Hole(d, c.sib.it, c.sib.red, Kid(c.sib, Opp(d)), c.up), Mk(d, t, p, c.red, Kid(c.sib, d)), d);
    }

    /** Rotate the sibling of the focus away from it. */
    method RotateSibling(d: Dir, w: Ptr, ghost e: Arena, ghost c: Ctx, ghost t: Tree)
      requires e.nil == nil && e.root == root && Focus(mem, e, c, t)
      requires c.Hole? && c.dir == d && CanRotate(Opp(d), c.sib) && c.sib.it == w
      modifies this`mem
      ensures Focus(mem, e, c.(sib := Rotated(Opp(d), c.sib)), t)
      ensures Confined(old(mem), mem, e) && mem[nil] == old(mem)[nil]
    {
      ToSibling(mem, e, c, t);
      Rotate(Opp(d), w, e, Hole(Opp(d), c.it, c.red, t, c.up), c.sib);
      ToSibling(mem, e, Hole(Opp(d), c.it, c.red, t, c.up), Rotated(Opp(d), c.sib));
    }

    /** Case 3 of the fixup: the black sibling `w` has a red child on the near side only. */
    method FixNear(d: Dir, w: Ptr, ghost e: Arena, ghost c: Ctx, ghost t: Tree)
      requires e.nil == nil && e.root == root && Hanging(mem, e, c, t) && Lacking(c, t)
      requires c.Hole? && c.dir == d && c.sib.Node? && c.sib.it == w && !IsRed(c.sib)
      requires IsRed(Kid(c.sib, d)) && !IsRed(Kid(c.sib, Opp(d)))
      modifies this`mem
      ensures Hanging(mem, e, NearUp(c), t) && Confined(old(mem), mem, e)
    {
      ghost var m0 := mem;
      SiblingReads(mem, e, c, t);
      PaintSibKid(mem, e, c, t, d, false);
      ghost var c1 := c.(sib := Mk(d, Recoloured(Kid(c.sib, d), false), w, false, Kid(c.sib, Opp(d))));
      ghost var c2 := c1.(sib := Recoloured(c1.sib, true));
      assert Rotated(Opp(d), c2.sib) == NearUp(c).sib;
      hide Focus, Lacking, Confined, Rotated;
      mem := mem[mem[w].Child(d) := mem[mem[w].Child(d)].(red := false)];
      ghost var m1 := mem;
      PaintSib(mem, e, c1, t, true);
      mem := mem[w := mem[w].(red := true)];
      ConfinedTwice(m0, m1, mem, e);
      m1 := mem;
      RotateSibling(d, w, e, c2, t);
      ConfinedTwice(m0, m1, mem, e);
    }

    /** Case 4 of the fixup: the black sibling `w` has a red child on the far side. */
    method FixFar(d: Dir, x: Ptr, w: Ptr, ghost e: Arena, ghost c: Ctx, ghost t: Tree)
      requires e.nil == nil && e.root == root && Hanging(mem, e, c, t) && PtrOf(e, t) == x
      requires c.Hole? && c.dir == d && c.sib.Node? && c.sib.it == w
      requires IsRed(Kid(c.sib, Opp(d)))
      modifies this`mem
      ensures Focus(mem, e, c.up, FarTurned(c, t)) && Confined(old(mem), mem, e)
      ensures c.it in mem && !mem[c.it].red
    {
      ghost var m0 := mem;
      SiblingReads(mem, e, c, t);
      var p := mem[x].parent;
      ghost var c1 := c.(sib := Recoloured(c.sib, c.red));
      ghost var c2 := c1.(red := false);
      ghost var c3 := c2.(sib := Mk(Opp(d), Recoloured(Kid(c.sib, Opp(d)), false), w, c.red, Kid(c.sib, d)));
      PaintSib(mem, e, c, t, c.red);
      hide Focus, Confined, FarTurned;
      mem := mem[w := mem[w].(red := mem[p].red)];
      ghost var m1 := mem;
      PaintParent(mem, e, c1, t, false);
      mem := mem[p := mem[p].(red := false)];
      ConfinedTwice(m0, m1, mem, e);
      m1 := mem;
      PaintSibKid(mem, e, c2, t, Opp(d), false);
      mem := mem[mem[w].Child(Opp(d)) := mem[mem[w].Child(Opp(d))].(red := false)];
      ConfinedTwice(m0, m1, mem, e);
      m1 := mem;
      RotateParent(d, p, e, c3, t);
      ConfinedTwice(m0, m1, mem, e);
      FarTurnedFocus(mem, e, c, t);
    }
 
    /** Case 1 of the fixup: the sibling `w0` is red. */
    method FixRedSibling(d: Dir, x: Ptr, w0: Ptr, ghost e: Arena, ghost c0: Ctx, ghost t: Tree)
      returns (w: Ptr, ghost c: Ctx)
      requires e.nil == nil && e.root == root && Hanging(mem, e, c0, t) && Lacking(c0, t) && PtrOf(e, t) == x
      requires c0.Hole? && c0.dir == d && c0.sib.Node? && c0.sib.it == w0 && IsRed(c0.sib)
      modifies this`mem
      ensures c == SiblingUp(c0) && Hanging(mem, e, c, t) && Lacking(c, t) && Order(c, t) == Order(c0, t)
      ensures c.sib.Node? && c.sib.it == w && !IsRed(c.sib) && Confined(old(mem), mem, e)
    {
      ghost var m0 := mem;
      SiblingReads(mem, e, c0, t);
      SiblingUpLacks(c0, t);
      c := SiblingUp(c0);
      ghost var c1 := c0.(sib := Recoloured(c0.sib, false));
      ghost var c2 := c1.(red := true);
      PaintSib(mem, e, c0, t, false);
      hide Focus, Confined, Lacking, Order;
      var p := mem[x].parent;
      mem := mem[w0 := mem[w0].(red := false)];
      ghost var m1 := mem;
      PaintParent(mem, e, c1, t, true);
      mem := mem[p := mem[p].(red := true)];
      ConfinedTwice(m0, m1, mem, e);
      m1 := mem;
      RotateParent(d, p, e, c2, t);
      ConfinedTwice(m0, m1, mem, e);
      SiblingReads(mem, e, c, t);
      w := mem[p].Child(Opp(d));
    }

    /** RB_DELETE_FIXUP_SUB: one round of the fixup, with `x0` on side `d` of its parent. */
    method FixupSub(d: Dir, x0: Ptr, cap: Ptr, ghost e: Arena, ghost c0: Ctx, ghost t0: Tree)
      returns (x: Ptr, ghost done: bool, ghost c: Ctx, ghost t: Tree)
      requires e.nil == nil && e.root == root && Hanging(mem, e, c0, t0) && Lacking(c0, t0) && PtrOf(e, t0) == x0
      requires c0.Hole? && c0.dir == d && !IsRed(t0) && Apex(c0, x0) == cap
      modifies this`mem
      ensures Round(mem, e, cap, Order(c0, t0), x, done, c, t) && Confined(old(mem), mem, e)
      ensures done || IsRed(t) || Depth(c) < Depth(c0)
    {
      ghost var m0 := mem;
      LackingSiblingIsNode(c0, t0);
      SiblingReads(mem, e, c0, t0);
      ConfinedRefl(mem, e);
      hide Focus, Confined, Round, Order, Lacking;
      x, c := x0, c0;
      var w := mem[mem[x].parent].Child(Opp(d));
      if mem[w].red {
        w, c := FixRedSibling(d, x, w, e, c, t0);
      }
      ghost var m1 := mem;
      x, done, c, t := FixBlackSibling(d, x, w, cap, e, c0, c, t0);
      ConfinedTwice(m0, m1, mem, e);
    }

    /** The round once the sibling `w0` is black: cases 2, 3 and 4. */
    method FixBlackSibling(d: Dir, x0: Ptr, w0: Ptr, cap: Ptr, ghost e: Arena, ghost c0: Ctx, ghost c1: Ctx, ghost t0: Tree)
      returns (x: Ptr, ghost done: bool, ghost c: Ctx, ghost t: Tree)
      requires e.nil == nil && e.root == root && Hanging(mem, e, c1, t0) && Lacking(c1, t0) && PtrOf(e, t0) == x0
      requires c1.Hole? && c1.dir == d && c1.sib.Node? && c1.sib.it == w0 && !IsRed(c1.sib) && !IsRed(t0)
      requires c0.Hole? && Apex(c0, x0) == cap && (c1 == c0 || (c0.sib.Node? && c1 == SiblingUp(c0)))
      modifies this`mem
      ensures Round(mem, e, cap, Order(c1, t0), x, done, c, t) && Confined(old(mem), mem, e)
      ensures done || IsRed(t) || Depth(c) < Depth(c0)
    {
      ghost var m0, c2 := mem, c1;
      SiblingReads(mem, e, c1, t0);
      ConfinedRefl(mem, e);
      x := x0;
      var w := w0;
      if !mem[mem[w].left].red && !mem[mem[w].right].red {
        hide Focus, Confined, Round, Order, Lacking;
        PaintSib(mem, e, c1, t0, true);
        mem := mem[w := mem[w].(red := true)];
        SiblingReads(mem, e, c1.(sib := Recoloured(c1.sib, true)), t0);
        x := mem[x].parent;
        RoundUp(mem, e, cap, c0, c1, t0);
        done, c, t := false, c1.up, SiblingRed(c1, t0);
      } else {
        hide Focus, Confined, Round, Order, Lacking, InOrder;
        if !mem[mem[w].Child(Opp(d))].red {
          NearUpLacks(c1, t0);
          FixNear(d, w, e, c1, t0);
          c2 := NearUp(c1);
          SiblingReads(mem, e, c2, t0);
          w := mem[mem[x].parent].Child(Opp(d));
        }
        ghost var m1 := mem;
        FarTurnedIsDone(c2, t0);
        FixFar(d, x, w, e, c2, t0);
        ConfinedTwice(m0, m1, mem, e);
        RoundDone(mem, e, cap, c0, c2, t0);
        x, done, c, t := cap, true, Top, Plug(c2.up, FarTurned(c2, t0));
      }
    }
 
    /** Rounds of the fixup until the deficit at `node` is made up for. */
    method RbDeleteFixup(node: Ptr, ghost e: Arena, ghost c0: Ctx, ghost t0: Tree) returns (ghost r: Tree)
      requires e.nil == nil && e.root == root && Hanging(mem, e, c0, t0) && Lacking(c0, t0) && PtrOf(e, t0) == node
      modifies this`mem
      ensures Focus(mem, e, Top, r) && RedBlack(r) && Inorder(r) == Order(c0, t0) && Confined(old(mem), mem, e)
    {
      ghost var m0, done, c, t := mem, false, c0, t0;
      RoundStarts(mem, e, c, t);
      ConfinedRefl(mem, e);
      hide Focus, Confined, Round, Order, Lacking, RedBlack, Inorder;
      var x, cap := node, mem[root].left;
      RoundMember(mem, e, cap, Order(c0, t0), x, done, c, t);
      while x != cap && !mem[x].red
        invariant Round(mem, e, cap, Order(c0, t0), x, done, c, t) && Confined(m0, mem, e)
        invariant x in mem && (done ==> x == cap) && (!done ==> mem[x].red == IsRed(t))
        decreases if done then 0 else if IsRed(t) then 1 else 2 + Depth(c)
      {
        ghost var m1 := mem;
        RoundReads(mem, e, cap, Order(c0, t0), x, c, t);
        SiblingReads(mem, e, c, t);
        if x == mem[mem[x].parent].left {
          x, done, c, t := FixupSub(L, x, cap, e, c, t);
        } else {
          x, done, c, t := FixupSub(R, x, cap, e, c, t);
        }
        ConfinedTwice(m0, m1, mem, e);
        RoundMember(mem, e, cap, Order(c0, t0), x, done, c, t);
      }
      r := RoundsEnd(mem, e, cap, Order(c0, t0), x, done, c, t);
      ghost var m1 := mem;
      mem := mem[x := mem[x].(red := false)];
      ConfinedTwice(m0, m1, mem, e);
    }

    /** The leftmost node below `y0`. */
    method Leftmost(y0: Ptr, ghost e: Arena, ghost c: Ctx, ghost t: Tree) returns (y: Ptr, ghost q: Ctx, ghost ty: Tree)
      requires e.nil == nil && e.root == root && Focus(mem, e, c, t) && t.Node? && t.it == y0
      ensures t == Plug(q, ty) && ty.Node? && ty.it == y && ty.left.Leaf? && Before(q) == []
      ensures Focus(mem, e, Inside(q, c), ty)
    {
      y, q, ty := y0, Top, t;
      Around(mem, e, c, t);
      while mem[y].left != nil
        invariant t == Plug(q, ty) && ty.Node? && ty.it == y && Before(q) == [] && Focus(mem, e, Inside(q, c), ty)
        invariant y in mem && (mem[y].left == nil <==> ty.left.Leaf?)
        decreases ty
      {
        MoveDown(mem, e, Inside(q, c), ty, L);
        Around(mem, e, Inside(q, c), ty);
        y := mem[y].left;
        q, ty := Hole(L, ty.it, ty.red, ty.right, q), ty.left;
        Around(mem, e, Inside(q, c), ty);
      }
    }

    /** The first three steps of `RbDelete`: `y`, which has at most one child, gives its place to that child. */
    method Unlink(y: Ptr, ghost e: Arena, ghost c: Ctx, ghost t: Tree) returns (x: Ptr)
      requires e.nil == nil && e.root == root && Focus(mem, e, c, t)
      requires t.Node? && t.it == y && (t.left.Leaf? || t.right.Leaf?)
      modifies this`mem
      ensures x == PtrOf(e, Spliced(t)) && Hanging(mem, e.(nodes := e.nodes - {y}), c, Spliced(t))
      ensures Confined(old(mem), mem, e) && y in mem && y in old(mem) && mem[y] == old(mem)[y]
    {
      Around(mem, e, c, t);
      SpliceInMemory(mem, e, c, t);
      MoveDown(mem, e, c, t, L);
      Around(mem, e, Hole(L, y, t.red, t.right, c), t.left);
      hide Focus, Confined;
      x := if mem[y].left != nil then mem[y].left else mem[y].right;
      mem := mem[x := mem[x].(parent := mem[y].parent)];
      if y == mem[mem[y].parent].left {
        mem := mem[mem[y].parent := mem[mem[y].parent].(left := x)];
      } else {
        mem := mem[mem[y].parent := mem[mem[y].parent].(right := x)];
      }
    }

    /** The steps of `RbDelete` that put `y` in the place of `z`. */
    method Substitute(z: Ptr, y: Ptr, ghost e: Arena, ghost c: Ctx, ghost t: Tree)
      requires e.nil == nil && e.root == root && Focus(mem, e, c, t) && t.Node? && t.it == z && t.left.Node?
      requires y in mem && y !in e.nodes && y != nil && y != root
      modifies this`mem
      ensures Focus(mem, e.(nodes := e.nodes - {z} + {y}), c, Node(t.left, y, t.red, t.right))
      ensures Confined(old(mem), mem, e.(nodes := e.nodes + {y}))
      ensures nil in mem && nil in old(mem)
      ensures if t.right.Leaf? then mem[nil].parent == y else mem[nil] == old(mem)[nil]
    {
      TopReads(mem, e, c, t);
      ReplaceInMemory(mem, e, c, t, y);
      hide Focus, Confined;
      if z == mem[mem[z].parent].left {
        mem := mem[mem[z].parent := mem[mem[z].parent].(left := y)];
      } else {
        mem := mem[mem[z].parent := mem[mem[z].parent].(right := y)];
      }
      mem := mem[mem[z].right := mem[mem[z].right].(parent := y)];
      mem := mem[mem[z].left := mem[mem[z].left].(parent := y)];
      mem := mem[y := mem[z]];
    }
 
    /** The next node in order, or `nil`. When it lies below `node`, `q` and `ty` say where. */
    method RbTreeSuccessor(node: Ptr, ghost e: Arena, ghost c: Ctx, ghost t: Tree)
      returns (y: Ptr, ghost q: Ctx, ghost ty: Tree)
      requires e.nil == nil && e.root == root && Focus(mem, e, c, t) && t.Node? && t.it == node
      ensures var rest := Inorder(t.right) + After(c); y == if rest == [] then nil else rest[0]
      ensures t.right.Node? ==>
                && t.right == Plug(q, ty) && ty.Node? && ty.it == y && ty.left.Leaf? && Before(q) == []
                && Focus(mem, e, Inside(q, Hole(R, node, t.red, t.left, c)), ty)
    {
      Around(mem, e, c, t);
      q, ty := Top, Leaf;
      y := mem[node].right;
      if y != nil {
        MoveDown(mem, e, c, t, R);
        y, q, ty := Leftmost(y, e, Hole(R, node, t.red, t.left, c), t.right);
        LeftmostIsFirst(q, ty);
      } else {
        var x := node;
        y := mem[x].parent;
        ghost var c1, t1 := c, t;
        while x == mem[y].right
          invariant Focus(mem, e, c1, t1) && t1.Node? && x == t1.it && y == Par(e, c1) && y in mem
          invariant After(c1) == After(c)
          decreases Depth(c1)
        {
          Around(mem, e, c1, t1);
          MoveUp(mem, e, c1, t1);
          x := y;
          y := mem[y].parent;
          c1, t1 := c1.up, Mk(c1.dir, t1, c1.it, c1.red, c1.sib);
          Around(mem, e, c1, t1);
        }
        Around(mem, e, c1, t1);
        if y == root {
          y := nil;
        }
      }
    }

    /** The node after `node` in order, or nothing (`nil` stands for NULL). */
    method RbNodeNext(node: Ptr) returns (next: Ptr)
      requires Valid() && node in Ids(tree)
      ensures Follows(Inorder(tree), node, next, nil)
    {
      ghost var c, t := FocusOn(mem, Here(), Top, tree, node);
      ghost var q, ty;
      assert Order(Top, tree) == Inorder(tree);
      hide Follows, Focus, Order, Inorder, InOrder;
      next, q, ty := RbTreeSuccessor(node, Here(), c, t);
      NextInOrder(c, t, next, nil);
    }

    /** `z` leaves the tree, and nothing else does. */
    method RbDelete(z: Ptr)
      requires Valid() && z in Ids(tree)
      modifies this`mem, this`tree
      ensures Valid() && Ids(tree) == old(Ids(tree)) - {z}
      ensures Inorder(tree) == Lists.Without(old(Inorder(tree)), z)
      ensures Confined(old(mem), mem, old(Here()))
    {
      ghost var m0, e := mem, Here();
      RemovedIsSorted(rank, Inorder(tree), z);
      ghost var c, t := FocusOn(mem, e, Top, tree, z);
      assert Order(Top, tree) == Inorder(tree);
      Around(mem, e, c, t);
      hide Focus, Confined, Order, SortedBy, RedBlack, Inorder, InOrder;
      if mem[z].left == nil || mem[z].right == nil {
        tree := DeleteHere(z, e, c, t);
      } else {
        tree := DeleteThroughSuccessor(z, e, c, t);
      }
    }

    /** `RbDelete` of a node with at most one child. */
    method DeleteHere(z: Ptr, ghost e: Arena, ghost c: Ctx, ghost t: Tree) returns (ghost r: Tree)
      requires e.nil == nil && e.root == root && Focus(mem, e, c, t) && InOrder(c, t)
      requires t.Node? && t.it == z && (t.left.Leaf? || t.right.Leaf?)
      modifies this`mem
      ensures Focus(mem, e.(nodes := e.nodes - {z}), Top, r) && RedBlack(r) && Ids(r) == e.nodes - {z}
      ensures Inorder(r) == Lists.Without(Order(c, t), z) && Confined(old(mem), mem, e)
    {
      ghost var m0, e1 := mem, e.(nodes := e.nodes - {z});
      SplicedOrder(mem, e, c, t);
      SplicedConditions(c, t);
      Around(mem, e, c, t);
      hide Confined, Order, RedBlack, Inorder, InOrder, Lacking, Lists.Without, RepCtx, Rep;
      var x := Unlink(z, e, c, t);
      ghost var m1 := mem;
      r := Repair(mem[z].red, x, e1, c, Spliced(t));
      ConfinedWider(m1, mem, e1, e);
      ConfinedTwice(m0, m1, mem, e);
    }

    /** The last step of `RbDelete`: a fixup at `x` if the node taken out was black. */
    method Repair(red: bool, x: Ptr, ghost e: Arena, ghost c: Ctx, ghost t: Tree) returns (ghost r: Tree)
      requires e.nil == nil && e.root == root && Hanging(mem, e, c, t) && PtrOf(e, t) == x
      requires if red then InOrder(c, t) else Lacking(c, t)
      modifies this`mem
      ensures Focus(mem, e, Top, r) && RedBlack(r) && Inorder(r) == Order(c, t) && Confined(old(mem), mem, e)
      ensures Ids(r) == e.nodes
    {
      if red {
        r := Plug(c, t);
        PlugRedBlack(c, t);
        PlugInorder(c, t);
        MoveToTop(mem, e, c, t);
      } else {
        r := RbDeleteFixup(x, e, c, t);
      }
    }

    /** `RbDelete` of a node with two children: its successor is unlinked and takes its place. */
    method DeleteThroughSuccessor(z: Ptr, ghost e: Arena, ghost c: Ctx, ghost t: Tree) returns (ghost r: Tree)
      requires e.nil == nil && e.root == root && Focus(mem, e, c, t) && InOrder(c, t)
      requires t.Node? && t.it == z && t.left.Node? && t.right.Node?
      modifies this`mem
      ensures Focus(mem, e.(nodes := e.nodes - {z}), Top, r) && RedBlack(r) && Ids(r) == e.nodes - {z}
      ensures Inorder(r) == Lists.Without(Order(c, t), z) && Confined(old(mem), mem, e)
    {
      hide Focus, Confined, Order, RedBlack, Inorder, InOrder, Lacking, Lists.Without, Inside, Plug;
      ghost var m0, e1, e2 := mem, e, e.(nodes := e.nodes - {z});
      ghost var c1, q, ty := Hole(R, z, t.red, t.left, c), Top, t;
      var y;
      y, q, ty := RbTreeSuccessor(z, e, c, t);
      StepDownInOrder(c, t, R);
      InOrderInside(q, c1, ty);
      SplicedConditions(Inside(q, c1), ty);
      RenamedConditions(q, c1, y, ty.right);
      SuccessorOrder(mem, e, c, t, q, ty);
      SuccessorReads(mem, e, q, c1, ty);
      e1 := e.(nodes := e.nodes - {y});
      var x := Unlink(y, e, Inside(q, c1), ty);
      ghost var m1 := mem;
      r := TakePlace(z, y, mem[y].red, x, e1, c, t, q, ty.right);
      assert e1.(nodes := e1.nodes + {y}) == e && e1.(nodes := e1.nodes - {z} + {y}) == e2;
      ConfinedTwice(m0, m1, mem, e);
    }

    /** The second half: `y`, already unlinked, takes the place of `z`, and the tree is repaired. */
    method TakePlace(z: Ptr, y: Ptr, red: bool, x: Ptr, ghost e: Arena, ghost c: Ctx, ghost t: Tree, ghost q: Ctx, ghost tx: Tree)
      returns (ghost r: Tree)
      requires e.nil == nil && e.root == root && y in mem && y !in e.nodes && y != nil && y != root
      requires t.Node? && t.it == z && t.left.Node? && PtrOf(e, tx) == x
      requires Hanging(mem, e, Inside(q, Hole(R, z, t.red, t.left, c)), tx)
      requires var c' := Inside(q, Hole(R, y, t.red, t.left, c)); if red then InOrder(c', tx) else Lacking(c', tx)
      modifies this`mem
      ensures var e2 := e.(nodes := e.nodes - {z} + {y});
        Focus(mem, e2, Top, r) && RedBlack(r) && Ids(r) == e2.nodes
      ensures Inorder(r) == Order(Inside(q, Hole(R, y, t.red, t.left, c)), tx)
      ensures Confined(old(mem), mem, e.(nodes := e.nodes + {y}))
    {
      ghost var m0, e2, c2 := mem, e.(nodes := e.nodes - {z} + {y}), Inside(q, Hole(R, y, t.red, t.left, c));
      UpToReplaced(mem, e, c, t, q, tx);
      hide Focus, Confined, Order, RedBlack, Inorder, InOrder, Lacking, Inside, Plug;
      Substitute(z, y, e, c, Node(t.left, z, t.red, Plug(q, tx)));
      BackInside(m0, mem, e, e2, c, t, q, tx, y);
      ghost var m1 := mem;
      r := Repair(red, x, e2, c2, tx);
      ConfinedWider(m1, mem, e2, e.(nodes := e.nodes + {y}));
      ConfinedTwice(m0, m1, mem, e.(nodes := e.nodes + {y}));
    }
 
    /**
     * Find a node whose comparison with a key, `cmp`, is 0. The result is `nil` (NULL) if there is none,
     * and otherwise the highest one: all others lie below it.
     */
    method RbSearch(cmp: Ptr -> int) returns (r: Ptr, ghost c: Ctx, ghost t: Tree)
      requires Valid() && Monotone(cmp, Inorder(tree))
      ensures r == nil <==> forall x :: x in Ids(tree) ==> cmp(x) != 0
      ensures r != nil ==> cmp(r) == 0 && r in Ids(tree) && t.Node? && t.it == r && tree == Plug(c, t)
      ensures r != nil ==> forall x :: x in Ids(tree) && cmp(x) == 0 ==> x in Ids(t)
    {
      c, t := Top, tree;
      ghost var e := Here();
      Around(mem, e, c, t);
      r := mem[root].left;
      InorderIds(tree);
      assert Order(c, t) == Inorder(tree);
      while r != nil && cmp(r) != 0
        invariant Searching(mem, e, cmp, c, t, tree) && r == PtrOf(e, t) && (r == nil <==> t.Leaf?)
        decreases t
      {
        ghost var d := if cmp(r) > 0 then L else R;
        SearchStep(mem, e, cmp, c, t, tree, d);
        r := if cmp(r) > 0 then mem[r].left else mem[r].right;
        c, t := Hole(d, t.it, t.red, Kid(t, Opp(d)), c), Kid(t, d);
        Around(mem, e, c, t);
      }
      SearchEnds(mem, e, cmp, c, t, tree);
    }
  }
}
