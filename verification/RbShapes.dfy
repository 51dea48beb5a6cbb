/** Binary trees with a focus, the red-black conditions, and what rotations and recolouring do to them. */
module RbShapes {
  import opened Binary

  type Ptr = int

  /** The macros of rb_tree.c are instantiated for both sides; `Dir` is their parameter. */
  datatype Dir = L | R

  function Opp(d: Dir): Dir {
    if d == L then R else L
  }

  datatype Tree = Leaf | Node(left: Tree, it: Ptr, red: bool, right: Tree)

  /** A tree with a hole: the hole is the `dir` child of `it`, whose other child is `sib`. */
  datatype Ctx = Top | Hole(dir: Dir, it: Ptr, red: bool, sib: Tree, up: Ctx)

  /** The node `x` with `a` on side `d` and `b` on the other. */
  function Mk(d: Dir, a: Tree, x: Ptr, red: bool, b: Tree): Tree {
    if d == L then Node(a, x, red, b) else Node(b, x, red, a)
  }

  function Kid(t: Tree, d: Dir): Tree
    requires t.Node?
  {
    if d == L then t.left else t.right
  }

  function IsRed(t: Tree): bool {
    t.Node? && t.red
  }

  function Plug(c: Ctx, t: Tree): Tree {
    match c
    case Top => t
    case Hole(d, x, red, sib, up) => Plug(up, Mk(d, t, x, red, sib))
  }

  function Depth(c: Ctx): nat {
    if c.Top? then 0 else 1 + Depth(c.up)
  }

  // ---------- order ----------

  function Inorder(t: Tree): seq<Ptr> {
    match t
    case Leaf => []
    case Node(l, x, _, r) => Inorder(l) + [x] + Inorder(r)
  }

  /** What comes before and after the hole. */
  function Before(c: Ctx): seq<Ptr> {
    match c
    case Top => []
    case Hole(d, x, _, sib, up) => if d == L then Before(up) else Before(up) + Inorder(sib) + [x]
  }

  function After(c: Ctx): seq<Ptr> {
    match c
    case Top => []
    case Hole(d, x, _, sib, up) => if d == L then [x] + Inorder(sib) + After(up) else After(up)
  }

  lemma {:induction false} PlugInorder(c: Ctx, t: Tree)
    ensures Inorder(Plug(c, t)) == Order(c, t)
    decreases c
  {
    if c.Hole? {
      PlugInorder(c.up, Mk(c.dir, t, c.it, c.red, c.sib));
      OrderUp(c, t, c.red);
    }
  }

  /** All nodes of the focused tree, in order. */
  function Order(c: Ctx, t: Tree): seq<Ptr> {
    Before(c) + Inorder(t) + After(c)
  }

  /** Moving the focus up does not change the order, whatever colour the parent gets. */
  lemma OrderUp(c: Ctx, t: Tree, red: bool)
    requires c.Hole?
    ensures Order(c.up, Mk(c.dir, t, c.it, red, c.sib)) == Order(c, t)
  {
    if c.dir == L {
      Regroup(Before(c.up), Inorder(t), [c.it], Inorder(c.sib), After(c.up));
    } else {
      Regroup(Before(c.up), Inorder(c.sib), [c.it], Inorder(t), After(c.up));
    }
  }

  lemma OrderSib(c: Ctx, t: Tree, sib: Tree)
    requires c.Hole? && Inorder(sib) == Inorder(c.sib)
    ensures Order(c.(sib := sib), t) == Order(c, t)
  {
  }

  lemma Regroup<X>(a: seq<X>, b: seq<X>, c: seq<X>, d: seq<X>, e: seq<X>)
    ensures a + (b + c + d) + e == a + b + (c + d + e)
    ensures a + (b + c + d) + e == a + b + c + d + e
  {
  }

  // ---------- the red-black conditions ----------

  /** Black nodes on the way down the left edge; a missing child counts as one. */
  function BlackHeight(t: Tree): (h: nat)
    ensures h >= 1
  {
    match t
    case Leaf => 1
    case Node(l, _, red, _) => BlackHeight(l) + if red then 0 else 1
  }

  /** Every way down meets the same number of black nodes. */
  predicate Balanced(t: Tree) {
    match t
    case Leaf => true
    case Node(l, _, _, r) => Balanced(l) && Balanced(r) && BlackHeight(l) == BlackHeight(r)
  }

  /** No red node has a red child. */
  predicate NoRedRed(t: Tree) {
    match t
    case Leaf => true
    case Node(l, _, red, r) => NoRedRed(l) && NoRedRed(r) && (red ==> !IsRed(l) && !IsRed(r))
  }

  predicate RedBlack(t: Tree) {
    Balanced(t) && NoRedRed(t) && !IsRed(t)
  }

  /** The rest of the tree is balanced around a subtree of black height `h`. */
  predicate CtxBalanced(c: Ctx, h: int) {
    match c
    case Top => true
    case Hole(_, _, red, sib, up) =>
      Balanced(sib) && BlackHeight(sib) == h && CtxBalanced(up, h + if red then 0 else 1)
  }

  /** The rest of the tree has no red-red edge and a black root, if the hole is filled by a red node or not. */
  predicate CtxNoRedRed(c: Ctx, redHole: bool) {
    match c
    case Top => !redHole
    case Hole(_, _, red, sib, up) =>
      NoRedRed(sib) && (red ==> !IsRed(sib) && !redHole) && CtxNoRedRed(up, red)
  }

  lemma {:induction false} PlugRedBlack(c: Ctx, t: Tree)
    requires Balanced(t) && NoRedRed(t) && CtxBalanced(c, BlackHeight(t)) && CtxNoRedRed(c, IsRed(t))
    ensures RedBlack(Plug(c, t))
  {
    if c.Hole? {
      PlugRedBlack(c.up, Mk(c.dir, t, c.it, c.red, c.sib));
    }
  }

  // ---------- size and height ----------

  function Size(t: Tree): nat {
    if t.Leaf? then 0 else Size(t.left) + 1 + Size(t.right)
  }

  function Height(t: Tree): nat {
    if t.Leaf? then 0 else 1 + if Height(t.left) > Height(t.right) then Height(t.left) else Height(t.right)
  }

  lemma {:induction false} SizeFromBlackHeight(t: Tree)
    requires Balanced(t)
    ensures Pow2(BlackHeight(t) - 1) <= Size(t) + 1
  {
    if t.Node? {
      SizeFromBlackHeight(t.left);
      SizeFromBlackHeight(t.right);
    }
  }

  lemma {:induction false} HeightFromBlackHeight(t: Tree)
    requires Balanced(t) && NoRedRed(t)
    ensures Height(t) <= 2 * (BlackHeight(t) - 1) + if IsRed(t) then 1 else 0
  {
    if t.Node? {
      HeightFromBlackHeight(t.left);
      HeightFromBlackHeight(t.right);
    }
  }

  /** A red-black tree of `n` nodes is at most `2 log2(n + 1)` high. */
  lemma HeightLogarithmic(t: Tree)
    requires RedBlack(t)
    ensures Pow2((Height(t) + 1) / 2) <= Size(t) + 1
  {
    SizeFromBlackHeight(t);
    HeightFromBlackHeight(t);
    PowersGrow((Height(t) + 1) / 2, BlackHeight(t) - 1);
  }
}
