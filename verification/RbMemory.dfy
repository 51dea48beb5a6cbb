/** How trees and contexts are laid out in memory as parent-linked nodes between two sentinels. */
module RbMemory {
  import opened RbShapes

  datatype RbNode = RbNode(red: bool, parent: Ptr, left: Ptr, right: Ptr) {
    function Child(d: Dir): Ptr {
      if d == L then left else right
    }

    function WithChild(d: Dir, p: Ptr): RbNode {
      if d == L then this.(left := p) else this.(right := p)
    }
  }

  type Mem = map<Ptr, RbNode>

  /** The two sentinels and the nodes of the tree between them. */
  datatype Arena = Arena(nil: Ptr, root: Ptr, nodes: set<Ptr>)

  function PtrOf(e: Arena, t: Tree): Ptr {
    if t.Leaf? then e.nil else t.it
  }

  /** The node a subtree in this context hangs from. */
  function Par(e: Arena, c: Ctx): Ptr {
    if c.Top? then e.root else c.it
  }

  function DirOf(c: Ctx): Dir {
    if c.Top? then L else c.dir
  }

  function Ids(t: Tree): set<Ptr> {
    match t
    case Leaf => {}
    case Node(l, x, _, r) => Ids(l) + {x} + Ids(r)
  }

  function CtxIds(c: Ctx): set<Ptr> {
    match c
    case Top => {}
    case Hole(_, x, _, sib, up) => {x} + Ids(sib) + CtxIds(up)
  }

  predicate Distinct(t: Tree) {
    match t
    case Leaf => true
    case Node(l, x, _, r) => Distinct(l) && Distinct(r) && x !in Ids(l) && x !in Ids(r) && Ids(l) !! Ids(r)
  }

  predicate CtxDistinct(c: Ctx) {
    match c
    case Top => true
    case Hole(_, x, _, sib, up) =>
      && Distinct(sib) && CtxDistinct(up) && x !in Ids(sib) && x !in CtxIds(up) && Ids(sib) !! CtxIds(up)
  }

  /** Memory lays out `t` with `par` as the parent of its top node. */
  ghost predicate Rep(m: Mem, e: Arena, t: Tree, par: Ptr) {
    match t
    case Leaf => true
    case Node(l, x, red, r) =>
      && x in m && m[x] == RbNode(red, par, PtrOf(e, l), PtrOf(e, r))
      && Rep(m, e, l, x) && Rep(m, e, r, x)
  }

  /** Memory lays out everything around the hole, and `p` is the pointer stored in the hole. */
  ghost predicate RepCtx(m: Mem, e: Arena, c: Ctx, p: Ptr) {
    match c
    case Top => e.root in m && m[e.root].left == p
    case Hole(d, x, red, sib, up) =>
      && x in m && m[x] == RbNode(red, Par(e, up), e.nil, e.nil).WithChild(d, p).WithChild(Opp(d), PtrOf(e, sib))
      && Rep(m, e, sib, x) && RepCtx(m, e, up, x)
  }

  /** The sentinels are black, and nothing hangs to the right of the upper one. */
  ghost predicate Sentinels(m: Mem, e: Arena) {
    && e.nil != e.root && e.nil in m && e.root in m
    && !m[e.nil].red && !m[e.root].red && m[e.root].right == e.nil
  }

  /** All nodes of the focused tree are different from one another and from the sentinels. */
  ghost predicate Separate(e: Arena, c: Ctx, t: Tree) {
    && Distinct(t) && CtxDistinct(c) && Ids(t) !! CtxIds(c)
    && Ids(t) + CtxIds(c) == e.nodes && e.nil !in e.nodes && e.root !in e.nodes
  }

  /** Memory holds the tree `Plug(c, t)`, seen with the focus on `t`. */
  ghost predicate Focus(m: Mem, e: Arena, c: Ctx, t: Tree) {
    && Sentinels(m, e) && Separate(e, c, t)
    && Rep(m, e, t, Par(e, c)) && RepCtx(m, e, c, PtrOf(e, t))
  }

  lemma MkIds(d: Dir, a: Tree, x: Ptr, red: bool, b: Tree)
    ensures Ids(Mk(d, a, x, red, b)) == Ids(a) + {x} + Ids(b)
    ensures Distinct(Mk(d, a, x, red, b)) <==>
            Distinct(a) && Distinct(b) && x !in Ids(a) && x !in Ids(b) && Ids(a) !! Ids(b)
  {
  }

  // ---------- moving the focus ----------

  lemma MoveUp(m: Mem, e: Arena, c: Ctx, t: Tree)
    requires Focus(m, e, c, t) && c.Hole?
    ensures Focus(m, e, c.up, Mk(c.dir, t, c.it, c.red, c.sib))
  {
  }

  lemma MoveDown(m: Mem, e: Arena, c: Ctx, t: Tree, d: Dir)
    requires Focus(m, e, c, t) && t.Node?
    ensures Focus(m, e, Hole(d, t.it, t.red, Kid(t, Opp(d)), c), Kid(t, d))
    ensures t == Mk(d, Kid(t, d), t.it, t.red, Kid(t, Opp(d)))
  {
  }

  lemma {:induction false} MoveToTop(m: Mem, e: Arena, c: Ctx, t: Tree)
    requires Focus(m, e, c, t)
    ensures Focus(m, e, Top, Plug(c, t))
    decreases c
  {
    if c.Hole? {
      MoveUp(m, e, c, t);
      MoveToTop(m, e, c.up, Mk(c.dir, t, c.it, c.red, c.sib));
    }
  }

  // ---------- frames ----------

  ghost predicate Agree(m: Mem, m': Mem, S: set<Ptr>) {
    forall q :: q in S ==> q in m && q in m' && m'[q] == m[q]
  }

  /** Nothing but the tree and its sentinels has been written to. */
  ghost predicate Confined(m: Mem, m': Mem, e: Arena) {
    m'.Keys == m.Keys && forall q :: q in m && q !in e.nodes && q != e.nil && q != e.root ==> m'[q] == m[q]
  }

  lemma {:induction false} RepKeeps(m: Mem, m': Mem, e: Arena, t: Tree, par: Ptr)
    requires Rep(m, e, t, par) && Agree(m, m', Ids(t))
    ensures Rep(m', e, t, par)
  {
    if t.Node? {
      RepKeeps(m, m', e, t.left, t.it);
      RepKeeps(m, m', e, t.right, t.it);
    }
  }

  lemma {:induction false} RepCtxKeeps(m: Mem, m': Mem, e: Arena, c: Ctx, p: Ptr)
    requires RepCtx(m, e, c, p) && Agree(m, m', CtxIds(c) + {e.root})
    ensures RepCtx(m', e, c, p)
  {
    if c.Hole? {
      RepKeeps(m, m', e, c.sib, c.it);
      RepCtxKeeps(m, m', e, c.up, c.it);
    }
  }

  /** Hanging another pointer into the hole. */
  lemma RepCtxRepoint(m: Mem, m': Mem, e: Arena, c: Ctx, p: Ptr, p': Ptr)
    requires RepCtx(m, e, c, p) && CtxDistinct(c) && e.root !in CtxIds(c)
    requires Agree(m, m', CtxIds(c) + {e.root} - {Par(e, c)})
    requires Par(e, c) in m && Par(e, c) in m' && m'[Par(e, c)] == m[Par(e, c)].WithChild(DirOf(c), p')
    ensures RepCtx(m', e, c, p')
  {
    if c.Hole? {
      RepKeeps(m, m', e, c.sib, c.it);
      RepCtxKeeps(m, m', e, c.up, c.it);
    }
  }

  /** Hanging a tree from another parent. */
  lemma RepReparent(m: Mem, m': Mem, e: Arena, t: Tree, par: Ptr, par': Ptr)
    requires Rep(m, e, t, par) && Distinct(t)
    requires t.Node? ==> Agree(m, m', Ids(t) - {t.it}) && t.it in m' && m'[t.it] == m[t.it].(parent := par')
    ensures Rep(m', e, t, par')
  {
    if t.Node? {
      RepKeeps(m, m', e, t.left, t.it);
      RepKeeps(m, m', e, t.right, t.it);
    }
  }

  lemma {:induction false} RepIds(m: Mem, e: Arena, t: Tree, par: Ptr)
    requires Rep(m, e, t, par)
    ensures forall q :: q in Ids(t) ==> q in m
  {
    if t.Node? {
      RepIds(m, e, t.left, t.it);
      RepIds(m, e, t.right, t.it);
    }
  }

  lemma {:induction false} RepCtxIds(m: Mem, e: Arena, c: Ctx, p: Ptr)
    requires RepCtx(m, e, c, p)
    ensures e.root in m && forall q :: q in CtxIds(c) ==> q in m
  {
    if c.Hole? {
      RepIds(m, e, c.sib, c.it);
      RepCtxIds(m, e, c.up, c.it);
    }
  }

  // ---------- the two kinds of change ----------

  function Recoloured(t: Tree, red: bool): Tree
    requires t.Node?
  {
    Node(t.left, t.it, red, t.right)
  }

  lemma SetRedFocus(m: Mem, e: Arena, c: Ctx, t: Tree, red: bool, m': Mem)
    requires Focus(m, e, c, t) && t.Node? && m' == m[t.it := m[t.it].(red := red)]
    ensures Focus(m', e, c, Recoloured(t, red)) && Confined(m, m', e) && m'[e.nil] == m[e.nil]
  {
    RepIds(m, e, t, Par(e, c));
    RepCtxIds(m, e, c, PtrOf(e, t));
    RepKeeps(m, m', e, t.left, t.it);
    RepKeeps(m, m', e, t.right, t.it);
    RepCtxKeeps(m, m', e, c, t.it);
  }

  /** `t` has a node on side `Opp(d)`, as a rotation to side `d` needs. */
  predicate CanRotate(d: Dir, t: Tree) {
    t.Node? && Kid(t, Opp(d)).Node?
  }

  function Rotated(d: Dir, t: Tree): Tree
    requires CanRotate(d, t)
  {
    var y := Kid(t, Opp(d));
    Mk(d, Mk(d, Kid(t, d), t.it, t.red, Kid(y, d)), y.it, y.red, Kid(y, Opp(d)))
  }

  lemma RotatedKeepsOrder(d: Dir, t: Tree)
    requires CanRotate(d, t)
    ensures Inorder(Rotated(d, t)) == Inorder(t) && Ids(Rotated(d, t)) == Ids(t)
    ensures Size(Rotated(d, t)) == Size(t)
  {
    var y := Kid(t, Opp(d));
    if d == L {
      Regroup(Inorder(t.left) + [t.it], Inorder(y.left), [y.it], Inorder(y.right), []);
    } else {
      Regroup([], Inorder(y.left), [y.it], Inorder(y.right), [t.it] + Inorder(t.right));
    }
  }

  /** The memory a rotation leaves behind, node by node. */
  ghost predicate RotatedMem(m: Mem, m': Mem, e: Arena, d: Dir, t: Tree, c: Ctx)
    requires CanRotate(d, t)
  {
    var x, y := t.it, Kid(t, Opp(d));
    var b, par := Kid(y, d), Par(e, c);
    && m'.Keys == m.Keys && {x, y.it, par} <= m.Keys
    && m'[x] == m[x].WithChild(Opp(d), PtrOf(e, b)).(parent := y.it)
    && m'[y.it] == m[y.it].WithChild(d, x).(parent := par)
    && m'[par] == m[par].WithChild(DirOf(c), y.it)
    && (b.Node? ==> b.it in m && m'[b.it] == m[b.it].(parent := x))
    && (forall q :: q in m && q != x && q != y.it && q != par && !(b.Node? && q == b.it) ==> m'[q] == m[q])
  }

  lemma RotatedIds(d: Dir, t: Tree)
    requires CanRotate(d, t) && Distinct(t)
    ensures Distinct(Rotated(d, t)) && Ids(Rotated(d, t)) == Ids(t)
    ensures t.it in Ids(t) && Kid(t, Opp(d)).it in Ids(t) 
    ensures Kid(Kid(t, Opp(d)), d).Node? ==> Kid(Kid(t, Opp(d)), d).it in Ids(t)
  {
    var y := Kid(t, Opp(d));
    var a, b, z := Kid(t, d), Kid(y, d), Kid(y, Opp(d));
    MkIds(d, a, t.it, t.red, y);
    MkIds(d, b, y.it, y.red, z);
    MkIds(d, a, t.it, t.red, b);
    MkIds(d, Mk(d, a, t.it, t.red, b), y.it, y.red, z);
    if b.Node? {
      MkIds(L, b.left, b.it, b.red, b.right);
    }
  }

  lemma RotatedRep(m: Mem, m': Mem, e: Arena, d: Dir, c: Ctx, t: Tree)
    requires Focus(m, e, c, t) && CanRotate(d, t) && RotatedMem(m, m', e, d, t, c)
    ensures Rep(m', e, Rotated(d, t), Par(e, c))
  {
    var x, y := t.it, Kid(t, Opp(d));
    var a, b, z := Kid(t, d), Kid(y, d), Kid(y, Opp(d));
    assert Ids(y) == Ids(b) + {y.it} + Ids(z) && Distinct(y) && Rep(m, e, y, x);
    assert Ids(t) == Ids(a) + {x} + Ids(y);
    assert Par(e, c) !in Ids(t);
    RepIds(m, e, t, Par(e, c));
    RepKeeps(m, m', e, a, x);
    RepReparent(m, m', e, b, y.it, x);
    RepKeeps(m, m', e, z, y.it);
    assert Rep(m', e, Mk(d, a, x, t.red, b), y.it);
  }

  lemma RotateFocus(m: Mem, m': Mem, e: Arena, d: Dir, c: Ctx, t: Tree)
    requires Focus(m, e, c, t) && CanRotate(d, t) && RotatedMem(m, m', e, d, t, c)
    ensures Focus(m', e, c, Rotated(d, t)) && Confined(m, m', e) && m'[e.nil] == m[e.nil]
  {
    var y := Kid(t, Opp(d));
    RotatedIds(d, t);
    RotatedRep(m, m', e, d, c, t);
    RepCtxIds(m, e, c, t.it);
    RepCtxRepoint(m, m', e, c, t.it, y.it);
  }

  /** What the code reads off the nodes around the focus. */
  lemma Around(m: Mem, e: Arena, c: Ctx, t: Tree)
    requires Focus(m, e, c, t)
    ensures Sentinels(m, e)
    ensures t.Node? ==> t.it in m && t.it != e.nil && t.it != e.root &&
                        m[t.it] == RbNode(t.red, Par(e, c), PtrOf(e, t.left), PtrOf(e, t.right))
    ensures Par(e, c) in m && Par(e, c) != e.nil && Par(e, c) != PtrOf(e, t)
    ensures m[Par(e, c)].Child(DirOf(c)) == PtrOf(e, t)
    ensures c.Top? ==> m[e.root].right == e.nil
    ensures c.Hole? ==> c.it != e.root && m[c.it].red == c.red && m[c.it].parent == Par(e, c.up) &&
                        m[c.it].Child(Opp(c.dir)) == PtrOf(e, c.sib) &&
                        (t.Node? || c.sib.Node? ==> PtrOf(e, t) != PtrOf(e, c.sib))
  {
  }
}
