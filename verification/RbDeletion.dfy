/** Why rb_delete and rb_delete_fixup restore the red-black conditions, on plain trees and in memory. */
module RbDeletion {
  import Lists
  import opened RbShapes
  import opened RbMemory
  import opened RbInsertion

  function Black(t: Tree): Tree {
    if t.Node? then Recoloured(t, false) else t
  }

  /** The focus is one black node short; its own top may be red, with red children, since black will be put there. */
  predicate Lacking(c: Ctx, t: Tree) {
    && Balanced(t) && NoRedRed(Black(t))
    && CtxBalanced(c, BlackHeight(t) + 1) && CtxNoRedRed(c, false)
  }

  lemma LackingSiblingIsNode(c: Ctx, t: Tree)
    requires Lacking(c, t) && c.Hole?
    ensures c.sib.Node?
  {
  }

  /** Colouring a red focus, or the top of the tree, black makes up for the missing node. */
  lemma LackingEnds(c: Ctx, t: Tree)
    requires Lacking(c, t) && (c.Top? || IsRed(t))
    ensures RedBlack(Plug(c, Black(t)))
  {
    if c.Hole? {
      PlugRedBlack(c, Black(t));
    }
  }

  /** Case 1: the red sibling is rotated above the parent, and the two trade colours. */
  function SiblingUp(c: Ctx): Ctx
    requires c.Hole? && c.sib.Node?
  {
    var d, w := c.dir, c.sib;
    Hole(d, c.it, true, Kid(w, d), Hole(d, w.it, false, Kid(w, Opp(d)), c.up))
  }

  lemma SiblingUpLacks(c: Ctx, t: Tree)
    requires Lacking(c, t) && c.Hole? && IsRed(c.sib)
    ensures Lacking(SiblingUp(c), t) && Order(SiblingUp(c), t) == Order(c, t)
    ensures !IsRed(SiblingUp(c).sib) && !c.red && SiblingUp(c).sib.Node?
  {
    var d, w, c' := c.dir, c.sib, SiblingUp(c);
    assert CtxNoRedRed(c.up, c.red);
    var p := Mk(d, t, c.it, true, Recoloured(w, false));
    OrderUp(c.(sib := Recoloured(w, false)), t, true);
    OrderUp(c', t, true);
    OrderUp(c'.up, Mk(d, t, c.it, true, Kid(w, d)), false);
    RotatedKeepsOrder(d, p);
    assert Rotated(d, p) == Mk(d, Mk(d, t, c.it, true, Kid(w, d)), w.it, false, Kid(w, Opp(d)));
    LackingSiblingIsNode(c', t);
  }

  /** Case 2: a black sibling without red children gives up its black, and the parent lacks it now. */
  function SiblingRed(c: Ctx, t: Tree): Tree
    requires c.Hole? && c.sib.Node?
  {
    Mk(c.dir, t, c.it, c.red, Recoloured(c.sib, true))
  }

  lemma SiblingRedLacks(c: Ctx, t: Tree)
    requires Lacking(c, t) && c.Hole? && c.sib.Node? && !IsRed(t) && !IsRed(c.sib)
    requires !IsRed(c.sib.left) && !IsRed(c.sib.right)
    ensures Lacking(c.up, SiblingRed(c, t)) && Order(c.up, SiblingRed(c, t)) == Order(c, t)
  {
    var w := Recoloured(c.sib, true);
    assert Balanced(w) && NoRedRed(w) && BlackHeight(w) == BlackHeight(t);
    CtxAnyHole(c.up, c.red);
    OrderUp(c.(sib := w), t, c.red);
  }

  lemma CtxAnyHole(c: Ctx, red: bool)
    requires CtxNoRedRed(c, red)
    ensures CtxNoRedRed(c, false)
  {
  }

  /** Case 3: the sibling's red near child is rotated above it. */
  function NearUp(c: Ctx): Ctx
    requires c.Hole? && c.sib.Node? && Kid(c.sib, c.dir).Node?
  {
    var d, w := c.dir, c.sib;
    var b := Kid(w, d);
    c.(sib := Mk(d, Kid(b, d), b.it, false, Mk(d, Kid(b, Opp(d)), w.it, true, Kid(w, Opp(d)))))
  }

  lemma KidsOf(t: Tree, d: Dir)
    requires t.Node? && Balanced(t) && NoRedRed(t)
    ensures Balanced(Kid(t, d)) && NoRedRed(Kid(t, d))
    ensures BlackHeight(Kid(t, d)) == BlackHeight(t) - if t.red then 0 else 1
    ensures t.red ==> !IsRed(Kid(t, d))
    ensures t == Mk(d, Kid(t, d), t.it, t.red, Kid(t, Opp(d)))
  {
  }

  lemma MkBalanced(d: Dir, a: Tree, x: Ptr, red: bool, b: Tree)
    requires Balanced(a) && Balanced(b) && BlackHeight(a) == BlackHeight(b)
    requires NoRedRed(a) && NoRedRed(b) && (red ==> !IsRed(a) && !IsRed(b))
    ensures Balanced(Mk(d, a, x, red, b)) && NoRedRed(Mk(d, a, x, red, b))
    ensures BlackHeight(Mk(d, a, x, red, b)) == BlackHeight(a) + if red then 0 else 1
  {
  }

  lemma NearUpLacks(c: Ctx, t: Tree)
    requires Lacking(c, t) && c.Hole? && c.sib.Node? && !IsRed(c.sib)
    requires IsRed(Kid(c.sib, c.dir)) && !IsRed(Kid(c.sib, Opp(c.dir)))
    ensures Lacking(NearUp(c), t) && Order(NearUp(c), t) == Order(c, t)
    ensures !IsRed(NearUp(c).sib) && NearUp(c).sib.Node? && IsRed(Kid(NearUp(c).sib, Opp(c.dir)))
  {
    var d, w := c.dir, c.sib;
    var b, z := Kid(w, d), Kid(w, Opp(d));
    KidsOf(w, d);
    KidsOf(w, Opp(d));
    KidsOf(b, d);
    KidsOf(b, Opp(d));
    MkBalanced(d, Kid(b, Opp(d)), w.it, true, z);
    MkBalanced(d, Kid(b, d), b.it, false, Mk(d, Kid(b, Opp(d)), w.it, true, z));
    NearUpKeepsOrder(c, t);
  }

  lemma NearUpKeepsOrder(c: Ctx, t: Tree)
    requires c.Hole? && c.sib.Node? && Kid(c.sib, c.dir).Node?
    ensures Order(NearUp(c), t) == Order(c, t)
  {
    var d, w := c.dir, c.sib;
    var b, z := Kid(w, d), Kid(w, Opp(d));
    var w' := Mk(d, Recoloured(b, false), w.it, true, z);
    assert Rotated(Opp(d), w') == NearUp(c).sib;
    RotatedKeepsOrder(Opp(d), w');
    MkOrder(d, Recoloured(b, false), b, w.it, true, w.red, z, z);
    OrderSib(c, t, NearUp(c).sib);
  }

  lemma MkOrder(d: Dir, a: Tree, a': Tree, x: Ptr, red: bool, red': bool, b: Tree, b': Tree)
    requires Inorder(a) == Inorder(a') && Inorder(b) == Inorder(b')
    ensures Inorder(Mk(d, a, x, red, b)) == Inorder(Mk(d, a', x, red', b'))
  {
  }

  /** Case 4: the sibling takes the parent's place and colour, and its red far child turns black. */
  function FarTurned(c: Ctx, t: Tree): Tree
    requires c.Hole? && c.sib.Node?
  {
    var d, w := c.dir, c.sib;
    Mk(d, Mk(d, t, c.it, false, Kid(w, d)), w.it, c.red, Black(Kid(w, Opp(d))))
  }

  lemma FarTurnedIsDone(c: Ctx, t: Tree)
    requires Lacking(c, t) && c.Hole? && c.sib.Node? && !IsRed(t) && !IsRed(c.sib)
    requires IsRed(Kid(c.sib, Opp(c.dir)))
    ensures InOrder(c.up, FarTurned(c, t)) && Order(c.up, FarTurned(c, t)) == Order(c, t)
  {
    var d, w := c.dir, c.sib;
    var b, z := Kid(w, d), Kid(w, Opp(d));
    assert Balanced(w) && NoRedRed(w) && BlackHeight(w) == BlackHeight(t) + 1 && NoRedRed(t);
    KidsOf(w, d);
    KidsOf(w, Opp(d));
    assert Balanced(Black(z)) && NoRedRed(Black(z)) && BlackHeight(Black(z)) == BlackHeight(z) + 1;
    MkBalanced(d, t, c.it, false, b);
    MkBalanced(d, Mk(d, t, c.it, false, b), w.it, c.red, Black(z));
    FarTurnedKeepsOrder(c, t);
  }

  lemma FarTurnedKeepsOrder(c: Ctx, t: Tree)
    requires c.Hole? && c.sib.Node?
    ensures Order(c.up, FarTurned(c, t)) == Order(c, t)
  {
    var d, w := c.dir, c.sib;
    var b, z := Kid(w, d), Kid(w, Opp(d));
    var w' := Mk(d, b, w.it, c.red, Black(z));
    assert Rotated(d, Mk(d, t, c.it, false, w')) == FarTurned(c, t);
    RotatedKeepsOrder(d, Mk(d, t, c.it, false, w'));
    MkOrder(d, b, b, w.it, c.red, w.red, Black(z), z);
    OrderSib(c, t, w');
    OrderUp(c.(sib := w'), t, false);
  }

  // ---------- the same in memory ----------

  /** A missing child's parent is written into the lower sentinel. */
  ghost predicate Hanging(m: Mem, e: Arena, c: Ctx, t: Tree) {
    Focus(m, e, c, t) && (t.Leaf? ==> m[e.nil].parent == Par(e, c))
  }

  lemma ToSibling(m: Mem, e: Arena, c: Ctx, t: Tree)
    requires Focus(m, e, c, t) && c.Hole?
    ensures Focus(m, e, Hole(Opp(c.dir), c.it, c.red, t, c.up), c.sib)
  {
    MoveUp(m, e, c, t);
    MoveDown(m, e, c.up, Mk(c.dir, t, c.it, c.red, c.sib), Opp(c.dir));
  }

  lemma PaintParent(m: Mem, e: Arena, c: Ctx, t: Tree, red: bool)
    requires Focus(m, e, c, t) && c.Hole?
    ensures c.it in m
    ensures var m' := m[c.it := m[c.it].(red := red)];
      Focus(m', e, c.(red := red), t) && Confined(m, m', e) && m'[e.nil] == m[e.nil]
  {
    var p := Mk(c.dir, t, c.it, c.red, c.sib);
    var m' := m[c.it := m[c.it].(red := red)];
    MoveUp(m, e, c, t);
    SetRedFocus(m, e, c.up, p, red, m');
    MoveDown(m', e, c.up, Recoloured(p, red), c.dir);
  }

  lemma PaintSib(m: Mem, e: Arena, c: Ctx, t: Tree, red: bool)
    requires Focus(m, e, c, t) && c.Hole? && c.sib.Node?
    ensures c.sib.it in m
    ensures var m' := m[c.sib.it := m[c.sib.it].(red := red)];
      Focus(m', e, c.(sib := Recoloured(c.sib, red)), t) && Confined(m, m', e) && m'[e.nil] == m[e.nil]
  {
    var m' := m[c.sib.it := m[c.sib.it].(red := red)];
    var c2 := Hole(Opp(c.dir), c.it, c.red, t, c.up);
    ToSibling(m, e, c, t);
    SetRedFocus(m, e, c2, c.sib, red, m');
    ToSibling(m', e, c2, Recoloured(c.sib, red));
  }

  lemma PaintSibKid(m: Mem, e: Arena, c: Ctx, t: Tree, d: Dir, red: bool)
    requires Focus(m, e, c, t) && c.Hole? && c.sib.Node? && Kid(c.sib, d).Node?
    ensures Kid(c.sib, d).it in m
    ensures var w, b := c.sib, Kid(c.sib, d);
      var m' := m[b.it := m[b.it].(red := red)];
      && Focus(m', e, c.(sib := Mk(d, Recoloured(b, red), w.it, w.red, Kid(w, Opp(d)))), t)
      && Confined(m, m', e) && m'[e.nil] == m[e.nil]
  {
    var w, b := c.sib, Kid(c.sib, d);
    var c2 := Hole(Opp(c.dir), c.it, c.red, t, c.up);
    var c3 := Hole(d, w.it, w.red, Kid(w, Opp(d)), c2);
    ToSibling(m, e, c, t);
    MoveDown(m, e, c2, w, d);
    Around(m, e, c3, b);
    var m' := m[b.it := m[b.it].(red := red)];
    SetRedFocus(m, e, c3, b, red, m');
    MoveUp(m', e, c3, Recoloured(b, red));
    ToSibling(m', e, c2, Mk(d, Recoloured(b, red), w.it, w.red, Kid(w, Opp(d))));
  }

  /** The pointer at the top of the tree. */
  function Apex(c: Ctx, p: Ptr): Ptr {
    if c.Top? then p else Apex(c.up, c.it)
  }

  lemma {:induction false} ApexInMemory(m: Mem, e: Arena, c: Ctx, p: Ptr)
    requires RepCtx(m, e, c, p)
    ensures e.root in m && m[e.root].left == Apex(c, p)
  {
    if c.Hole? {
      ApexInMemory(m, e, c.up, c.it);
    }
  }

  lemma {:induction false} ApexOfPlug(e: Arena, c: Ctx, t: Tree)
    ensures PtrOf(e, Plug(c, t)) == Apex(c, PtrOf(e, t))
    decreases c
  {
    if c.Hole? {
      ApexOfPlug(e, c.up, Mk(c.dir, t, c.it, c.red, c.sib));
    }
  }

  /** What the fixup reads off the focus, its parent, its sibling and the sibling's children. */
  lemma SiblingReads(m: Mem, e: Arena, c: Ctx, t: Tree)
    requires Hanging(m, e, c, t) && c.Hole? && c.sib.Node?
    ensures PtrOf(e, t) in m && m[PtrOf(e, t)].parent == c.it && c.it in m && m[c.it].red == c.red
    ensures m[c.it].Child(c.dir) == PtrOf(e, t) && m[c.it].Child(Opp(c.dir)) == c.sib.it && c.sib.it in m
    ensures PtrOf(e, t) != c.sib.it && m[c.sib.it].red == c.sib.red
    ensures m[c.sib.it].left == PtrOf(e, c.sib.left) && m[c.sib.it].right == PtrOf(e, c.sib.right)
    ensures PtrOf(e, c.sib.left) in m && m[PtrOf(e, c.sib.left)].red == IsRed(c.sib.left)
    ensures PtrOf(e, c.sib.right) in m && m[PtrOf(e, c.sib.right)].red == IsRed(c.sib.right)
  {
    var c2 := Hole(Opp(c.dir), c.it, c.red, t, c.up);
    Around(m, e, c, t);
    ToSibling(m, e, c, t);
    Around(m, e, c2, c.sib);
    MoveDown(m, e, c2, c.sib, L);
    Around(m, e, Hole(L, c.sib.it, c.sib.red, c.sib.right, c2), c.sib.left);
    MoveDown(m, e, c2, c.sib, R);
    Around(m, e, Hole(R, c.sib.it, c.sib.red, c.sib.left, c2), c.sib.right);
  }

  lemma FarTurnedFocus(m: Mem, e: Arena, c: Ctx, t: Tree)
    requires c.Hole? && c.sib.Node? && Kid(c.sib, Opp(c.dir)).Node?
    requires var d, w := c.dir, c.sib;
      Focus(m, e, Hole(d, c.it, false, Kid(w, d), Hole(d, w.it, c.red, Recoloured(Kid(w, Opp(d)), false), c.up)), t)
    ensures Focus(m, e, c.up, FarTurned(c, t)) && c.it in m && !m[c.it].red
  {
    var d, w := c.dir, c.sib;
    var c2 := Hole(d, w.it, c.red, Recoloured(Kid(w, Opp(d)), false), c.up);
    Around(m, e, Hole(d, c.it, false, Kid(w, d), c2), t);
    MoveUp(m, e, Hole(d, c.it, false, Kid(w, d), c2), t);
    MoveUp(m, e, c2, Mk(d, t, c.it, false, Kid(w, d)));
  }

  // ---------- one round of the fixup ----------

  /**
   * Where a round of the fixup may leave things, `s` being the nodes in order and `cap` the top node
   * when the fixup began. Either the tree is repaired and `x` is that node, which is black; or the
   * subtree of `x` still lacks a black node. If `cap` was rotated away, `x` is red or the repair is over.
   */
  ghost predicate Round(m: Mem, e: Arena, cap: Ptr, s: seq<Ptr>, x: Ptr, done: bool, c: Ctx, t: Tree) {
    if done then
      x == cap && c.Top? && Focus(m, e, c, t) && RedBlack(t) && Inorder(t) == s && cap in m && !m[cap].red
    else
      && Hanging(m, e, c, t) && Lacking(c, t) && PtrOf(e, t) == x && Order(c, t) == s
      && (IsRed(t) || Apex(c, x) == cap) && (x == cap ==> IsRed(t) || c.Top?)
  }

  lemma RoundReads(m: Mem, e: Arena, cap: Ptr, s: seq<Ptr>, x: Ptr, c: Ctx, t: Tree)
    requires Round(m, e, cap, s, x, false, c, t)
    ensures x in m && m[x].red == IsRed(t) && (x == e.nil <==> t.Leaf?)
    ensures Focus(m, e, c, t) && Lacking(c, t)
    ensures x != cap && !IsRed(t) ==> c.Hole? && c.sib.Node? && Apex(c, x) == cap
  {
    Around(m, e, c, t);
    if c.Hole? {
      LackingSiblingIsNode(c, t);
    }
  }

  /** The fixup starts with a deficit at `x`, below a black top node. */
  lemma RoundStarts(m: Mem, e: Arena, c: Ctx, t: Tree)
    requires Hanging(m, e, c, t) && Lacking(c, t)
    ensures e.root in m && Round(m, e, m[e.root].left, Order(c, t), PtrOf(e, t), false, c, t)
  {
    ApexInMemory(m, e, c, PtrOf(e, t));
    ApexDeep(m, e, c, t);
  }

  /** The top node is not the focus unless nothing is above the focus. */
  lemma {:induction false} ApexDeep(m: Mem, e: Arena, c: Ctx, t: Tree)
    requires Focus(m, e, c, t) 
    ensures Apex(c, PtrOf(e, t)) == PtrOf(e, t) ==> c.Top?
    ensures c.Hole? ==> Apex(c, PtrOf(e, t)) in CtxIds(c)
    decreases c
  {
    if c.Hole? {
      var p := Mk(c.dir, t, c.it, c.red, c.sib);
      MoveUp(m, e, c, t);
      ApexDeep(m, e, c.up, p);
      assert Apex(c, PtrOf(e, t)) in CtxIds(c) && CtxIds(c) <= e.nodes;
      if t.Node? {
        assert t.it in Ids(t);
      }
    }
  }

  /** The sibling turned red: the parent is the next focus. */
  lemma RoundUp(m: Mem, e: Arena, cap: Ptr, c0: Ctx, c: Ctx, t: Tree)
    requires c0.Hole? && c.Hole? && c.sib.Node? && Focus(m, e, c.(sib := Recoloured(c.sib, true)), t)
    requires Apex(c0, PtrOf(e, t)) == cap && Lacking(c, t) && !IsRed(t) && !IsRed(c.sib)
    requires !IsRed(c.sib.left) && !IsRed(c.sib.right)
    requires c == c0 || (c0.sib.Node? && c == SiblingUp(c0))
    ensures Round(m, e, cap, Order(c, t), c.it, false, c.up, SiblingRed(c, t))
    ensures IsRed(SiblingRed(c, t)) || Depth(c.up) < Depth(c0)
  {
    SiblingRedLacks(c, t);
    MoveUp(m, e, c.(sib := Recoloured(c.sib, true)), t);
    ApexDeep(m, e, c.up, SiblingRed(c, t));
  }

  lemma RoundDone(m: Mem, e: Arena, cap: Ptr, c0: Ctx, c: Ctx, t: Tree)
    requires c0.Hole? && c.Hole? && c.sib.Node? && Focus(m, e, c.up, FarTurned(c, t))
    requires InOrder(c.up, FarTurned(c, t)) && Order(c.up, FarTurned(c, t)) == Order(c, t)
    requires c.it in m && !m[c.it].red
    requires Apex(c0, PtrOf(e, t)) == cap && c.it == c0.it
    requires c.up == c0.up || (c0.sib.Node? && c.up == SiblingUp(c0).up)
    ensures Round(m, e, cap, Order(c, t), cap, true, Top, Plug(c.up, FarTurned(c, t)))
  {
    var r := Plug(c.up, FarTurned(c, t));
    MoveToTop(m, e, c.up, FarTurned(c, t));
    PlugRedBlack(c.up, FarTurned(c, t));
    PlugInorder(c.up, FarTurned(c, t));
    PlugIsNode(c.up, FarTurned(c, t));
    ApexOfPlug(e, c.up, FarTurned(c, t));
    Around(m, e, Top, r);
  }

  /** After the last round, colouring the focus black leaves a red-black tree. */
  lemma RoundsEnd(m: Mem, e: Arena, cap: Ptr, s: seq<Ptr>, x: Ptr, done: bool, c: Ctx, t: Tree) returns (r: Tree)
    requires Round(m, e, cap, s, x, done, c, t) && (x == cap || (x in m && m[x].red))
    ensures x in m
    ensures var m' := m[x := m[x].(red := false)];
      Focus(m', e, Top, r) && RedBlack(r) && Inorder(r) == s && Confined(m, m', e)
  {
    if done {
      r := t;
      assert m[x := m[x].(red := false)] == m;
    } else {
      RoundReads(m, e, cap, s, x, c, t);
      var m' := m[x := m[x].(red := false)];
      LackingEnds(c, t);
      PlugInorder(c, Black(t));
      r := Plug(c, Black(t));
      if t.Node? {
        SetRedFocus(m, e, c, t, false, m');
        assert Inorder(Black(t)) == Inorder(t);
        MoveToTop(m', e, c, Black(t));
      } else {
        assert m' == m;
      }
    }
  }

  // ---------- finding and removing ----------

  lemma {:induction false} InorderIds(t: Tree)
    ensures forall x :: x in Inorder(t) <==> x in Ids(t)
  {
    if t.Node? {
      InorderIds(t.left);
      InorderIds(t.right);
    }
  }

  lemma {:induction false} CtxOrderIds(c: Ctx)
    ensures forall x :: x in Before(c) || x in After(c) <==> x in CtxIds(c)
  {
    if c.Hole? {
      InorderIds(c.sib);
      CtxOrderIds(c.up);
    }
  }

  /** The focus moved down to a given node. */
  lemma {:induction false} FocusOn(m: Mem, e: Arena, c: Ctx, t: Tree, z: Ptr) returns (cz: Ctx, tz: Tree)
    requires Focus(m, e, c, t) && InOrder(c, t) && z in Ids(t)
    ensures Focus(m, e, cz, tz) && InOrder(cz, tz) && tz.Node? && tz.it == z && Order(cz, tz) == Order(c, t)
    decreases t
  {
    if t.it == z {
      return c, t;
    }
    var d := if z in Ids(t.left) then L else R;
    MoveDown(m, e, c, t, d);
    StepDownInOrder(c, t, d);
    OrderUp(Hole(d, t.it, t.red, Kid(t, Opp(d)), c), Kid(t, d), t.red);
    cz, tz := FocusOn(m, e, Hole(d, t.it, t.red, Kid(t, Opp(d)), c), Kid(t, d), z);
  }

  lemma {:induction false} RemovedBetween(a: seq<Ptr>, b: seq<Ptr>, z: Ptr)
    requires z !in a
    ensures Lists.Without(a + [z] + b, z) == a + b
    decreases |a|
  {
    hide Lists.Without;
    if a == [] {
      Lists.WithoutStep(z, b, z);
      assert a + [z] + b == [z] + b && a + b == b;
    } else {
      var rest := a[1..];
      RemovedBetween(rest, b, z);
      Lists.WithoutStep(a[0], rest + [z] + b, z);
      assert a + [z] + b == [a[0]] + (rest + [z] + b);
      assert a + b == [a[0]] + (rest + b);
    }
  }

  lemma {:induction false} RemovedIsSorted(rank: Ptr -> int, s: seq<Ptr>, z: Ptr)
    requires SortedBy(rank, s)
    ensures SortedBy(rank, Lists.Without(s, z)) && forall x :: x in Lists.Without(s, z) ==> x in s
  {
    if s != [] && s[0] != z {
      RemovedIsSorted(rank, s[1..], z);
      var r := Lists.Without(s[1..], z);
      forall j | 0 <= j < |r|
        ensures rank(s[0]) <= rank(r[j])
      {
        assert r[j] in r;
        var i :| 0 <= i < |s[1..]| && s[1..][i] == r[j];
        assert s[i + 1] == r[j];
      }
    }
  }

  /** A context inside another. */
  function Inside(q: Ctx, c: Ctx): Ctx {
    if q.Top? then c else q.(up := Inside(q.up, c))
  }

  lemma {:induction false} FocusInside(m: Mem, e: Arena, q: Ctx, c: Ctx, t: Tree)
    ensures Focus(m, e, Inside(q, c), t) <==> Focus(m, e, c, Plug(q, t))
    decreases q
  {
    if q.Hole? {
      var p := Mk(q.dir, t, q.it, q.red, q.sib);
      FocusInside(m, e, q.up, c, p);
      if Focus(m, e, Inside(q, c), t) {
        MoveUp(m, e, Inside(q, c), t);
      }
      if Focus(m, e, Inside(q.up, c), p) {
        MoveDown(m, e, Inside(q.up, c), p, q.dir);
      }
    }
  }

  lemma {:induction false} OrderInside(q: Ctx, c: Ctx)
    ensures Before(Inside(q, c)) == Before(c) + Before(q) && After(Inside(q, c)) == After(q) + After(c)
  {
    if q.Hole? {
      OrderInside(q.up, c);
      if q.dir == L {
        assert [q.it] + Inorder(q.sib) + (After(q.up) + After(c)) == [q.it] + Inorder(q.sib) + After(q.up) + After(c);
      } else {
        assert Before(c) + Before(q.up) + Inorder(q.sib) + [q.it] == Before(c) + (Before(q.up) + Inorder(q.sib) + [q.it]);
      }
    }
  }

  /** The conditions on a context do not depend on which nodes it is made of. */
  lemma {:induction false} RenamedCtx(q: Ctx, c: Ctx, x: Ptr, h: int, red: bool)
    requires c.Hole?
    ensures CtxBalanced(Inside(q, c), h) == CtxBalanced(Inside(q, c.(it := x)), h)
    ensures CtxNoRedRed(Inside(q, c), red) == CtxNoRedRed(Inside(q, c.(it := x)), red)
  {
    if q.Hole? {
      RenamedCtx(q.up, c, x, h + if q.red then 0 else 1, q.red);
    }
  }

  /** Taking out a node that has at most one child. */
  function Spliced(t: Tree): Tree
    requires t.Node?
  {
    if t.left.Node? then t.left else t.right
  }

  lemma SpliceInMemory(m: Mem, e: Arena, c: Ctx, t: Tree)
    requires Focus(m, e, c, t) && t.Node? && (t.left.Leaf? || t.right.Leaf?)
    ensures var x, p := PtrOf(e, Spliced(t)), Par(e, c);
      && x in m && p in m && x != p && t.it != x && t.it != p
      && m[t.it].parent == p && m[p].Child(DirOf(c)) == t.it
      && (m[p].left == t.it <==> DirOf(c) == L)
      && var m' := m[x := m[x].(parent := p)][p := m[p].WithChild(DirOf(c), x)];
         var e' := e.(nodes := e.nodes - {t.it});
         Hanging(m', e', c, Spliced(t)) && Confined(m, m', e) && m'[t.it] == m[t.it]
  {
    var x, p := PtrOf(e, Spliced(t)), Par(e, c);
    Around(m, e, c, t);
    var d := if t.left.Node? then L else R;
    MoveDown(m, e, c, t, d);
    Around(m, e, Hole(d, t.it, t.red, Kid(t, Opp(d)), c), Spliced(t));
    RepCtxIds(m, e, c, t.it);
    RepIds(m, e, t, p);
    assert Ids(t) == Ids(Spliced(t)) + {t.it};
    var m' := m[x := m[x].(parent := p)][p := m[p].WithChild(DirOf(c), x)];
    RepReparent(m, m', e, Spliced(t), t.it, p);
    RepCtxRepoint(m, m', e, c, t.it, x);
    RepArena(m', e, e.(nodes := e.nodes - {t.it}), Spliced(t), p);
    RepCtxArena(m', e, e.(nodes := e.nodes - {t.it}), c, x);
  }

  /** The pointers of the top of the focus, which has a left child. */
  lemma TopReads(m: Mem, e: Arena, c: Ctx, t: Tree)
    requires Focus(m, e, c, t) && t.Node? && t.left.Node?
    ensures var z, p, l, r := t.it, Par(e, c), t.left.it, PtrOf(e, t.right);
      && {z, p, l, r} <= m.Keys && m[z].parent == p && m[z].left == l && m[z].right == r && z !in {p, l, r}
      && (m[p].left == z <==> DirOf(c) == L) && m[p].Child(DirOf(c)) == z && p !in {l, r} && l != r
      && l in e.nodes && (t.right.Node? ==> r in e.nodes) && z in e.nodes && (p in e.nodes || p == e.root)
  {
    Around(m, e, c, t);
    MoveDown(m, e, c, t, L);
    Around(m, e, Hole(L, t.it, t.red, t.right, c), t.left);
    MoveDown(m, e, c, t, R);
    Around(m, e, Hole(R, t.it, t.red, t.left, c), t.right);
  }

  /** The cell of `z` is copied to `y`, and what pointed to `z` points to `y`. */
  function Replaced(m: Mem, z: Ptr, p: Ptr, l: Ptr, r: Ptr, y: Ptr, d: Dir): Mem
    requires {z, p, l, r} <= m.Keys
  {
    m[p := m[p].WithChild(d, y)][r := m[p := m[p].WithChild(d, y)][r].(parent := y)][
      l := m[p := m[p].WithChild(d, y)][r := m[p := m[p].WithChild(d, y)][r].(parent := y)][l].(parent := y)][
      y := m[z]]
  }

  /** Putting `y` in the place of the top of the focus. */
  lemma ReplaceInMemory(m: Mem, e: Arena, c: Ctx, t: Tree, y: Ptr)
    requires Focus(m, e, c, t) && t.Node? && t.left.Node?
    requires y in m && y !in e.nodes && y != e.nil && y != e.root
    requires {t.it, Par(e, c), t.left.it, PtrOf(e, t.right)} <= m.Keys
    ensures var m' := Replaced(m, t.it, Par(e, c), t.left.it, PtrOf(e, t.right), y, DirOf(c));
      && Focus(m', e.(nodes := e.nodes - {t.it} + {y}), c, Node(t.left, y, t.red, t.right))
      && Confined(m, m', e.(nodes := e.nodes + {y}))
      && (if t.right.Leaf? then m'[e.nil].parent == y else m'[e.nil] == m[e.nil])
  {
    var z, p, l, r := t.it, Par(e, c), t.left.it, PtrOf(e, t.right);
    TopReads(m, e, c, t);
    var m' := Replaced(m, z, p, l, r, y, DirOf(c));
    var e' := e.(nodes := e.nodes - {z} + {y});
    assert m'.Keys == m.Keys;
    assert forall q :: q in m && q !in {p, l, r, y} ==> m'[q] == m[q];
    assert m'[l] == m[l].(parent := y) && m'[r] == m[r].(parent := y) && m'[y] == m[z];
    assert m'[p] == m[p].WithChild(DirOf(c), y);
    ReplaceRep(m, m', e, c, t, y);
    RepCtxIds(m, e, c, z);
    RepCtxRepoint(m, m', e, c, z, y);
    RepCtxArena(m', e, e', c, y);
  }

  lemma ReplaceRep(m: Mem, m': Mem, e: Arena, c: Ctx, t: Tree, y: Ptr)
    requires Focus(m, e, c, t) && t.Node? && t.left.Node? && m'.Keys == m.Keys
    requires y in m && y !in e.nodes && y != e.nil && y != e.root
    requires var l, r := t.left.it, PtrOf(e, t.right);
      && {t.it, l, r} <= m.Keys && l != r && m'[l] == m[l].(parent := y) && m'[r] == m[r].(parent := y)
      && m'[y] == m[t.it] && forall q :: q in m && q !in {Par(e, c), l, r, y} ==> m'[q] == m[q]
    ensures Rep(m', e.(nodes := e.nodes - {t.it} + {y}), Node(t.left, y, t.red, t.right), Par(e, c))
  {
    var e' := e.(nodes := e.nodes - {t.it} + {y});
    assert Ids(t) == Ids(t.left) + {t.it} + Ids(t.right) && Par(e, c) !in Ids(t);
    RepIds(m, e, t, Par(e, c));
    RepReparent(m, m', e, t.left, t.it, y);
    RepReparent(m, m', e, t.right, t.it, y);
    RepArena(m', e, e', t.left, y);
    RepArena(m', e, e', t.right, y);
  }

  /** Taking out a red node leaves the tree in order; taking out a black one leaves a deficit. */
  lemma SplicedConditions(c: Ctx, t: Tree)
    requires InOrder(c, t) && t.Node? && (t.left.Leaf? || t.right.Leaf?)
    ensures if t.red then InOrder(c, Spliced(t)) else Lacking(c, Spliced(t))
  {
    CtxAnyHole(c, t.red);
    var x := Spliced(t);
    assert Balanced(x) && NoRedRed(x) && NoRedRed(Black(x));
    assert BlackHeight(t) == BlackHeight(x) + if t.red then 0 else 1;
  }

  lemma {:induction false} InOrderInside(q: Ctx, c: Ctx, t: Tree)
    requires InOrder(c, Plug(q, t))
    ensures InOrder(Inside(q, c), t)
    decreases q
  {
    if q.Hole? {
      InOrderInside(q.up, c, Mk(q.dir, t, q.it, q.red, q.sib));
      StepDownInOrder(Inside(q.up, c), Mk(q.dir, t, q.it, q.red, q.sib), q.dir);
    }
  }

  lemma RenamedConditions(q: Ctx, c: Ctx, x: Ptr, t: Tree)
    requires c.Hole?
    ensures InOrder(Inside(q, c), t) == InOrder(Inside(q, c.(it := x)), t)
    ensures Lacking(Inside(q, c), t) == Lacking(Inside(q, c.(it := x)), t)
  {
    RenamedCtx(q, c, x, BlackHeight(t), IsRed(t));
    RenamedCtx(q, c, x, BlackHeight(t) + 1, false);
  }

  /** A node of the focus occurs once in the order. */
  lemma RemovedAt(m: Mem, e: Arena, c: Ctx, t: Tree, b: seq<Ptr>)
    requires Focus(m, e, c, t) && t.Node?
    ensures Lists.Without(Before(c) + Inorder(t.left) + [t.it] + b, t.it) == Before(c) + Inorder(t.left) + b
  {
    CtxOrderIds(c);
    InorderIds(t.left);
    assert t.it in Ids(t);
    RemovedBetween(Before(c) + Inorder(t.left), b, t.it);
  }

  /** Taking out the node under the focus takes it out of the order. */
  lemma SplicedOrder(m: Mem, e: Arena, c: Ctx, t: Tree)
    requires Focus(m, e, c, t) && t.Node? && (t.left.Leaf? || t.right.Leaf?)
    ensures Order(c, Spliced(t)) == Lists.Without(Order(c, t), t.it)
  {
    RemovedAt(m, e, c, t, Inorder(t.right) + After(c));
    OrderShapes(Before(c), Inorder(t.left), [t.it], Inorder(t.right), After(c));
    SplicedInorder(t);
  }

  lemma SplicedInorder(t: Tree)
    requires t.Node? && (t.left.Leaf? || t.right.Leaf?)
    ensures Inorder(Spliced(t)) == Inorder(t.left) + Inorder(t.right)
  {
  }

  lemma OrderShapes<X>(a: seq<X>, l: seq<X>, z: seq<X>, r: seq<X>, b: seq<X>)
    ensures a + (l + z + r) + b == a + l + z + (r + b)
    ensures a + (l + r) + b == a + l + (r + b)
  {
  }

  /** Putting the next node in order in the place of `z` takes `z` out of the order. */
  lemma SuccessorOrder(m: Mem, e: Arena, c: Ctx, t: Tree, q: Ctx, ty: Tree)
    requires Focus(m, e, c, t) && t.Node? && t.right == Plug(q, ty) && ty.Node? && ty.left.Leaf? && Before(q) == []
    ensures Order(Inside(q, Hole(R, ty.it, t.red, t.left, c)), ty.right) == Lists.Without(Order(c, t), t.it)
  {
    var c1 := Hole(R, ty.it, t.red, t.left, c);
    OrderInside(q, c1);
    PlugInorder(q, ty);
    RemovedAt(m, e, c, t, [ty.it] + (Inorder(ty.right) + After(q) + After(c)));
    assert Inorder(ty) == [] + [ty.it] + Inorder(ty.right);
    assert Before(c1) == Before(c) + Inorder(t.left) + [ty.it] && After(c1) == After(c);
    hide Inorder, Before, After, Lists.Without, Inside, Plug;
    SuccessorOrderShapes(Before(c), Inorder(t.left), [t.it], [ty.it], Inorder(ty.right), After(q), After(c));
  }

  lemma SuccessorOrderShapes<X>(a: seq<X>, l: seq<X>, z: seq<X>, y: seq<X>, r: seq<X>, q: seq<X>, b: seq<X>)
    ensures a + (l + z + ([] + ([] + y + r) + q)) + b == a + l + z + (y + (r + q + b))
    ensures (a + l + y + []) + r + (q + b) == a + l + (y + (r + q + b))
  {
  }

  lemma ConfinedWider(m: Mem, m': Mem, e: Arena, e': Arena)
    requires Confined(m, m', e) && e.nodes <= e'.nodes && e.nil == e'.nil && e.root == e'.root
    ensures Confined(m, m', e')
  {
  }

  lemma RoundMember(m: Mem, e: Arena, cap: Ptr, s: seq<Ptr>, x: Ptr, done: bool, c: Ctx, t: Tree)
    requires Round(m, e, cap, s, x, done, c, t)
    ensures x in m && e.root in m && (done ==> x == cap) && (!done ==> m[x].red == IsRed(t))
  {
    if !done {
      RoundReads(m, e, cap, s, x, c, t);
    }
  }

  /** `next` is what follows `x` in `s`, or `nil` if nothing does. */
  ghost predicate Follows(s: seq<Ptr>, x: Ptr, next: Ptr, nil: Ptr) {
    exists i :: 0 <= i < |s| && s[i] == x && next == if i + 1 < |s| then s[i + 1] else nil
  }

  lemma NextInOrder(c: Ctx, t: Tree, next: Ptr, nil: Ptr)
    requires t.Node?
    requires var rest := Inorder(t.right) + After(c); next == if rest == [] then nil else rest[0]
    ensures Follows(Order(c, t), t.it, next, nil)
  {
    var a, rest, s := Before(c) + Inorder(t.left), Inorder(t.right) + After(c), Order(c, t);
    OrderShapes(Before(c), Inorder(t.left), [t.it], Inorder(t.right), After(c));
    assert s == a + [t.it] + rest;
    assert s[|a|] == t.it && (rest != [] ==> s[|a| + 1] == rest[0]);
  }

  lemma LeftmostIsFirst(q: Ctx, t: Tree)
    requires Before(q) == [] && t.Node? && t.left.Leaf?
    ensures Inorder(Plug(q, t)) != [] && Inorder(Plug(q, t))[0] == t.it
  {
    PlugInorder(q, t);
    assert Order(q, t) == Inorder(t) + After(q) && Inorder(t) == [t.it] + Inorder(t.right);
  }

  /** After `y` has taken the place of `z`, the focus returns to the subtree that `y` left behind. */
  lemma BackInside(m1: Mem, m: Mem, e1: Arena, e: Arena, c: Ctx, t: Tree, q: Ctx, x: Tree, y: Ptr)
    requires t.Node? && Hanging(m1, e1, Inside(q, Hole(R, t.it, t.red, t.left, c)), x)
    requires Focus(m, e, c, Node(t.left, y, t.red, Plug(q, x))) && e.nil == e1.nil
    requires e.nil in m && e.nil in m1
    requires if Plug(q, x).Leaf? then m[e.nil].parent == y else m[e.nil] == m1[e.nil]
    ensures Hanging(m, e, Inside(q, Hole(R, y, t.red, t.left, c)), x)
  {
    MoveDown(m, e, c, Node(t.left, y, t.red, Plug(q, x)), R);
    FocusInside(m, e, q, Hole(R, y, t.red, t.left, c), x);
    if q.Hole? {
      PlugBelow(q, x);
    }
  }

  lemma {:induction false} PlugBelow(q: Ctx, t: Tree)
    requires q.Hole?
    ensures Plug(q, t).Node?
    decreases q
  {
    PlugIsNode(q.up, Mk(q.dir, t, q.it, q.red, q.sib));
  }

  /** Before `y` takes the place of `z`, the focus goes up to `z`. */
  lemma UpToReplaced(m: Mem, e: Arena, c: Ctx, t: Tree, q: Ctx, x: Tree)
    requires t.Node? && Focus(m, e, Inside(q, Hole(R, t.it, t.red, t.left, c)), x)
    ensures Focus(m, e, c, Node(t.left, t.it, t.red, Plug(q, x)))
  {
    FocusInside(m, e, q, Hole(R, t.it, t.red, t.left, c), x);
    MoveUp(m, e, Hole(R, t.it, t.red, t.left, c), Plug(q, x));
  }

  lemma SuccessorReads(m: Mem, e: Arena, q: Ctx, c: Ctx, ty: Tree)
    requires Focus(m, e, Inside(q, c), ty) && ty.Node? && ty.left.Leaf? && c.Hole?
    ensures ty.it in m && m[ty.it].red == ty.red && ty.it in e.nodes && ty.it != e.nil && ty.it != e.root
    ensures ty.it != c.it && c.it in e.nodes && Spliced(ty) == ty.right && c.(it := ty.it).Hole?
  {
    InsideIds(q, c);
    assert ty.it in Ids(ty);
  }

  lemma {:induction false} InsideIds(q: Ctx, c: Ctx)
    ensures CtxIds(c) <= CtxIds(Inside(q, c))
  {
    if q.Hole? {
      InsideIds(q.up, c);
    }
  }
}
