/** Free blocks of the buddy page allocator (ucore/kern/mm/buddy_pmm.c): aligned, disjoint, and coalesced. */
module Buddies {
  import opened Binary

  const MAX_ORDER := 10

  /** A page: its zone, and its index from the base of the zone. */
  datatype Page = Page(zone: nat, idx: nat)

  /** The heads of free blocks, with the order of each block. */
  type Heads = map<Page, nat>

  function Buddy(p: Page, o: nat): Page {
    Page(p.zone, Xor(p.idx, Pow2(o)))
  }

  /** The head of the block made of `p`'s block and its buddy. */
  function Merged(p: Page, o: nat): Page {
    Page(p.zone, And(p.idx, Xor(p.idx, Pow2(o))))
  }

  predicate In(p: Page, o: nat, q: Page) {
    q.zone == p.zone && p.idx <= q.idx < p.idx + Pow2(o)
  }

  predicate Apart(p: Page, a: nat, q: Page, b: nat) {
    p.zone != q.zone || p.idx + Pow2(a) <= q.idx || q.idx + Pow2(b) <= p.idx
  }

  /** A block of 2^o pages, aligned, inside its zone; `sizes` are the sizes of the zones. */
  predicate BlockOk(sizes: seq<nat>, p: Page, o: nat) {
    p.zone < |sizes| && o <= MAX_ORDER && Aligned(p.idx, o) && p.idx + Pow2(o) <= sizes[p.zone]
  }

  ghost predicate Blocks(sizes: seq<nat>, H: Heads) {
    && (forall p :: p in H ==> BlockOk(sizes, p, H[p]))
    && (forall p, q :: p in H && q in H && p != q ==> Apart(p, H[p], q, H[q]))
  }

  /** No two free buddies: they would have been merged. */
  ghost predicate Canonical(H: Heads) {
    forall p :: p in H ==> !FreeBuddies(H, p)
  }

  predicate FreeBuddies(H: Heads, p: Page)
    requires p in H
  {
    H[p] < MAX_ORDER && Buddy(p, H[p]) in H && H[Buddy(p, H[p])] == H[p]
  }

  /** The page lies in a free block. */
  ghost predicate Covered(H: Heads, q: Page) {
    exists p :: p in H && In(p, H[p], q)
  }

  // ---------- halves ----------

  lemma Halves(sizes: seq<nat>, q: Page, o: nat)
    requires o > 0 && BlockOk(sizes, q, o)
    ensures var up := Page(q.zone, q.idx + Pow2(o - 1));
      && BlockOk(sizes, q, o - 1) && BlockOk(sizes, up, o - 1)
      && Buddy(q, o - 1) == up && Buddy(up, o - 1) == q && Merged(q, o - 1) == q && Merged(up, o - 1) == q
    ensures Pow2(o) == 2 * Pow2(o - 1)
  {
    hide Xor, And, Aligned;
    AlignedLess(q.idx, o - 1);
    AlignedNext(q.idx, o - 1);
    XorIsBuddy(q.idx, o - 1);
    XorIsBuddy(q.idx + Pow2(o - 1), o - 1);
  }

  /** A block and its buddy are the halves of the merged block. */
  lemma MergedHalves(p: Page, o: nat)
    requires Aligned(p.idx, o)
    ensures var m := Merged(p, o);
      && Aligned(m.idx, o + 1) && Buddy(p, o) != p && m.zone == p.zone
      && ((p == m && Buddy(p, o) == Page(m.zone, m.idx + Pow2(o)))
          || (Buddy(p, o) == m && p == Page(m.zone, m.idx + Pow2(o))))
    ensures Buddy(Buddy(p, o), o) == p && Aligned(Buddy(p, o).idx, o)
    ensures Pow2(o + 1) == 2 * Pow2(o)
  {
    hide Xor, And, Aligned;
    XorIsBuddy(p.idx, o);
    if Aligned(p.idx, o + 1) {
      AlignedLess(p.idx, o);
      AlignedNext(p.idx, o);
      XorIsBuddy(p.idx + Pow2(o), o);
    } else {
      UpperHalf(p.idx, o);
      AlignedLess(p.idx - Pow2(o), o);
      XorIsBuddy(p.idx - Pow2(o), o);
    }
  }

  // ---------- free blocks are determined by the free pages ----------

  /** A block all of whose pages are free lies inside one free block. */
  lemma {:induction false} FullIsInside(sizes: seq<nat>, H: Heads, q: Page, o: nat) returns (b: Page)
    requires Blocks(sizes, H) && Canonical(H) && BlockOk(sizes, q, o)
    requires forall x :: In(q, o, x) ==> Covered(H, x)
    ensures Holds(H, b, q, o)
    decreases o
  {
    hide Xor, And, Aligned;
    if o == 0 {
      assert In(q, 0, q);
      b :| b in H && In(b, H[b], q);
    } else {
      Halves(sizes, q, o);
      var up := Page(q.zone, q.idx + Pow2(o - 1));
      var low := FullIsInside(sizes, H, q, o - 1);
      var high := FullIsInside(sizes, H, up, o - 1);
      b := OneHoldsBoth(sizes, H, q, o, low, high);
    }
  }

  ghost predicate Holds(H: Heads, b: Page, q: Page, o: nat) {
    b in H && H[b] >= o && b.zone == q.zone && b.idx <= q.idx && q.idx + Pow2(o) <= b.idx + Pow2(H[b])
  }

  /** The halves cannot be free blocks of their own, so a larger one holds them both. */
  lemma OneHoldsBoth(sizes: seq<nat>, H: Heads, q: Page, o: nat, low: Page, high: Page) returns (b: Page)
    requires Blocks(sizes, H) && Canonical(H) && o > 0 && BlockOk(sizes, q, o)
    requires Holds(H, low, q, o - 1) && Holds(H, high, Page(q.zone, q.idx + Pow2(o - 1)), o - 1)
    ensures Holds(H, b, q, o)
  {
    hide Xor, And, Aligned, Pow2;
    Halves(sizes, q, o);
    assert !FreeBuddies(H, low);
    b := if H[low] >= o then low else high;
    assert H[b] >= o;
    assert BlockOk(sizes, b, H[b]);
    Nested(q.idx, o, b.idx, H[b]);
  }

  /** An aligned block of free pages that is part of no larger one. */
  ghost predicate Maximal(sizes: seq<nat>, free: set<Page>, p: Page, o: nat) {
    && BlockOk(sizes, p, o) && Full(free, p, o)
    && !(BlockOk(sizes, Merged(p, o), o + 1) && Full(free, Merged(p, o), o + 1))
  }

  ghost predicate Full(free: set<Page>, p: Page, o: nat) {
    forall q :: In(p, o, q) ==> q in free
  }

  /** `free` are the pages in free blocks. */
  ghost predicate IsFree(H: Heads, free: set<Page>) {
    forall q :: q in free <==> Covered(H, q)
  }

  /** A block inside a larger free block has a parent that is free as well. */
  lemma ParentIsFull(sizes: seq<nat>, H: Heads, free: set<Page>, p: Page, o: nat, b: Page)
    requires Blocks(sizes, H) && IsFree(H, free) && Aligned(p.idx, o) && Holds(H, b, p, o) && H[b] > o
    ensures BlockOk(sizes, Merged(p, o), o + 1) && Full(free, Merged(p, o), o + 1)
  {
    hide Xor, And, Aligned;
    var m := Merged(p, o);
    MergedHalves(p, o);
    PowersGrow(o + 1, H[b]);
    Nested(m.idx, o + 1, b.idx, H[b]);
    forall q | In(m, o + 1, q) ensures q in free {
      assert In(b, H[b], q);
    }
  }

  /** The parent of a free block is not free: it would be inside another free block. */
  lemma ParentIsNotFull(sizes: seq<nat>, H: Heads, free: set<Page>, p: Page)
    requires Blocks(sizes, H) && Canonical(H) && IsFree(H, free) && p in H
    ensures !(BlockOk(sizes, Merged(p, H[p]), H[p] + 1) && Full(free, Merged(p, H[p]), H[p] + 1))
  {
    hide Xor, And, Aligned;
    var m := Merged(p, H[p]);
    MergedHalves(p, H[p]);
    if BlockOk(sizes, m, H[p] + 1) && Full(free, m, H[p] + 1) {
      var b := FullIsInside(sizes, H, m, H[p] + 1);
    }
  }

  /** The free blocks are the maximal ones, so the free pages determine them. */
  lemma HeadsAreMaximal(sizes: seq<nat>, H: Heads, free: set<Page>, p: Page, o: nat)
    requires Blocks(sizes, H) && Canonical(H) && IsFree(H, free)
    ensures p in H && H[p] == o <==> Maximal(sizes, free, p, o)
  {
    hide Xor, And, Aligned;
    if p in H && H[p] == o {
      forall q | In(p, o, q) ensures q in free {
        assert Covered(H, q);
      }
      ParentIsNotFull(sizes, H, free, p);
    }
    if Maximal(sizes, free, p, o) {
      var b := FullIsInside(sizes, H, p, o);
      if H[b] > o {
        ParentIsFull(sizes, H, free, p, o, b);
      }
    }
  }

  /** Two states of the allocator with the same free pages have the same free blocks. */
  lemma SamePagesSameBlocks(sizes: seq<nat>, H: Heads, H2: Heads, free: set<Page>)
    requires Blocks(sizes, H) && Canonical(H) && IsFree(H, free)
    requires Blocks(sizes, H2) && Canonical(H2) && IsFree(H2, free)
    ensures H == H2
  {
    forall p | p in H ensures p in H2 && H2[p] == H[p] {
      HeadsAreMaximal(sizes, H, free, p, H[p]);
      HeadsAreMaximal(sizes, H2, free, p, H[p]);
    }
    forall p | p in H2 ensures p in H {
      HeadsAreMaximal(sizes, H, free, p, H2[p]);
      HeadsAreMaximal(sizes, H2, free, p, H2[p]);
    }
  }

  // ---------- blocks come and go ----------

  /** Page `base` and the `n - 1` pages behind it. */
  ghost function Run(base: Page, n: nat): (r: set<Page>)
    ensures forall q :: q in r <==> q.zone == base.zone && base.idx <= q.idx < base.idx + n
  {
    set i {:trigger Page(base.zone, i)} | base.idx <= i < base.idx + n :: Page(base.zone, i)
  }

  lemma {:induction false} RunSize(base: Page, n: nat)
    ensures |Run(base, n)| == n
    decreases n
  {
    if n == 0 {
      assert Run(base, n) == {};
    } else {
      RunSize(base, n - 1);
      assert Run(base, n) == Run(base, n - 1) + {Page(base.zone, base.idx + n - 1)};
    }
  }

  lemma NothingInCommon(p: Page, a: nat, q: Page, b: nat)
    requires forall x :: !(In(p, a, x) && In(q, b, x))
    ensures Apart(p, a, q, b)
  {
    assert !(In(p, a, p) && In(q, b, p));
    assert !(In(p, a, q) && In(q, b, q));
  }

  lemma AddCovers(H: Heads, p: Page, o: nat, q: Page)
    requires p !in H
    ensures Covered(H[p := o], q) <==> Covered(H, q) || In(p, o, q)
  {
    var H2 := H[p := o];
    if Covered(H2, q) {
      var h :| h in H2 && In(h, H2[h], q);
      assert h != p ==> In(h, H[h], q);
    }
    if Covered(H, q) {
      var h :| h in H && In(h, H[h], q);
      assert In(h, H2[h], q);
    }
    if In(p, o, q) {
      assert In(p, H2[p], q);
    }
  }

  lemma AddBlock(sizes: seq<nat>, H: Heads, free: set<Page>, p: Page, o: nat)
    requires Blocks(sizes, H) && IsFree(H, free) && BlockOk(sizes, p, o) && Run(p, Pow2(o)) !! free
    ensures p !in H && Blocks(sizes, H[p := o]) && IsFree(H[p := o], free + Run(p, Pow2(o)))
  {
    hide BlockOk, Pow2;
    assert In(p, o, p) && p in Run(p, Pow2(o));
    assert p in H ==> In(p, H[p], p) && Covered(H, p);
    forall q | q in H ensures Apart(q, H[q], p, o) {
      forall x ensures !(In(q, H[q], x) && In(p, o, x)) {
        assert In(q, H[q], x) ==> Covered(H, x);
        assert In(p, o, x) ==> x in Run(p, Pow2(o));
      }
      NothingInCommon(q, H[q], p, o);
    }
    forall q ensures q in free + Run(p, Pow2(o)) <==> Covered(H[p := o], q) {
      hide Covered;
      AddCovers(H, p, o, q);
    }
  }

  lemma DropBlock(sizes: seq<nat>, H: Heads, free: set<Page>, p: Page)
    requires Blocks(sizes, H) && IsFree(H, free) && p in H
    ensures Blocks(sizes, H - {p}) && IsFree(H - {p}, free - Run(p, Pow2(H[p])))
    ensures Run(p, Pow2(H[p])) <= free
  {
    var H2 := H - {p};
    forall q | q in Run(p, Pow2(H[p])) ensures q in free {
      assert In(p, H[p], q);
    }
    forall q ensures q in free - Run(p, Pow2(H[p])) <==> Covered(H2, q) {
      if Covered(H2, q) {
        var h :| h in H2 && In(h, H2[h], q);
        assert In(h, H[h], q) && Apart(h, H[h], p, H[p]);
      }
      if q in free - Run(p, Pow2(H[p])) {
        var h :| h in H && In(h, H[h], q);
        assert h != p && In(h, H2[h], q);
      }
    }
  }
}
