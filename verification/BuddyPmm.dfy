/** The buddy page allocator of ucore (kern/mm/buddy_pmm.c) as it runs. */
module BuddyPmm {
  import opened Binary
  import opened Buddies
  import opened Lists

  const MAX_ZONE_NUM := 10

  // ---------- lists and counters ----------

  /** The list of one order holds the heads of that order, once each, and its counter their number. */
  ghost predicate ListOk(l: seq<Page>, n: nat, H: Heads, o: nat) {
    n == |l| && Distinct(l) && forall p :: p in l <==> p in H && H[p] == o
  }

  ghost predicate Listed(lists: seq<seq<Page>>, nr: seq<nat>, H: Heads) {
    && |lists| == MAX_ORDER + 1 && |nr| == MAX_ORDER + 1
    && forall o :: 0 <= o <= MAX_ORDER ==> ListOk(lists[o], nr[o], H, o)
  }

  /** The number of pages that the counters stand for. */
  function NrPages(nr: seq<nat>): nat {
    if nr == [] then 0 else NrPages(nr[..|nr| - 1]) + nr[|nr| - 1] * Pow2(|nr| - 1)
  }

  lemma {:induction false} NrPagesUpdate(nr: seq<nat>, o: nat, k: nat)
    requires o < |nr|
    ensures NrPages(nr[o := k]) == NrPages(nr) - nr[o] * Pow2(o) + k * Pow2(o)
    decreases nr
  {
    var last := |nr| - 1;
    if o == last {
      assert nr[o := k][..last] == nr[..last];
    } else {
      NrPagesUpdate(nr[..last], o, k);
      assert nr[o := k][..last] == nr[..last][o := k];
    }
  }

  lemma NrPagesStep(nr: seq<nat>, o: nat)
    requires o < |nr|
    ensures NrPages(nr[o := nr[o] + 1]) == NrPages(nr) + Pow2(o)
    ensures nr[o] > 0 ==> NrPages(nr[o := nr[o] - 1]) == NrPages(nr) - Pow2(o)
  {
    NrPagesUpdate(nr, o, nr[o] + 1);
    assert (nr[o] + 1) * Pow2(o) == nr[o] * Pow2(o) + Pow2(o);
    if nr[o] > 0 {
      NrPagesUpdate(nr, o, nr[o] - 1);
      assert (nr[o] - 1) * Pow2(o) == nr[o] * Pow2(o) - Pow2(o);
    }
  }

  lemma {:induction false} WithoutHas(l: seq<Page>, p: Page)
    requires Distinct(l)
    ensures Distinct(Without(l, p)) && forall q :: q in Without(l, p) <==> q in l && q != p
    decreases l
  {
    if l != [] {
      WithoutHas(l[1..], p);
      assert forall q :: q in l <==> q == l[0] || q in l[1..];
      assert l[0] !in l[1..];
    }
  }

  lemma ListAdd(l: seq<Page>, n: nat, H: Heads, o: nat, p: Page)
    requires ListOk(l, n, H, o) && p !in H
    ensures ListOk([p] + l, n + 1, H[p := o], o)
  {
  }

  lemma ListDel(l: seq<Page>, n: nat, H: Heads, o: nat, p: Page)
    requires ListOk(l, n, H, o) && p in H && H[p] == o
    ensures n > 0 && ListOk(Without(l, p), n - 1, H - {p}, o)
  {
    WithoutHas(l, p);
  }

  lemma ListOther(l: seq<Page>, n: nat, H: Heads, o: nat, p: Page, a: nat)
    requires ListOk(l, n, H, o) && a != o
    ensures p !in H ==> ListOk(l, n, H[p := a], o)
    ensures p in H && H[p] == a ==> ListOk(l, n, H - {p}, o)
  {
  }

  lemma AddListed(lists: seq<seq<Page>>, nr: seq<nat>, H: Heads, p: Page, a: nat)
    requires Listed(lists, nr, H) && p !in H && a <= MAX_ORDER
    ensures Listed(lists[a := [p] + lists[a]], nr[a := nr[a] + 1], H[p := a])
  {
    hide ListOk;
    var lists2, nr2, H2 := lists[a := [p] + lists[a]], nr[a := nr[a] + 1], H[p := a];
    forall o | 0 <= o <= MAX_ORDER ensures ListOk(lists2[o], nr2[o], H2, o) {
      if o == a {
        ListAdd(lists[o], nr[o], H, o, p);
      } else {
        ListOther(lists[o], nr[o], H, o, p, a);
      }
    }
  }

  lemma DropListed(lists: seq<seq<Page>>, nr: seq<nat>, H: Heads, p: Page, a: nat)
    requires Listed(lists, nr, H) && p in H && a == H[p] <= MAX_ORDER
    ensures nr[a] > 0 && Listed(lists[a := Without(lists[a], p)], nr[a := nr[a] - 1], H - {p})
  {
    hide ListOk;
    ListDel(lists[a], nr[a], H, a, p);
    var lists2, nr2, H2 := lists[a := Without(lists[a], p)], nr[a := nr[a] - 1], H - {p};
    forall o | 0 <= o <= MAX_ORDER ensures ListOk(lists2[o], nr2[o], H2, o) {
      if o != a {
        ListOther(lists[o], nr[o], H, o, p, a);
      }
    }
  }

  lemma DropCanonical(H: Heads, p: Page)
    requires Canonical(H)
    ensures Canonical(H - {p})
  {
    forall q | q in H - {p} ensures !FreeBuddies(H - {p}, q) {
      assert !FreeBuddies(H, q);
    }
  }

  lemma AddCanonical(sizes: seq<nat>, H: Heads, p: Page, o: nat)
    requires Canonical(H) && Blocks(sizes, H) && BlockOk(sizes, p, o) && p !in H
    requires o < MAX_ORDER ==> !(Buddy(p, o) in H && H[Buddy(p, o)] == o)
    ensures Canonical(H[p := o])
  {
    hide Xor;
    var H2 := H[p := o];
    forall q | q in H2 ensures !FreeBuddies(H2, q) {
      MergedHalves(p, o);
      if q != p {
        assert !FreeBuddies(H, q) && BlockOk(sizes, q, H[q]);
        MergedHalves(q, H[q]);
      }
    }
  }

  lemma NoPages(nr: seq<nat>)
    requires forall o :: 0 <= o < |nr| ==> nr[o] == 0
    ensures NrPages(nr) == 0
    decreases nr
  {
    if nr != [] {
      NoPages(nr[..|nr| - 1]);
    }
  }

  /** Free blocks are aligned, disjoint and merged, listed once under their orders, and counted. */
  ghost predicate AreaOk(zones: seq<nat>, lists: seq<seq<Page>>, nr: seq<nat>, H: Heads, free: set<Page>) {
    && Blocks(zones, H) && Canonical(H) && IsFree(H, free)
    && Listed(lists, nr, H) && NrPages(nr) == |free|
  }

  lemma AreaSizes(zones: seq<nat>, lists: seq<seq<Page>>, nr: seq<nat>, H: Heads, free: set<Page>)
    requires AreaOk(zones, lists, nr, H, free)
    ensures |lists| == |nr| == MAX_ORDER + 1
    ensures forall p :: p in H ==> BlockOk(zones, p, H[p])
  {
  }

  lemma Bounds(zones: seq<nat>, lists: seq<seq<Page>>, nr: seq<nat>, H: Heads, p: Page, o: nat)
    requires Listed(lists, nr, H) && BlockOk(zones, p, o)
    ensures o <= MAX_ORDER && |lists| == |nr| == MAX_ORDER + 1
  {
  }

  lemma AreaAdd(zones: seq<nat>, lists: seq<seq<Page>>, nr: seq<nat>, H: Heads, free: set<Page>, p: Page, o: nat)
    requires AreaOk(zones, lists, nr, H, free)
    requires BlockOk(zones, p, o) && Run(p, Pow2(o)) !! free
    requires o < MAX_ORDER ==> !(Buddy(p, o) in H && H[Buddy(p, o)] == o)
    ensures o <= MAX_ORDER && |lists| == |nr| == MAX_ORDER + 1 && p !in H
    ensures AreaOk(zones, lists[o := [p] + lists[o]], nr[o := nr[o] + 1], H[p := o], free + Run(p, Pow2(o)))
  {
    hide Blocks, Canonical, IsFree, Listed, NrPages, Aligned, BlockOk, Buddy, Pow2;
    Bounds(zones, lists, nr, H, p, o);
    AddBlock(zones, H, free, p, o);
    AddCanonical(zones, H, p, o);
    AddListed(lists, nr, H, p, o);
    NrPagesStep(nr, o);
    RunSize(p, Pow2(o));
  }

  lemma AreaDrop(zones: seq<nat>, lists: seq<seq<Page>>, nr: seq<nat>, H: Heads, free: set<Page>, p: Page, o: nat)
    requires AreaOk(zones, lists, nr, H, free) && p in H && H[p] == o
    ensures o <= MAX_ORDER && |lists| == |nr| == MAX_ORDER + 1 && nr[o] > 0 && BlockOk(zones, p, o)
    ensures AreaOk(zones, lists[o := Without(lists[o], p)], nr[o := nr[o] - 1], H - {p}, free - Run(p, Pow2(o)))
    ensures Run(p, Pow2(o)) <= free
  {
    assert BlockOk(zones, p, o);
    hide Blocks, Canonical, IsFree, Listed, NrPages, Aligned, Pow2;
    Bounds(zones, lists, nr, H, p, o);
    DropBlock(zones, H, free, p);
    DropCanonical(H, p);
    DropListed(lists, nr, H, p, o);
    NrPagesStep(nr, o);
    RunSize(p, Pow2(o));
  }

  lemma AreaEmpty(lists: seq<seq<Page>>, nr: seq<nat>)
    requires |lists| == |nr| == MAX_ORDER + 1
    requires forall o :: 0 <= o <= MAX_ORDER ==> lists[o] == [] && nr[o] == 0
    ensures AreaOk([], lists, nr, map[], {})
  {
    NoPages(nr);
  }

  // ---------- the allocator ----------

  class BuddyManager {
    var zones: seq<nat>            // the sizes of the zones; pages are counted from their bases
    var freeList: seq<seq<Page>>   // free_area[].free_list
    var nrFree: seq<nat>           // free_area[].nr_free
    var property: Heads            // page->property of the pages with PG_property
    ghost var free: set<Page>      // the pages of free blocks

    ghost predicate Valid()
      reads this
    {
      AreaOk(zones, freeList, nrFree, property, free)
    }

    /** buddy_init */
    constructor ()
      ensures Valid() && zones == [] && free == {}
    {
      zones, property, free := [], map[], {};
      freeList := seq(MAX_ORDER + 1, _ => []);
      nrFree := seq(MAX_ORDER + 1, _ => 0);
      new;
      AreaEmpty(freeList, nrFree);
    }

    /** Marks a page as the head of a free block and puts it on the list of its order. */
    method Insert(p: Page, order: nat)
      requires Valid() && BlockOk(zones, p, order) && Run(p, Pow2(order)) !! free
      requires order < MAX_ORDER ==> !(Buddy(p, order) in property && property[Buddy(p, order)] == order)
      modifies this`freeList, this`nrFree, this`property, this`free
      ensures Valid() && free == old(free) + Run(p, Pow2(order))
      ensures property == old(property)[p := order] && p !in old(property)
    {
      hide AreaOk, BlockOk, Buddy, Pow2;
      AreaAdd(zones, freeList, nrFree, property, free, p, order);
      property := property[p := order];
      nrFree := nrFree[order := nrFree[order] + 1];
      freeList := freeList[order := [p] + freeList[order]];
      free := free + Run(p, Pow2(order));
    }

    /** Takes a head off its list. */
    method Remove(p: Page, order: nat)
      requires Valid() && p in property && property[p] == order
      modifies this`freeList, this`nrFree, this`property, this`free
      ensures Valid() && free == old(free) - Run(p, Pow2(order)) && Run(p, Pow2(order)) <= old(free)
      ensures property == old(property) - {p} && BlockOk(zones, p, order)
    {
      hide AreaOk, BlockOk, Buddy, Pow2;
      AreaDrop(zones, freeList, nrFree, property, free, p, order);
      property := property - {p};
      nrFree := nrFree[order := nrFree[order] - 1];
      freeList := freeList[order := Without(freeList[order], p)];
      free := free - Run(p, Pow2(order));
    }

    /** PG_property is set and the order is right; an index outside the zone is no buddy. */
    predicate PageIsBuddy(page: Page, order: nat)
      reads this
    {
      page in property && property[page] == order
    }

    /** What has been put into the new zone so far, up to page `p`; `before` are the free pages of older zones. */
    ghost predicate Filled(p: Page, before: set<Page>)
      reads this
    {
      && Valid() && p.zone == |zones| - 1 && free == before + Run(Page(p.zone, 0), p.idx)
      && (forall q :: q in before ==> q.zone < p.zone)
      && forall q :: q in property && q.zone == p.zone ==> q.idx < p.idx
    }

    /** buddy_init_memmap: a new zone of `n` free pages, cut into blocks from the largest order down. */
    method InitMemmap(n: nat)
      requires Valid() && n > 0 && |zones| < MAX_ZONE_NUM
      modifies this
      ensures Valid() && zones == old(zones) + [n] && free == old(free) + Run(Page(|old(zones)|, 0), n)
    {
      hide AreaOk, Aligned, Xor, And, BlockOk, Pow2;
      var p := Page(|zones|, 0);
      hide Filled;
      StartZone(n);
      var left: nat := n;
      var order: int := MAX_ORDER;
      AlignedZero(order);
      while left != 0
        invariant zones == old(zones) + [n] && p.zone == |old(zones)| && Filled(p, old(free)) && p.idx + left == n
        invariant -1 <= order <= MAX_ORDER && (order == -1 ==> left == 0)
        invariant order >= 0 ==> Aligned(p.idx, if order < MAX_ORDER then order + 1 else order)
        invariant 0 <= order < MAX_ORDER ==> left < Pow2(order + 1)
        decreases order + 1
      {
        FirstOfOrder(p.idx, order);
        while left >= Pow2(order)
          invariant zones == old(zones) + [n] && p.zone == |old(zones)| && Filled(p, old(free)) && p.idx + left == n
          invariant Aligned(p.idx, order)
          invariant order < MAX_ORDER ==> left < Pow2(order + 1) && (left >= Pow2(order) ==> Aligned(p.idx, order + 1))
          decreases left
        {
          InsertNext(p, order, n, old(free));
          AlignedNext(p.idx, order);
          p := Page(p.zone, p.idx + Pow2(order));
          left := left - Pow2(order);
        }
        assert order == 0 ==> left == 0;
        order := order - 1;
      }
      FilledAll(p, old(free), n);
    }

    method StartZone(n: nat)
      requires Valid()
      modifies this`zones
      ensures zones == old(zones) + [n] && Filled(Page(|old(zones)|, 0), free)
    {
      AreaGrows(zones, freeList, nrFree, property, free, n);
      hide AreaOk;
      zones := zones + [n];
    }

    lemma FirstOfOrder(i: nat, order: nat)
      ensures Pow2(order + 1) == 2 * Pow2(order) && Pow2(0) == 1
      ensures Aligned(i, order + 1) ==> Aligned(i, order)
    {
      if Aligned(i, order + 1) {
        AlignedLess(i, order);
      }
    }

    lemma FilledAll(p: Page, before: set<Page>, n: nat)
      requires Filled(p, before) && p.idx == n
      ensures Valid() && free == before + Run(Page(|zones| - 1, 0), n)
    {
      hide AreaOk;
    }

    /** The next block of the new zone. */
    method InsertNext(p: Page, order: nat, n: nat, ghost before: set<Page>)
      requires Filled(p, before) && zones[p.zone] == n && p.idx + Pow2(order) <= n && order <= MAX_ORDER
      requires Aligned(p.idx, order) && (order < MAX_ORDER ==> Aligned(p.idx, order + 1))
      modifies this`freeList, this`nrFree, this`property, this`free
      ensures Filled(Page(p.zone, p.idx + Pow2(order)), before)
    {
      hide AreaOk, Aligned, Xor, And;
      XorIsBuddy(p.idx, order);
      Insert(p, order);
    }

    /** Merges a block that is being freed with its buddies, as long as they are free. */
    method FreePagesSub(base: Page, order: nat)
      requires Valid() && BlockOk(zones, base, order) && Run(base, Pow2(order)) !! free
      modifies this`freeList, this`nrFree, this`property, this`free
      ensures Valid() && free == old(free) + Run(base, Pow2(order))
    {
      hide AreaOk, Aligned, Xor, And, Pow2;
      MaskIsAligned(base.idx, order);
      assert And(base.idx, Pow2(order) - 1) == 0;   // the assertion in the source
      var o := order;
      var page := base;
      while o < MAX_ORDER
        invariant Valid() && BlockOk(zones, page, o) && Run(page, Pow2(o)) !! free
        invariant free + Run(page, Pow2(o)) == old(free) + Run(base, Pow2(order))
        invariant zones == old(zones)
        decreases MAX_ORDER - o
      {
        var buddy := Page(page.zone, Xor(page.idx, Pow2(o)));
        if !PageIsBuddy(buddy, o) {
          break;
        }
        MergedHalves(page, o);
        Remove(buddy, o);
        MergedFits(zones, page, o);
        page := Page(page.zone, And(page.idx, buddy.idx));
        o := o + 1;
      }
      Insert(page, o);
    }

    /** The least order whose blocks have room for `n` pages; the kernel stops if there is none. */
    method GetOrder(n: nat) returns (r: Option<nat>)
      ensures r.None? <==> n > Pow2(MAX_ORDER)
      ensures r.Some? ==> IsOrder(n, r.value)
    {
      hide Pow2;
      var order := 0;
      while order <= MAX_ORDER
        invariant 0 <= order <= MAX_ORDER + 1 && (order > 0 ==> Pow2(order - 1) < n)
      {
        if n <= Pow2(order) {
          PowersGrow(order, MAX_ORDER);
          return Some(order);
        }
        order := order + 1;
      }
      return None;
    }

    /** Takes the first block of the smallest order there is, and gives back what is too much. */
    method AllocPagesSub(order: nat) returns (r: Option<Page>)
      requires Valid() && order <= MAX_ORDER
      modifies this`freeList, this`nrFree, this`property, this`free
      ensures Valid()
      ensures r.None? ==> unchanged(this) && NoneFrom(freeList, order)
      ensures r.Some? ==> BlockOk(zones, r.value, order) && FirstFit(old(freeList), order, r.value)
      ensures r.Some? ==> Run(r.value, Pow2(order)) <= old(free) && free == old(free) - Run(r.value, Pow2(order))
    {
      AreaSizes(zones, freeList, nrFree, property, free);
      hide AreaOk, BlockOk, Pow2, FirstFit;
      var cur := order;
      while cur <= MAX_ORDER
        invariant order <= cur <= MAX_ORDER + 1 && unchanged(this)
        invariant forall o :: order <= o < cur ==> freeList[o] == []
      {
        if freeList[cur] != [] {
          FirstFits(freeList, order, cur);
          var page := TakeFirst(cur, order);
          return Some(page);
        }
        cur := cur + 1;
      }
      return None;
    }

    /** The body of the loop over the orders, where a list is not empty. */
    method TakeFirst(cur: nat, order: nat) returns (page: Page)
      requires Valid() && order <= cur <= MAX_ORDER && |freeList| == MAX_ORDER + 1 && freeList[cur] != []
      modifies this`freeList, this`nrFree, this`property, this`free
      ensures Valid() && BlockOk(zones, page, order) && page == old(freeList)[cur][0]
      ensures Run(page, Pow2(order)) <= old(free) && free == old(free) - Run(page, Pow2(order))
    {
      hide AreaOk, BlockOk, Pow2;
      page := freeList[cur][0];
      FirstIsHead(zones, freeList, nrFree, property, free, cur);
      Remove(page, cur);
      SplitTo(page, cur, order);
    }

    /** Splits a block that is on no list: the upper halves go back, a block of the order asked for stays. */
    method SplitTo(page: Page, cur: nat, order: nat)
      requires Valid() && order <= cur <= MAX_ORDER && BlockOk(zones, page, cur) && Run(page, Pow2(cur)) !! free
      modifies this`freeList, this`nrFree, this`property, this`free
      ensures Valid() && BlockOk(zones, page, order) && Run(page, Pow2(order)) <= Run(page, Pow2(cur))
      ensures Run(page, Pow2(order)) !! free
      ensures free + Run(page, Pow2(order)) == old(free) + Run(page, Pow2(cur))
    {
      hide AreaOk, BlockOk, Pow2, Xor, And, Aligned, Buddy;
      var c := cur;
      while c > order
        invariant order <= c <= cur && Valid() && BlockOk(zones, page, c) && Run(page, Pow2(c)) !! free
        invariant free + Run(page, Pow2(c)) == old(free) + Run(page, Pow2(cur))
        invariant Run(page, Pow2(c)) <= Run(page, Pow2(cur))
      {
        Halves(zones, page, c);
        c := c - 1;
        var buddy := Page(page.zone, page.idx + Pow2(c));
        RunHalves(page, c);
        NotAHead(zones, freeList, nrFree, property, free, page, c);
        Insert(buddy, c);
      }
    }

    /** `n` pages, or nothing if there is no block large enough; a request for too many stops the kernel. */
    method AllocPages(n: nat) returns (r: Request, ghost order: nat)
      requires Valid() && n > 0
      modifies this`freeList, this`nrFree, this`property, this`free
      ensures Valid() && (r.Panic? <==> n > Pow2(MAX_ORDER)) && (!r.Panic? ==> IsOrder(n, order))
      ensures !r.Pages? ==> unchanged(this)
      ensures r.NoMemory? ==> forall p :: !(BlockOk(zones, p, order) && Full(free, p, order))
      ensures r.Pages? ==> BlockOk(zones, r.base, order) && FirstFit(old(freeList), order, r.base)
      ensures r.Pages? ==> Run(r.base, n) <= old(free) && free == old(free) - Run(r.base, n)
    {
      hide AreaOk, BlockOk, Pow2, FirstFit;
      var o := GetOrder(n);
      if o.None? {
        return Panic, 0;
      }
      order := o.value;
      var page := AllocPagesSub(o.value);
      if page.None? {
        NothingLarge(zones, freeList, nrFree, property, free, order);
        return NoMemory, order;
      }
      r := Pages(page.value);
      RunSplit(zones, page.value, order, n);
      PowersGrow(order, MAX_ORDER + 1);
      if n != Pow2(o.value) {
        var ok := FreePages(Page(page.value.zone, page.value.idx + n), Pow2(o.value) - n);
      }
    }

    /**
     * Frees a run of pages: blocks of growing orders up to a boundary, then of falling orders.
     * The assertion about the order fails exactly for runs that reach 2^11 pages past the next multiple of 2^11.
     */
    method FreePages(start: Page, count: nat) returns (ok: bool)
      requires Valid() && count > 0 && start.zone < |zones| && start.idx + count <= zones[start.zone]
      requires Run(start, count) !! free
      modifies this`freeList, this`nrFree, this`property, this`free
      ensures Valid() && (ok <==> count < Gap(start.idx, MAX_ORDER + 1) + Pow2(MAX_ORDER + 1))
      ensures ok ==> free == old(free) + Run(start, count)
    {
      hide AreaOk, Pow2, Aligned, And, Xor, Gap, BlockOk;
      var base, n: nat := start, count;
      if n == 1 {
        Powers(start.idx);
        PowersGrow(0, MAX_ORDER + 1);
        SmallestBlock(zones, base);
        FreePagesSub(base, 0);
        return true;
      }
      var order := 0;
      Powers(start.idx);
      while n >= Pow2(order)
        invariant 0 <= order <= MAX_ORDER + 1 && (order == 0 ==> n == count)
        invariant Freed(start, count, base, n, old(free)) && Aligned(base.idx, order) && zones == old(zones)
        invariant base.idx == start.idx + Gap(start.idx, order)
        decreases MAX_ORDER + 1 - order
      {
        if order > MAX_ORDER {
          return false;
        }
        BitIsUnaligned(base.idx, order);
        GapNext(start.idx, order);
        if And(base.idx, Pow2(order)) != 0 {
          base, n := FreeOne(start, count, base, n, order, old(free));
        }
        order := order + 1;
      }
      GapGrows(start.idx, order, MAX_ORDER + 1);
      PowersGrow(order, MAX_ORDER + 1);
      FreeFalling(start, count, base, n, order, old(free));
      return true;
    }

    /** The second half: less than a block of the order is left, from an aligned page on. */
    method FreeFalling(ghost start: Page, ghost count: nat, first: Page, left: nat, top: nat, ghost before: set<Page>)
      requires Freed(start, count, first, left, before) && Aligned(first.idx, top)
      requires top <= MAX_ORDER + 1 && left < Pow2(top)
      modifies this`freeList, this`nrFree, this`property, this`free
      ensures Valid() && free == before + Run(start, count)
    {
      hide Freed, Pow2, Aligned;
      var base := first;
      var n: nat, order: nat := left, top;
      while n != 0
        invariant order <= MAX_ORDER + 1 && n < Pow2(order)
        invariant Freed(start, count, base, n, before) && Aligned(base.idx, order)
        decreases n
      {
        ghost var o := order;
        while n < Pow2(order)
          invariant order <= o && n < (if order == o then Pow2(order) else Pow2(order + 1))
          invariant Freed(start, count, base, n, before) && Aligned(base.idx, order)
        {
          OneLess(base.idx, order, n);
          order := order - 1;
        }
        assert order < o;
        Doubling(order);
        AlignedNext(base.idx, order);
        base, n := FreeOne(start, count, base, n, order, before);
      }
      FreedAll(start, count, base, before);
    }

    lemma FreedAll(start: Page, count: nat, base: Page, before: set<Page>)
      requires Freed(start, count, base, 0, before)
      ensures Valid() && free == before + Run(start, count)
    {
      hide AreaOk;
    }

    /** Pages up to `base` are free, `n` pages from there on are still to be freed. */
    ghost predicate Freed(start: Page, count: nat, base: Page, n: nat, before: set<Page>)
      reads this
    {
      && Valid() && base.zone == start.zone && base.idx + n == start.idx + count && base.idx >= start.idx
      && start.zone < |zones| && start.idx + count <= zones[start.zone]
      && free == before + Run(start, base.idx - start.idx) && Run(base, n) !! free
    }

    method FreeOne(ghost start: Page, ghost count: nat, base: Page, n: nat, order: nat, ghost before: set<Page>)
      returns (base2: Page, n2: nat)
      requires Freed(start, count, base, n, before) && n >= Pow2(order) && order <= MAX_ORDER && Aligned(base.idx, order)
      modifies this`freeList, this`nrFree, this`property, this`free
      ensures base2 == Page(base.zone, base.idx + Pow2(order)) && n2 == n - Pow2(order)
      ensures Freed(start, count, base2, n2, before)
    {
      hide AreaOk, Aligned, Pow2;
      FreePagesSub(base, order);
      base2 := Page(base.zone, base.idx + Pow2(order));
      n2 := n - Pow2(order);
    }

    /** As the self test of the allocator does: what is allocated and freed again leaves everything as it was. */
    method AllocThenFree(n: nat) returns (r: Request)
      requires Valid() && n > 0
      modifies this`freeList, this`nrFree, this`property, this`free
      ensures Valid() && free == old(free) && property == old(property) && nrFree == old(nrFree)
      ensures SameLists(freeList, old(freeList))
    {
      hide AreaOk, BlockOk, Pow2, FirstFit, SameLists;
      ghost var lists, nr, H, before := freeList, nrFree, property, free;
      var request, order := AllocPages(n);
      r := request;
      if r.Pages? {
        InZone(zones, r.base, order, n);
        var ok := FreePages(r.base, n);
        assert ok;
        assert before - Run(r.base, n) + Run(r.base, n) == before;
      }
      assert free == before;
      SamePagesSameState(zones, freeList, nrFree, property, lists, nr, H, free);
    }

    /** The number of free pages. */
    method NrFreePages() returns (ret: nat)
      requires Valid()
      ensures ret == |free|
    {
      AreaSizes(zones, freeList, nrFree, property, free);
      hide Pow2, Blocks, Canonical, IsFree, Listed;
      ret := 0;
      var order := 0;
      while order <= MAX_ORDER
        invariant 0 <= order <= MAX_ORDER + 1 && ret == NrPages(nrFree[..order])
      {
        assert nrFree[..order + 1][..order] == nrFree[..order];
        ret := ret + nrFree[order] * Pow2(order);
        order := order + 1;
      }
      assert nrFree[..order] == nrFree;
    }
  }

  datatype Request = Pages(base: Page) | NoMemory | Panic

  predicate IsOrder(n: nat, o: nat) {
    o <= MAX_ORDER && n <= Pow2(o) && (o > 0 ==> Pow2(o - 1) < n)
  }

  predicate NoneFrom(lists: seq<seq<Page>>, order: nat)
    requires |lists| == MAX_ORDER + 1
  {
    forall o :: order <= o <= MAX_ORDER ==> lists[o] == []
  }

  /** The first block on the list of the smallest order that has one. */
  ghost predicate FirstFit(lists: seq<seq<Page>>, order: nat, p: Page) {
    exists c :: order <= c < |lists| && lists[c] != [] && lists[c][0] == p && forall o :: order <= o < c ==> lists[o] == []
  }

  lemma InZone(zones: seq<nat>, p: Page, o: nat, n: nat)
    requires BlockOk(zones, p, o) && IsOrder(n, o)
    ensures p.zone < |zones| && p.idx + n <= zones[p.zone] && n <= Pow2(o) <= Pow2(MAX_ORDER + 1)
    ensures n < Pow2(MAX_ORDER + 1)
  {
    PowersGrow(o, MAX_ORDER + 1);
  }

  predicate SameLists(l1: seq<seq<Page>>, l2: seq<seq<Page>>) {
    |l1| == |l2| && forall o :: 0 <= o < |l1| ==> multiset(l1[o]) == multiset(l2[o])
  }

  lemma {:induction false} OnceEach(l: seq<Page>, p: Page)
    requires Distinct(l)
    ensures multiset(l)[p] == if p in l then 1 else 0
    decreases l
  {
    if l != [] {
      assert l == [l[0]] + l[1..];
      assert l[0] !in l[1..];
      OnceEach(l[1..], p);
    }
  }

  /** The free pages determine the free blocks, the counters, and the lists up to the order on them. */
  lemma SamePagesSameState(zones: seq<nat>, l1: seq<seq<Page>>, n1: seq<nat>, H1: Heads, l2: seq<seq<Page>>,
                           n2: seq<nat>, H2: Heads, free: set<Page>)
    requires AreaOk(zones, l1, n1, H1, free) && AreaOk(zones, l2, n2, H2, free)
    ensures H1 == H2 && n1 == n2 && SameLists(l1, l2)
  {
    SamePagesSameBlocks(zones, H1, H2, free);
    forall o | 0 <= o <= MAX_ORDER ensures n1[o] == n2[o] && multiset(l1[o]) == multiset(l2[o]) {
      assert ListOk(l1[o], n1[o], H1, o) && ListOk(l2[o], n2[o], H2, o);
      forall p ensures multiset(l1[o])[p] == multiset(l2[o])[p] {
        OnceEach(l1[o], p);
        OnceEach(l2[o], p);
      }
      assert multiset(l1[o]) == multiset(l2[o]);
      assert |multiset(l1[o])| == |l1[o]| && |multiset(l2[o])| == |l2[o]|;
    }
  }

  lemma FirstFits(lists: seq<seq<Page>>, order: nat, c: nat)
    requires order <= c < |lists| && lists[c] != [] && forall o :: order <= o < c ==> lists[o] == []
    ensures FirstFit(lists, order, lists[c][0])
  {
  }

  lemma FirstIsHead(zones: seq<nat>, lists: seq<seq<Page>>, nr: seq<nat>, H: Heads, free: set<Page>, o: nat)
    requires AreaOk(zones, lists, nr, H, free) && o <= MAX_ORDER && lists[o] != []
    ensures lists[o][0] in H && H[lists[o][0]] == o
  {
    assert ListOk(lists[o], nr[o], H, o);
    assert lists[o][0] in lists[o];
  }

  lemma RunSplit(zones: seq<nat>, p: Page, o: nat, n: nat)
    requires BlockOk(zones, p, o) && n <= Pow2(o)
    ensures p.zone < |zones| && p.idx + Pow2(o) <= zones[p.zone]
    ensures Run(p, Pow2(o)) == Run(p, n) + Run(Page(p.zone, p.idx + n), Pow2(o) - n)
    ensures Run(p, n) !! Run(Page(p.zone, p.idx + n), Pow2(o) - n)
  {
  }

  lemma SmallestBlock(zones: seq<nat>, p: Page)
    requires p.zone < |zones| && p.idx < zones[p.zone]
    ensures BlockOk(zones, p, 0)
  {
  }

  lemma RunHalves(p: Page, o: nat)
    ensures Run(p, Pow2(o + 1)) == Run(p, Pow2(o)) + Run(Page(p.zone, p.idx + Pow2(o)), Pow2(o))
    ensures Run(p, Pow2(o)) !! Run(Page(p.zone, p.idx + Pow2(o)), Pow2(o))
    ensures p in Run(p, Pow2(o))
  {
  }

  /** The head of a block in use is the head of no free block. */
  lemma NotAHead(zones: seq<nat>, lists: seq<seq<Page>>, nr: seq<nat>, H: Heads, free: set<Page>, p: Page, o: nat)
    requires AreaOk(zones, lists, nr, H, free) && p !in free
    ensures p !in H
  {
    assert p in H ==> In(p, H[p], p) && Covered(H, p);
  }

  /** Without a free block of some order or above there is no room for one. */
  lemma NothingLarge(zones: seq<nat>, lists: seq<seq<Page>>, nr: seq<nat>, H: Heads, free: set<Page>, order: nat)
    requires AreaOk(zones, lists, nr, H, free) && NoneFrom(lists, order)
    ensures forall p :: !(BlockOk(zones, p, order) && Full(free, p, order))
  {
    forall b | b in H ensures H[b] < order {
      assert BlockOk(zones, b, H[b]) && ListOk(lists[H[b]], nr[H[b]], H, H[b]);
      assert b in lists[H[b]];
    }
    forall p ensures !(BlockOk(zones, p, order) && Full(free, p, order)) {
      if BlockOk(zones, p, order) && Full(free, p, order) {
        var b := FullIsInside(zones, H, p, order);
      }
    }
  }

  /** A block and its buddy make up the block twice as large. */
  lemma MergedFits(sizes: seq<nat>, p: Page, o: nat)
    requires BlockOk(sizes, p, o) && BlockOk(sizes, Buddy(p, o), o) && o < MAX_ORDER
    ensures BlockOk(sizes, Merged(p, o), o + 1)
    ensures Run(Merged(p, o), Pow2(o + 1)) == Run(p, Pow2(o)) + Run(Buddy(p, o), Pow2(o))
  {
    hide Aligned, Xor, And;
    MergedHalves(p, o);
  }

  /** A new zone changes nothing for the zones before it. */
  lemma AreaGrows(zones: seq<nat>, lists: seq<seq<Page>>, nr: seq<nat>, H: Heads, free: set<Page>, n: nat)
    requires AreaOk(zones, lists, nr, H, free)
    ensures AreaOk(zones + [n], lists, nr, H, free)
    ensures forall p :: p in H ==> p.zone < |zones|
    ensures forall p :: p in free ==> p.zone < |zones|
  {
    forall p | p in H ensures BlockOk(zones + [n], p, H[p]) && p.zone < |zones| {
      assert BlockOk(zones, p, H[p]);
    }
    forall q | q in free ensures q.zone < |zones| {
      assert Covered(H, q);
    }
  }
}
