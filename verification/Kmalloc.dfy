/** kmalloc and kfree of ucore (kern/mm/kmalloc.c), on top of the buddy page allocator. */
module Kmalloc {
  import opened Binary
  import opened Buddies
  import opened Lists
  import opened SlabLayout
  import opened SlabCaches
  import opened SlabSteps
  import BuddyPmm

  datatype Memory = Block(at: Addr) | NoMemory | Panic

  class SlabAllocator {
    const pmm: BuddyPmm.BuddyManager
    const caches: seq<Cache>
    var slabs: map<Addr, Slab>
    var pages: map<Page, Use>
    var slabsFull: seq<seq<Addr>>
    var slabsNotfull: seq<seq<Addr>>
    ghost var chains: map<Addr, seq<nat>>
    ghost var home: map<Addr, nat>
    ghost var live: map<Addr, Obj>

    ghost function Now(): World
      reads this, pmm`zones
    {
      World(pmm.zones, slabs, pages, slabsFull, slabsNotfull, chains, home, live)
    }

    ghost predicate Valid()
      reads this, pmm
    {
      pmm.Valid() && Sound(caches, Now()) && pages.Keys !! pmm.free && PowerSized(caches)
    }

    /** Between calls every slab holds an object. */
    ghost predicate Settled()
      reads this, pmm
    {
      Valid() && NoneEmpty(Now())
    }

    /** The pages that are free or in slabs. */
    ghost function AllPages(): set<Page>
      reads this, pmm
    {
      pages.Keys + pmm.free
    }

    /** slab_init */
    constructor (p: BuddyPmm.BuddyManager)
      requires p.Valid()
      ensures Settled() && pmm == p && Held(caches, Now()) == {} && pages == map[] && p.free == old(p.free)
    {
      var cs := SlabInit();
      pmm, caches, slabs, pages, chains, home, live := p, cs, map[], map[], map[], map[], map[];
      slabsFull, slabsNotfull := seq(NCACHES, _ => []), seq(NCACHES, _ => []);
      new;
      hide CachesOk;
      assert PowerSized(caches);
      assert forall c: nat {:trigger ListsOk(caches, Now(), c)} :: c < NCACHES ==> ListsOk(caches, Now(), c);
    }

    /** kmem_cache_alloc_one, with the first slab of the list */
    method KmemCacheAllocOne(c: nat) returns (objp: Addr)
      requires Valid() && c < NCACHES && slabsNotfull[c] != []
      modifies this`slabs, this`slabsFull, this`slabsNotfull, this`chains, this`live
      ensures Valid() && Now() == TakeFirst(caches, old(Now()), c) && Gained(caches, old(Now()), Now(), objp, c)
    {
      hide Sound, Gained, BuddyPmm.AreaOk;
      ghost var w := Now();
      Dimensions(caches, w);
      TakeStep(caches, w, c);
      objp := TakeFrom(c, slabsNotfull[c][0]);
    }

    method TakeFrom(c: nat, slabp: Addr) returns (objp: Addr)
      requires CanTake(caches, Now(), slabp) && home[slabp] == c
      modifies this`slabs, this`slabsFull, this`slabsNotfull, this`chains, this`live
      ensures Now() == TakeOne(caches, old(Now()), slabp)
      ensures objp == ObjAddr(caches[c], old(slabs[slabp]), old(slabs[slabp].free))
    {
      var sl := slabs[slabp];
      objp := Addr(sl.sMem.zone, sl.sMem.at + sl.free * caches[c].objsize);
      var next := sl.bufctl[sl.free];
      slabs := slabs[slabp := sl.(inuse := sl.inuse + 1, free := next)];
      chains := chains[slabp := chains[slabp][1..]];
      live := live[objp := Obj(slabp, sl.free)];
      if next == BUFCTL_END {
        slabsNotfull := slabsNotfull[c := Without(slabsNotfull[c], slabp)];
        slabsFull := slabsFull[c := [slabp] + slabsFull[c]];
      }
    }

    // ---------- new slabs ----------

    /** SET_PAGE_CACHE, SET_PAGE_SLAB and SetPageSlab for pages `base` to `base + n`. */
    method SetPages(base: Page, n: nat, use: Use)
      modifies this`pages
      ensures pages.Keys == old(pages).Keys + Run(base, n)
      ensures forall p :: p in pages ==> pages[p] == if p in Run(base, n) then use else old(pages)[p]
    {
      var i := 0;
      while i < n
        invariant 0 <= i <= n && pages.Keys == old(pages).Keys + Run(base, i)
        invariant forall p :: p in pages ==> pages[p] == if p in Run(base, i) then use else old(pages)[p]
      {
        pages := pages[Page(base.zone, base.idx + i) := use];
        i := i + 1;
      }
    }

    /** The new slab `slabp` in the pages from `base` on. */
    method LinkSlab(c: nat, slabp: Addr, base: Page)
      requires CanAdd(caches, Now(), c, slabp, base)
      modifies this`slabs, this`pages, this`slabsNotfull, this`chains, this`home
      ensures Now() == AddSlab(caches, old(Now()), c, slabp, base)
    {
      var k := caches[c];
      var sMem := Addr(base.zone, PGSIZE * base.idx + k.offset);
      SetPages(base, Pow2(k.pageOrder), Use(c, slabp));
      var bufctl := FreeChain(k.num);
      slabs := slabs[slabp := Slab(sMem, 0, k.offset, 0, bufctl)];
      chains := chains[slabp := Counting(k.num)];
      home := home[slabp := c];
      slabsNotfull := slabsNotfull[c := [slabp] + slabsNotfull[c]];
      assert pages == AddSlab(caches, old(Now()), c, slabp, base).pages;
    }

    method FreeChain(num: nat) returns (bufctl: seq<nat>)
      requires num > 0
      ensures bufctl == Chained(num)
    {
      bufctl := seq(num, _ => 0);
      var i := 0;
      while i < num
        invariant 0 <= i <= num == |bufctl|
        invariant forall j :: 0 <= j < i ==> bufctl[j] == j + 1
      {
        bufctl := bufctl[i := i + 1];
        i := i + 1;
      }
      bufctl := bufctl[num - 1 := BUFCTL_END];
    }

    /** kmem_cache_grow: one more slab, which is empty and the first on its list. */
    method KmemCacheGrow(c: nat) returns (ok: bool)
      requires Settled() && c < NCACHES
      modifies this, pmm
      ensures Valid() && pmm.zones == old(pmm.zones) && AllPages() == old(AllPages())
      ensures ok ==> NewSlab(caches, old(Now()), Now(), c) && c < |slabsNotfull| && slabsNotfull[c] != []
      ensures !ok ==> Now() == old(Now()) && pmm.free == old(pmm.free)
      ensures ok <==> Growable(caches, old(Now()), old(pmm.free), c)
      decreases if caches[c].offSlab then 1 else 0, 1
    {
      hide Sound, Gained, NewSlab, BuddyPmm.AreaOk, NoneEmpty, CacheOk, CachesOk, Pow2;
      ghost var free0 := pmm.free;
      Dimensions(caches, Now());
      CacheBounds(caches, c);
      var n := Pow2(caches[c].pageOrder);
      ghost var w := Now();
      var r, o := pmm.AllocPages(n);
      OrderIs(caches[c].pageOrder, o);
      if !r.Pages? {
        NoRoom(pmm.zones, free0, o);
        return false;
      }
      BlockIsRoom(pmm.zones, free0, r.base, o);
      LeftBehind(free0, r.base, n);
      ok := SetUpSlab(c, r.base, n, free0);
    }

    /** kmem_cache_slabmgmt, and the new slab in the pages from `base` on; they go back if there is no control area. */
    method SetUpSlab(c: nat, base: Page, n: nat, ghost free0: set<Page>) returns (ok: bool)
      requires Settled() && c < NCACHES && c < |caches| && n == Pow2(caches[c].pageOrder) && 0 < n <= 1024
      requires caches[c].offSlab ==> caches[c].slabCachep < NCACHES && !caches[caches[c].slabCachep].offSlab
      requires BlockOk(pmm.zones, base, caches[c].pageOrder)
      requires base.zone < |pmm.zones| && base.idx + n <= pmm.zones[base.zone]
      requires Run(base, n) <= free0 && pmm.free == free0 - Run(base, n) && free0 !! pages.Keys
      modifies this, pmm
      ensures Valid() && pmm.zones == old(pmm.zones) && AllPages() == old(pages.Keys) + free0
      ensures ok ==> NewSlab(caches, old(Now()), Now(), c) && c < |slabsNotfull| && slabsNotfull[c] != []
      ensures !ok ==> Now() == old(Now()) && pmm.free == free0
      ensures ok <==> (caches[c].offSlab ==> HasFree(old(Now()), caches[c].slabCachep) || old(pmm.free) != {})
      decreases if caches[c].offSlab then 1 else 0, 0
    {
      hide Sound, Gained, NewSlab, BuddyPmm.AreaOk, NoneEmpty, CacheOk, CachesOk, Pow2, BlockOk;
      ghost var w := Now();
      var slabp := KvaOf(base);
      if caches[c].offSlab {
        PageIsRoom(pmm.zones, pmm.freeList, pmm.nrFree, pmm.property, pmm.free);
        ControlCache(caches, w, c);
        var ctl := KmemCacheAlloc(caches[c].slabCachep);
        if ctl.NoMemory? {
          TakeBack(base, n, free0);
          return false;
        }
        slabp := ctl.at;
      }
      GrowStep(caches, w, Now(), c, slabp, base);
      LinkSlab(c, slabp, base);
      ok := true;
    }

    /** The pages for a slab that cannot be set up go back. */
    method TakeBack(base: Page, n: nat, ghost free0: set<Page>)
      requires pmm.Valid() && 0 < n <= 1024 && base.zone < |pmm.zones| && base.idx + n <= pmm.zones[base.zone]
      requires Run(base, n) <= free0 && pmm.free == free0 - Run(base, n)
      modifies pmm
      ensures pmm.Valid() && pmm.free == free0 && pmm.zones == old(pmm.zones)
    {
      hide BuddyPmm.AreaOk, Pow2, Run;
      LargestRun();
      var done := pmm.FreePages(base, n);
    }

    /** kmem_cache_alloc */
    method KmemCacheAlloc(c: nat) returns (objp: Memory)
      requires Settled() && c < NCACHES
      modifies this, pmm
      ensures Settled() && pmm.zones == old(pmm.zones) && AllPages() == old(AllPages()) && !objp.Panic?
      ensures objp.Block? ==> Gained(caches, old(Now()), Now(), objp.at, c)
      ensures objp.NoMemory? ==> Now() == old(Now()) && pmm.free == old(pmm.free)
      ensures objp.Block? <==> Served(caches, old(Now()), old(pmm.free), c)
      decreases if caches[c].offSlab then 1 else 0, 2
    {
      hide Sound, Gained, NewSlab, NoneEmpty, BuddyPmm.AreaOk;
      ghost var w := Now();
      Dimensions(caches, w);
      if slabsNotfull[c] == [] {
        var grown := KmemCacheGrow(c);
        if !grown {
          return NoMemory;
        }
      }
      ghost var u := Now();
      var at := KmemCacheAllocOne(c);
      objp := Block(at);
      TakenAfterGrowing(caches, w, u, Now(), c, at);
    }

    /** A block of at least `size` bytes that overlaps nothing in use. */
    method Kmalloc(size: nat) returns (r: Memory)
      requires Settled()
      modifies this, pmm
      ensures Settled() && pmm.zones == old(pmm.zones) && AllPages() == old(AllPages())
      ensures r.Panic? <==> size == 0 || size > Pow2(MAX_SIZE_ORDER)
      ensures r.Block? ==> Granted(caches, old(Now()), Now(), r.at, size)
      ensures !r.Block? ==> Now() == old(Now()) && pmm.free == old(pmm.free)
      ensures forall c: nat :: ClassOf(size, c) ==> (r.Block? <==> Served(caches, old(Now()), old(pmm.free), c))
    {
      hide Sound, Gained, Granted, BuddyPmm.AreaOk, NoneEmpty, Pow2;
      if size == 0 {
        return Panic;
      }
      var order := GetOrder(size);
      if order.TooLarge? {
        NoClass(size);
        return Panic;
      }
      ghost var w := Now();
      Dimensions(caches, w);
      OneClass(size, order.order);
      r := KmemCacheAlloc(order.order - MIN_SIZE_ORDER);
      if r.Block? {
        GainedIsGranted(caches, w, Now(), r.at, order.order - MIN_SIZE_ORDER, size);
      }
    }

    // ---------- objects come back ----------

    /** list_del: the slab leaves the list that it is on. */
    method ListDel(c: nat, slabp: Addr)
      requires c < |slabsFull| && c < |slabsNotfull|
      modifies this`slabsFull, this`slabsNotfull
      ensures if slabp in old(slabsFull)[c]
        then slabsFull == old(slabsFull)[c := Without(old(slabsFull)[c], slabp)] && slabsNotfull == old(slabsNotfull)
        else slabsNotfull == old(slabsNotfull)[c := Without(old(slabsNotfull)[c], slabp)] && slabsFull == old(slabsFull)
    {
      if slabp in slabsFull[c] {
        slabsFull := slabsFull[c := Without(slabsFull[c], slabp)];
      } else {
        slabsNotfull := slabsNotfull[c := Without(slabsNotfull[c], slabp)];
      }
    }

    /** An object of `slabp` is the first free one again. */
    method PutBack(slabp: Addr, objnr: nat, objp: Addr)
      requires slabp in slabs && slabp in chains && objnr < |slabs[slabp].bufctl| && slabs[slabp].inuse > 0
      modifies this`slabs, this`chains, this`live
      ensures var sl := old(slabs)[slabp];
        slabs == old(slabs)[slabp := sl.(inuse := sl.inuse - 1, free := objnr, bufctl := sl.bufctl[objnr := sl.free])]
      ensures chains == old(chains)[slabp := [objnr] + old(chains)[slabp]] && live == old(live) - {objp}
    {
      var sl := slabs[slabp];
      sl := sl.(bufctl := sl.bufctl[objnr := sl.free]);
      sl := sl.(free := objnr);
      sl := sl.(inuse := sl.inuse - 1);
      slabs, chains, live := slabs[slabp := sl], chains[slabp := [objnr] + chains[slabp]], live - {objp};
    }

    /** ClearPageSlab for the pages of a slab. */
    method ClearPages(base: Page, n: nat)
      requires forall p :: p in Run(base, n) ==> p in pages
      modifies this`pages
      ensures pages == old(pages) - Run(base, n)
    {
      var i := 0;
      while i < n
        invariant 0 <= i <= n && pages == old(pages) - Run(base, i)
      {
        assert Page(base.zone, base.idx + i) in Run(base, n);
        assert Page(base.zone, base.idx + i) in pages;
        pages := pages - {Page(base.zone, base.idx + i)};
        i := i + 1;
      }
    }

    /** kmem_cache_free_one */
    method KmemCacheFreeOne(c: nat, slabp: Addr, objp: Addr)
      requires Settled() && objp in Held(caches, Now()) && Holder(caches, Now(), objp) == Use(c, slabp)
      modifies this, pmm
      ensures Settled() && pmm.zones == old(pmm.zones) && AllPages() == old(AllPages())
      ensures Lost(caches, old(Now()), Now(), objp)
      decreases if c < |caches| && caches[c].offSlab then 1 else 0, 1
    {
      hide Sound, Held, Lost, BuddyPmm.AreaOk, NoneEmpty, PowerSized, Holder;
      ghost var w := Now();
      Giving(caches, w, objp);
      var sl := slabs[slabp];
      var objnr := Shr(objp.at - sl.sMem.at, caches[c].shift);
      PutBack(slabp, objnr, objp);
      if slabs[slabp].inuse == 0 {
        ListDel(c, slabp);
        KmemSlabDestroy(c, slabp, w, objp);
      } else {
        if slabs[slabp].inuse == caches[c].num - 1 {
          ListDel(c, slabp);
          slabsNotfull := slabsNotfull[c := [slabp] + slabsNotfull[c]];
        }
        Given(caches, w, objp, Now());
      }
    }

    /** kmem_slab_destroy: the pages go back, and the control area if it is an object. */
    method KmemSlabDestroy(c: nat, slabp: Addr, ghost w: World, ghost objp: Addr)
      requires Sound(caches, w) && NoneEmpty(w) && objp in Held(caches, w) && Holder(caches, w, objp) == Use(c, slabp)
      requires slabp in w.slabs && w.slabs[slabp].inuse == 1 && Now() == Unlinked(caches, w, objp)
      requires pmm.Valid() && PowerSized(caches) && pages.Keys !! pmm.free
      modifies this, pmm
      ensures Settled() && pmm.zones == old(pmm.zones) && AllPages() == old(AllPages())
      ensures Lost(caches, w, Now(), objp)
      decreases if c < |caches| && caches[c].offSlab then 1 else 0, 0
    {
      hide Sound, Held, Lost, BuddyPmm.AreaOk, NoneEmpty, PowerSized, Holder, BlockOk, Run, Pow2;
      Giving(caches, w, objp);
      Dropping(caches, w, objp);
      DroppedPages(caches, w, objp);
      var base, n := BasePage(slabs[slabp]), Pow2(caches[c].pageOrder);
      ClearPages(base, n);
      slabs, chains, home := slabs - {slabp}, chains - {slabp}, home - {slabp};
      ghost var u := Now();
      assert u == Dropped(caches, w, objp);
      GiveBackPages(base, n);
      if caches[c].offSlab {
        KmemCacheFree(caches[c].slabCachep, slabp);
        BothGone(caches, w, u, Now(), objp, slabp);
      }
    }

    method GiveBackPages(base: Page, n: nat)
      requires pmm.Valid() && 0 < n <= 1024 && base.zone < |pmm.zones| && base.idx + n <= pmm.zones[base.zone]
      requires Run(base, n) !! pmm.free
      modifies pmm
      ensures pmm.Valid() && pmm.free == old(pmm.free) + Run(base, n) && pmm.zones == old(pmm.zones)
    {
      hide BuddyPmm.AreaOk, Pow2, Run;
      LargestRun();
      var done := pmm.FreePages(base, n);
    }

    /** kmem_cache_free, where the page is one of a slab */
    method KmemCacheFree(c: nat, objp: Addr)
      requires Settled() && objp in Held(caches, Now()) && Holder(caches, Now(), objp).cache == c
      modifies this, pmm
      ensures Settled() && pmm.zones == old(pmm.zones) && AllPages() == old(AllPages())
      ensures Lost(caches, old(Now()), Now(), objp)
      decreases if c < |caches| && caches[c].offSlab then 1 else 0, 2
    {
      hide Sound, Held, Lost, BuddyPmm.AreaOk, NoneEmpty, PowerSized;
      Giving(caches, Now(), objp);
      var page := PageOf(objp);
      KmemCacheFreeOne(c, pages[page].slab, objp);
    }

    /** The block is in nobody's hands; the others and their room are as before. */
    method Kfree(objp: Addr)
      requires Settled() && objp in Held(caches, Now())
      modifies this, pmm
      ensures Settled() && pmm.zones == old(pmm.zones) && AllPages() == old(AllPages())
      ensures Lost(caches, old(Now()), Now(), objp)
    {
      hide Sound, Held, Lost, BuddyPmm.AreaOk, NoneEmpty, PowerSized;
      Giving(caches, Now(), objp);
      KmemCacheFree(pages[PageOf(objp)].cache, objp);
    }

    /** When callers hold nothing every page is free again. */
    lemma AllFreed()
      requires Settled() && Held(caches, Now()) == {}
      ensures slabs == map[] && pages == map[] && pmm.free == AllPages()
    {
      NothingLeft(caches, Now());
    }

    /** Whatever was allocated and freed in between, the free blocks are as they were. */
    twostate lemma NothingLost()
      requires old(Settled()) && Settled() && old(Held(caches, Now())) == {} && Held(caches, Now()) == {}
      requires AllPages() == old(AllPages()) && pmm.zones == old(pmm.zones)
      ensures pmm.free == old(pmm.free) && pmm.property == old(pmm.property) && pmm.nrFree == old(pmm.nrFree)
    {
      hide Sound, Held, BuddyPmm.AreaOk, NoneEmpty, PowerSized;
      NothingLeft(caches, Now());
      NothingLeft(caches, old(Now()));
      BuddyPmm.SamePagesSameState(pmm.zones, pmm.freeList, pmm.nrFree, pmm.property,
                                  old(pmm.freeList), old(pmm.nrFree), old(pmm.property), pmm.free);
    }
  }

  /** After the last object of a slab came back and the slab left its list. */
  function Unlinked(cs: seq<Cache>, w: World, a: Addr): World {
    if a !in w.live || !CanGive(cs, w, w.live[a]) then w else
    var v := GiveOne(cs, w, w.live[a]);
    v.(notfull := DropSlab(cs, v, w.live[a].slab).notfull)
  }

  ghost function Dropped(cs: seq<Cache>, w: World, a: Addr): World {
    if a !in w.live || !CanGive(cs, w, w.live[a]) then w
    else DropSlab(cs, GiveOne(cs, w, w.live[a]), w.live[a].slab)
  }

  /** The cache and the slab of an object, as its page names them. */
  function Holder(cs: seq<Cache>, w: World, a: Addr): Use {
    if PageOf(a) in w.pages then w.pages[PageOf(a)] else Use(0, a)
  }

  /** One object less is in the hands of callers. */
  ghost predicate Lost(cs: seq<Cache>, w: World, v: World, a: Addr) {
    && Held(cs, v) == Held(cs, w) - {a}
    && forall b {:trigger RoomAt(cs, v, b)} :: b in Held(cs, v) ==> RoomAt(cs, v, b) == RoomAt(cs, w, b)
  }

  /** Where an object that comes back belongs. */
  lemma Giving(cs: seq<Cache>, w: World, a: Addr)
    requires Sound(cs, w) && a in Held(cs, w)
    ensures var (c, s) := (Holder(cs, w, a).cache, Holder(cs, w, a).slab);
      && PageOf(a) in w.pages && a in w.live && w.live[a].slab == s && CanGive(cs, w, w.live[a]) && Known(cs, w, s) && w.home[s] == c
      && c < NCACHES && |cs| == |w.full| == |w.notfull| == NCACHES
      && Place(cs, w, w.live[a]) == a && w.slabs[s].sMem.at <= a.at
      && Shr(a.at - w.slabs[s].sMem.at, cs[c].shift) == w.live[a].index
      && (s in w.full[c] <==> w.slabs[s].inuse == cs[c].num) && CanGive(cs, w, w.live[a])
  {
    assert ListsOk(cs, w, w.home[w.live[a].slab]) by {
      assert LiveOk(cs, w, a);
    }
    assert LiveOk(cs, w, a);
    var o := w.live[a];
    ObjInside(cs, w, o);
    TakenCounts(cs, w, o);
    assert CacheOk(cs, w.home[o.slab]);
    ShrOfMultiple(o.index, cs[w.home[o.slab]].shift);
  }

  /** The object is back, and its slab holds others. */
  lemma Given(cs: seq<Cache>, w: World, a: Addr, v: World)
    requires Sound(cs, w) && a in Held(cs, w) && NoneEmpty(w)
    requires var o := w.live[a]; CanGive(cs, w, o) && w.slabs[o.slab].inuse > 1 && v == GiveOne(cs, w, o)
    ensures Sound(cs, v) && NoneEmpty(v) && Lost(cs, w, v, a)
  {
    Giving(cs, w, a);
    GiveOneSound(cs, w, w.live[a]);
    GiveEffect(cs, w, w.live[a]);
  }

  /** The last object of a slab is back, and the slab is gone; its control area may be left as an object. */
  lemma Dropping(cs: seq<Cache>, w: World, a: Addr)
    requires Sound(cs, w) && NoneEmpty(w) && a in Held(cs, w)
    requires var s := Holder(cs, w, a).slab; s in w.slabs && w.slabs[s].inuse == 1
    ensures var (c, s, v) := (Holder(cs, w, a).cache, Holder(cs, w, a).slab, Dropped(cs, w, a));
      && Sound(cs, v) && NoneEmpty(v) && c < |cs|
      && (if cs[c].offSlab then PartlyGone(cs, w, v, a, s) && Holder(cs, v, s).cache == cs[c].slabCachep
                                && cs[c].slabCachep < |cs| && !cs[cs[c].slabCachep].offSlab
          else Lost(cs, w, v, a))
  {
    Giving(cs, w, a);
    var o := w.live[a];
    GiveOneSound(cs, w, o);
    GiveEffect(cs, w, o);
    var u := GiveOne(cs, w, o);
    DropSlabSound(cs, u, o.slab);
    DropEffect(cs, u, o.slab);
    var v := DropSlab(cs, u, o.slab);
    assert SlabOk(cs, u, o.slab) && CacheOk(cs, w.home[o.slab]);
    if cs[w.home[o.slab]].offSlab {
      assert LiveOk(cs, v, o.slab);
      ObjInside(cs, v, v.live[o.slab]);
    }
  }

  ghost predicate PartlyGone(cs: seq<Cache>, w: World, v: World, a: Addr, s: Addr) {
    && Held(cs, v) == Held(cs, w) - {a} + {s} && s !in Held(cs, w)
    && forall b {:trigger RoomAt(cs, v, b)} :: b in Held(cs, v) ==> RoomAt(cs, v, b) == RoomAt(cs, w, b)
  }

  lemma BothGone(cs: seq<Cache>, w: World, u: World, v: World, a: Addr, s: Addr)
    requires PartlyGone(cs, w, u, a, s) && Lost(cs, u, v, s)
    ensures Lost(cs, w, v, a)
  {
    forall b | b in Held(cs, v) ensures RoomAt(cs, v, b) == RoomAt(cs, w, b) {
      assert RoomAt(cs, u, b) == RoomAt(cs, w, b);
    }
  }

  /** The pages of a slab that goes. */
  lemma DroppedPages(cs: seq<Cache>, w: World, a: Addr)
    requires Sound(cs, w) && a in Held(cs, w)
    ensures var s := Holder(cs, w, a).slab;
      && Known(cs, w, s)
      && var (b, n) := (BasePage(w.slabs[s]), Pow2(cs[w.home[s]].pageOrder));
         && 0 < n <= 1024 && b.zone < |w.zones| && b.idx + n <= w.zones[b.zone]
         && Run(b, n) <= w.pages.Keys && Dropped(cs, w, a).pages == w.pages - Run(b, n)
         && (w.live[a].slab in Unlinked(cs, w, a).slabs && BasePage(Unlinked(cs, w, a).slabs[s]) == b)
  {
    Giving(cs, w, a);
    var s := w.live[a].slab;
    assert SlabOk(cs, w, s);
    CacheBounds(cs, w.home[s]);
  }

  /** The caches have objects of 32 bytes and then twice as large each; slabs with their own control area are one page. */
  predicate PowerSized(cs: seq<Cache>) {
    forall c: nat {:trigger cs[c]} :: c < NCACHES && c < |cs| ==>
      cs[c].objsize == Pow2(c + MIN_SIZE_ORDER) && (!cs[c].offSlab ==> cs[c].pageOrder == 0)
  }

  // ---------- when there is an object to be had ----------

  lemma OneClass(size: nat, o: nat)
    requires 0 < size && MIN_SIZE_ORDER <= o <= MAX_SIZE_ORDER && size <= Pow2(o)
    requires o > MIN_SIZE_ORDER ==> Pow2(o - 1) < size
    ensures forall c: nat :: ClassOf(size, c) <==> c == o - MIN_SIZE_ORDER
  {
    forall c: nat | ClassOf(size, c) ensures c == o - MIN_SIZE_ORDER {
      if c + MIN_SIZE_ORDER < o {
        PowersGrow(c + MIN_SIZE_ORDER, o - 1);
      } else if o < c + MIN_SIZE_ORDER {
        PowersGrow(o, c + MIN_SIZE_ORDER - 1);
      }
    }
  }

  lemma NoClass(size: nat)
    requires size > Pow2(MAX_SIZE_ORDER)
    ensures forall c: nat :: !ClassOf(size, c)
  {
    forall c: nat ensures !ClassOf(size, c) {
      if c < NCACHES {
        PowersGrow(c + MIN_SIZE_ORDER, MAX_SIZE_ORDER);
      }
    }
  }

  /** There is a free block of `order`. */
  ghost predicate Room(zones: seq<nat>, free: set<Page>, order: nat) {
    exists b :: BlockOk(zones, b, order) && Full(free, b, order)
  }

  ghost predicate HasFree(w: World, c: nat) {
    c < |w.notfull| && w.notfull[c] != []
  }

  /** There are the pages for a slab, and if its control area is kept elsewhere an object for that, or a page for more. */
  ghost predicate Growable(cs: seq<Cache>, w: World, free: set<Page>, c: nat) {
    && c < |cs| && Room(w.zones, free, cs[c].pageOrder)
    && (cs[c].offSlab ==> HasFree(w, cs[c].slabCachep) || |free| > Pow2(cs[c].pageOrder))
  }

  /** An object is free, or pages for one more slab. */
  ghost predicate Served(cs: seq<Cache>, w: World, free: set<Page>, c: nat) {
    HasFree(w, c) || Growable(cs, w, free, c)
  }

  /** The cache for blocks of `size` bytes: objects are large enough, and those of the one before are not. */
  predicate ClassOf(size: nat, c: nat) {
    c < NCACHES && 0 < size <= Pow2(c + MIN_SIZE_ORDER) && (c > 0 ==> Pow2(c + MIN_SIZE_ORDER - 1) < size)
  }

  lemma NoRoom(zones: seq<nat>, free: set<Page>, order: nat)
    requires forall p :: !(BlockOk(zones, p, order) && Full(free, p, order))
    ensures !Room(zones, free, order)
  {
  }

  lemma BlockIsRoom(zones: seq<nat>, free: set<Page>, b: Page, order: nat)
    requires BlockOk(zones, b, order) && Run(b, Pow2(order)) <= free
    ensures Room(zones, free, order)
  {
    assert Full(free, b, order);
  }

  /** Every free page is a block of its own. */
  lemma PageIsRoom(zones: seq<nat>, lists: seq<seq<Page>>, nr: seq<nat>, H: Heads, free: set<Page>)
    requires BuddyPmm.AreaOk(zones, lists, nr, H, free)
    ensures Room(zones, free, 0) <==> free != {}
  {
    if p :| p in free {
      assert BlockOk(zones, p, 0) && Full(free, p, 0);
    }
    if Room(zones, free, 0) {
      var b :| BlockOk(zones, b, 0) && Full(free, b, 0);
      assert In(b, 0, b);
    }
  }

  lemma ControlCache(cs: seq<Cache>, w: World, c: nat)
    requires PowerSized(cs) && Sound(cs, w) && c < NCACHES && c < |cs| && cs[c].offSlab
    ensures var d := cs[c].slabCachep; d < |cs| && d < NCACHES && !cs[d].offSlab && cs[d].pageOrder == 0
  {
    assert CacheOk(cs, c);
  }

  /** What is left behind a block. */
  lemma LeftBehind(free: set<Page>, b: Page, n: nat)
    requires Run(b, n) <= free
    ensures free - Run(b, n) != {} <==> |free| > n
  {
    RunSize(b, n);
    var left := free - Run(b, n);
    assert free == left + Run(b, n);
    assert |free| == |left| + n;
  }

  /** The room at an address that was handed out. */
  function RoomAt(cs: seq<Cache>, w: World, a: Addr): nat {
    if a in w.live && w.live[a].slab in w.home && w.home[w.live[a].slab] < |cs|
    then cs[w.home[w.live[a].slab]].objsize else 0
  }

  /** `a` is new, has room for `size` bytes, and overlaps neither blocks handed out before nor a control area. */
  ghost predicate Granted(cs: seq<Cache>, w: World, v: World, a: Addr, size: nat) {
    && a !in Held(cs, w) && Held(cs, v) == Held(cs, w) + {a} && size <= RoomAt(cs, v, a)
    && (forall b {:trigger RoomAt(cs, v, b)} :: b in Held(cs, w) ==>
         RoomAt(cs, v, b) == RoomAt(cs, w, b) && NoOverlap(a, RoomAt(cs, v, a), b, RoomAt(cs, v, b)))
    && (forall s {:trigger Known(cs, v, s)} :: Known(cs, v, s) ==>
         NoOverlap(s, MgmtSize(cs[v.home[s]].num), a, RoomAt(cs, v, a)))
  }

  lemma GainedIsGranted(cs: seq<Cache>, w: World, v: World, a: Addr, c: nat, size: nat)
    requires Sound(cs, v) && Gained(cs, w, v, a, c) && c < NCACHES && c < |cs| && size <= cs[c].objsize
    ensures Granted(cs, w, v, a, size)
  {
    assert LiveOk(cs, v, a);
    HeldIsNoSlab(cs, v, a);
    forall b | b in Held(cs, w)
      ensures RoomAt(cs, v, b) == RoomAt(cs, w, b) && NoOverlap(a, RoomAt(cs, v, a), b, RoomAt(cs, v, b))
    {
      assert b in v.live && LiveOk(cs, v, b);
      ObjectsApart(cs, v, v.live[a], v.live[b]);
    }
    forall s | Known(cs, v, s) ensures NoOverlap(s, MgmtSize(cs[v.home[s]].num), a, RoomAt(cs, v, a)) {
      ControlApart(cs, v, s, v.live[a]);
    }
  }

  /** One more slab, empty and first on the list of its cache; for callers nothing has changed. */
  ghost predicate NewSlab(cs: seq<Cache>, w: World, v: World, c: nat) {
    && c < |v.notfull| && v.notfull[c] != [] && v.notfull[c][0] in v.slabs
    && (forall s :: s in v.slabs && s != v.notfull[c][0] ==> v.slabs[s].inuse > 0)
    && Held(cs, v) == Held(cs, w) && Kept(w, v, {})
  }

  lemma Dimensions(cs: seq<Cache>, w: World)
    requires Sound(cs, w)
    ensures CachesOk(cs) && |cs| == NCACHES && |w.full| == NCACHES && |w.notfull| == NCACHES
  {
  }

  lemma CacheBounds(cs: seq<Cache>, c: nat)
    requires CachesOk(cs) && c < NCACHES && |cs| == NCACHES
    ensures Pow2(cs[c].pageOrder) <= 1024 == Pow2(MAX_ORDER)
    ensures cs[c].offSlab ==> cs[c].slabCachep < NCACHES && !cs[cs[c].slabCachep].offSlab
  {
    assert CacheOk(cs, c);
    PowersGrow(cs[c].pageOrder, MAX_ORDER);
    assert Pow2(5) == 32;
    assert Pow2(MAX_ORDER) == 1024;
  }

  lemma LargestRun()
    ensures Pow2(MAX_ORDER + 1) == 2048
  {
    assert Pow2(5) == 32;
    assert Pow2(MAX_ORDER) == 1024;
  }

  lemma OrderIs(k: nat, o: nat)
    requires BuddyPmm.IsOrder(Pow2(k), o)
    ensures o == k
  {
    if o < k {
      PowersGrow(o, k);
    } else if k < o {
      PowersGrow(k, o - 1);
    }
  }

  lemma GrowStep(cs: seq<Cache>, w: World, u: World, c: nat, s: Addr, b: Page)
    requires Sound(cs, w) && NoneEmpty(w) && Sound(cs, u) && NoneEmpty(u) && c < |cs|
    requires BlockOk(u.zones, b, cs[c].pageOrder) && Run(b, Pow2(cs[c].pageOrder)) !! u.pages.Keys
    requires if cs[c].offSlab then Gained(cs, w, u, s, cs[c].slabCachep) else u == w && s == KvaOf(b)
    ensures CanAdd(cs, u, c, s, b) && Sound(cs, AddSlab(cs, u, c, s, b))
    ensures NewSlab(cs, w, AddSlab(cs, u, c, s, b), c)
  {
    hide Sound, Held, Kept, CacheOk, BlockOk, Run, AddSlab, CanAdd, NewSlab, NoneEmpty;
    CanGrow(cs, u, c, s, b);
    AddSlabSound(cs, u, c, s, b);
    AddEffect(cs, u, c, s, b);
    SeenFromOutside(cs, w, u, c, s, b);
  }

  lemma CanGrow(cs: seq<Cache>, u: World, c: nat, s: Addr, b: Page)
    requires Sound(cs, u) && c < |cs|
    requires BlockOk(u.zones, b, cs[c].pageOrder) && Run(b, Pow2(cs[c].pageOrder)) !! u.pages.Keys
    requires if cs[c].offSlab then ControlFor(cs, u, c, s) else s == KvaOf(b)
    ensures CanAdd(cs, u, c, s, b) && forall p :: In(b, cs[c].pageOrder, p) ==> p !in u.pages
  {
    assert CacheOk(cs, c);
    if cs[c].offSlab {
      HeldIsNoSlab(cs, u, s);
    } else {
      assert b in Run(b, Pow2(cs[c].pageOrder));
      FreshIsNoSlab(cs, u, b);
    }
  }

  /** An object that can take the control area of a slab of the cache. */
  ghost predicate ControlFor(cs: seq<Cache>, u: World, c: nat, s: Addr)
    requires c < |cs|
  {
    s in Held(cs, u) && s in u.live && u.live[s].slab in u.home && u.home[u.live[s].slab] == cs[c].slabCachep
  }

  lemma SeenFromOutside(cs: seq<Cache>, w: World, u: World, c: nat, s: Addr, b: Page)
    requires NoneEmpty(u) && CanAdd(cs, u, c, s, b)
    requires var v := AddSlab(cs, u, c, s, b);
      Held(cs, v) == Held(cs, u) - (if cs[c].offSlab then {s} else {}) && Kept(u, v, {})
    requires if cs[c].offSlab then Gained(cs, w, u, s, cs[c].slabCachep) else u == w
    ensures NewSlab(cs, w, AddSlab(cs, u, c, s, b), c)
  {
    hide Held, BlockOk;
    if cs[c].offSlab {
      var v, none: set<Addr> := AddSlab(cs, u, c, s, b), {};
      assert none + none == none && Held(cs, v) == Held(cs, w);
      KeptTwice(w, u, v, none, none);
    }
  }

  lemma TakenAfterGrowing(cs: seq<Cache>, w: World, u: World, v: World, c: nat, a: Addr)
    requires Sound(cs, u) && c < NCACHES && c < |u.notfull| && u.notfull[c] != []
    requires if u == w then NoneEmpty(w) else NewSlab(cs, w, u, c)
    requires v == TakeFirst(cs, u, c) && Gained(cs, u, v, a, c)
    ensures NoneEmpty(v) && Gained(cs, w, v, a, c)
  {
    hide Sound, Held;
    TakeStep(cs, u, c);
    if u != w {
      var none: set<Addr> := {};
      assert none + none == none;
      KeptTwice(w, u, v, none, none);
    }
  }

  /** One more object of a cache is in the hands of callers. */
  ghost predicate Gained(cs: seq<Cache>, w: World, v: World, a: Addr, c: nat) {
    && Held(cs, v) == Held(cs, w) + {a} && a !in Held(cs, w) && Kept(w, v, {}) && a !in w.live
    && a in v.live && v.live[a].slab in v.home && v.home[v.live[a].slab] == c
  }

  /** The next object of a cache that has one. */
  function TakeFirst(cs: seq<Cache>, w: World, c: nat): World {
    if c < |w.notfull| && w.notfull[c] != [] && CanTake(cs, w, w.notfull[c][0])
    then TakeOne(cs, w, w.notfull[c][0]) else w
  }

  lemma TakeStep(cs: seq<Cache>, w: World, c: nat)
    requires Sound(cs, w) && c < NCACHES && c < |cs| && c < |w.notfull| && w.notfull[c] != []
    ensures var s := w.notfull[c][0];
      && CanTake(cs, w, s) && w.home[s] == c && c < |w.full| && Sound(cs, TakeFirst(cs, w, c))
      && Gained(cs, w, TakeFirst(cs, w, c), ObjAddr(cs[c], w.slabs[s], w.slabs[s].free), c)
  {
    var s := w.notfull[c][0];
    assert ListsOk(cs, w, c);
    assert s in w.notfull[c];
    TakeOneSound(cs, w, s);
    TakeEffect(cs, w, s);
  }
}
