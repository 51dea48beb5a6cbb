/** What each step of the slab allocator (ucore/kern/mm/kmalloc.c) does to its state, and that it keeps it sound. */
module SlabSteps {
  import opened Binary
  import opened Buddies
  import opened Lists
  import opened SlabLayout

  predicate CanTake(cs: seq<Cache>, w: World, s: Addr) {
    && Known(cs, w, s) && w.home[s] < |w.full| && w.home[s] < |w.notfull| && w.chains[s] != []
    && w.slabs[s].free < |w.slabs[s].bufctl|
  }

  /** kmem_cache_alloc_one */
  function TakeOne(cs: seq<Cache>, w: World, s: Addr): World
    requires CanTake(cs, w, s)
  {
    var (sl, c) := (w.slabs[s], w.home[s]);
    var next := sl.bufctl[sl.free];
    w.(slabs := w.slabs[s := sl.(inuse := sl.inuse + 1, free := next)],
       chains := w.chains[s := w.chains[s][1..]],
       live := w.live[ObjAddr(cs[c], sl, sl.free) := Obj(s, sl.free)],
       full := if next == BUFCTL_END then w.full[c := [s] + w.full[c]] else w.full,
       notfull := if next == BUFCTL_END then w.notfull[c := Without(w.notfull[c], s)] else w.notfull)
  }

  lemma TakeOneSound(cs: seq<Cache>, w: World, s: Addr)
    requires Sound(cs, w) && Known(cs, w, s) && w.slabs[s].inuse < cs[w.home[s]].num
    ensures CanTake(cs, w, s) && Sound(cs, TakeOne(cs, w, s))
    ensures ObjAddr(cs[w.home[s]], w.slabs[s], w.slabs[s].free) !in w.live
  {
    assert SlabOk(cs, w, s) && CacheOk(cs, w.home[s]);
    ChainPop(w.slabs[s].bufctl, w.slabs[s].free, w.chains[s]);
    TakeOneFresh(cs, w, s);
    var v := TakeOne(cs, w, s);
    TakeOneSlabs(cs, w, s);
    TakeOneLive(cs, w, s);
    forall c: nat | c < NCACHES ensures ListsOk(cs, v, c) {
      TakeOneLists(cs, w, s, c);
    }
    forall p | p in v.pages ensures PageOk(cs, v, p) {
      assert PageOk(cs, w, p);
    }
  }

  /** The first free object is in nobody's hands. */
  lemma TakeOneFresh(cs: seq<Cache>, w: World, s: Addr)
    requires Sound(cs, w) && CanTake(cs, w, s)
    ensures ObjAddr(cs[w.home[s]], w.slabs[s], w.slabs[s].free) !in w.live
  {
    var o := Obj(s, w.slabs[s].free);
    var a := Place(cs, w, o);
    assert SlabOk(cs, w, s);
    assert o.index in w.chains[s];
    if a in w.live {
      assert LiveOk(cs, w, a);
      SamePlace(cs, w, w.live[a], o);
    }
  }

  lemma TakeOneSlabs(cs: seq<Cache>, w: World, s: Addr)
    requires Sound(cs, w) && CanTake(cs, w, s)
    requires ObjAddr(cs[w.home[s]], w.slabs[s], w.slabs[s].free) !in w.live
    ensures forall t {:trigger SlabOk(cs, TakeOne(cs, w, s), t)} :: t in w.slabs ==> SlabOk(cs, TakeOne(cs, w, s), t)
  {
    hide Sound, CanTake, TakeOne, SlabOk, ObjAddr;
    forall t | t in w.slabs ensures SlabOk(cs, TakeOne(cs, w, s), t) {
      if t == s {
        TakeOneOwn(cs, w, s);
      } else {
        TakeOneOther(cs, w, s, t);
      }
    }
  }

  lemma TakeOneOwn(cs: seq<Cache>, w: World, s: Addr)
    requires Sound(cs, w) && CanTake(cs, w, s) && s in w.slabs
    requires ObjAddr(cs[w.home[s]], w.slabs[s], w.slabs[s].free) !in w.live
    ensures SlabOk(cs, TakeOne(cs, w, s), s)
  {
    var v := TakeOne(cs, w, s);
    assert SlabOk(cs, w, s) && CacheOk(cs, w.home[s]);
    ChainPop(w.slabs[s].bufctl, w.slabs[s].free, w.chains[s]);
    assert BasePage(v.slabs[s]) == BasePage(w.slabs[s]) && v.pages == w.pages;
    assert forall p :: In(BasePage(w.slabs[s]), cs[w.home[s]].pageOrder, p) ==> p in w.pages && p in v.pages;
    assert ShapeOk(cs[v.home[s]], v.slabs[s], v.chains[s]);
  }

  lemma TakeOneOther(cs: seq<Cache>, w: World, s: Addr, t: Addr)
    requires Sound(cs, w) && CanTake(cs, w, s) && t in w.slabs && t != s
    requires ObjAddr(cs[w.home[s]], w.slabs[s], w.slabs[s].free) !in w.live
    ensures SlabOk(cs, TakeOne(cs, w, s), t)
  {
    var v := TakeOne(cs, w, s);
    assert SlabOk(cs, w, t) && v.pages == w.pages && v.slabs[t] == w.slabs[t];
    assert forall p :: In(BasePage(w.slabs[t]), cs[w.home[t]].pageOrder, p) ==> p in w.pages && p in v.pages;
  }

  lemma TakeOneLive(cs: seq<Cache>, w: World, s: Addr)
    requires Sound(cs, w) && CanTake(cs, w, s)
    requires ObjAddr(cs[w.home[s]], w.slabs[s], w.slabs[s].free) !in w.live
    ensures var v := TakeOne(cs, w, s);
      && (forall a {:trigger LiveOk(cs, v, a)} :: a in v.live ==> LiveOk(cs, v, a))
      && forall o: Obj {:trigger Taken(cs, v, o)} :: Taken(cs, v, o) ==>
           Place(cs, v, o) in v.live && v.live[Place(cs, v, o)] == o
  {
    var v, q := TakeOne(cs, w, s), Obj(s, w.slabs[s].free);
    assert SlabOk(cs, w, s);
    ChainPop(w.slabs[s].bufctl, w.slabs[s].free, w.chains[s]);
    forall a | a in v.live ensures LiveOk(cs, v, a) {
      if a != Place(cs, w, q) {
        assert LiveOk(cs, w, a);
      }
    }
    forall o: Obj | Taken(cs, v, o) ensures Place(cs, v, o) in v.live && v.live[Place(cs, v, o)] == o {
      if o != q {
        assert o.slab == s ==> w.chains[s] == [w.slabs[s].free] + v.chains[s];
        assert Taken(cs, w, o);
      }
    }
  }

  lemma TakeOneLists(cs: seq<Cache>, w: World, s: Addr, c: nat)
    requires Sound(cs, w) && CanTake(cs, w, s) && c < NCACHES
    ensures ListsOk(cs, TakeOne(cs, w, s), c)
  {
    var v, d := TakeOne(cs, w, s), w.home[s];
    assert SlabOk(cs, w, s) && CacheOk(cs, d) && ListsOk(cs, w, c) && ListsOk(cs, w, d);
    ChainPop(w.slabs[s].bufctl, w.slabs[s].free, w.chains[s]);
    WithoutOnce(w.notfull[d], s);
    PutFirst(w.full[d], s);
  }

  // ---------- an object comes back ----------

  predicate CanGive(cs: seq<Cache>, w: World, o: Obj) {
    && Taken(cs, w, o) && w.home[o.slab] < |w.full| && w.home[o.slab] < |w.notfull|
    && o.index < |w.slabs[o.slab].bufctl| && w.slabs[o.slab].inuse > 0
  }

  /** kmem_cache_free_one where other objects of the slab stay */
  function GiveOne(cs: seq<Cache>, w: World, o: Obj): World
    requires CanGive(cs, w, o)
  {
    var (s, i) := (o.slab, o.index);
    var (sl, c) := (w.slabs[s], w.home[s]);
    var wasFull := sl.inuse - 1 == cs[c].num - 1;
    w.(slabs := w.slabs[s := sl.(inuse := sl.inuse - 1, free := i, bufctl := sl.bufctl[i := sl.free])],
       chains := w.chains[s := [i] + w.chains[s]],
       live := w.live - {Place(cs, w, o)},
       full := if wasFull then w.full[c := Without(w.full[c], s)] else w.full,
       notfull := if wasFull then w.notfull[c := [s] + w.notfull[c]] else w.notfull)
  }

  lemma GiveOneSound(cs: seq<Cache>, w: World, o: Obj)
    requires Sound(cs, w) && Taken(cs, w, o) && !Controls(cs, w, Place(cs, w, o))
    ensures CanGive(cs, w, o) && Sound(cs, GiveOne(cs, w, o))
  {
    TakenCounts(cs, w, o);
    var v := GiveOne(cs, w, o);
    GiveOneSlabs(cs, w, o);
    GiveOneLive(cs, w, o);
    forall c: nat | c < NCACHES ensures ListsOk(cs, v, c) {
      GiveOneLists(cs, w, o, c);
    }
    forall p | p in v.pages ensures PageOk(cs, v, p) {
      assert PageOk(cs, w, p);
    }
  }

  /** A slab with an object handed out knows that it has one. */
  lemma TakenCounts(cs: seq<Cache>, w: World, o: Obj)
    requires Sound(cs, w) && Taken(cs, w, o)
    ensures CanGive(cs, w, o)
  {
    var (sl, ch) := (w.slabs[o.slab], w.chains[o.slab]);
    assert SlabOk(cs, w, o.slab);
    if sl.inuse == 0 {
      ChainBounded(sl.bufctl, sl.free, ch);
      var l := ch + [o.index];
      DistinctBounded(l, |sl.bufctl|);
    }
  }

  lemma GiveOneSlabs(cs: seq<Cache>, w: World, o: Obj)
    requires Sound(cs, w) && CanGive(cs, w, o) && !Controls(cs, w, Place(cs, w, o))
    ensures forall t {:trigger SlabOk(cs, GiveOne(cs, w, o), t)} :: t in w.slabs ==> SlabOk(cs, GiveOne(cs, w, o), t)
  {
    hide Sound, CanGive, GiveOne, SlabOk, Controls;
    forall t | t in w.slabs ensures SlabOk(cs, GiveOne(cs, w, o), t) {
      if t == o.slab {
        GiveOneOwn(cs, w, o);
      } else {
        GiveOneOther(cs, w, o, t);
      }
    }
  }

  lemma GiveOneOwn(cs: seq<Cache>, w: World, o: Obj)
    requires Sound(cs, w) && CanGive(cs, w, o) && !Controls(cs, w, Place(cs, w, o))
    ensures SlabOk(cs, GiveOne(cs, w, o), o.slab)
  {
    var s, v := o.slab, GiveOne(cs, w, o);
    assert SlabOk(cs, w, s);
    ChainPush(w.slabs[s].bufctl, w.slabs[s].free, w.chains[s], o.index);
    assert BasePage(v.slabs[s]) == BasePage(w.slabs[s]);
    assert ShapeOk(cs[v.home[s]], v.slabs[s], v.chains[s]);
  }

  lemma GiveOneOther(cs: seq<Cache>, w: World, o: Obj, t: Addr)
    requires Sound(cs, w) && CanGive(cs, w, o) && !Controls(cs, w, Place(cs, w, o)) && t in w.slabs && t != o.slab
    ensures SlabOk(cs, GiveOne(cs, w, o), t)
  {
    assert SlabOk(cs, w, t);
  }

  lemma GiveOneLive(cs: seq<Cache>, w: World, o: Obj)
    requires Sound(cs, w) && CanGive(cs, w, o)
    ensures var v := GiveOne(cs, w, o);
      && (forall a {:trigger LiveOk(cs, v, a)} :: a in v.live ==> LiveOk(cs, v, a))
      && forall q: Obj {:trigger Taken(cs, v, q)} :: Taken(cs, v, q) ==>
           Place(cs, v, q) in v.live && v.live[Place(cs, v, q)] == q
  {
    var v := GiveOne(cs, w, o);
    assert SlabOk(cs, w, o.slab);
    forall a | a in v.live ensures LiveOk(cs, v, a) {
      assert LiveOk(cs, w, a);
      assert w.live[Place(cs, w, o)] == o;
    }
    forall q: Obj | Taken(cs, v, q) ensures Place(cs, v, q) in v.live && v.live[Place(cs, v, q)] == q {
      assert Taken(cs, w, q);
      if Place(cs, w, q) == Place(cs, w, o) {
        SamePlace(cs, w, q, o);
      }
    }
  }

  lemma GiveOneLists(cs: seq<Cache>, w: World, o: Obj, c: nat)
    requires Sound(cs, w) && CanGive(cs, w, o) && c < NCACHES
    ensures ListsOk(cs, GiveOne(cs, w, o), c)
  {
    var v, s, d := GiveOne(cs, w, o), o.slab, w.home[o.slab];
    assert SlabOk(cs, w, s) && ListsOk(cs, w, c) && ListsOk(cs, w, d);
    WithoutOnce(w.full[d], s);
    if w.slabs[s].inuse == cs[d].num {
      PutFirst(w.notfull[d], s);
    }
  }

  // ---------- slabs come and go ----------

  /** An empty slab with everything about it is forgotten. */
  function DropSlab(cs: seq<Cache>, w: World, s: Addr): World
    requires Known(cs, w, s) && w.home[s] < |w.notfull|
  {
    var (sl, c) := (w.slabs[s], w.home[s]);
    w.(slabs := w.slabs - {s}, chains := w.chains - {s}, home := w.home - {s},
       pages := map p | p in w.pages && !In(BasePage(sl), cs[c].pageOrder, p) :: w.pages[p],
       notfull := w.notfull[c := Without(w.notfull[c], s)])
  }

  lemma EmptyHasNone(cs: seq<Cache>, w: World, o: Obj)
    requires Sound(cs, w) && Known(cs, w, o.slab) && w.slabs[o.slab].inuse == 0
    ensures !Taken(cs, w, o)
  {
    if Taken(cs, w, o) {
      TakenCounts(cs, w, o);
    }
  }

  lemma DropSlabSound(cs: seq<Cache>, w: World, s: Addr)
    requires Sound(cs, w) && Known(cs, w, s) && w.slabs[s].inuse == 0
    ensures w.home[s] < |w.notfull| && Sound(cs, DropSlab(cs, w, s))
  {
    assert SlabOk(cs, w, s);
    var v := DropSlab(cs, w, s);
    DropSlabOthers(cs, w, s);
    forall c: nat | c < NCACHES ensures ListsOk(cs, v, c) {
      assert ListsOk(cs, w, c) && ListsOk(cs, w, w.home[s]) && CacheOk(cs, w.home[s]);
      WithoutOnce(w.notfull[w.home[s]], s);
    }
    forall p | p in v.pages ensures PageOk(cs, v, p) {
      assert PageOk(cs, w, p);
    }
    forall a | a in v.live ensures LiveOk(cs, v, a) {
      assert LiveOk(cs, w, a);
      EmptyHasNone(cs, w, Obj(s, w.live[a].index));
    }
    forall o: Obj | Taken(cs, v, o) ensures Place(cs, v, o) in v.live && v.live[Place(cs, v, o)] == o {
      assert Taken(cs, w, o);
    }
  }

  lemma DropSlabOthers(cs: seq<Cache>, w: World, s: Addr)
    requires Sound(cs, w) && Known(cs, w, s) && w.slabs[s].inuse == 0 && w.home[s] < |w.notfull|
    ensures forall t {:trigger SlabOk(cs, DropSlab(cs, w, s), t)} :: t in w.slabs && t != s ==>
      SlabOk(cs, DropSlab(cs, w, s), t)
  {
    var v := DropSlab(cs, w, s);
    assert SlabOk(cs, w, s);
    forall t | t in w.slabs && t != s ensures SlabOk(cs, v, t) {
      assert SlabOk(cs, w, t);
      if cs[w.home[t]].offSlab {
        assert LiveOk(cs, w, t);
        EmptyHasNone(cs, w, Obj(s, w.live[t].index));
      }
      forall p | In(BasePage(w.slabs[t]), cs[w.home[t]].pageOrder, p)
        ensures p in v.pages && v.pages[p] == Use(w.home[t], t)
      {
        OwnPage(cs, w, t, p);
        if In(BasePage(w.slabs[s]), cs[w.home[s]].pageOrder, p) {
          OwnPage(cs, w, s, p);
        }
      }
    }
  }

  predicate CanAdd(cs: seq<Cache>, w: World, c: nat, s: Addr, b: Page) {
    && c < |cs| && c < |w.notfull| && s !in w.slabs && cs[c].num > 0 && BlockOk(w.zones, b, cs[c].pageOrder)
    && if cs[c].offSlab then s in w.live && w.live[s].slab in w.home && w.home[w.live[s].slab] == cs[c].slabCachep
       else s == KvaOf(b)
  }

  function Chained(n: nat): (r: seq<nat>)
    ensures |r| == n
  {
    seq(n, i => if i == n - 1 then BUFCTL_END else i + 1)
  }

  /** kmem_cache_grow with the pages from `b` on and the control area `s` */
  ghost function AddSlab(cs: seq<Cache>, w: World, c: nat, s: Addr, b: Page): World
    requires CanAdd(cs, w, c, s, b)
  {
    var k := cs[c];
    var sl := Slab(Addr(b.zone, PGSIZE * b.idx + k.offset), 0, k.offset, 0, Chained(k.num));
    w.(slabs := w.slabs[s := sl], chains := w.chains[s := Counting(k.num)], home := w.home[s := c],
       pages := map p | p in w.pages.Keys + Run(b, Pow2(k.pageOrder)) ::
                  if In(b, k.pageOrder, p) then Use(c, s) else w.pages[p],
       notfull := w.notfull[c := [s] + w.notfull[c]])
  }

  lemma ChainedIsChain(n: nat)
    requires 0 < n
    ensures IsChain(Chained(n), 0, Counting(n))
  {
    forall k: nat | k < n ensures LinkOk(Chained(n), Counting(n), k) {
    }
  }

  lemma AddSlabSound(cs: seq<Cache>, w: World, c: nat, s: Addr, b: Page)
    requires Sound(cs, w) && CanAdd(cs, w, c, s, b)
    requires forall p :: In(b, cs[c].pageOrder, p) ==> p !in w.pages
    ensures Sound(cs, AddSlab(cs, w, c, s, b))
  {
    var v := AddSlab(cs, w, c, s, b);
    AddSlabSlabs(cs, w, c, s, b);
    forall d: nat | d < NCACHES ensures ListsOk(cs, v, d) {
      assert ListsOk(cs, w, d) && ListsOk(cs, w, c) && CacheOk(cs, c);
      PutFirst(w.notfull[c], s);
    }
    forall p | p in v.pages ensures PageOk(cs, v, p) {
      if !In(b, cs[c].pageOrder, p) {
        assert PageOk(cs, w, p);
      }
    }
    forall a | a in v.live ensures LiveOk(cs, v, a) {
      assert LiveOk(cs, w, a);
    }
    forall o: Obj | Taken(cs, v, o) ensures Place(cs, v, o) in v.live && v.live[Place(cs, v, o)] == o {
      var all := Counting(cs[v.home[o.slab]].num);
      assert all[o.index] == o.index;
      assert Taken(cs, w, o);
    }
  }

  lemma AddSlabSlabs(cs: seq<Cache>, w: World, c: nat, s: Addr, b: Page)
    requires Sound(cs, w) && CanAdd(cs, w, c, s, b)
    requires forall p :: In(b, cs[c].pageOrder, p) ==> p !in w.pages
    ensures forall t {:trigger SlabOk(cs, AddSlab(cs, w, c, s, b), t)} :: t in w.slabs || t == s ==>
      SlabOk(cs, AddSlab(cs, w, c, s, b), t)
  {
    hide Sound, CanAdd, AddSlab, SlabOk;
    var v := AddSlab(cs, w, c, s, b);
    forall t | t in w.slabs || t == s ensures SlabOk(cs, v, t) {
      if t == s {
        NewSlabOk(cs, w, c, s, b);
      } else {
        OldSlabOk(cs, w, c, s, b, t);
      }
    }
  }

  lemma NewSlabOk(cs: seq<Cache>, w: World, c: nat, s: Addr, b: Page)
    requires Sound(cs, w) && CanAdd(cs, w, c, s, b)
    ensures SlabOk(cs, AddSlab(cs, w, c, s, b), s)
  {
    ChainedIsChain(cs[c].num);
  }

  lemma OldSlabOk(cs: seq<Cache>, w: World, c: nat, s: Addr, b: Page, t: Addr)
    requires Sound(cs, w) && CanAdd(cs, w, c, s, b) && t in w.slabs
    requires forall p :: In(b, cs[c].pageOrder, p) ==> p !in w.pages
    ensures SlabOk(cs, AddSlab(cs, w, c, s, b), t)
  {
    assert SlabOk(cs, w, t);
  }

  // ---------- what becomes of the objects ----------

  /** Objects other than those in `gone` stay what they are. */
  ghost predicate Kept(w: World, v: World, gone: set<Addr>) {
    forall a {:trigger a in v.live} :: a in w.live && a !in gone ==>
      a in v.live && v.live[a] == w.live[a] && w.live[a].slab in w.home && w.live[a].slab in v.home
      && v.home[w.live[a].slab] == w.home[w.live[a].slab]
  }

  lemma KeptTwice(w: World, u: World, v: World, gone: set<Addr>, more: set<Addr>)
    requires Kept(w, u, gone) && Kept(u, v, more)
    ensures Kept(w, v, gone + more)
  {
    forall a | a in w.live && a !in gone + more
      ensures a in v.live && v.live[a] == w.live[a] && w.live[a].slab in w.home && w.live[a].slab in v.home
        && v.home[w.live[a].slab] == w.home[w.live[a].slab]
    {
      assert a in u.live;
    }
  }

  lemma TakeEffect(cs: seq<Cache>, w: World, s: Addr)
    requires Sound(cs, w) && CanTake(cs, w, s)
    requires ObjAddr(cs[w.home[s]], w.slabs[s], w.slabs[s].free) !in w.live
    ensures var (v, a) := (TakeOne(cs, w, s), ObjAddr(cs[w.home[s]], w.slabs[s], w.slabs[s].free));
      && Held(cs, v) == Held(cs, w) + {a} && a !in Held(cs, w) && Kept(w, v, {})
  {
    var v, a := TakeOne(cs, w, s), ObjAddr(cs[w.home[s]], w.slabs[s], w.slabs[s].free);
    if a in w.slabs {
      assert SlabOk(cs, w, a);
    }
    forall b | b in w.live ensures w.live[b].slab in w.home {
      assert LiveOk(cs, w, b);
    }
  }

  lemma GiveEffect(cs: seq<Cache>, w: World, o: Obj)
    requires Sound(cs, w) && CanGive(cs, w, o)
    ensures var (v, a) := (GiveOne(cs, w, o), Place(cs, w, o)); Held(cs, v) == Held(cs, w) - {a} && Kept(w, v, {a})
  {
    var v := GiveOne(cs, w, o);
    forall b | b in w.live ensures w.live[b].slab in w.home {
      assert LiveOk(cs, w, b);
    }
    assert forall b :: Controls(cs, v, b) == Controls(cs, w, b);
  }

  lemma AddEffect(cs: seq<Cache>, w: World, c: nat, s: Addr, b: Page)
    requires Sound(cs, w) && CanAdd(cs, w, c, s, b)
    ensures Held(cs, AddSlab(cs, w, c, s, b)) == Held(cs, w) - (if cs[c].offSlab then {s} else {})
    ensures Kept(w, AddSlab(cs, w, c, s, b), {})
  {
    var v := AddSlab(cs, w, c, s, b);
    forall a | a in w.live ensures w.live[a].slab in w.home && w.live[a].slab != s {
      assert LiveOk(cs, w, a);
    }
    assert forall a :: a != s ==> Controls(cs, v, a) == Controls(cs, w, a);
  }

  lemma DropEffect(cs: seq<Cache>, w: World, s: Addr)
    requires Sound(cs, w) && Known(cs, w, s) && w.slabs[s].inuse == 0 && w.home[s] < |w.notfull|
    ensures Held(cs, DropSlab(cs, w, s)) == Held(cs, w) + (if Controls(cs, w, s) then {s} else {})
    ensures Kept(w, DropSlab(cs, w, s), {})
  {
    var v := DropSlab(cs, w, s);
    assert SlabOk(cs, w, s);
    forall a | a in w.live ensures w.live[a].slab in w.home && w.live[a].slab != s {
      assert LiveOk(cs, w, a);
      EmptyHasNone(cs, w, Obj(s, w.live[a].index));
    }
    assert forall a :: a != s ==> Controls(cs, v, a) == Controls(cs, w, a);
  }

  /** An address that callers hold names no slab. */
  lemma HeldIsNoSlab(cs: seq<Cache>, w: World, a: Addr)
    requires Sound(cs, w) && a in Held(cs, w)
    ensures a !in w.slabs
  {
    if a in w.slabs {
      assert SlabOk(cs, w, a) && LiveOk(cs, w, a) && CacheOk(cs, w.home[a]);
      OwnPage(cs, w, a, BasePage(w.slabs[a]));
      ObjInside(cs, w, w.live[a]);
    }
  }

  /** Pages that are not in use hold no slab. */
  lemma FreshIsNoSlab(cs: seq<Cache>, w: World, b: Page)
    requires Sound(cs, w) && b !in w.pages
    ensures KvaOf(b) !in w.slabs
  {
    var s := KvaOf(b);
    if s in w.slabs {
      assert SlabOk(cs, w, s);
      if cs[w.home[s]].offSlab {
        assert LiveOk(cs, w, s);
        ObjInside(cs, w, w.live[s]);
      }
    }
  }

  // ---------- what callers rely on ----------

  predicate NoOverlap(a: Addr, n: nat, b: Addr, m: nat) {
    a.zone != b.zone || a.at + n <= b.at || b.at + m <= a.at
  }

  function SizeAt(cs: seq<Cache>, w: World, s: Addr): nat
    requires Known(cs, w, s)
  {
    cs[w.home[s]].objsize
  }

  /** Pages of different slabs are different. */
  lemma BlocksApart(cs: seq<Cache>, w: World, s: Addr, t: Addr)
    requires Sound(cs, w) && s in w.slabs && t in w.slabs && s != t
    ensures Known(cs, w, s) && Known(cs, w, t)
    ensures var (b, d) := (BasePage(w.slabs[s]), BasePage(w.slabs[t]));
      || b.zone != d.zone || b.idx + Pow2(cs[w.home[s]].pageOrder) <= d.idx
      || d.idx + Pow2(cs[w.home[t]].pageOrder) <= b.idx
  {
    assert SlabOk(cs, w, s) && SlabOk(cs, w, t);
    var (b, d) := (BasePage(w.slabs[s]), BasePage(w.slabs[t]));
    if In(b, cs[w.home[s]].pageOrder, d) {
      OwnPage(cs, w, s, d);
      OwnPage(cs, w, t, d);
    } else if In(d, cs[w.home[t]].pageOrder, b) {
      OwnPage(cs, w, s, b);
      OwnPage(cs, w, t, b);
    }
  }

  lemma OwnPage(cs: seq<Cache>, w: World, s: Addr, p: Page)
    requires Sound(cs, w) && Known(cs, w, s) && In(BasePage(w.slabs[s]), cs[w.home[s]].pageOrder, p)
    ensures p in w.pages && w.pages[p] == Use(w.home[s], s)
  {
    assert SlabOk(cs, w, s);
  }

  /** Objects handed out do not overlap. */
  lemma ObjectsApart(cs: seq<Cache>, w: World, o: Obj, q: Obj)
    requires Sound(cs, w) && Taken(cs, w, o) && Taken(cs, w, q) && o != q
    ensures NoOverlap(Place(cs, w, o), SizeAt(cs, w, o.slab), Place(cs, w, q), SizeAt(cs, w, q.slab))
  {
    ObjInside(cs, w, o);
    ObjInside(cs, w, q);
    if o.slab != q.slab {
      BlocksApart(cs, w, o.slab, q.slab);
    } else if o.index < q.index {
      Times(o.index, q.index, SizeAt(cs, w, o.slab));
    } else {
      Times(q.index, o.index, SizeAt(cs, w, o.slab));
    }
  }

  /** The room that the control area of a slab has: in front of its objects, or an object. */
  lemma ControlRoom(cs: seq<Cache>, w: World, s: Addr)
    requires Sound(cs, w) && Known(cs, w, s)
    ensures var (k, b) := (cs[w.home[s]], BasePage(w.slabs[s]));
      if k.offSlab then s in w.live && Taken(cs, w, w.live[s]) && Place(cs, w, w.live[s]) == s
                        && !cs[w.home[w.live[s].slab]].offSlab && MgmtSize(k.num) <= SizeAt(cs, w, w.live[s].slab)
      else s == KvaOf(b) && MgmtSize(k.num) <= k.offset <= PGSIZE * Pow2(k.pageOrder)
  {
    assert SlabOk(cs, w, s) && CacheOk(cs, w.home[s]);
    if cs[w.home[s]].offSlab {
      assert LiveOk(cs, w, s);
    }
  }

  /** Nor do they overlap a control area, other than the one they hold. */
  lemma ControlApart(cs: seq<Cache>, w: World, s: Addr, o: Obj)
    requires Sound(cs, w) && Known(cs, w, s) && Taken(cs, w, o) && Place(cs, w, o) != s
    ensures NoOverlap(s, MgmtSize(cs[w.home[s]].num), Place(cs, w, o), SizeAt(cs, w, o.slab))
  {
    ControlRoom(cs, w, s);
    if cs[w.home[s]].offSlab {
      ObjectsApart(cs, w, w.live[s], o);
    } else {
      ObjInside(cs, w, o);
      if o.slab != s {
        BlocksApart(cs, w, s, o.slab);
      }
    }
  }

  /** Control areas do not overlap. */
  lemma ControlsApart(cs: seq<Cache>, w: World, s: Addr, t: Addr)
    requires Sound(cs, w) && Known(cs, w, s) && Known(cs, w, t) && s != t
    ensures NoOverlap(s, MgmtSize(cs[w.home[s]].num), t, MgmtSize(cs[w.home[t]].num))
  {
    ControlRoom(cs, w, s);
    ControlRoom(cs, w, t);
    if cs[w.home[t]].offSlab {
      ControlApart(cs, w, s, w.live[t]);
    } else if cs[w.home[s]].offSlab {
      ControlApart(cs, w, t, w.live[s]);
    } else {
      BlocksApart(cs, w, s, t);
    }
  }

  /** No slab is without an object handed out. */
  ghost predicate NoneEmpty(w: World) {
    forall s :: s in w.slabs ==> w.slabs[s].inuse > 0
  }

  lemma {:induction false} LeftOut(ch: seq<nat>, n: nat) returns (i: nat)
    requires |ch| < n
    ensures i < n && i !in ch
    decreases n
  {
    if n - 1 !in ch {
      return n - 1;
    }
    var k :| 0 <= k < |ch| && ch[k] == n - 1;
    var rest := ch[..k] + ch[k + 1..];
    i := LeftOut(rest, n - 1);
    assert forall j :: 0 <= j < |ch| && j != k ==> ch[j] in rest;
  }

  lemma SomeTaken(cs: seq<Cache>, w: World, s: Addr) returns (o: Obj)
    requires Sound(cs, w) && s in w.slabs && w.slabs[s].inuse > 0
    ensures o.slab == s && Taken(cs, w, o) && Place(cs, w, o) in w.live && w.live[Place(cs, w, o)] == o
  {
    assert SlabOk(cs, w, s);
    var i := LeftOut(w.chains[s], cs[w.home[s]].num);
    o := Obj(s, i);
    assert Taken(cs, w, o);
  }

  /** Objects that are control areas come from caches with their own control areas in front. */
  lemma OffSlabIsHeld(cs: seq<Cache>, w: World, o: Obj)
    requires Sound(cs, w) && Taken(cs, w, o) && cs[w.home[o.slab]].offSlab
    ensures Place(cs, w, o) in Held(cs, w)
  {
    var a := Place(cs, w, o);
    if Controls(cs, w, a) {
      ControlRoom(cs, w, a);
    }
  }

  lemma SlabMeansHeld(cs: seq<Cache>, w: World, s: Addr)
    requires Sound(cs, w) && NoneEmpty(w) && s in w.slabs
    ensures Held(cs, w) != {}
  {
    var o := SomeTaken(cs, w, s);
    var a := Place(cs, w, o);
    if a !in Held(cs, w) {
      var q := SomeTaken(cs, w, a);
      OffSlabIsHeld(cs, w, q);
    }
  }

  /** When callers hold nothing there is no slab and no page in use. */
  lemma NothingLeft(cs: seq<Cache>, w: World)
    requires Sound(cs, w) && NoneEmpty(w) && Held(cs, w) == {}
    ensures w.slabs == map[] && w.pages == map[]
  {
    if p :| p in w.pages {
      assert PageOk(cs, w, p);
      SlabMeansHeld(cs, w, w.pages[p].slab);
    }
    if s :| s in w.slabs {
      SlabMeansHeld(cs, w, s);
    }
  }
}
