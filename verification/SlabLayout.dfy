/** Slabs, their free chains and the objects in them, as in ucore/kern/mm/kmalloc.c. */
module SlabLayout {
  import opened Binary
  import opened Buddies
  import opened Lists

  const PGSIZE: nat := 4096
  const BUFCTL_END: nat := 0xFFFF_FFFF
  const NCACHES: nat := 13

  /** The size of `slab_t`, and of an entry of the array behind it. */
  const SLAB_T: nat := 24
  const BUFCTL_T: nat := 4

  /** A kernel address: a position in the memory of a zone. */
  datatype Addr = Addr(zone: nat, at: nat)

  function PageOf(a: Addr): Page {
    Page(a.zone, a.at / PGSIZE)
  }

  function KvaOf(p: Page): Addr {
    Addr(p.zone, PGSIZE * p.idx)
  }

  datatype Slab = Slab(sMem: Addr, inuse: nat, offset: nat, free: nat, bufctl: seq<nat>)

  datatype Cache = Cache(objsize: nat, shift: nat, num: nat, offset: nat, offSlab: bool, pageOrder: nat, slabCachep: nat)

  /** What a page with PG_slab says: its cache and its slab. */
  datatype Use = Use(cache: nat, slab: Addr)

  /** Object `index` of a slab. */
  datatype Obj = Obj(slab: Addr, index: nat)

  /** The size of the control area of a slab. */
  function MgmtSize(num: nat): nat {
    (SLAB_T + num * BUFCTL_T + 15) / 16 * 16
  }

  /** The objects of a slab fit its pages beside the control area, which is in front of them or fits an object. */
  predicate CacheOk(cs: seq<Cache>, c: nat)
    requires c < |cs|
  {
    var k := cs[c];
    && k.objsize == Pow2(k.shift) && 0 < k.num < BUFCTL_END && k.pageOrder <= MAX_ORDER
    && k.offset + k.num * k.objsize <= PGSIZE * Pow2(k.pageOrder)
    && if k.offSlab
       then k.offset == 0 && k.slabCachep < |cs| && !cs[k.slabCachep].offSlab
            && MgmtSize(k.num) <= cs[k.slabCachep].objsize
       else MgmtSize(k.num) <= k.offset
  }

  predicate CachesOk(cs: seq<Cache>) {
    |cs| == NCACHES && forall c: nat {:trigger CacheOk(cs, c)} :: c < NCACHES ==> CacheOk(cs, c)
  }

  // ---------- free chains ----------

  /** Entry `k` of the chain leads to the next one, the last to the end mark. */
  predicate LinkOk(bufctl: seq<nat>, ch: seq<nat>, k: nat)
    requires k < |ch|
  {
    ch[k] < |bufctl| && bufctl[ch[k]] == if k + 1 < |ch| then ch[k + 1] else BUFCTL_END
  }

  /** Following the array from `free` on leads through `ch`, and then to the end mark. */
  predicate IsChain(bufctl: seq<nat>, free: nat, ch: seq<nat>) {
    && free == (if ch == [] then BUFCTL_END else ch[0])
    && Distinct(ch)
    && forall k: nat {:trigger LinkOk(bufctl, ch, k)} :: k < |ch| ==> LinkOk(bufctl, ch, k)
  }

  lemma ChainPop(b: seq<nat>, free: nat, ch: seq<nat>)
    requires IsChain(b, free, ch) && ch != []
    ensures free < |b| && IsChain(b, b[free], ch[1..]) && free !in ch[1..]
    ensures |b| <= BUFCTL_END ==> (b[free] == BUFCTL_END <==> |ch| == 1)
  {
    assert LinkOk(b, ch, 0);
    forall k: nat | k < |ch| - 1 ensures LinkOk(b, ch[1..], k) && LinkOk(b, ch, k + 1) {
      assert LinkOk(b, ch, k + 1);
    }
    assert |ch| > 1 ==> LinkOk(b, ch, 1);
  }

  lemma ChainPush(b: seq<nat>, free: nat, ch: seq<nat>, i: nat)
    requires IsChain(b, free, ch) && i < |b| && i !in ch
    ensures IsChain(b[i := free], i, [i] + ch)
  {
    var c, d := b[i := free], [i] + ch;
    forall k: nat | k <= |ch| ensures LinkOk(c, d, k) {
      if k > 0 {
        assert LinkOk(b, ch, k - 1) && ch[k - 1] in ch;
      }
    }
  }

  lemma ChainBounded(b: seq<nat>, free: nat, ch: seq<nat>)
    requires IsChain(b, free, ch)
    ensures forall k :: 0 <= k < |ch| ==> ch[k] < |b|
  {
    forall k | 0 <= k < |ch| ensures ch[k] < |b| {
      assert LinkOk(b, ch, k);
    }
  }

  function Counting(n: nat): (r: seq<nat>)
    ensures |r| == n && forall i :: 0 <= i < n ==> r[i] == i
  {
    seq(n, i => i)
  }

  lemma {:induction false} DistinctBounded(l: seq<nat>, n: nat)
    requires Distinct(l) && forall k :: 0 <= k < |l| ==> l[k] < n
    ensures |l| <= n
    decreases n
  {
    if l != [] {
      assert l[0] < n;
      if n - 1 in l {
        var k :| 0 <= k < |l| && l[k] == n - 1;
        DistinctBounded(l[..k] + l[k + 1..], n - 1);
      } else {
        DistinctBounded(l, n - 1);
      }
    }
  }

  lemma PutFirst<T>(l: seq<T>, x: T)
    requires Distinct(l) && x !in l
    ensures Distinct([x] + l) && forall y :: y in [x] + l <==> y in l || y == x
  {
  }

  // ---------- the state of the allocator ----------

  /** `chains` are the free indices of each slab, `home` its cache, `live` the objects handed out. */
  datatype World = World(zones: seq<nat>, slabs: map<Addr, Slab>, pages: map<Page, Use>, full: seq<seq<Addr>>,
                         notfull: seq<seq<Addr>>, chains: map<Addr, seq<nat>>, home: map<Addr, nat>,
                         live: map<Addr, Obj>)

  function BasePage(sl: Slab): Page {
    Page(sl.sMem.zone, if sl.sMem.at < sl.offset then 0 else (sl.sMem.at - sl.offset) / PGSIZE)
  }

  function ObjAddr(k: Cache, sl: Slab, i: nat): Addr {
    Addr(sl.sMem.zone, sl.sMem.at + i * k.objsize)
  }

  predicate Known(cs: seq<Cache>, w: World, s: Addr) {
    s in w.slabs && s in w.chains && s in w.home && w.home[s] < |cs|
  }

  /** The numbers of a slab: its free chain, its use count, and where its objects start. */
  predicate ShapeOk(k: Cache, sl: Slab, ch: seq<nat>) {
    && |sl.bufctl| == k.num && IsChain(sl.bufctl, sl.free, ch) && |ch| + sl.inuse == k.num
    && sl.offset == k.offset && sl.sMem.at == PGSIZE * BasePage(sl).idx + k.offset
  }

  /** Its pages belong to it, and its control area is in front of the objects or an object of another cache. */
  ghost predicate SlabOk(cs: seq<Cache>, w: World, s: Addr) {
    && Known(cs, w, s)
    && var (sl, k) := (w.slabs[s], cs[w.home[s]]);
    && ShapeOk(k, sl, w.chains[s]) && BlockOk(w.zones, BasePage(sl), k.pageOrder)
    && (forall p {:trigger p in w.pages} :: In(BasePage(sl), k.pageOrder, p) ==>
         p in w.pages && w.pages[p] == Use(w.home[s], s))
    && if k.offSlab then s in w.live && w.live[s].slab in w.home && w.home[w.live[s].slab] == k.slabCachep
       else s == KvaOf(BasePage(sl))
  }

  /** Full slabs are on the one list of their cache, all others on the other one, once each. */
  ghost predicate ListsOk(cs: seq<Cache>, w: World, c: nat) {
    && c < |cs| && c < |w.full| && c < |w.notfull| && Distinct(w.full[c]) && Distinct(w.notfull[c])
    && (forall s :: s in w.full[c] <==> Known(cs, w, s) && w.home[s] == c && w.slabs[s].inuse == cs[c].num)
    && (forall s :: s in w.notfull[c] <==> Known(cs, w, s) && w.home[s] == c && w.slabs[s].inuse < cs[c].num)
  }

  predicate PageOk(cs: seq<Cache>, w: World, p: Page)
    requires p in w.pages
  {
    var s := w.pages[p].slab;
    Known(cs, w, s) && w.pages[p].cache == w.home[s] && In(BasePage(w.slabs[s]), cs[w.home[s]].pageOrder, p)
  }

  predicate Taken(cs: seq<Cache>, w: World, o: Obj) {
    Known(cs, w, o.slab) && o.index < cs[w.home[o.slab]].num && o.index !in w.chains[o.slab]
  }

  function Place(cs: seq<Cache>, w: World, o: Obj): Addr
    requires Known(cs, w, o.slab)
  {
    ObjAddr(cs[w.home[o.slab]], w.slabs[o.slab], o.index)
  }

  predicate LiveOk(cs: seq<Cache>, w: World, a: Addr)
    requires a in w.live
  {
    Taken(cs, w, w.live[a]) && Place(cs, w, w.live[a]) == a
  }

  ghost predicate Sound(cs: seq<Cache>, w: World) {
    && CachesOk(cs) && w.chains.Keys == w.slabs.Keys && w.home.Keys == w.slabs.Keys
    && |w.full| == NCACHES && |w.notfull| == NCACHES
    && (forall s {:trigger SlabOk(cs, w, s)} :: s in w.slabs ==> SlabOk(cs, w, s))
    && (forall c: nat {:trigger ListsOk(cs, w, c)} :: c < NCACHES ==> ListsOk(cs, w, c))
    && (forall p {:trigger PageOk(cs, w, p)} :: p in w.pages ==> PageOk(cs, w, p))
    && (forall a {:trigger LiveOk(cs, w, a)} :: a in w.live ==> LiveOk(cs, w, a))
    && (forall o: Obj {:trigger Taken(cs, w, o)} :: Taken(cs, w, o) ==>
         Place(cs, w, o) in w.live && w.live[Place(cs, w, o)] == o)
  }

  /** The address holds the control area of a slab. */
  predicate Controls(cs: seq<Cache>, w: World, a: Addr) {
    Known(cs, w, a) && cs[w.home[a]].offSlab
  }

  /** Objects that callers hold. */
  ghost function Held(cs: seq<Cache>, w: World): set<Addr> {
    set a | a in w.live && !Controls(cs, w, a)
  }

  // ---------- where objects are ----------

  lemma {:induction false} Times(i: nat, j: nat, s: nat)
    requires i < j
    ensures i * s + s <= j * s
    decreases j
  {
    if i + 1 < j {
      Times(i, j - 1, s);
    }
    assert j * s == (j - 1) * s + s;
  }

  /** An object lies in the pages of its slab, behind the control area if that is there. */
  lemma ObjInside(cs: seq<Cache>, w: World, o: Obj)
    requires Sound(cs, w) && Known(cs, w, o.slab) && o.index < cs[w.home[o.slab]].num
    ensures var (k, b, a) := (cs[w.home[o.slab]], BasePage(w.slabs[o.slab]), Place(cs, w, o));
      && a.zone == b.zone && PGSIZE * b.idx + k.offset <= a.at
      && a.at + k.objsize <= PGSIZE * (b.idx + Pow2(k.pageOrder)) && 0 < k.objsize
      && PageOf(a) in w.pages && w.pages[PageOf(a)] == Use(w.home[o.slab], o.slab)
  {
    var k := cs[w.home[o.slab]];
    var b, a := BasePage(w.slabs[o.slab]), Place(cs, w, o);
    assert SlabOk(cs, w, o.slab) && CacheOk(cs, w.home[o.slab]);
    ObjInBlock(b, k, o.index, a);
    assert In(b, k.pageOrder, PageOf(a));
  }

  lemma SamePlace(cs: seq<Cache>, w: World, o: Obj, q: Obj)
    requires Sound(cs, w) && Known(cs, w, o.slab) && o.index < cs[w.home[o.slab]].num
    requires Known(cs, w, q.slab) && q.index < cs[w.home[q.slab]].num && Place(cs, w, o) == Place(cs, w, q)
    ensures o == q
  {
    ObjInside(cs, w, o);
    ObjInside(cs, w, q);
    var k := cs[w.home[o.slab]];
    if o.index < q.index {
      Times(o.index, q.index, k.objsize);
    } else if q.index < o.index {
      Times(q.index, o.index, k.objsize);
    }
  }

  lemma ObjInBlock(b: Page, k: Cache, i: nat, a: Addr)
    requires a == Addr(b.zone, PGSIZE * b.idx + k.offset + i * k.objsize) && i < k.num && k.objsize == Pow2(k.shift)
    requires k.offset + k.num * k.objsize <= PGSIZE * Pow2(k.pageOrder)
    ensures PGSIZE * b.idx + k.offset <= a.at && 0 < k.objsize && In(b, k.pageOrder, PageOf(a))
    ensures a.at + k.objsize <= PGSIZE * (b.idx + Pow2(k.pageOrder))
  {
    Times(i, k.num, k.objsize);
    var n := Pow2(k.pageOrder);
    assert PGSIZE * (b.idx + n) == PGSIZE * b.idx + PGSIZE * n;
    assert i * k.objsize >= 0;
  }
}
