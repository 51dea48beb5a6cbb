/** Virtual memory areas and the cache of the last one looked up, as in ucore/kern/mm/vmm.c. */
module VirtualMemory {
  import opened Lists

  const PGSIZE: nat := 4096
  const USERBASE: nat := 0x1000_0000
  const USERTOP: nat := 0x8000_0000
  const KERNBASE: nat := 0x8000_0000
  const KERNTOP: nat := KERNBASE + 0x7F_FFF0
  const WORD: nat := 0x1_0000_0000

  datatype VmFlags = VmFlags(read: bool, write: bool, exec: bool, stack: bool)

  datatype Vma = Vma(start: nat, end: nat, flags: VmFlags)

  predicate Within(v: Vma, a: nat) {
    v.start <= a < v.end
  }

  predicate Disjoint(v: Vma, w: Vma) {
    v.end <= w.start || w.end <= v.start
  }

  /** Areas in the order of their addresses, none empty, no two with a common address. */
  predicate Sorted(l: seq<Vma>) {
    && (forall i :: 0 <= i < |l| ==> l[i].start < l[i].end < WORD)
    && (forall i, j :: 0 <= i < j < |l| ==> l[i].end <= l[j].start)
  }

  /** The first area that ends above `a`, found without the cache. */
  function FirstAbove(l: seq<Vma>, a: nat): Option<Vma> {
    if l == [] then None else if a < l[0].end then Some(l[0]) else FirstAbove(l[1..], a)
  }

  lemma {:induction false} FirstAboveAt(l: seq<Vma>, k: nat, a: nat)
    requires k <= |l| && (forall i :: 0 <= i < k ==> l[i].end <= a) && (k < |l| ==> a < l[k].end)
    ensures FirstAbove(l, a) == if k < |l| then Some(l[k]) else None
  {
    if 0 < k {
      FirstAboveAt(l[1..], k - 1, a);
    }
  }

  /** An area that holds the address is the first one that ends above it. */
  lemma HolderIsFirst(l: seq<Vma>, v: Vma, a: nat)
    requires Sorted(l) && v in l && Within(v, a)
    ensures FirstAbove(l, a) == Some(v)
  {
    var k: nat :| k < |l| && l[k] == v;
    FirstAboveAt(l, k, a);
  }

  /** What the first area above an address says about all of them. */
  lemma FirstAboveMeans(l: seq<Vma>, a: nat)
    requires Sorted(l)
    ensures match FirstAbove(l, a)
      case None => forall v :: v in l ==> v.end <= a
      case Some(f) => f in l && a < f.end && forall v :: v in l ==> v.end <= a || v == f || f.end <= v.start
  {
    var k := FirstIndex(l, a);
    FirstAboveAt(l, k, a);
  }

  lemma FirstIndex(l: seq<Vma>, a: nat) returns (k: nat)
    ensures k <= |l| && (forall i :: 0 <= i < k ==> l[i].end <= a) && (k < |l| ==> a < l[k].end)
  {
    k := 0;
    while k < |l| && l[k].end <= a
      invariant k <= |l| && forall i :: 0 <= i < k ==> l[i].end <= a
    {
      k := k + 1;
    }
  }

  /** The area that begins where another ends. */
  lemma NextArea(l: seq<Vma>, w: Vma, v: Vma)
    requires Sorted(l) && w in l && v in l && Within(v, w.end)
    ensures v.start == w.end
  {
    var i: nat :| i < |l| && l[i] == w;
    var j: nat :| j < |l| && l[j] == v;
  }

  /** The interval meets no area exactly if the first one above its start begins at its end or later. */
  lemma FreeInterval(l: seq<Vma>, start: nat, end: nat)
    requires Sorted(l) && start < end
    ensures (forall v :: v in l ==> v.end <= start || end <= v.start)
       <==> (FirstAbove(l, start).Some? ==> end <= FirstAbove(l, start).value.start)
  {
    FirstAboveMeans(l, start);
  }

  /** `m` is the list `l` with one area more. */
  ghost predicate Inserted(l: seq<Vma>, vma: Vma, m: seq<Vma>) {
    exists k :: 0 <= k <= |l| && m == l[..k] + [vma] + l[k..]
  }

  lemma InsertedHas(l: seq<Vma>, vma: Vma, m: seq<Vma>)
    requires Inserted(l, vma, m)
    ensures forall v :: v in m <==> v in l || v == vma
  {
    var k :| 0 <= k <= |l| && m == l[..k] + [vma] + l[k..];
    assert l == l[..k] + l[k..];
  }

  predicate FitsAt(l: seq<Vma>, k: nat, vma: Vma)
    requires k <= |l|
  {
    (k > 0 ==> l[k - 1].end <= vma.start) && (k < |l| ==> vma.end <= l[k].start)
  }

  /** Whether an area overlaps any other its neighbours in the list tell. */
  lemma NeighboursDecide(l: seq<Vma>, k: nat, vma: Vma)
    requires Sorted(l) && k <= |l| && vma.start < vma.end
    requires (forall i :: 0 <= i < k ==> l[i].start <= vma.start) && (k < |l| ==> vma.start < l[k].start)
    ensures (forall v :: v in l ==> Disjoint(v, vma)) <==> FitsAt(l, k, vma)
  {
    if k > 0 && vma.start < l[k - 1].end {
      assert l[k - 1] in l && !Disjoint(l[k - 1], vma);
    } else if k < |l| && l[k].start < vma.end {
      assert l[k] in l && !Disjoint(l[k], vma);
    } else {
      forall v | v in l ensures Disjoint(v, vma) {
        var i: nat :| i < |l| && l[i] == v;
        assert i < k ==> i == k - 1 || l[i].end <= l[k - 1].start;
        assert i > k ==> l[k].end <= l[i].start;
      }
    }
  }

  lemma FittedIn(l: seq<Vma>, k: nat, vma: Vma)
    requires Sorted(l) && k <= |l| && vma.start < vma.end < WORD && FitsAt(l, k, vma)
    ensures Sorted(l[..k] + [vma] + l[k..])
  {
    SortedTogether(l[..k], [vma]);
    SortedTogether(l[..k] + [vma], l[k..]);
  }

  lemma SortedTogether(p: seq<Vma>, q: seq<Vma>)
    requires Sorted(p) && Sorted(q) && (p != [] && q != [] ==> p[|p| - 1].end <= q[0].start)
    ensures Sorted(p + q)
  {
    var n := |p|;
    forall i, j | 0 <= i < n && 0 <= j < |q| ensures p[i].end <= q[j].start {
      assert i < n - 1 ==> p[i].end <= p[n - 1].start;
      assert p[n - 1].start < p[n - 1].end;
      assert j > 0 ==> q[0].end <= q[j].start;
      assert q[0].start < q[0].end;
    }
  }

  /** USER_ACCESS */
  predicate UserAccess(start: nat, end: nat) {
    USERBASE <= start < end <= USERTOP
  }

  /** ROUNDDOWN_2N and ROUNDUP_2N to pages, on words. */
  function RoundDown(a: nat): nat {
    a / PGSIZE * PGSIZE
  }

  function RoundUp(a: nat): nat {
    RoundDown((a + PGSIZE - 1) % WORD)
  }

  /**
   * The pages that `mm_map` takes for `len` bytes from `addr` on, where it does not refuse: whole pages, none too many, that
   * hold all these bytes exactly if the bytes do not go past the last address.
   */
  lemma PagesHold(addr: nat, len: nat)
    requires addr < WORD && len < WORD && UserAccess(RoundDown(addr), RoundUp((addr + len) % WORD))
    ensures var (start, end) := (RoundDown(addr), RoundUp((addr + len) % WORD));
      && start % PGSIZE == 0 && end % PGSIZE == 0 && start <= addr < start + PGSIZE
      && (addr + len) % WORD <= end < (addr + len) % WORD + PGSIZE
      && ((start <= addr && addr + len <= end) <==> addr + len < WORD)
  {
    var last := (addr + len) % WORD;
    assert last + PGSIZE - 1 < WORD;
  }

  /** Four gigabytes less a byte, in the middle of a page: what is mapped is one page. */
  lemma PagesWrap()
    ensures var (addr, len) := (0x1000_0fff, 0xffff_ffff);
      RoundDown(addr) == 0x1000_0000 && RoundUp((addr + len) % WORD) == 0x1000_1000
  {
  }

  /** An access that starts at `addr` may go on in this area; a write starts a page or more behind the start of a stack. */
  predicate Grants(v: Vma, addr: nat, write: bool) {
    && (if write then v.flags.write else v.flags.read)
    && (write && v.flags.stack ==> v.start + PGSIZE <= addr)
  }

  ghost predicate Allowed(l: seq<Vma>, a: nat, addr: nat, write: bool) {
    exists v :: v in l && Within(v, a) && Grants(v, addr, write)
  }

  /** KERN_ACCESS */
  predicate KernAccess(start: nat, end: nat) {
    KERNBASE <= start < end <= KERNTOP
  }

  datatype MapResult = Mapped | Inval | NoMem | Panicked

  class MmStruct {
    var mmapList: seq<Vma>
    var mmapCache: Option<Vma>
    var mapCount: nat

    ghost predicate Valid()
      reads this
    {
      Sorted(mmapList) && mapCount == |mmapList| && (mmapCache.Some? ==> mmapCache.value in mmapList)
    }

    /** mm_create */
    constructor ()
      ensures Valid() && mmapList == []
    {
      mmapList, mmapCache, mapCount := [], None, 0;
    }

    /** The cache changes how the area is found, not which one. */
    method FindVma(addr: nat) returns (vma: Option<Vma>)
      requires Valid()
      modifies this`mmapCache
      ensures Valid() && vma == FirstAbove(mmapList, addr)
    {
      vma := mmapCache;
      if vma.Some? && Within(vma.value, addr) {
        HolderIsFirst(mmapList, vma.value, addr);
      } else {
        var found, k := false, 0;
        while k < |mmapList| && !found
          invariant 0 <= k <= |mmapList| && (found ==> k < |mmapList| && addr < mmapList[k].end)
          invariant forall i :: 0 <= i < k ==> mmapList[i].end <= addr
          decreases |mmapList| - k, !found
        {
          if addr < mmapList[k].end {
            found := true;
          } else {
            k := k + 1;
          }
        }
        vma := if found then Some(mmapList[k]) else None;
        FirstAboveAt(mmapList, k, addr);
      }
      if vma.Some? {
        FirstAboveMeans(mmapList, addr);
        mmapCache := vma;
      }
    }

    /** True if the assertions hold: exactly if the area is not empty and meets no other. */
    method InsertVmaStruct(vma: Vma) returns (ok: bool)
      requires Valid() && vma.end < WORD
      modifies this`mmapList, this`mapCount
      ensures Valid()
      ensures ok <==> vma.start < vma.end && forall v :: v in old(mmapList) ==> Disjoint(v, vma)
      ensures !ok ==> mmapList == old(mmapList)
      ensures ok ==> Inserted(old(mmapList), vma, mmapList)
    {
      if vma.start >= vma.end {
        return false;
      }
      var k := 0;
      while k < |mmapList| && mmapList[k].start <= vma.start
        invariant 0 <= k <= |mmapList|
        invariant forall i :: 0 <= i < k ==> mmapList[i].start <= vma.start
      {
        k := k + 1;
      }
      NeighboursDecide(mmapList, k, vma);
      if k > 0 && !(mmapList[k - 1].end <= vma.start) {
        return false;
      }
      if k < |mmapList| && !(vma.end <= mmapList[k].start) {
        return false;
      }
      FittedIn(mmapList, k, vma);
      mmapList := mmapList[..k] + [vma] + mmapList[k..];
      mapCount := mapCount + 1;
      return true;
    }

    /** Maps the pages of an interval; `noMem` says that there is no memory for the area. */
    method MmMap(addr: nat, len: nat, flags: VmFlags, noMem: bool) returns (r: MapResult)
      requires Valid() && addr < WORD && len < WORD
      modifies this
      ensures Valid() && r != Panicked
      ensures var (start, end) := (RoundDown(addr), RoundUp((addr + len) % WORD));
        && (r == Inval <==> !(UserAccess(start, end)
                              && forall v :: v in old(mmapList) ==> v.end <= start || end <= v.start))
        && (r == Mapped <==> r != Inval && !noMem)
        && (if r == Mapped
            then (forall v :: v in mmapList <==> v in old(mmapList) || v == Vma(start, end, flags))
                 && mapCount == old(mapCount) + 1
            else mmapList == old(mmapList))
      ensures r == Mapped && addr + len < WORD ==>
        exists v :: v in mmapList && v.flags == flags && forall a :: addr <= a < addr + len ==> Within(v, a)
    {
      var start, end := RoundDown(addr), RoundUp((addr + len) % WORD);
      if !UserAccess(start, end) {
        return Inval;
      }
      PagesHold(addr, len);
      FreeInterval(mmapList, start, end);
      var found := FindVma(start);
      if found.Some? && end > found.value.start {
        return Inval;
      }
      if noMem {
        return NoMem;
      }
      var ok := InsertVmaStruct(Vma(start, end, flags));
      if ok {
        InsertedHas(old(mmapList), Vma(start, end, flags), mmapList);
        return Mapped;
      }
      return Panicked;
    }

    /** `UserMemCheck` with an address space: whether user code may read or write `len` bytes from `addr` on. */
    method CheckAreas(addr: nat, len: nat, write: bool) returns (ok: bool)
      requires Valid() && addr < WORD && len < WORD
      modifies this`mmapCache
      ensures Valid()
      ensures var end := (addr + len) % WORD;
        ok <==> UserAccess(addr, end) && forall a {:trigger Allowed(mmapList, a, addr, write)} :: addr <= a < end ==>
                  Allowed(mmapList, a, addr, write)
    {
      var start, end := addr, (addr + len) % WORD;
      if !UserAccess(addr, end) {
        return false;
      }
      hide Sorted, FirstAbove, Allowed, Grants;
      while start < end
        invariant Valid() && addr <= start && ReachedFrom(mmapList, addr, start)
        invariant forall a {:trigger Allowed(mmapList, a, addr, write)} :: addr <= a < start && a < end ==>
          Allowed(mmapList, a, addr, write)
        decreases end - start
      {
        OneArea(mmapList, addr, start, write);
        var vma := FindVma(start);
        if vma.None? || start < vma.value.start {
          return false;
        }
        if !(if write then vma.value.flags.write else vma.value.flags.read) {
          return false;
        }
        if write && vma.value.flags.stack && start < (vma.value.start + PGSIZE) % WORD {
          return false;
        }
        start := vma.value.end;
      }
      return true;
    }
  }

  /** The check is at its start, or at the end of an area. */
  ghost predicate ReachedFrom(l: seq<Vma>, addr: nat, start: nat) {
    start == addr || exists v :: v in l && v.end == start
  }

  /** A round of the check: its three tests decide about the address, and then about all up to the end of the area. */
  lemma OneArea(l: seq<Vma>, addr: nat, start: nat, write: bool)
    requires Sorted(l) && addr <= start < USERTOP && ReachedFrom(l, addr, start)
    ensures var f := FirstAbove(l, start);
      && (Allowed(l, start, addr, write) <==>
            f.Some? && f.value.start <= start && (if write then f.value.flags.write else f.value.flags.read)
            && !(write && f.value.flags.stack && start < (f.value.start + PGSIZE) % WORD))
      && (f.Some? ==> start < f.value.end && ReachedFrom(l, addr, f.value.end))
      && (Allowed(l, start, addr, write) ==>
            forall a {:trigger Allowed(l, a, addr, write)} :: start <= a < f.value.end ==> Allowed(l, a, addr, write))
  {
    var f := FirstAbove(l, start);
    AllowedBy(l, start, addr, write);
    FirstAboveMeans(l, start);
    if f.Some? && f.value.start <= start && start != addr {
      var w :| w in l && w.end == start;
      NextArea(l, w, f.value);
    }
    if Allowed(l, start, addr, write) {
      forall a | start <= a < f.value.end ensures Allowed(l, a, addr, write) {
        assert Within(f.value, a);
      }
    }
  }

  /** The check of a single address. */
  ghost predicate Permits(l: seq<Vma>, a: nat, write: bool) {
    UserAccess(a, a + 1) && Allowed(l, a, a, write)
  }

  /**
   * Although the guard page of a stack is looked at only where the range enters the area, a range may be accessed exactly
   * if each of its addresses may be accessed by itself.
   */
  lemma RangeIsAddresses(l: seq<Vma>, addr: nat, end: nat, write: bool)
    requires Sorted(l) && addr < end
    ensures UserAccess(addr, end) && (forall a {:trigger Allowed(l, a, addr, write)} :: addr <= a < end ==>
                                        Allowed(l, a, addr, write))
       <==> forall a :: addr <= a < end ==> Permits(l, a, write)
  {
    if forall a :: addr <= a < end ==> Permits(l, a, write) {
      assert Permits(l, addr, write) && Permits(l, end - 1, write);
      forall a | addr <= a < end ensures Allowed(l, a, addr, write) {
        assert Permits(l, a, write);
        OneStart(l, a, addr, end, write);
      }
    }
    if UserAccess(addr, end) && forall a {:trigger Allowed(l, a, addr, write)} :: addr <= a < end ==> Allowed(l, a, addr, write) {
      forall a | addr <= a < end ensures Permits(l, a, write) {
        assert Allowed(l, a, addr, write);
        var v :| v in l && Within(v, a) && Grants(v, addr, write);
        assert Grants(v, a, write);
      }
    }
  }

  /** The area of an address begins before the range, or its first address is in it, which no write to a stack may touch. */
  lemma OneStart(l: seq<Vma>, a: nat, addr: nat, end: nat, write: bool)
    requires Sorted(l) && addr <= a < end && Permits(l, a, write)
    requires forall b :: addr <= b < end ==> Permits(l, b, write)
    ensures Allowed(l, a, addr, write)
  {
    var v :| v in l && Within(v, a) && Grants(v, a, write);
    var b := if v.start >= addr then v.start else addr;
    assert Permits(l, b, write);
    var u :| u in l && Within(u, b) && Grants(u, b, write);
    HolderIsFirst(l, v, b);
    HolderIsFirst(l, u, b);
  }

  /** user_mem_check: without an address space the range must lie in the kernel. */
  method UserMemCheck(mm: MmStruct?, addr: nat, len: nat, write: bool) returns (ok: bool)
    requires (mm != null ==> mm.Valid()) && addr < WORD && len < WORD
    modifies if mm == null then {} else {mm}`mmapCache
    ensures mm != null ==> mm.Valid() && mm.mmapList == old(mm.mmapList)
    ensures var end := (addr + len) % WORD;
      ok <==> if mm == null then KernAccess(addr, end)
              else UserAccess(addr, end) && forall a {:trigger Allowed(mm.mmapList, a, addr, write)} :: addr <= a < end ==>
                     Allowed(mm.mmapList, a, addr, write)
    ensures var end := (addr + len) % WORD;
      mm != null ==> (ok <==> addr < end && forall a :: addr <= a < end ==> Permits(mm.mmapList, a, write))
  {
    if mm != null {
      if addr < (addr + len) % WORD {
        RangeIsAddresses(mm.mmapList, addr, (addr + len) % WORD, write);
      }
      ok := mm.CheckAreas(addr, len, write);
    } else {
      ok := KernAccess(addr, (addr + len) % WORD);
    }
  }

  /** Only the first area above an address can allow an access to it. */
  lemma AllowedBy(l: seq<Vma>, a: nat, addr: nat, write: bool)
    requires Sorted(l)
    ensures Allowed(l, a, addr, write) <==>
      FirstAbove(l, a).Some? && Within(FirstAbove(l, a).value, a) && Grants(FirstAbove(l, a).value, addr, write)
  {
    FirstAboveMeans(l, a);
    forall v | v in l && Within(v, a) ensures FirstAbove(l, a) == Some(v) {
      HolderIsFirst(l, v, a);
    }
  }
}
