/** How objects are laid out in the slabs of the thirteen caches: the sizing code of ucore/kern/mm/kmalloc.c. */
module SlabCaches {
  import opened Binary
  import opened Buddies
  import opened SlabLayout

  const MIN_SIZE_ORDER: nat := 5
  const MAX_SIZE_ORDER: nat := 17
  const OFF_SLAB_FROM: nat := PGSIZE / 8

  datatype OrderResult = Order(order: nat) | TooLarge

  /** x >> k */
  function Shr(x: nat, k: nat): nat {
    if k == 0 then x else Shr(x / 2, k - 1)
  }

  lemma {:induction false} ShrOfMultiple(i: nat, k: nat)
    ensures Shr(i * Pow2(k), k) == i
  {
    if k > 0 {
      assert i * Pow2(k) == 2 * (i * Pow2(k - 1));
      ShrOfMultiple(i, k - 1);
    }
  }

  lemma {:induction false} ShrOfPower(m: nat, k: nat)
    ensures Shr(Pow2(m), k) == if m < k then 0 else Pow2(m - k)
  {
    if k > 0 {
      if m == 0 {
        ShrOfZero(k - 1);
      } else {
        assert Pow2(m) == 2 * Pow2(m - 1) && Pow2(m) / 2 == Pow2(m - 1);
        ShrOfPower(m - 1, k - 1);
      }
    }
  }

  lemma ShrOfZero(k: nat)
    ensures Shr(0, k) == 0
  {
  }

  lemma {:induction false} PowerSum(a: nat, b: nat)
    ensures Pow2(a) * Pow2(b) == Pow2(a + b)
  {
    if a > 0 {
      PowerSum(a - 1, b);
      TwiceTimes(Pow2(a - 1), Pow2(b));
      assert Pow2(a) == 2 * Pow2(a - 1) && Pow2(a + b) == 2 * Pow2(a + b - 1);
    }
  }

  lemma TwiceTimes(x: nat, y: nat)
    ensures 2 * x * y == 2 * (x * y)
  {
  }

  lemma SmallPowers()
    ensures Pow2(0) == 1 && Pow2(3) == 8 && Pow2(5) == 32 && Pow2(6) == 64 && Pow2(7) == 128 && Pow2(8) == 256 && Pow2(9) == 512
    ensures Pow2(12) == 4096 && Pow2(17) == 131072
  {
    assert Pow2(8) == 256;
    assert Pow2(12) == 4096;
    assert Pow2(16) == 65536;
  }

  /** The least order from 5 on with room for `n` bytes; `TooLarge` is a panic. */
  method GetOrder(n: nat) returns (r: OrderResult)
    ensures r.TooLarge? <==> n > Pow2(MAX_SIZE_ORDER)
    ensures r.Order? ==> MIN_SIZE_ORDER <= r.order <= MAX_SIZE_ORDER && n <= Pow2(r.order)
    ensures r.Order? && r.order > MIN_SIZE_ORDER ==> Pow2(r.order - 1) < n
  {
    hide Pow2;
    var order, orderSize := MIN_SIZE_ORDER, 32;
    SmallPowers();
    while order <= MAX_SIZE_ORDER
      invariant MIN_SIZE_ORDER <= order <= MAX_SIZE_ORDER + 1 && orderSize == Pow2(order)
      invariant order > MIN_SIZE_ORDER ==> Pow2(order - 1) < n
    {
      if n <= orderSize {
        PowersGrow(order, MAX_SIZE_ORDER);
        return Order(order);
      }
      Doubled(order);
      order, orderSize := order + 1, 2 * orderSize;
    }
    return TooLarge;
  }

  lemma Doubled(k: nat)
    ensures Pow2(k + 1) == 2 * Pow2(k)
  {
  }

  const DIV_TABLE: seq<nat> := [113, 59, 30, 15]

  /** The number of objects in a slab of 2^order pages, and the room left over. */
  method CacheEstimate(order: nat, shift: nat, offSlab: bool) returns (remainder: nat, num: nat)
    requires order <= MAX_ORDER && (if offSlab then shift <= MAX_SIZE_ORDER else order == 0 && 5 <= shift < 9)
    ensures offSlab ==> num == if 12 + order < shift then 0 else Pow2(12 + order - shift)
    ensures offSlab && num != 0 ==> remainder == 0 && num * Pow2(shift) == PGSIZE * Pow2(order)
    ensures !offSlab ==> num == DIV_TABLE[shift - 5]
    ensures !offSlab ==> MgmtSize(num) + num * Pow2(shift) + remainder == PGSIZE && remainder <= 160
  {
    hide Pow2;
    SmallPowers();
    var slabSize := PGSIZE * Pow2(order);
    PowerSum(12, order);
    var objsize := Pow2(shift);
    if offSlab {
      num := Shr(slabSize, shift);
      ShrOfPower(12 + order, shift);
      if 12 + order >= shift {
        PowerSum(12 + order - shift, shift);
      }
      remainder := slabSize - num * objsize;
    } else {
      num := LargestFit(DIV_TABLE[shift - 5], objsize, slabSize);
      TableFits(shift, objsize);
      remainder := slabSize - num * objsize - MgmtSize(num);
    }
  }

  /** The table holds what fits a page, with little left over. */
  lemma TableFits(shift: nat, objsize: nat)
    requires 5 <= shift < 9 && objsize == if shift == 5 then 32 else if shift == 6 then 64 else if shift == 7 then 128 else 256
    ensures var num := DIV_TABLE[shift - 5];
      Fits(num, objsize, PGSIZE) && PGSIZE - num * objsize - MgmtSize(num) <= 160
  {
  }

  /** So many objects and their control area fit a slab. */
  predicate Fits(num: nat, objsize: nat, slabSize: nat) {
    MgmtSize(num) + num * objsize <= slabSize
  }

  /** The estimate is lowered until it fits. */
  method LargestFit(start: nat, objsize: nat, slabSize: nat) returns (num: nat)
    requires MgmtSize(0) <= slabSize
    ensures num <= start && Fits(num, objsize, slabSize)
    ensures forall n :: num < n <= start ==> !Fits(n, objsize, slabSize)
  {
    num := start;
    while MgmtSize(num) + num * objsize > slabSize
      invariant num <= start && forall n :: num < n <= start ==> !Fits(n, objsize, slabSize)
      decreases num
    {
      num := num - 1;
    }
  }

  /** The least order whose slabs waste at most an eighth; `leftOver` is what they waste. */
  method CalculateSlabOrder(shift: nat, offSlab: bool) returns (num: nat, pageOrder: nat, leftOver: nat)
    requires 5 <= shift <= MAX_SIZE_ORDER && (offSlab <==> shift >= 9)
    ensures 0 < num <= 113 && pageOrder <= MAX_ORDER
    ensures offSlab ==> leftOver == 0 && num <= 8 && num * Pow2(shift) == PGSIZE * Pow2(pageOrder)
    ensures offSlab ==> pageOrder == if shift <= 12 then 0 else shift - 12
    ensures !offSlab ==> pageOrder == 0 && MgmtSize(num) + num * Pow2(shift) <= PGSIZE
  {
    SmallPowers();
    hide Pow2;
    var order := 0;
    while true
      invariant order <= MAX_ORDER && (order != 0 ==> offSlab && 12 + order <= shift)
      decreases MAX_ORDER - order
    {
      leftOver, num := CacheEstimate(order, shift, offSlab);
      if num != 0 {
        if offSlab {
          PowersGrow(12 + order - shift, 3);
          PowersGrow(9, shift);
          assert num <= (Pow2(shift) - SLAB_T) / BUFCTL_T;
        }
        if leftOver * 8 <= PGSIZE * Pow2(order) {
          pageOrder := order;
          return;
        }
      }
      order := order + 1;
    }
  }

  /** The layout of the slabs of one cache. */
  method InitKmemCache(objsize: nat, ghost shift: nat) returns (k: Cache)
    requires 5 <= shift <= MAX_SIZE_ORDER && objsize == Pow2(shift)
    ensures k.objsize == objsize && k.shift == shift && (k.offSlab <==> shift >= 9)
    ensures k.pageOrder == if shift <= 12 then 0 else shift - 12
    ensures Laid(k)
  {
    SmallPowers();
    hide Pow2;
    var r := GetOrder(objsize);
    PowersGrow(shift, MAX_SIZE_ORDER);
    SameOrder(r, shift);
    var offSlab := objsize >= OFF_SLAB_FROM;
    PowersGrow(9, if shift >= 9 then shift else 9);
    PowersGrow(shift, if shift <= 8 then 8 else shift);
    var num, pageOrder, leftOver := CalculateSlabOrder(r.order, offSlab);
    var mgmtSize := MgmtSize(num);
    if offSlab && leftOver >= mgmtSize {
      offSlab := false;
    }
    if offSlab {
      var o := GetOrder(mgmtSize);
      assert mgmtSize <= 64;
      PowersGrow(6, MAX_SIZE_ORDER);
      if o.order > 6 {
        PowersGrow(6, o.order - 1);
      }
      k := Cache(objsize, r.order, num, 0, true, pageOrder, o.order - MIN_SIZE_ORDER);
    } else {
      k := Cache(objsize, r.order, num, mgmtSize, false, pageOrder, 0);
    }
  }

  lemma SameOrder(r: OrderResult, shift: nat)
    requires r.Order? && Pow2(shift) <= Pow2(r.order) && 5 <= shift <= MAX_SIZE_ORDER
    requires r.order > MIN_SIZE_ORDER ==> Pow2(r.order - 1) < Pow2(shift)
    requires r.order >= MIN_SIZE_ORDER
    ensures r.order == shift
  {
    if r.order < shift {
      PowersGrow(r.order, shift);
    } else if r.order > shift {
      PowersGrow(shift, r.order - 1);
    }
  }

  /** Objects fit the pages, and the control area fits in front of them or into an object of the first two caches. */
  predicate Laid(k: Cache) {
    && 0 < k.num <= 113 && k.pageOrder <= MAX_ORDER
    && k.offset + k.num * k.objsize <= PGSIZE * Pow2(k.pageOrder)
    && if k.offSlab then k.offset == 0 && k.slabCachep <= 1 && MgmtSize(k.num) <= Pow2(k.slabCachep + 5)
       else MgmtSize(k.num) <= k.offset
  }

  /** Such layouts, for objects of 32 bytes and then twice as large each, fit together. */
  lemma LaidIsOk(cs: seq<Cache>)
    requires |cs| == NCACHES
    requires forall c: nat {:trigger cs[c]} :: c < NCACHES ==>
      Laid(cs[c]) && cs[c].shift == c + 5 && cs[c].objsize == Pow2(c + 5) && (cs[c].offSlab <==> c >= 4)
    ensures CachesOk(cs)
  {
    hide Pow2, MgmtSize;
    forall c: nat | c < NCACHES ensures CacheOk(cs, c) {
      if cs[c].offSlab {
        assert cs[cs[c].slabCachep].objsize == Pow2(cs[c].slabCachep + 5);
      }
    }
  }

  /** slab_init */
  method SlabInit() returns (cs: seq<Cache>)
    ensures CachesOk(cs)
    ensures forall c: nat {:trigger cs[c]} :: c < NCACHES ==> cs[c].objsize == Pow2(c + MIN_SIZE_ORDER)
    ensures forall c: nat {:trigger cs[c]} :: c < NCACHES ==> cs[c].pageOrder == if c <= 7 then 0 else c - 7
    ensures forall c: nat {:trigger cs[c]} :: c < NCACHES ==> (cs[c].offSlab <==> c >= 4)
  {
    hide Pow2, Laid;
    cs := [];
    SmallPowers();
    var i, objsize := 0, 32;
    while i < NCACHES
      invariant 0 <= i <= NCACHES && |cs| == i && objsize == Pow2(i + 5)
      invariant forall c: nat {:trigger cs[c]} :: c < i ==>
        && Laid(cs[c]) && cs[c].shift == c + 5 && cs[c].objsize == Pow2(c + 5) && (cs[c].offSlab <==> c >= 4)
        && cs[c].pageOrder == if c <= 7 then 0 else c - 7
    {
      var k := InitKmemCache(objsize, i + 5);
      cs := cs + [k];
      Doubled(i + 5);
      i, objsize := i + 1, 2 * objsize;
    }
    LaidIsOk(cs);
  }
}
