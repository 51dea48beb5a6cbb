/** Indices of pages in binary: powers of two, alignment, and the buddy of a block. */
module Binary {

  function Pow2(o: nat): (r: nat)
    ensures r > 0
  {
    if o == 0 then 1 else 2 * Pow2(o - 1)
  }

  /** The `o` lowest bits are zero. */
  predicate Aligned(i: nat, o: nat) {
    o == 0 || (i % 2 == 0 && Aligned(i / 2, o - 1))
  }

  /** Exclusive or, and conjunction, bit by bit. */
  function Xor(a: nat, b: nat): nat
    decreases a + b
  {
    if a == 0 then b else if b == 0 then a else (a + b) % 2 + 2 * Xor(a / 2, b / 2)
  }

  function And(a: nat, b: nat): nat
    decreases a + b
  {
    if a == 0 || b == 0 then 0 else (if a % 2 == 1 && b % 2 == 1 then 1 else 0) + 2 * And(a / 2, b / 2)
  }

  // ---------- alignment ----------

  lemma {:induction false} AlignedNext(i: nat, o: nat)
    requires Aligned(i, o)
    ensures Aligned(i + Pow2(o), o)
    ensures i >= Pow2(o) ==> Aligned(i - Pow2(o), o)
    decreases o
  {
    if o > 0 {
      AlignedNext(i / 2, o - 1);
      assert (i + Pow2(o)) / 2 == i / 2 + Pow2(o - 1);
      if i >= Pow2(o) {
        assert (i - Pow2(o)) / 2 == i / 2 - Pow2(o - 1);
      }
    }
  }

  lemma {:induction false} AlignedLess(i: nat, o: nat)
    requires Aligned(i, o + 1)
    ensures Aligned(i, o)
    ensures !Aligned(i + Pow2(o), o + 1)
    decreases o
  {
    if o > 0 {
      AlignedLess(i / 2, o - 1);
      assert (i + Pow2(o)) / 2 == i / 2 + Pow2(o - 1);
    }
  }

  /** Of two neighbours one is the lower half of a block twice as large. */
  lemma {:induction false} UpperHalf(i: nat, o: nat)
    requires Aligned(i, o) && !Aligned(i, o + 1)
    ensures i >= Pow2(o) && Aligned(i - Pow2(o), o + 1)
    decreases o
  {
    if o > 0 {
      UpperHalf(i / 2, o - 1);
      assert (i - Pow2(o)) / 2 == i / 2 - Pow2(o - 1);
    }
  }

  /** Aligned blocks that meet lie one in the other. */
  lemma {:induction false} Nested(p: nat, a: nat, q: nat, b: nat)
    requires Aligned(p, a) && Aligned(q, b) && a <= b
    requires p < q + Pow2(b) && q < p + Pow2(a)
    ensures q <= p && p + Pow2(a) <= q + Pow2(b)
    decreases a
  {
    if a > 0 {
      Nested(p / 2, a - 1, q / 2, b - 1);
    }
  }

  lemma {:induction false} PowersGrow(a: nat, b: nat)
    requires a <= b
    ensures Pow2(a) <= Pow2(b)
    ensures a < b ==> 2 * Pow2(a) <= Pow2(b)
    decreases b
  {
    if a < b {
      PowersGrow(a, b - 1);
    }
  }

  // ---------- bits ----------

  /** The index of the buddy differs in bit `o` alone; the merged block starts at the lower of the two. */
  lemma {:induction false} XorIsBuddy(i: nat, o: nat)
    requires Aligned(i, o)
    ensures var x := Xor(i, Pow2(o));
      && (Aligned(i, o + 1) ==> x == i + Pow2(o) && And(i, x) == i)
      && (!Aligned(i, o + 1) ==> x == i - Pow2(o) && And(i, x) == x)
    decreases o
  {
    if o == 0 {
      XorOne(i);
      assert Pow2(o) == 1 && Aligned(i / 2, 0);
      assert Aligned(i, 1) == (i % 2 == 0);
    } else {
      hide Xor, And;
      var h := Xor(i / 2, Pow2(o - 1));
      XorIsBuddy(i / 2, o - 1);
      XorEven(i / 2, Pow2(o - 1));
      AndEven(i / 2, h);
      assert i == 2 * (i / 2) && Pow2(o) == 2 * Pow2(o - 1);
      assert Aligned(i, o + 1) == Aligned(i / 2, o);
      assert Xor(i, Pow2(o)) == 2 * h;
    }
  }

  lemma XorEven(a: nat, b: nat)
    ensures Xor(2 * a, 2 * b) == 2 * Xor(a, b)
  {
    if a > 0 && b > 0 {
      var x, y := 2 * a, 2 * b;
      assert x / 2 == a && y / 2 == b && (x + y) % 2 == 0;
    }
  }

  lemma AndEven(a: nat, b: nat)
    ensures And(2 * a, 2 * b) == 2 * And(a, b)
  {
    if a > 0 && b > 0 {
      assert (2 * a) / 2 == a && (2 * b) / 2 == b;
    }
  }

  lemma XorOne(i: nat)
    ensures var x := Xor(i, 1); if i % 2 == 0 then x == i + 1 && And(i, x) == i else x == i - 1 && And(i, x) == x
  {
    XorZero(i / 2);
    assert Xor(i / 2, 0) == i / 2;
    if i % 2 == 0 {
      assert (i + 1) / 2 == i / 2;
    } else {
      assert (i - 1) / 2 == i / 2;
    }
  }

  lemma {:induction false} XorZero(i: nat)
    ensures Xor(i, 0) == i && And(i, i) == i
  {
    if i > 0 {
      XorZero(i / 2);
    }
  }

  /** page_idx & ((1 << order) - 1) tests alignment. */
  lemma {:induction false} MaskIsAligned(i: nat, o: nat)
    ensures And(i, Pow2(o) - 1) == 0 <==> Aligned(i, o)
    decreases o
  {
    if o > 0 {
      MaskIsAligned(i / 2, o - 1);
      assert (Pow2(o) - 1) / 2 == Pow2(o - 1) - 1;
      assert (Pow2(o) - 1) % 2 == 1;
      AlignedZero(o);
    }
  }

  lemma {:induction false} AlignedZero(o: nat)
    ensures Aligned(0, o)
    decreases o
  {
    if o > 0 {
      AlignedZero(o - 1);
    }
  }

  /** index & order_size tests the next bit of an aligned index. */
  lemma {:induction false} BitIsUnaligned(i: nat, o: nat)
    requires Aligned(i, o)
    ensures And(i, Pow2(o)) != 0 <==> !Aligned(i, o + 1)
    decreases o
  {
    if o > 0 {
      BitIsUnaligned(i / 2, o - 1);
      AlignedZero(o + 1);
    }
  }

  // ---------- distance to the next boundary ----------

  /** How far it is from `i` to the next multiple of 2^o. */
  function Gap(i: nat, o: nat): nat {
    if o == 0 then 0
    else if Aligned(i + Gap(i, o - 1), o) then Gap(i, o - 1)
    else Gap(i, o - 1) + Pow2(o - 1)
  }

  lemma {:induction false} GapAligns(i: nat, o: nat)
    ensures Aligned(i + Gap(i, o), o) && Gap(i, o) < Pow2(o)
    decreases o
  {
    if o > 0 {
      GapAligns(i, o - 1);
      var j := i + Gap(i, o - 1);
      if !Aligned(j, o) {
        UpperHalf(j, o - 1);
        AlignedNext(j - Pow2(o - 1), o);
      }
    }
  }

  lemma {:induction false} GapGrows(i: nat, a: nat, b: nat)
    requires a <= b
    ensures Gap(i, a) <= Gap(i, b)
    decreases b
  {
    if a < b {
      GapGrows(i, a, b - 1);
    }
  }

  /** One step of the walk to the next boundary. */
  lemma GapNext(i: nat, o: nat)
    ensures Aligned(i + Gap(i, o), o)
    ensures Gap(i, o + 1) == if Aligned(i + Gap(i, o), o + 1) then Gap(i, o) else Gap(i, o) + Pow2(o)
    ensures Aligned(i + Gap(i, o + 1), o + 1)
  {
    GapAligns(i, o);
    GapAligns(i, o + 1);
  }

  lemma Powers(i: nat)
    ensures Pow2(0) == 1 && Gap(i, 0) == 0 && Aligned(i, 0)
  {
  }

  lemma Doubling(o: nat)
    ensures Pow2(o + 1) == 2 * Pow2(o)
  {
  }

  lemma OneLess(i: nat, o: nat, n: nat)
    requires Aligned(i, o) && 0 < n < Pow2(o)
    ensures o > 0 && Aligned(i, o - 1) && Pow2(o) == 2 * Pow2(o - 1)
  {
    AlignedLess(i, o - 1);
  }
}
