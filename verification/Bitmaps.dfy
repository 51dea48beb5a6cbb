/** The map of free blocks, packed into words, as in ucore/kern/fs/sfs/bitmap.c. */
module Bitmaps {
  import opened Binary

  const WORD_BITS: nat := 32
  const ALL_BITS: nat := 0xFFFF_FFFF

  /** Bit `k` of a word. */
  predicate Has(w: nat, k: nat) {
    if k == 0 then w % 2 == 1 else Has(w / 2, k - 1)
  }

  /** Inclusive or, bit by bit. */
  function Or(a: nat, b: nat): nat
    decreases a + b
  {
    if a == 0 then b else if b == 0 then a
    else (if a % 2 == 1 || b % 2 == 1 then 1 else 0) + 2 * Or(a / 2, b / 2)
  }

  // ---------- single bits ----------

  lemma {:induction false} NoBits(k: nat)
    ensures !Has(0, k)
  {
    if k > 0 {
      NoBits(k - 1);
    }
  }

  lemma {:induction false} MaskHas(k: nat, j: nat)
    ensures Has(Pow2(k), j) <==> j == k
  {
    if k == 0 {
      if j > 0 {
        NoBits(j - 1);
      }
    } else {
      assert Pow2(k) % 2 == 0 && Pow2(k) / 2 == Pow2(k - 1);
      if j > 0 {
        MaskHas(k - 1, j - 1);
      }
    }
  }

  /** `w & (1 << k)` tells bit `k`. */
  lemma {:induction false} MaskTests(w: nat, k: nat)
    ensures And(w, Pow2(k)) != 0 <==> Has(w, k)
  {
    if w == 0 {
      NoBits(k);
    } else if k == 0 {
      AndZero(w / 2);
    } else {
      assert Pow2(k) % 2 == 0 && Pow2(k) / 2 == Pow2(k - 1);
      MaskTests(w / 2, k - 1);
    }
  }

  lemma AndZero(a: nat)
    ensures And(a, 0) == 0
  {
  }

  lemma {:induction false} XorHas(a: nat, b: nat, j: nat)
    ensures Has(Xor(a, b), j) <==> Has(a, j) != Has(b, j)
    decreases j
  {
    NoBits(j);
    if a != 0 && b != 0 {
      var x := Xor(a / 2, b / 2);
      assert Xor(a, b) == (a + b) % 2 + 2 * x;
      assert Xor(a, b) / 2 == x && Xor(a, b) % 2 == (a + b) % 2;
      if j > 0 {
        XorHas(a / 2, b / 2, j - 1);
      }
    }
  }

  lemma {:induction false} OrHas(a: nat, b: nat, j: nat)
    ensures Has(Or(a, b), j) <==> Has(a, j) || Has(b, j)
    decreases j
  {
    NoBits(j);
    if a != 0 && b != 0 {
      var x := Or(a / 2, b / 2);
      var d := if a % 2 == 1 || b % 2 == 1 then 1 else 0;
      assert Or(a, b) == d + 2 * x;
      assert Or(a, b) / 2 == x && Or(a, b) % 2 == d;
      if j > 0 {
        OrHas(a / 2, b / 2, j - 1);
      }
    }
  }

  /** A number that fits `n` bits has no bit from `n` on, and any other has one. */
  lemma {:induction false} NoHighBit(w: nat, n: nat, k: nat)
    requires w < Pow2(n) && n <= k
    ensures !Has(w, k)
  {
    if n > 0 {
      NoHighBit(w / 2, n - 1, k - 1);
    } else {
      NoBits(k);
    }
  }

  lemma {:induction false} HighBit(w: nat, n: nat) returns (k: nat)
    requires w >= Pow2(n)
    ensures n <= k && Has(w, k)
    decreases w
  {
    if n == 0 && w % 2 == 1 {
      k := 0;
    } else {
      k := HighBit(w / 2, if n == 0 then 0 else n - 1);
      k := k + 1;
    }
  }

  /** Words of `n` bits stay words of `n` bits. */
  lemma WordsStay(a: nat, b: nat, n: nat)
    requires a < Pow2(n) && b < Pow2(n)
    ensures Xor(a, b) < Pow2(n) && Or(a, b) < Pow2(n)
  {
    if Xor(a, b) >= Pow2(n) {
      var k := HighBit(Xor(a, b), n);
      XorHas(a, b, k);
      NoHighBit(a, n, k);
      NoHighBit(b, n, k);
    }
    if Or(a, b) >= Pow2(n) {
      var k := HighBit(Or(a, b), n);
      OrHas(a, b, k);
      NoHighBit(a, n, k);
      NoHighBit(b, n, k);
    }
  }

  lemma WordSize()
    ensures Pow2(WORD_BITS) == ALL_BITS + 1
  {
    assert Pow2(8) == 256;
    assert Pow2(16) == 65536 by { assert Pow2(12) == 4096; }
    assert Pow2(24) == 65536 * 256 by { assert Pow2(20) == 65536 * 16; }
    assert Pow2(28) == 65536 * 4096;
  }

  /** What `^= 1 << k` and `|= 1 << k` do to the bits of a word. */
  lemma OneBit(w: nat, k: nat)
    requires w <= ALL_BITS && k < WORD_BITS
    ensures Xor(w, Pow2(k)) <= ALL_BITS && Or(w, Pow2(k)) <= ALL_BITS
    ensures forall j: nat :: Has(Xor(w, Pow2(k)), j) <==> if j == k then !Has(w, j) else Has(w, j)
    ensures forall j: nat :: Has(Or(w, Pow2(k)), j) <==> j == k || Has(w, j)
  {
    WordSize();
    PowersGrow(k + 1, WORD_BITS);
    WordsStay(w, Pow2(k), WORD_BITS);
    forall j: nat
      ensures Has(Xor(w, Pow2(k)), j) <==> if j == k then !Has(w, j) else Has(w, j)
      ensures Has(Or(w, Pow2(k)), j) <==> j == k || Has(w, j)
    {
      MaskHas(k, j);
      XorHas(w, Pow2(k), j);
      OrHas(w, Pow2(k), j);
    }
  }

  lemma {:induction false} AllOnes(n: nat, k: nat)
    ensures Has(Pow2(n) - 1, k) <==> k < n
  {
    if n == 0 {
      NoBits(k);
    } else {
      assert (Pow2(n) - 1) / 2 == Pow2(n - 1) - 1 && (Pow2(n) - 1) % 2 == 1;
      if k > 0 {
        AllOnes(n - 1, k - 1);
      }
    }
  }

  lemma SomeBit(w: nat) returns (k: nat)
    requires 0 < w <= ALL_BITS
    ensures k < WORD_BITS && Has(w, k)
  {
    WordSize();
    k := HighBit(w, 0);
    if k >= WORD_BITS {
      NoHighBit(w, WORD_BITS, k);
    }
  }

  // ---------- maps of words ----------

  predicate HasBit(m: seq<nat>, i: nat) {
    i / WORD_BITS < |m| && Has(m[i / WORD_BITS], i % WORD_BITS)
  }

  /** The indices whose bit is set: the free ones. */
  ghost function FreeBits(m: seq<nat>, n: nat): set<nat> {
    set i: nat | i < n && HasBit(m, i)
  }

  predicate IsMap(m: seq<nat>, n: nat) {
    && |m| == (n + WORD_BITS - 1) / WORD_BITS
    && (forall x :: 0 <= x < |m| ==> m[x] <= ALL_BITS)
  }

  ghost predicate Capped(m: seq<nat>, n: nat) {
    forall i: nat :: HasBit(m, i) ==> i < n
  }

  lemma Index(x: nat, k: nat)
    requires k < WORD_BITS
    ensures (x * WORD_BITS + k) / WORD_BITS == x && (x * WORD_BITS + k) % WORD_BITS == k
  {
  }

  /** One word with one bit changed is a map with one index changed. */
  lemma FlipInMap(m: seq<nat>, n: nat, i: nat)
    requires IsMap(m, n) && Capped(m, n) && i < n
    ensures var (x, k) := (i / WORD_BITS, i % WORD_BITS);
      && var taken, given := m[x := Xor(m[x], Pow2(k))], m[x := Or(m[x], Pow2(k))];
      && IsMap(taken, n) && IsMap(given, n) && Capped(given, n)
      && FreeBits(given, n) == FreeBits(m, n) + {i}
      && (HasBit(m, i) ==> Capped(taken, n) && FreeBits(taken, n) == FreeBits(m, n) - {i})
  {
    var x, k := i / WORD_BITS, i % WORD_BITS;
    OneBit(m[x], k);
    var taken, given := m[x := Xor(m[x], Pow2(k))], m[x := Or(m[x], Pow2(k))];
    forall j: nat
      ensures HasBit(given, j) <==> j == i || HasBit(m, j)
      ensures HasBit(taken, j) <==> if j == i then !HasBit(m, j) else HasBit(m, j)
    {
      assert j / WORD_BITS == x && j % WORD_BITS == k ==> j == i;
    }
  }

  class Bitmap {
    const nbits: nat
    const words: array<nat>

    ghost predicate Valid()
      reads words
    {
      IsMap(words[..], nbits) && Capped(words[..], nbits)
    }

    ghost function Free(): set<nat>
      reads words
    {
      FreeBits(words[..], nbits)
    }

    /** Everything is free. */
    constructor (n: nat)
      requires n > 0
      ensures Valid() && fresh(words) && nbits == n && forall i: nat :: i in Free() <==> i < n
    {
      var nwords := (n + WORD_BITS - 1) / WORD_BITS;
      nbits := n;
      words := new nat[nwords](_ => ALL_BITS);
      new;
      assert words[..] == seq(nwords, _ => ALL_BITS);
      forall k: nat ensures Has(ALL_BITS, k) <==> k < WORD_BITS {
        WordSize();
        AllOnes(WORD_BITS, k);
      }
      if n != nwords * WORD_BITS {
        var ix := nwords - 1;
        var overbits: nat := n - ix * WORD_BITS;
        while overbits < WORD_BITS
          invariant n - ix * WORD_BITS <= overbits <= WORD_BITS && words[ix] <= ALL_BITS
          invariant forall x :: 0 <= x < ix ==> words[x] == ALL_BITS
          invariant forall k: nat :: Has(words[ix], k) <==> k < n - ix * WORD_BITS || overbits <= k < WORD_BITS
        {
          OneBit(words[ix], overbits);
          words[ix] := Xor(words[ix], Pow2(overbits));
          overbits := overbits + 1;
        }
      }
      assert forall i: nat :: HasBit(words[..], i) <==> i < n;
    }

    /** `word & mask` for the word and the mask of an index. */
    method Test(index: nat) returns (free: bool)
      requires Valid() && index < nbits
      ensures free <==> index in Free()
    {
      var word := words[index / WORD_BITS];
      MaskTests(word, index % WORD_BITS);
      return And(word, Pow2(index % WORD_BITS)) != 0;
    }

    /** An index in use is free again. */
    method Release(index: nat)
      requires Valid() && index < nbits && index !in Free()
      modifies words
      ensures Valid() && Free() == old(Free()) + {index}
    {
      var ix := index / WORD_BITS;
      FlipInMap(words[..], nbits, index);
      words[ix] := Or(words[ix], Pow2(index % WORD_BITS));
    }

    /** The least free index is in use from now on. */
    method Alloc() returns (ok: bool, index: nat)
      requires Valid()
      modifies words
      ensures Valid() && ok == (old(Free()) != {})
      ensures ok ==> index in old(Free()) && Free() == old(Free()) - {index}
      ensures ok ==> forall i :: i in old(Free()) ==> index <= i
      ensures !ok ==> Free() == old(Free())
    {
      var ix: nat := 0;
      while ix < words.Length
        invariant ix <= words.Length && words[..] == old(words[..])
        invariant forall i: nat :: i < ix * WORD_BITS ==> !HasBit(words[..], i)
      {
        if words[ix] != 0 {
          ghost var some := SomeBit(words[ix]);
          var offset: nat := 0;
          while offset < WORD_BITS
            invariant offset <= some && words[..] == old(words[..])
            invariant forall k: nat :: k < offset ==> !Has(words[ix], k)
          {
            MaskTests(words[ix], offset);
            if And(words[ix], Pow2(offset)) != 0 {
              index := ix * WORD_BITS + offset;
              Index(ix, offset);
              assert HasBit(words[..], index);
              FlipInMap(words[..], nbits, index);
              words[ix] := Xor(words[ix], Pow2(offset));
              return true, index;
            }
            offset := offset + 1;
          }
          assert false;
        }
        forall k: nat ensures !Has(0, k) {
          NoBits(k);
        }
        ix := ix + 1;
      }
      return false, 0;
    }
  }
}
