/** Decimal arithmetic without a division unit (ucore/kern/include/thumips.h), and what is printed and read with it. */
module Decimal {

  const WORD := 0x1_0000_0000

  /** What a word holds of a number. */
  function Wrap(n: int): (w: nat)
    ensures w < WORD
  {
    n % WORD
  }

  function MulU10(n: nat): nat {
    Wrap(Wrap(n * 8) + Wrap(n * 2))
  }

  /** The sum of shifted words that estimates the quotient; a shift to the right divides by a power of two. */
  function Estimate10(n: nat): nat {
    var q0 := Wrap(n / 2 + n / 4);
    var q1 := Wrap(q0 + q0 / 16);
    var q2 := Wrap(q1 + q1 / 256);
    var q3 := Wrap(q2 + q2 / 65536);
    q3 / 8
  }

  function DivU10(n: nat): nat {
    var q := Estimate10(n);
    var r := Wrap(n - MulU10(q));
    Wrap(q + Wrap(r + 6) / 16)
  }

  function Estimate5(n: nat): nat {
    var q0 := Wrap(n / 8 + n / 16);
    var q1 := Wrap(q0 + q0 / 16);
    var q2 := Wrap(q1 + q1 / 256);
    Wrap(q2 + q2 / 65536)
  }

  function DivU5(n: nat): nat {
    var q := Estimate5(n);
    var r := Wrap(n - Wrap(q * 5));
    Wrap(q + Wrap(13 * r) / 64)
  }

  lemma Small(n: int)
    requires 0 <= n < WORD
    ensures Wrap(n) == n
  {
  }

  /** A sum of a number and its quotient, within bounds. */
  lemma Partial(n: nat, d: nat, bound: nat)
    requires d in {16, 256, 65536} && n <= bound && bound + bound / 16 < WORD
    ensures var s := n + n / d;
      Wrap(s) == s && (d + 1) * n - (d - 1) <= d * s <= (d + 1) * n && s <= bound + bound / 16
  {
    if d == 16 {
      assert 16 * (n / 16) <= n < 16 * (n / 16) + 16;
    } else if d == 256 {
      assert 256 * (n / 256) <= n < 256 * (n / 256) + 256;
    } else {
      assert 65536 * (n / 65536) <= n < 65536 * (n / 65536) + 65536;
    }
    Small(n + n / d);
  }

  /** The remainder that the estimate leaves, as plain inequalities. */
  lemma Bounds10(n: int, q0: int, q1: int, q2: int, q3: int, q: int)
    requires 0 <= n < WORD && 3 * n - 5 <= 4 * q0 <= 3 * n
    requires 17 * q0 - 15 <= 16 * q1 <= 17 * q0 && 257 * q1 - 255 <= 256 * q2 <= 257 * q1
    requires 65537 * q2 - 65535 <= 65536 * q3 <= 65537 * q2 && q3 - 7 <= 8 * q <= q3
    ensures 0 <= n - 10 * q < 20
  {
  }

  lemma Bounds5(n: int, q0: int, q1: int, q2: int, q: int)
    requires 0 <= n < WORD && 3 * n - 29 <= 16 * q0 <= 3 * n
    requires 17 * q0 - 15 <= 16 * q1 <= 17 * q0 && 257 * q1 - 255 <= 256 * q2 <= 257 * q1
    requires 65537 * q2 - 65535 <= 65536 * q <= 65537 * q2
    ensures 0 <= n - 5 * q < 30
  {
  }

  lemma Quotient(n: nat, q: nat, r: nat, d: nat)
    requires n == q * d + r && r < d && (d == 5 || d == 10)
    ensures n / d == q
  {
  }

  lemma MulSmall(q: nat)
    requires 10 * q < WORD
    ensures MulU10(q) == 10 * q
  {
    Small(q * 8);
    Small(q * 2);
    Small(q * 8 + q * 2);
  }

  lemma FirstSum10(n: nat)
    requires n < WORD
    ensures var s := n / 2 + n / 4; Wrap(s) == s && 3 * n - 5 <= 4 * s <= 3 * n
  {
    assert 2 * (n / 2) <= n < 2 * (n / 2) + 2 && 4 * (n / 4) <= n < 4 * (n / 4) + 4;
    Small(n / 2 + n / 4);
  }

  lemma FirstSum5(n: nat)
    requires n < WORD
    ensures var s := n / 8 + n / 16; Wrap(s) == s && 3 * n - 29 <= 16 * s <= 3 * n
  {
    assert 8 * (n / 8) <= n < 8 * (n / 8) + 8 && 16 * (n / 16) <= n < 16 * (n / 16) + 16;
    Small(n / 8 + n / 16);
  }

  /** No sum overflows, and the estimate falls short of the quotient by one at most. */
  lemma EstimateIsClose10(n: nat)
    requires n < WORD
    ensures 0 <= n - 10 * Estimate10(n) < 20
  {
    hide Wrap;
    var q0 := n / 2 + n / 4;
    FirstSum10(n);
    var q1 := q0 + q0 / 16;
    Partial(q0, 16, 0xC000_0000);
    var q2 := q1 + q1 / 256;
    Partial(q1, 256, 0xCC00_0000);
    var q3 := q2 + q2 / 65536;
    Partial(q2, 65536, 0xD8C0_0000);
    Bounds10(n, q0, q1, q2, q3, q3 / 8);
  }

  /** For every word the result is the quotient. */
  lemma DivU10IsDivision(n: nat)
    requires n < WORD
    ensures DivU10(n) == n / 10
  {
    hide Wrap, MulU10, Estimate10;
    EstimateIsClose10(n);
    var q := Estimate10(n);
    var r := n - 10 * q;
    MulSmall(q);
    Small(r);
    Small(r + 6);
    LastStep10(n, q, r);
    Small(n / 10);
  }

  lemma LastStep10(n: nat, q: nat, r: nat)
    requires n == 10 * q + r && r < 20
    ensures q + (r + 6) / 16 == n / 10
  {
    Quotient(n, if r < 10 then q else q + 1, if r < 10 then r else r - 10, 10);
  }

  lemma EstimateIsClose5(n: nat)
    requires n < WORD
    ensures 0 <= n - 5 * Estimate5(n) < 30
  {
    hide Wrap;
    var q0 := n / 8 + n / 16;
    FirstSum5(n);
    var q1 := q0 + q0 / 16;
    Partial(q0, 16, 0x3000_0000);
    var q2 := q1 + q1 / 256;
    Partial(q1, 256, 0x3300_0000);
    var q := q2 + q2 / 65536;
    Partial(q2, 65536, 0x3630_0000);
    Bounds5(n, q0, q1, q2, q);
  }

  lemma DivU5IsDivision(n: nat)
    requires n < WORD
    ensures DivU5(n) == n / 5
  {
    hide Wrap, Estimate5;
    EstimateIsClose5(n);
    var q := Estimate5(n);
    var r := n - 5 * q;
    Small(q * 5);
    Small(r);
    Small(13 * r);
    LastStep5(n, q, r);
    Small(n / 5);
  }

  lemma LastStep5(n: nat, q: nat, r: nat)
    requires n == 5 * q + r && r < 30
    ensures q + 13 * r / 64 == n / 5
  {
    var k := if r < 5 then 0 else if r < 10 then 1 else if r < 15 then 2 else if r < 20 then 3 else if r < 25 then 4 else 5;
    assert 13 * r / 64 == k;
    Quotient(n, q + k, r - 5 * k, 5);
  }
}
