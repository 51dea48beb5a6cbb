/** Numbers as text: printnum of the kernel, PrintInt and _ReadInteger of the Decaf runtime. */
module DecimalText {
  import opened Decimal

  const DIGITS := "0123456789abcdef"

  // ---------- numerals ----------

  function Numeral(n: nat, base: nat): (s: string)
    requires 2 <= base <= 16
    ensures s != []
    decreases n
  {
    (if n >= base then Numeral(n / base, base) else []) + [DIGITS[n % base]]
  }

  /** The digits that printnum prints: a base that is neither 10 nor 8 is taken for 16 where digits are split off. */
  function Printed(n: nat, base: nat): (s: string)
    requires base > 0
    ensures s != []
    decreases n
  {
    if base == 10 then (if n >= base then Printed(n / 10, base) else []) + [DIGITS[n % 10]]
    else if base == 8 then (if n >= base then Printed(n / 8, base) else []) + [DIGITS[n % 8]]
    else (if n >= base then Printed(n / 16, base) else []) + [DIGITS[n % 16]]
  }

  lemma {:induction false} PrintedNumeral(n: nat, base: nat)
    requires base in {8, 10, 16}
    ensures Printed(n, base) == Numeral(n, base)
    decreases n
  {
    if n >= base {
      PrintedNumeral(n / base, base);
    }
  }

  function Divisor(base: nat): nat {
    if base in {8, 10} then base else 16
  }

  lemma PrintedStep(n: nat, base: nat)
    requires base > 0
    ensures var b := Divisor(base);
      Printed(n, base) == (if n >= base then Printed(n / b, base) else []) + [DIGITS[n % b]]
  {
  }

  lemma SelfQuotient(b: nat)
    requires b > 0
    ensures b / b == 1 && b % b == 0
  {
  }

  lemma OwnNumeral(base: nat)
    requires 2 <= base <= 16
    ensures Numeral(base, base) == "10"
  {
    SelfQuotient(base);
    assert Numeral(1, base) == [] + [DIGITS[1]];
  }

  lemma OwnDigits(base: nat)
    requires 2 <= base < 16 && base != 8 && base != 10
    ensures Printed(base, base) == ['0', DIGITS[base]]
  {
    hide Printed;
    PrintedStep(base, base);
    PrintedStep(0, base);
    assert base / 16 == 0 && base % 16 == base;
  }

  /** These are the bases for which printnum prints numerals; every other prints the base itself as one digit after 0. */
  lemma PrintsNumeralsExactlyFor(base: nat)
    requires 2 <= base <= 16
    ensures (forall n: nat :: Printed(n, base) == Numeral(n, base)) <==> base in {8, 10, 16}
  {
    hide Printed, Numeral;
    if base in {8, 10, 16} {
      forall n: nat ensures Printed(n, base) == Numeral(n, base) {
        PrintedNumeral(n, base);
      }
    } else {
      OwnNumeral(base);
      OwnDigits(base);
      assert Printed(base, base)[0] != Numeral(base, base)[0];
    }
  }

  function Pads(c: char, k: int): string {
    if k <= 0 then [] else [c] + Pads(c, k - 1)
  }

  lemma {:induction false} PadsLast(c: char, k: nat)
    ensures Pads(c, k + 1) == Pads(c, k) + [c]
    decreases k
  {
    if k > 0 {
      PadsLast(c, k - 1);
    } else {
      assert Pads(c, 0) == [];
    }
  }

  /** The last digit, split off without a division instruction. */
  method LastDigit(num: nat, base: nat) returns (result: nat, mod: nat)
    requires num < WORD && base > 0
    ensures result == num / Divisor(base) && mod == num % Divisor(base)
  {
    if base == 10 {
      DivU10IsDivision(num);
      MulSmall(num / 10);
      Small(num % 10);
      result := DivU10(num);
      mod := Wrap(num - MulU10(result));
    } else if base == 8 {
      mod := num % 8;
      result := num / 8;
    } else {
      mod := num % 16;
      result := num / 16;
    }
  }

  /** The pad characters before the first digit. */
  method Pad(out: string, width: int, padc: char) returns (r: string)
    ensures r == out + Pads(padc, width - 1)
  {
    r := out;
    var w := width - 1;
    while w > 0
      invariant if width < 1 then w == width - 1 && r == out else 0 <= w <= width - 1 && r == out + Pads(padc, width - 1 - w)
    {
      PadsLast(padc, width - 1 - w);
      r := r + [padc];
      w := w - 1;
    }
  }

  /** printnum: the digits, padded on the left to the width; `out` is what has been put out before. */
  method PrintNum(out: string, num: nat, base: nat, width: int, padc: char) returns (r: string)
    requires num < WORD && base > 0
    ensures r == out + Pads(padc, width - |Printed(num, base)|) + Printed(num, base)
    decreases num
  {
    hide Printed, Wrap;
    PrintedStep(num, base);
    var result, mod := LastDigit(num, base);
    if num >= base {
      r := PrintNum(out, result, base, width - 1, padc);
    } else {
      r := Pad(out, width, padc);
    }
    r := r + [DIGITS[mod]];
  }

  // ---------- numbers that are printed and read ----------

  /** A word as a signed number. */
  function Signed(w: nat): int
    requires w < WORD
  {
    if w < WORD / 2 then w else w - WORD
  }

  /** What PrintInt puts out. */
  function IntText(v: int): string {
    if v < 0 then "-" + Numeral(-v, 10) else Numeral(v, 10)
  }

  /** What the digits add up to if every character counts as its distance from '0'. */
  function Fold(s: string): int {
    if s == [] then 0 else 10 * Fold(s[..|s| - 1]) + (s[|s| - 1] as int - '0' as int)
  }

  /** The number that _ReadInteger makes of a line. */
  function ReadBack(s: string): int {
    Signed(Wrap(Fold(s)))
  }

  function Pow10(k: nat): nat {
    if k == 0 then 1 else 10 * Pow10(k - 1)
  }

  lemma WrapStep(x: int, d: int)
    ensures Wrap(Wrap(x) * 8 + Wrap(x) * 2 + d) == Wrap(10 * x + d)
  {
    var k := x / WORD;
    assert x == WORD * k + Wrap(x);
    SameWrap(10 * Wrap(x) + d, 10 * k);
  }

  lemma SameWrap(x: int, k: int)
    ensures Wrap(x + WORD * k) == Wrap(x)
  {
  }

  /** _ReadInteger */
  method ReadInteger(str: string) returns (rst: int)
    ensures rst == ReadBack(str)
  {
    var word: nat := 0;
    var i := 0;
    while i < |str|
      invariant 0 <= i <= |str| && word == Wrap(Fold(str[..i]))
    {
      WrapStep(Fold(str[..i]), str[i] as int - '0' as int);
      assert str[..i + 1][..i] == str[..i];
      word := Wrap(word * 8 + word * 2 + (str[i] as int - '0' as int));
      i := i + 1;
    }
    assert str[..i] == str;
    rst := Signed(word);
  }

  lemma {:induction false} NumeralLength(n: nat, k: nat)
    requires n < Pow10(k) && k > 0
    ensures |Numeral(n, 10)| <= k
    ensures n >= Pow10(|Numeral(n, 10)| - 1) || n == 0
    ensures n < Pow10(|Numeral(n, 10)|)
    decreases k
  {
    hide Numeral;
    NumeralTen(n);
    if n >= 10 {
      NumeralLength(n / 10, k - 1);
    }
  }

  /** The digits of `all` are those of `m` and then `text`. */
  ghost predicate Split(all: nat, m: nat, text: string) {
    Numeral(all, 10) == (if m == 0 then [] else Numeral(m, 10)) + text
  }

  lemma NumeralTen(n: nat)
    ensures Numeral(n, 10) == (if n >= 10 then Numeral(n / 10, 10) else []) + ['0' + (n % 10) as char]
  {
    assert DIGITS[n % 10] == '0' + (n % 10) as char;
  }

  lemma SplitStep(all: nat, m: nat, text: string)
    requires Split(all, m, text) && m > 0
    ensures Split(all, m / 10, ['0' + (m % 10) as char] + text)
  {
    hide Numeral;
    NumeralTen(m);
    var d := '0' + (m % 10) as char;
    var front: string := if m / 10 == 0 then [] else Numeral(m / 10, 10);
    assert Numeral(m, 10) == front + [d];
    assert front + [d] + text == front + ([d] + text);
  }

  lemma PowStep(m: nat, k: nat)
    requires 0 < m < Pow10(k)
    ensures k > 0 && m / 10 < Pow10(k - 1)
  {
  }

  /** PrintInt: digits from the last to the first, in a buffer that is filled from its end. */
  method PrintInt(val: int) returns (out: string)
    requires -WORD / 2 <= val < WORD / 2
    ensures out == IntText(val)
  {
    hide Numeral, Pow10, Wrap;
    if val == 0 {
      out := ZeroText();
      return;
    }
    var m: nat := if val < 0 then -val else val;
    var buf := new char[20];
    var ptr := 19;
    ghost var all := m;
    PowersOfTen();
    assert Split(all, m, buf[ptr..19]) by { assert buf[ptr..19] == []; }
    hide Split;
    while m != 0
      invariant 9 <= ptr <= 19 && m < WORD && m < Pow10(ptr - 9) && Split(all, m, buf[ptr..19])
      decreases m
    {
      SplitStep(all, m, buf[ptr..19]);
      PowStep(m, ptr - 9);
      var div, mod := LastDigit(m, 10);
      ptr := ptr - 1;
      buf[ptr] := '0' + mod as char;
      assert buf[ptr..19] == [buf[ptr]] + buf[ptr + 1..19];
      m := div;
    }
    SplitAll(all, buf[ptr..19]);
    out := (if val < 0 then "-" else []) + buf[ptr..19];
  }

  lemma SplitAll(all: nat, text: string)
    requires Split(all, 0, text)
    ensures text == Numeral(all, 10)
  {
  }

  method ZeroText() returns (out: string)
    ensures out == IntText(0)
  {
    out := "0";
  }

  lemma PowersOfTen()
    ensures Pow10(1) == 10 && Pow10(2) == 100 && Pow10(3) == 1000 && Pow10(4) == 1_0000
    ensures Pow10(5) == 10_0000 && Pow10(6) == 100_0000 && Pow10(7) == 1000_0000 && Pow10(8) == 1_0000_0000
    ensures Pow10(9) == 10_0000_0000 && Pow10(10) == 100_0000_0000
  {
    assert Pow10(3) == 10 * Pow10(2);
    assert Pow10(6) == 10 * Pow10(5);
    assert Pow10(9) == 10 * Pow10(8);
  }

  // ---------- what is printed is read back ----------

  lemma {:induction false} FoldNumeral(n: nat)
    ensures Fold(Numeral(n, 10)) == n
    decreases n
  {
    hide Numeral;
    NumeralTen(n);
    var s := Numeral(n, 10);
    assert ('0' + (n % 10) as char) as int - '0' as int == n % 10;
    if n >= 10 {
      FoldNumeral(n / 10);
      assert s[..|s| - 1] == Numeral(n / 10, 10);
    } else {
      assert s[..|s| - 1] == [];
    }
  }

  /** The minus sign counts as -3 in front of the digits. */
  lemma {:induction false} FoldMinus(s: string)
    ensures Fold("-" + s) == -3 * Pow10(|s|) + Fold(s)
    decreases s
  {
    if s == [] {
      assert "-" + s == "-";
    } else {
      var t := s[..|s| - 1];
      assert ("-" + s)[..|s|] == "-" + t;
      FoldMinus(t);
    }
  }

  /** -2115098112 alone comes back by way of the overflow. */
  const LUCKY := -2115098112

  lemma NegativeText(v: int) returns (k: nat)
    requires -WORD / 2 <= v < 0
    ensures 1 <= k <= 10 && Pow10(k - 1) <= -v < Pow10(k)
    ensures ReadBack(IntText(v)) == Signed(Wrap(-v - 3 * Pow10(k)))
  {
    hide Numeral, Fold, Pow10, Wrap;
    PowersOfTen();
    var s := Numeral(-v, 10);
    NumeralLength(-v, 10);
    FoldNumeral(-v);
    FoldMinus(s);
    k := |s|;
  }

  /** With at most nine digits the sum is between -2^32 and 0. */
  lemma ShortNegatives(m: nat, p: nat)
    requires 0 < m < p <= 10_0000_0000
    ensures Signed(Wrap(m - 3 * p)) + m != 0
  {
    var x := m - 3 * p;
    assert Wrap(x) == x + WORD by { SameWrap(x, 1); Small(x + WORD); }
  }

  lemma LongNegatives(m: nat)
    requires 10_0000_0000 <= m <= WORD / 2
    ensures Signed(Wrap(m - 3 * 100_0000_0000)) + m == 0 <==> m == -LUCKY
  {
    var x := m - 3 * 100_0000_0000;
    assert Wrap(x) == x + 7 * WORD by { SameWrap(x, 7); Small(x + 7 * WORD); }
  }

  /** Exactly the numbers that are not negative, and one that is, are read back as they were printed. */
  lemma RoundTrip(v: int)
    requires -WORD / 2 <= v < WORD / 2
    ensures ReadBack(IntText(v)) == v <==> v >= 0 || v == LUCKY
  {
    if v >= 0 {
      FoldNumeral(v);
      Small(v);
    } else {
      NegativeTrip(v);
    }
  }

  lemma NegativeTrip(v: int)
    requires -WORD / 2 <= v < 0
    ensures ReadBack(IntText(v)) == v <==> v == LUCKY
  {
    hide Numeral, Fold, Pow10, Wrap, ReadBack, IntText;
    var k := NegativeText(v);
    PowersOfTen();
    if k < 10 {
      PowersUpTo(k, 9);
      ShortNegatives(-v, Pow10(k));
    } else {
      LongNegatives(-v);
    }
  }

  lemma {:induction false} PowersUpTo(a: nat, b: nat)
    requires a <= b
    ensures Pow10(a) <= Pow10(b)
    decreases b
  {
    if a < b {
      PowersUpTo(a, b - 1);
    }
  }
}
