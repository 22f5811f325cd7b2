/**
 * Character classes, decimal numerals and line handling shared by the lexers, the code
 * writers and the assembler. Character tests are those of Python's `str` methods restricted
 * to ASCII: every character outside ASCII falls into the "other" class.
 */
module Text {

  /** `c.isalpha()` on ASCII. */
  predicate IsLetter(c: char) {
    'a' <= c <= 'z' || 'A' <= c <= 'Z'
  }

  /** `c.isdecimal()` on ASCII. */
  predicate IsDigit(c: char) {
    '0' <= c <= '9'
  }

  /** `c.isspace()` on ASCII: tab, line feed, vertical tab, form feed, carriage return,
      the four separators 0x1C-0x1F, and space. */
  predicate IsSpace(c: char) {
    var k := c as int;
    9 <= k <= 13 || 28 <= k <= 32
  }

  /** ASCII lower-casing, as `str.lower()` does on ASCII text. */
  function LowerChar(c: char): (r: char)
    ensures IsLetter(c) ==> IsLetter(r) && 'a' <= r <= 'z'
    ensures !('A' <= c <= 'Z') ==> r == c
  {
    if 'A' <= c <= 'Z' then (c as int + 32) as char else c
  }

  function Lower(s: string): (r: string)
    ensures |r| == |s|
    ensures forall i | 0 <= i < |s| :: r[i] == LowerChar(s[i])
  {
    if s == [] then [] else [LowerChar(s[0])] + Lower(s[1..])
  }

  /** A non-empty string of decimal digits: what the model accepts as Python's `int(s)`. */
  predicate IsNumeral(s: string) {
    |s| > 0 && forall i | 0 <= i < |s| :: IsDigit(s[i])
  }

  function DigitValue(c: char): (r: nat)
    requires IsDigit(c)
    ensures r < 10
  {
    c as int - '0' as int
  }

  function DigitChar(d: nat): (c: char)
    requires d < 10
    ensures IsDigit(c) && DigitValue(c) == d
  {
    ('0' as int + d) as char
  }

  /** The value of a decimal numeral (`int(s)`), most significant digit first. */
  function ParseDecimal(s: string): nat
    requires IsNumeral(s)
    decreases |s|
  {
    if |s| == 1 then DigitValue(s[0])
    else ParseDecimal(s[..|s| - 1]) * 10 + DigitValue(s[|s| - 1])
  }

  /** `str(n)` for a non-negative integer: no leading zeros. */
  function Decimal(n: nat): (r: string)
    ensures IsNumeral(r)
    decreases n
  {
    if n < 10 then [DigitChar(n)] else Decimal(n / 10) + [DigitChar(n % 10)]
  }

  /** `str(i)` for any integer. */
  function IntToString(i: int): string {
    if i < 0 then "-" + Decimal(-i) else Decimal(i)
  }

  /** Parsing the printed form of a number gives the number back. */
  lemma {:induction false} ParseDecimalOfDecimal(n: nat)
    ensures ParseDecimal(Decimal(n)) == n
    decreases n
  {
    if n >= 10 {
      ParseDecimalOfDecimal(n / 10);
      var r := Decimal(n);
      assert r[..|r| - 1] == Decimal(n / 10);
    }
  }

  /** Distinct numbers print differently. */
  lemma DecimalInjective(m: nat, n: nat)
    requires m != n
    ensures Decimal(m) != Decimal(n)
  {
    ParseDecimalOfDecimal(m);
    ParseDecimalOfDecimal(n);
  }

  /** Distinct numbers give distinct strings after a common prefix. */
  lemma PrefixedDecimalInjective(prefix: string, m: nat, n: nat)
    requires m != n
    ensures prefix + Decimal(m) != prefix + Decimal(n)
  {
    DecimalInjective(m, n);
    assert (prefix + Decimal(m))[|prefix|..] == Decimal(m);
    assert (prefix + Decimal(n))[|prefix|..] == Decimal(n);
  }

  /**
   * Where a file's line iterator resumes after it is told to drop the rest of the current
   * line at position `p`: just after the next line feed, or at the end of the text.
   */
  function NextLine(s: string, p: nat): (q: nat)
    requires p <= |s|
    ensures p <= q <= |s|
    ensures forall k | p <= k < q - 1 :: s[k] != '\n'
    ensures q == |s| || (q > p && s[q - 1] == '\n')
    decreases |s| - p
  {
    if p == |s| then p else if s[p] == '\n' then p + 1 else NextLine(s, p + 1)
  }

  /** The first index at or after `i` whose character fails `P` (or the end of `s`):
      where a maximal run of `P` characters starting at `i` ends. */
  function ScanWhile(s: string, i: nat, P: char -> bool): (e: nat)
    requires i <= |s|
    ensures i <= e <= |s|
    ensures forall k | i <= k < e :: P(s[k])
    ensures e == |s| || !P(s[e])
    decreases |s| - i
  {
    if i == |s| || !P(s[i]) then i else ScanWhile(s, i + 1, P)
  }

  /** A slice grows by the character at its end. */
  lemma SliceGrows(s: string, b: nat, e: nat)
    requires b <= e < |s|
    ensures s[b..e + 1] == s[b..e] + [s[e]]
  {
  }

  /** The maximal run of `P` characters starting at `i` is the only one. */
  lemma ScanWhileUnique(s: string, i: nat, e: nat, P: char -> bool)
    requires i <= e <= |s|
    requires forall k | i <= k < e :: P(s[k])
    requires e == |s| || !P(s[e])
    ensures ScanWhile(s, i, P) == e
    decreases e - i
  {
    if i < e {
      ScanWhileUnique(s, i + 1, e, P);
    }
  }

  lemma {:induction false} MulAtLeast(x: nat, d: nat)
    requires x >= 1
    ensures x * d >= d
    decreases x
  {
    if x > 1 {
      MulAtLeast(x - 1, d);
      assert x * d == (x - 1) * d + d;
    }
  }

  /** Division with remainder has one answer. */
  lemma ModUnique(n: int, d: int, q: int, r: int)
    requires d > 0 && n == q * d + r && 0 <= r < d
    ensures n % d == r
  {
    var q0, r0 := n / d, n % d;
    assert (q - q0) * d == r0 - r;
    if q > q0 {
      MulAtLeast(q - q0, d);
      assert false;
    } else if q < q0 {
      MulAtLeast(q0 - q, d);
      assert false;
    }
  }
}
