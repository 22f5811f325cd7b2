/**
 * The A-instruction encoder of the assembler (06/Code.py, `gen_a_command`): the binary
 * numeral of the address, cut to its last fifteen digits and left-filled with zeros to
 * sixteen.
 */
module HackCode {

  import opened Text

  predicate IsBit(c: char) { c == '0' || c == '1' }

  predicate IsBits(s: string) {
    forall i | 0 <= i < |s| :: IsBit(s[i])
  }

  function Pow2(k: nat): (p: nat)
    ensures p >= 1
  {
    if k == 0 then 1 else 2 * Pow2(k - 1)
  }

  /** The number a string of binary digits denotes, most significant digit first. */
  function BitsValue(s: string): nat
    requires IsBits(s)
  {
    if s == [] then 0
    else BitsValue(s[..|s| - 1]) * 2 + (if s[|s| - 1] == '1' then 1 else 0)
  }

  /** `bin(n)[2:]`: the binary numeral of `n` without the `0b` prefix or leading zeros. */
  function Bin(n: nat): (r: string)
    ensures |r| > 0 && IsBits(r)
    decreases n
  {
    if n < 2 then (if n == 0 then "0" else "1")
    else Bin(n / 2) + (if n % 2 == 0 then "0" else "1")
  }

  /** `s[-k:]`: the last `k` characters, or all of `s` when it is shorter. */
  function LastChars(s: string, k: nat): (r: string)
    ensures |r| == if |s| <= k then |s| else k
  {
    if |s| <= k then s else s[|s| - k..]
  }

  function Zeros(m: nat): (r: string)
    ensures |r| == m && forall i | 0 <= i < m :: r[i] == '0'
  {
    if m == 0 then "" else "0" + Zeros(m - 1)
  }

  /** `s.zfill(w)` for a string without a sign: zeros on the left up to width `w`. */
  function ZFill(s: string, w: nat): (r: string)
    ensures |r| == if |s| >= w then |s| else w
  {
    if |s| >= w then s else Zeros(w - |s|) + s
  }

  /** `gen_a_command` for a non-negative address. */
  function GenACommand(address: nat): string {
    ZFill(LastChars(Bin(address), 15), 16)
  }

  lemma {:induction false} BinValue(n: nat)
    ensures BitsValue(Bin(n)) == n
    decreases n
  {
    if n >= 2 {
      BinValue(n / 2);
      var r := Bin(n);
      assert r[..|r| - 1] == Bin(n / 2);
    }
  }

  lemma {:induction false} BitsBound(s: string)
    requires IsBits(s)
    ensures BitsValue(s) < Pow2(|s|)
    decreases |s|
  {
    if s != [] {
      BitsBound(s[..|s| - 1]);
    }
  }

  /** Splitting a numeral after its first `|s| - k` digits. */
  lemma {:induction false} SplitValue(s: string, k: nat)
    requires IsBits(s) && k <= |s|
    ensures BitsValue(s) == BitsValue(s[..|s| - k]) * Pow2(k) + BitsValue(s[|s| - k..])
    decreases k
  {
    if k == 0 {
      assert s[..|s|] == s;
      assert s[|s|..] == [];
    } else {
      var t := s[..|s| - 1];
      SplitValue(t, k - 1);
      assert t[..|t| - (k - 1)] == s[..|s| - k];
      var u := s[|s| - k..];
      assert u[..|u| - 1] == t[|t| - (k - 1)..];
      assert u[|u| - 1] == s[|s| - 1];
      DoubleShift(BitsValue(s[..|s| - k]), Pow2(k - 1), BitsValue(t[|t| - (k - 1)..]),
        if s[|s| - 1] == '1' then 1 else 0);
    }
  }

  /** Appending a digit to both parts of a split doubles the weight of the leading part. */
  lemma DoubleShift(a: int, p: int, v: int, b: int)
    ensures (a * p + v) * 2 + b == a * (2 * p) + (v * 2 + b)
  {
  }

  /** The last `k` digits denote the value modulo 2^k. */
  lemma LastCharsValue(s: string, k: nat)
    requires IsBits(s)
    ensures IsBits(LastChars(s, k)) && BitsValue(LastChars(s, k)) == BitsValue(s) % Pow2(k)
  {
    if |s| <= k {
      BitsBound(s);
      PowMonotone(|s|, k);
      ModUnique(BitsValue(s), Pow2(k), 0, BitsValue(s));
    } else {
      SplitValue(s, k);
      BitsBound(s[|s| - k..]);
      ModUnique(BitsValue(s), Pow2(k), BitsValue(s[..|s| - k]), BitsValue(s[|s| - k..]));
    }
  }

  lemma {:induction false} PowMonotone(j: nat, k: nat)
    requires j <= k
    ensures Pow2(j) <= Pow2(k)
    decreases k
  {
    if j < k {
      PowMonotone(j, k - 1);
    }
  }

  /** One leading zero does not change the value. */
  lemma {:induction false} ZeroValue(s: string)
    requires IsBits(s)
    ensures IsBits("0" + s) && BitsValue("0" + s) == BitsValue(s)
    decreases |s|
  {
    var z := "0" + s;
    if s == [] {
      assert z[..0] == "";
    } else {
      ZeroValue(s[..|s| - 1]);
      assert z[..|z| - 1] == "0" + s[..|s| - 1];
    }
  }

  /** Leading zeros do not change the value. */
  lemma {:induction false} ZerosValue(m: nat, s: string)
    requires IsBits(s)
    ensures IsBits(Zeros(m) + s) && BitsValue(Zeros(m) + s) == BitsValue(s)
    decreases m
  {
    if m > 0 {
      ZerosValue(m - 1, s);
      assert Zeros(m) + s == "0" + (Zeros(m - 1) + s);
      ZeroValue(Zeros(m - 1) + s);
    } else {
      assert Zeros(m) + s == s;
    }
  }

  /** The encoding is sixteen binary digits, of which the first is `0`, and denotes the
      address modulo 2^15. */
  lemma GenACommandValue(address: nat)
    ensures var r := GenACommand(address);
      |r| == 16 && IsBits(r) && r[0] == '0' && BitsValue(r) == address % 32768
  {
    var b := Bin(address);
    var l := LastChars(b, 15);
    LastCharsValue(b, 15);
    BinValue(address);
    assert Pow2(15) == 32768;
    ZerosValue(16 - |l|, l);
  }

  /** Decoding the encoding of a 15-bit address gives the address back. */
  lemma GenACommandRoundTrip(address: nat)
    requires address < 32768
    ensures BitsValue(GenACommand(address)) == address
  {
    GenACommandValue(address);
  }

  lemma GenACommandExamples()
    ensures GenACommand(0) == "0000000000000000"
    ensures GenACommand(5) == "0000000000000101"
  {
    assert Bin(5) == "101" by {
      assert Bin(2) == "10";
    }
    assert Zeros(13) == "0000000000000";
    assert Zeros(15) == "000000000000000";
  }
}
