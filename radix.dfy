/** Numerals as JavaScript writes them: `String(n)` and `n.toString(16)` for
    non-negative integers, lower-case digits, no leading zeros. */
module Radix {
  import opened Text

  /** The digit character for `d`: '0'..'9', then 'a'..'f'. */
  function DigitChar(d: nat): (c: char)
    requires d < 16
    ensures ('0' <= c <= '9') || ('a' <= c <= 'f')
    ensures c == '0' <==> d == 0
  {
    if d < 10 then ('0' as int + d) as char else ('a' as int + d - 10) as char
  }

  /** The value of a digit character; 16 for a character that is no digit. */
  function DigitValue(c: char): nat
  {
    if '0' <= c <= '9' then c as int - '0' as int
    else if 'a' <= c <= 'f' then c as int - 'a' as int + 10
    else 16
  }

  lemma DigitRoundTrip(d: nat)
    requires d < 16
    ensures DigitValue(DigitChar(d)) == d
  {
  }

  lemma DivMod(n: nat, base: nat)
    requires base >= 2
    ensures (n / base) * base + n % base == n && n % base < base
    ensures n >= base ==> 1 <= n / base < n
  {
  }

  /** Every character of `s` is a (lower-case) digit of `base`. */
  predicate IsDigits(s: string, base: nat)
  {
    forall i :: 0 <= i < |s| ==> DigitValue(s[i]) < base
  }

  /** The number a digit string denotes in `base`, most significant digit first. */
  function Value(s: string, base: nat): nat
  {
    if s == [] then 0 else Value(s[..|s| - 1], base) * base + DigitValue(s[|s| - 1])
  }

  function Pow(base: nat, k: nat): nat
  {
    if k == 0 then 1 else base * Pow(base, k - 1)
  }

  /** `n.toString(base)`: the shortest digit string of `n`, which reads back as `n`. */
  function ToRadix(n: nat, base: nat): (s: string)
    requires 2 <= base <= 16
    ensures |s| >= 1 && IsDigits(s, base)
    ensures Value(s, base) == n
    ensures |s| > 1 ==> s[0] != '0'
    decreases n
  {
    if n < base then [DigitChar(n)]
    else
      DivMod(n, base);
      var hi := ToRadix(n / base, base);
      var d := n % base;
      var s := hi + [DigitChar(d)];
      assert s[..|s| - 1] == hi;
      DigitRoundTrip(d);
      assert Value(s, base) == Value(hi, base) * base + d;
      assert s[0] == hi[0];
      s
  }

  /** `String(n)` and `n.toString()`. */
  function Decimal(n: nat): (s: string)
    ensures |s| >= 1 && IsDigits(s, 10) && Value(s, 10) == n
  {
    ToRadix(n, 10)
  }

  /** `n.toString(16)`. */
  function Hex(n: nat): (s: string)
    ensures |s| >= 1 && IsDigits(s, 16) && Value(s, 16) == n
  {
    ToRadix(n, 16)
  }

  /** Different numbers have different numerals, so a numeral identifies its number. */
  lemma DecimalInjective(m: nat, n: nat)
    ensures Decimal(m) == Decimal(n) <==> m == n
  {
  }

  lemma DivBelow(n: nat, base: nat, p: nat)
    requires base >= 2 && n < base * p
    ensures n / base < p
  {
  }

  /** A number below `base^k` needs at most `k` digits. */
  lemma {:induction false} RadixLength(n: nat, base: nat, k: nat)
    requires 2 <= base <= 16 && k >= 1 && n < Pow(base, k)
    ensures |ToRadix(n, base)| <= k
    decreases k
  {
    if n >= base {
      assert k > 1;
      DivBelow(n, base, Pow(base, k - 1));
      RadixLength(n / base, base, k - 1);
    }
  }

  /** Leading zeros do not change the value of a digit string. */
  lemma {:induction false} LeadingZeros(z: nat, t: string, base: nat)
    ensures Value(Repeat('0', z) + t, base) == Value(t, base)
    decreases |t|
  {
    var s := Repeat('0', z) + t;
    if t == [] {
      assert s == Repeat('0', z);
      ZerosValue(z, base);
    } else {
      var t' := t[..|t| - 1];
      assert s[..|s| - 1] == Repeat('0', z) + t';
      LeadingZeros(z, t', base);
    }
  }

  lemma {:induction false} ZerosValue(z: nat, base: nat)
    ensures Value(Repeat('0', z), base) == 0
  {
    if z > 0 {
      assert Repeat('0', z)[..z - 1] == Repeat('0', z - 1);
      ZerosValue(z - 1, base);
    }
  }

  /** `n.toString(base).padStart(k, '0')` for `n < base^k` is exactly `k` digits and
      reads back as `n`. */
  lemma PaddedRadix(n: nat, base: nat, k: nat)
    requires 2 <= base <= 16 && k >= 1 && n < Pow(base, k)
    ensures |PadStart(ToRadix(n, base), k, '0')| == k
    ensures IsDigits(PadStart(ToRadix(n, base), k, '0'), base)
    ensures Value(PadStart(ToRadix(n, base), k, '0'), base) == n
  {
    var t := ToRadix(n, base);
    RadixLength(n, base, k);
    if |t| < k {
      assert PadStart(t, k, '0') == Repeat('0', k - |t|) + t;
      LeadingZeros(k - |t|, t, base);
    }
  }
}
