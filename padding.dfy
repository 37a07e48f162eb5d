/** The file-name helper `zeroPadding(num, length)`:
    `('0000000000' + num).slice(-length)`, for an integer `num`. */
module Padding {

  /** The ten zeros put in front of the number's decimal text. */
  const ZEROS: string := "0000000000"

  predicate IsDigit(c: char) { '0' <= c <= '9' }

  predicate AllDigits(s: string) { forall i :: 0 <= i < |s| ==> IsDigit(s[i]) }

  function DigitChar(d: nat): (c: char)
    requires d < 10
    ensures IsDigit(c)
  {
    ('0' as int + d) as char
  }

  function DigitValue(c: char): (d: nat)
    requires IsDigit(c)
    ensures d < 10 && DigitChar(d) == c
  {
    c as int - '0' as int
  }

  function Min(a: int, b: int): int { if a <= b then a else b }

  function Max(a: int, b: int): int { if a <= b then b else a }

  function Pow10(k: nat): (p: nat)
    ensures 1 <= p
  {
    if k == 0 then 1 else 10 * Pow10(k - 1)
  }

  /** The decimal digits of a non-negative integer: most significant digit
      first, no leading zero except for 0 itself. This is the text
      JavaScript gives a number only for safe integers (below 2^53). */
  function NatText(n: nat): (s: string)
    ensures 1 <= |s| && AllDigits(s)
    ensures s[0] == '0' ==> n == 0
  {
    if n < 10 then [DigitChar(n)] else NatText(n / 10) + [DigitChar(n % 10)]
  }

  /** The decimal text of any integer: a minus sign before a negative one. */
  function DecimalText(n: int): (s: string)
    ensures 1 <= |s|
    ensures (s[0] == '-') == (n < 0)
    ensures 0 <= n ==> s == NatText(n)
  {
    if n < 0 then "-" + NatText(-n) else NatText(n)
  }

  /** The number a string of decimal digits denotes (leading zeros allowed). */
  function DigitsValue(s: string): nat
    requires AllDigits(s)
  {
    if s == [] then 0 else DigitsValue(s[..|s| - 1]) * 10 + DigitValue(s[|s| - 1])
  }

  /** `String.prototype.slice(start)` with a single argument: a negative
      start counts from the end (clamped at the front), a non-negative one
      from the front (clamped at the end). */
  function SliceFrom(s: string, start: int): (r: string)
    ensures |r| <= |s| && r == s[|s| - |r|..]
    ensures start < 0 ==> |r| == Min(-start, |s|)
    ensures 0 <= start ==> |r| == Max(|s| - start, 0)
  {
    var from := if start < 0 then Max(|s| + start, 0) else Min(start, |s|);
    s[from..]
  }

  /** `zeroPadding(num, length)`. For a positive `length` the result is the
      last `length` characters of the padded text (all of it when shorter);
      `slice(-0)` is `slice(0)`, so a zero `length` keeps the whole padded
      text; a negative `length` drops that many characters from the front. */
  function ZeroPadding(num: int, length: int): (r: string)
    ensures var padded := ZEROS + DecimalText(num);
      && |r| <= |padded| && r == padded[|padded| - |r|..]
      && (0 < length ==> |r| == Min(length, |padded|))
      && (length == 0 ==> r == padded)
      && (length < 0 ==> |r| == Max(|padded| + length, 0))
  {
    SliceFrom(ZEROS + DecimalText(num), -length)
  }

  /** Reading the decimal text of `n` back gives `n`, and the text has no
      more digits than needed. */
  lemma {:induction false} NatTextValue(n: nat)
    ensures DigitsValue(NatText(n)) == n
    ensures n < Pow10(|NatText(n)|)
  {
    if n >= 10 {
      NatTextValue(n / 10);
      var s := NatText(n);
      assert s[..|s| - 1] == NatText(n / 10);
      assert DigitValue(s[|s| - 1]) == n % 10;
    }
  }

  lemma {:induction false} AllZerosValue(z: string)
    requires forall i :: 0 <= i < |z| ==> z[i] == '0'
    ensures AllDigits(z) && DigitsValue(z) == 0
  {
    if z != [] {
      AllZerosValue(z[..|z| - 1]);
    }
  }

  /** Leading zeros do not change the value of a digit string. */
  lemma {:induction false} LeadingZerosValue(z: string, t: string)
    requires forall i :: 0 <= i < |z| ==> z[i] == '0'
    requires AllDigits(t)
    ensures AllDigits(z + t) && DigitsValue(z + t) == DigitsValue(t)
  {
    if t == [] {
      assert z + t == z;
      AllZerosValue(z);
    } else {
      var t' := t[..|t| - 1];
      LeadingZerosValue(z, t');
      assert (z + t)[..|z + t| - 1] == z + t';
    }
  }

  lemma ModOfSum(a: nat, p: nat, d: nat)
    requires 1 <= p && d < 10
    ensures (a * 10 + d) % (p * 10) == (a % p) * 10 + d
  {
    var q, r := a / p, a % p;
    assert a == q * p + r;
    assert a * 10 + d == q * (p * 10) + (r * 10 + d);
    assert 0 <= r * 10 + d < p * 10;
    ModUnique(a * 10 + d, q, p * 10, r * 10 + d);
  }

  lemma ModUnique(x: nat, q: nat, m: nat, r: nat)
    requires 1 <= m && x == q * m + r && r < m
    ensures x % m == r
  {
    var q', r' := x / m, x % m;
    assert x == q' * m + r';
    if q' < q {
      ProductAtLeast(q - q', m);
      assert false;
    } else if q < q' {
      ProductAtLeast(q' - q, m);
      assert false;
    }
  }

  lemma ProductAtLeast(a: nat, m: nat)
    requires 1 <= a
    ensures m <= a * m
  {
    assert a * m == (a - 1) * m + m;
  }

  /** The last `|s| - k` digits of a digit string denote its value modulo
      the matching power of ten. */
  lemma {:induction false} SuffixValue(s: string, k: nat)
    requires AllDigits(s) && k <= |s|
    ensures DigitsValue(s[k..]) == DigitsValue(s) % Pow10(|s| - k)
  {
    if k == |s| {
      assert s[k..] == [];
    } else {
      var s' := s[..|s| - 1];
      SuffixValue(s', k);
      assert s[k..][..|s[k..]| - 1] == s'[k..];
      ModOfSum(DigitsValue(s'), Pow10(|s'| - k), DigitValue(s[|s| - 1]));
    }
  }

  lemma {:induction false} Pow10Monotone(j: nat, k: nat)
    requires j <= k
    ensures Pow10(j) <= Pow10(k)
  {
    if j < k {
      Pow10Monotone(j, k - 1);
    }
  }

  /** For a non-negative number and a positive length, the padded text is
      all digits and denotes the number modulo 10^length: the low `length`
      digits survive, the padding adds nothing. */
  lemma ZeroPaddingValue(num: nat, length: nat)
    requires 0 < length
    ensures AllDigits(ZeroPadding(num, length))
    ensures DigitsValue(ZeroPadding(num, length)) == num % Pow10(length)
  {
    var padded := ZEROS + NatText(num);
    PaddedValue(num);
    var r := ZeroPadding(num, length);
    TailValue(padded, r);
    if length > |padded| {
      NatTextValue(num);
      Pow10Monotone(|NatText(num)|, |r|);
      Pow10Monotone(|NatText(num)|, length);
      ModUnique(num, 0, Pow10(|r|), num);
      ModUnique(num, 0, Pow10(length), num);
    }
  }

  /** A tail of a digit string denotes its value modulo 10^|tail|. */
  lemma TailValue(s: string, r: string)
    requires AllDigits(s)
    requires |r| <= |s| && r == s[|s| - |r|..]
    ensures AllDigits(r) && DigitsValue(r) == DigitsValue(s) % Pow10(|r|)
  {
    SuffixValue(s, |s| - |r|);
  }

  /** The padded text, before slicing, still denotes `num`. */
  lemma PaddedValue(num: nat)
    ensures AllDigits(ZEROS + NatText(num))
    ensures DigitsValue(ZEROS + NatText(num)) == num
  {
    LeadingZerosValue(ZEROS, NatText(num));
    NatTextValue(num);
  }

  /** With room for every digit (and at most the ten zeros of padding), the
      result has exactly `length` characters and still denotes `num`. */
  lemma ZeroPaddingKeepsNumber(num: nat, length: nat)
    requires |NatText(num)| <= length <= |ZEROS| + |NatText(num)|
    ensures |ZeroPadding(num, length)| == length
    ensures AllDigits(ZeroPadding(num, length))
    ensures DigitsValue(ZeroPadding(num, length)) == num
  {
    ZeroPaddingValue(num, length);
    NatTextValue(num);
    Pow10Monotone(|NatText(num)|, length);
    ModUnique(num, 0, Pow10(length), num);
  }
}
