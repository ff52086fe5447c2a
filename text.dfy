/**
 * String helpers the client relies on from Python: `str.startswith`, slicing
 * with `[:n]`, `str(n)` for a non-negative integer, the zero-padded fields of
 * `strftime`.
 */
module Text {

  /** `s.startswith(prefix)`. */
  predicate StartsWith(s: string, prefix: string) {
    |prefix| <= |s| && s[..|prefix|] == prefix
  }

  /** `s[:n]`: Python clamps the bound to the length of `s`. */
  function Take(s: string, n: nat): (r: string)
    ensures |r| == if |s| < n then |s| else n
    ensures StartsWith(s, r)
  {
    if |s| < n then s else s[..n]
  }

  /** A slice of a piece of `s` is the corresponding slice of `s`. */
  lemma SliceWithin(s: string, t: string, off: nat, i: nat, j: nat)
    requires off + |t| <= |s| && s[off..off + |t|] == t && i <= j <= |t|
    ensures s[off + i..off + j] == t[i..j]
  {
    assert forall k :: i <= k < j ==> s[off + k] == t[k];
  }

  predicate IsDigit(c: char) {
    '0' <= c <= '9'
  }

  predicate AllDigits(s: string) {
    forall i :: 0 <= i < |s| ==> IsDigit(s[i])
  }

  function DigitChar(d: nat): (c: char)
    requires d < 10
    ensures IsDigit(c)
  {
    ('0' as int + d) as char
  }

  function DigitValue(c: char): (d: nat)
    requires IsDigit(c)
    ensures d < 10
  {
    c as int - '0' as int
  }

  /** `str(n)` for `n >= 0`: decimal digits, no sign, no leading zero. */
  function Digits(n: nat): (r: string)
    ensures 1 <= |r|
    ensures AllDigits(r)
    ensures 1 < |r| ==> r[0] != '0'
    ensures r == "0" <==> n == 0
  {
    if n < 10 then [DigitChar(n)] else Digits(n / 10) + [DigitChar(n % 10)]
  }

  /** The number a string of decimal digits denotes (leading zeros allowed). */
  function Value(s: string): nat
    requires AllDigits(s)
  {
    if s == [] then 0 else Value(s[..|s| - 1]) * 10 + DigitValue(s[|s| - 1])
  }

  function Pow10(k: nat): (p: nat)
    ensures 1 <= p
  {
    if k == 0 then 1 else 10 * Pow10(k - 1)
  }

  /** `str(n)` can be read back: the digits denote `n`. */
  lemma {:induction false} ValueOfDigits(n: nat)
    ensures Value(Digits(n)) == n
  {
    if n >= 10 {
      var s := Digits(n);
      assert s[..|s| - 1] == Digits(n / 10);
      ValueOfDigits(n / 10);
    }
  }

  /** `str(n)` has at most `k` digits exactly when `n < 10^k`. */
  lemma {:induction false} DigitsLength(n: nat, k: nat)
    requires 1 <= k
    ensures |Digits(n)| <= k <==> n < Pow10(k)
  {
    if n >= 10 {
      if k == 1 {
        assert |Digits(n)| == |Digits(n / 10)| + 1;
      } else {
        DigitsLength(n / 10, k - 1);
      }
    }
  }

  function Zeros(k: nat): (r: string)
    ensures |r| == k
    ensures forall i :: 0 <= i < k ==> r[i] == '0'
  {
    if k == 0 then "" else "0" + Zeros(k - 1)
  }

  /** `strftime` renders `%Y` with four digits and `%m`, `%d`, `%H`, `%M`, `%S` with two. */
  function ZeroPad(n: nat, width: nat): (r: string)
    ensures AllDigits(r)
    ensures 1 <= width && n < Pow10(width) ==> |r| == width
  {
    var d := Digits(n);
    if width <= |d| then
      assert 1 <= width && n < Pow10(width) ==> |d| <= width by {
        if 1 <= width { DigitsLength(n, width); }
      }
      d
    else
      assert width > 0 && n < Pow10(width) by { if n >= Pow10(width) { DigitsLength(n, width); } }
      Zeros(width - |d|) + d
  }

  /** A leading zero does not change the number the digits denote. */
  lemma {:induction false} ValueLeadingZero(s: string)
    requires AllDigits(s)
    ensures AllDigits("0" + s) && Value("0" + s) == Value(s)
  {
    if s != [] {
      assert ("0" + s)[..|s|] == "0" + s[..|s| - 1];
      ValueLeadingZero(s[..|s| - 1]);
    }
  }

  lemma {:induction false} ValueLeadingZeros(k: nat, s: string)
    requires AllDigits(s)
    ensures AllDigits(Zeros(k) + s) && Value(Zeros(k) + s) == Value(s)
  {
    if k == 0 {
      assert Zeros(k) + s == s;
    } else {
      ValueLeadingZeros(k - 1, s);
      assert Zeros(k) + s == "0" + (Zeros(k - 1) + s);
      ValueLeadingZero(Zeros(k - 1) + s);
    }
  }

  /** A zero-padded field reads back as the number it was built from. */
  lemma ValueOfZeroPad(n: nat, width: nat)
    ensures Value(ZeroPad(n, width)) == n
  {
    ValueOfDigits(n);
    var d := Digits(n);
    if width > |d| {
      ValueLeadingZeros(width - |d|, d);
    }
  }

  /** The number formed by the first three digits of `str(n)`. */
  function Leading3(n: nat): (r: nat)
    ensures r < 1000
    ensures n < 1000 ==> r == n
  {
    if n < 1000 then n else Leading3(n / 10)
  }

  /** `str(n)[:3]` is `str` of the leading three digits of `n`. */
  lemma {:induction false} TakeDigits3(n: nat)
    ensures Take(Digits(n), 3) == Digits(Leading3(n))
  {
    if n >= 1000 {
      TakeDigits3(n / 10);
      var p := Digits(n / 10);
      assert |p| >= 3 by { DigitsLength(n / 10, 2); }
      assert Digits(n) == p + [DigitChar(n % 10)];
      assert Take(Digits(n), 3) == p[..3];
    } else {
      DigitsLength(n, 3);
    }
  }

  /** For a six-digit number the leading three digits are its thousands. */
  lemma SixDigitLeading3(n: nat)
    requires 100000 <= n < 1000000
    ensures Leading3(n) == n / 1000
  {
    assert Leading3(n) == Leading3(n / 10) == Leading3(n / 100) == n / 1000;
  }

  /** For a four-digit number the leading three digits are its tens. */
  lemma FourDigitLeading3(n: nat)
    requires 1000 <= n < 10000
    ensures Leading3(n) == n / 10
  {
  }
}
