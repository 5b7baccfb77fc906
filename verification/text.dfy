/**
 * Decimal rendering of numbers and left zero-padding: JavaScript's `String(n)`
 * for non-negative integers and `s.padStart(size, '0')`, together with the
 * value a digit string denotes, which is what makes padded file names readable
 * back.
 */
module Text {

  predicate IsDigit(c: char) { '0' <= c <= '9' }

  predicate AllDigits(s: string) { forall i :: 0 <= i < |s| ==> IsDigit(s[i]) }

  function DigitValue(c: char): (d: nat)
    requires IsDigit(c)
    ensures d < 10
  {
    (c as int) - ('0' as int)
  }

  function DigitChar(d: nat): (c: char)
    requires d < 10
    ensures IsDigit(c) && DigitValue(c) == d
  {
    ('0' as int + d) as char
  }

  /** `String(n)` for a non-negative integer: its decimal digits, without leading zeros. */
  function Digits(n: nat): (s: string)
    ensures 1 <= |s| && AllDigits(s)
    ensures (s[0] == '0') <==> n == 0
  {
    if n < 10 then [DigitChar(n)] else Digits(n / 10) + [DigitChar(n % 10)]
  }

  /** The number a string of decimal digits denotes; leading zeros are allowed. */
  function Value(s: string): nat
    requires AllDigits(s)
  {
    if s == [] then 0 else Value(s[..|s| - 1]) * 10 + DigitValue(s[|s| - 1])
  }

  function Pow10(k: nat): (p: nat)
    ensures p >= 1
  {
    if k == 0 then 1 else 10 * Pow10(k - 1)
  }

  /** A run of `k` zero characters. */
  function Zeros(k: nat): (z: string)
    ensures |z| == k && AllDigits(z)
    ensures forall i :: 0 <= i < k ==> z[i] == '0'
  {
    seq(k, _ => '0')
  }

  /**
   * `s.padStart(size, '0')`: `s` preceded by as many zeros as it takes to reach
   * `size` characters; `s` itself when it is already that long.
   */
  function PadStart(s: string, size: int): (r: string)
    ensures |r| == if |s| < size then size else |s|
    ensures r[|r| - |s|..] == s
    ensures forall i :: 0 <= i < |r| - |s| ==> r[i] == '0'
  {
    if |s| < size then Zeros(size - |s|) + s else s
  }

  /** Reading back `String(n)` gives `n`. */
  lemma {:induction false} ValueOfDigits(n: nat)
    ensures Value(Digits(n)) == n
  {
    if n >= 10 {
      var s := Digits(n);
      assert s[..|s| - 1] == Digits(n / 10);
      ValueOfDigits(n / 10);
    }
  }

  lemma {:induction false} ValueOfZeros(k: nat)
    ensures Value(Zeros(k)) == 0
  {
    if k > 0 {
      assert Zeros(k)[..k - 1] == Zeros(k - 1);
      ValueOfZeros(k - 1);
    }
  }

  /** Leading zeros do not change the value of a digit string. */
  lemma {:induction false} ValueOfZerosPrefix(k: nat, s: string)
    requires AllDigits(s)
    ensures AllDigits(Zeros(k) + s) && Value(Zeros(k) + s) == Value(s)
  {
    var t := Zeros(k) + s;
    if s == [] {
      assert t == Zeros(k);
      ValueOfZeros(k);
    } else {
      assert t[..|t| - 1] == Zeros(k) + s[..|s| - 1];
      ValueOfZerosPrefix(k, s[..|s| - 1]);
    }
  }

  /** One more leading zero. */
  lemma PrependZero(k: nat, s: string)
    ensures "0" + (Zeros(k) + s) == Zeros(k + 1) + s
  {
    assert "0" + Zeros(k) == Zeros(k + 1);
  }

  /** Once `k` zeros bring `s` to `size` characters or more, without overshooting, they are its padding. */
  lemma ZerosPadding(s: string, k: nat, size: int)
    requires |s| + k >= size && (k == 0 || |s| + k <= size)
    ensures Zeros(k) + s == PadStart(s, size)
  {
    if k == 0 {
      assert Zeros(0) + s == s;
    }
  }

  /** Padding a digit string with zeros keeps its value. */
  lemma PadStartValue(d: string, size: int)
    requires AllDigits(d)
    ensures AllDigits(PadStart(d, size)) && Value(PadStart(d, size)) == Value(d)
  {
    if |d| < size {
      ValueOfZerosPrefix(size - |d|, d);
    }
  }

  /** A zero-padded rendering of `n` still reads back as `n`. */
  lemma PaddedValue(n: nat, size: int)
    ensures AllDigits(PadStart(Digits(n), size))
    ensures Value(PadStart(Digits(n), size)) == n
  {
    ValueOfDigits(n);
    PadStartValue(Digits(n), size);
  }

  /** `String(n)` has at most `k` digits exactly when `n < 10^k`. */
  lemma {:induction false} DigitsLength(n: nat, k: nat)
    requires k >= 1
    ensures |Digits(n)| <= k <==> n < Pow10(k)
  {
    if n >= 10 {
      if k == 1 {
        assert |Digits(n)| >= 2;
      } else {
        DigitsLength(n / 10, k - 1);
        assert n / 10 < Pow10(k - 1) <==> n < Pow10(k);
      }
    }
  }

  /** Padding a number below `10^k` to `k` characters yields exactly `k` digits. */
  lemma FixedWidth(n: nat, k: nat)
    requires k >= 1 && n < Pow10(k)
    ensures |PadStart(Digits(n), k)| == k
    ensures AllDigits(PadStart(Digits(n), k))
    ensures Value(PadStart(Digits(n), k)) == n
  {
    DigitsLength(n, k);
    PaddedValue(n, k);
  }
}
