/** Natural numbers as the decimal strings a template literal prints, and as `Number` reads them back. */
module Decimal {

  predicate IsDigit(c: char) { '0' <= c <= '9' }

  predicate AllDigits(s: string) { forall i :: 0 <= i < |s| ==> IsDigit(s[i]) }

  function Digit(d: nat): (c: char)
    requires d < 10
    ensures IsDigit(c) && DigitValue(c) == d
  {
    '0' + d as char
  }

  function DigitValue(c: char): nat
    requires IsDigit(c)
  {
    (c - '0') as nat
  }

  function ToDecimal(n: nat): (s: string)
    ensures s != [] && AllDigits(s)
    ensures n > 0 ==> s[0] != '0'
  {
    if n < 10 then [Digit(n)] else ToDecimal(n / 10) + [Digit(n % 10)]
  }

  function FromDecimal(s: string): nat
    requires AllDigits(s)
  {
    if s == [] then 0 else 10 * FromDecimal(s[..|s| - 1]) + DigitValue(s[|s| - 1])
  }

  /** The notation: the digits from zero to nine, and each further digit in base ten. */
  lemma Notation(s: string, c: char)
    requires AllDigits(s) && IsDigit(c)
    ensures DigitValue('0') == 0 && DigitValue('9') == 9 && (c != '9' ==> IsDigit((c as int + 1) as char) && DigitValue((c as int + 1) as char) == DigitValue(c) + 1)
    ensures FromDecimal([]) == 0 && FromDecimal(s + [c]) == 10 * FromDecimal(s) + DigitValue(c)
  {
    assert (s + [c])[..|s + [c]| - 1] == s;
  }

  lemma {:induction false} RoundTrip(n: nat)
    ensures FromDecimal(ToDecimal(n)) == n
  {
    if n >= 10 {
      RoundTrip(n / 10);
      var s := ToDecimal(n);
      assert s[..|s| - 1] == ToDecimal(n / 10);
    } else {
      assert FromDecimal([]) == 0;
    }
  }

  lemma Injective(m: nat, n: nat)
    requires ToDecimal(m) == ToDecimal(n)
    ensures m == n
  {
    RoundTrip(m);
    RoundTrip(n);
  }

  function Power(k: nat): nat { if k == 0 then 1 else 10 * Power(k - 1) }

  /** A string of k digits denotes a number below ten to the k. */
  lemma {:induction false} ValueBelow(s: string)
    requires AllDigits(s)
    ensures FromDecimal(s) < Power(|s|)
  {
    if s != [] {
      ValueBelow(s[..|s| - 1]);
    }
  }

  lemma {:induction false} PowerMonotone(j: nat, k: nat)
    requires j <= k
    ensures Power(j) <= Power(k)
  {
    if j < k {
      PowerMonotone(j, k - 1);
    }
  }

  /** A number with more than k digits is at least ten to the k. */
  lemma {:induction false} ValueAtLeast(n: nat)
    requires n > 0
    ensures Power(|ToDecimal(n)| - 1) <= n
  {
    if n >= 10 {
      ValueAtLeast(n / 10);
      assert |ToDecimal(n)| == |ToDecimal(n / 10)| + 1;
    }
  }

  /** Numbers below ten to the k print with at most k digits. */
  lemma LengthBound(n: nat, k: nat)
    requires k >= 1 && n < Power(k)
    ensures |ToDecimal(n)| <= k
  {
    if n > 0 {
      ValueAtLeast(n);
      if |ToDecimal(n)| > k {
        PowerMonotone(k, |ToDecimal(n)| - 1);
      }
    }
  }
}
