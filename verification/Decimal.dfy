/**
 Decimal numerals as `printf("%d")`, `printf("%llu")` and Python's `int()` read and write them.
 A `char` stands for one byte.
 */
module Decimal {

  predicate IsDigit(c: char) {
    '0' <= c <= '9'
  }

  predicate AllDigits(s: string) {
    forall i | 0 <= i < |s| :: IsDigit(s[i])
  }

  function DigitValue(c: char): nat
    requires IsDigit(c)
  {
    c as int - '0' as int
  }

  function DigitChar(d: nat): (c: char)
    requires d < 10
    ensures IsDigit(c) && DigitValue(c) == d
  {
    ('0' as int + d) as char
  }

  /** The number a string of digits denotes; the empty string denotes 0. */
  function Value(s: string): nat
    requires AllDigits(s)
  {
    if s == [] then 0 else 10 * Value(s[..|s| - 1]) + DigitValue(s[|s| - 1])
  }

  /** The shortest numeral of `n`. */
  function Text(n: nat): (s: string)
    ensures AllDigits(s) && |s| > 0
  {
    if n < 10 then [DigitChar(n)] else Text(n / 10) + [DigitChar(n % 10)]
  }

  /** `%d` and `%lld`. */
  function SignedText(n: int): (s: string)
    ensures |s| > 0
  {
    if n < 0 then "-" + Text(-n) else Text(n)
  }

  lemma {:induction false} ValueOfText(n: nat)
    ensures Value(Text(n)) == n
    ensures Text(n)[0] == '0' ==> n == 0 && Text(n) == "0"
  {
    if n < 10 {
      assert Text(n)[..0] == [];
    } else {
      ValueOfText(n / 10);
      assert Text(n)[..|Text(n)| - 1] == Text(n / 10);
    }
  }

  /** A numeral of a number below `10^k` has at most `k` digits; here for C's `int`. */
  lemma TextOfInt(n: nat)
    requires n < 0x8000_0000
    ensures |Text(n)| <= 10
  {
    var a := n / 10; var b := a / 10; var c := b / 10; var d := c / 10; var e := d / 10;
    assert |Text(e / 10 / 10 / 10)| <= 2;
    assert |Text(e / 10)| <= 4;
    assert |Text(d)| <= 6;
    assert |Text(b)| <= 8;
  }

  /** Cutting digits off the right never raises the value, and lowers every non-zero value. */
  lemma {:induction false} ValueOfPrefix(s: string, k: nat)
    requires AllDigits(s) && k <= |s|
    ensures Value(s[..k]) <= Value(s)
    ensures k < |s| && Value(s) > 0 ==> Value(s[..k]) < Value(s)
  {
    if k < |s| {
      var init := s[..|s| - 1];
      ValueOfPrefix(init, k);
      assert init[..k] == s[..k];
    } else {
      assert s[..k] == s;
    }
  }
}
