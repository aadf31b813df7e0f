/** Python's `str` of an integer and `int` of a string, on ASCII decimal
    numerals: the conversions the calculator applies to every step count. */
module Decimal {
  import opened Results

  predicate IsDigit(c: char) { '0' <= c <= '9' }

  predicate AllDigits(s: string) { forall i :: 0 <= i < |s| ==> IsDigit(s[i]) }

  function DigitValue(c: char): (d: nat)
    requires IsDigit(c)
    ensures d < 10
  {
    c as int - '0' as int
  }

  function DigitChar(d: nat): (c: char)
    requires d < 10
    ensures IsDigit(c) && DigitValue(c) == d
  {
    ('0' as int + d) as char
  }

  /** The decimal numeral of `n`, most significant digit first: never empty,
      digits only, and without a leading zero unless `n` is zero. */
  function Digits(n: nat): (s: string)
    ensures |s| >= 1 && AllDigits(s)
    ensures n > 0 ==> s[0] != '0'
    decreases n
  {
    if n < 10 then [DigitChar(n)] else Digits(n / 10) + [DigitChar(n % 10)]
  }

  /** `str(n)` for a Python int: a minus sign before the digits of |n| when negative. */
  function Show(n: int): (s: string)
    ensures |s| >= 1
    ensures (s[0] == '-') <==> n < 0
    ensures n >= 0 ==> AllDigits(s)
  {
    if n < 0 then "-" + Digits(-n) else Digits(n)
  }

  /** Value of a string of decimal digits, most significant first. */
  function ParseNat(s: string): nat
    requires AllDigits(s)
    decreases |s|
  {
    if s == [] then 0 else ParseNat(s[..|s| - 1]) * 10 + DigitValue(s[|s| - 1])
  }

  /** `int(s)` for a Python str: an optional sign followed by at least one
      digit; anything else is a ValueError, here None. */
  function Parse(s: string): Option<int>
  {
    if |s| >= 2 && (s[0] == '-' || s[0] == '+') && AllDigits(s[1..]) then
      Some(if s[0] == '-' then 0 - ParseNat(s[1..]) as int else ParseNat(s[1..]))
    else if |s| >= 1 && AllDigits(s) then
      Some(ParseNat(s))
    else
      None
  }

  lemma {:induction false} ParseNatDigits(n: nat)
    ensures ParseNat(Digits(n)) == n
    decreases n
  {
    if n >= 10 {
      var s := Digits(n);
      assert s[..|s| - 1] == Digits(n / 10);
      ParseNatDigits(n / 10);
    }
  }

  /** `int(str(n)) == n` for every integer `n`. */
  lemma ShowRoundTrip(n: int)
    ensures Parse(Show(n)) == Some(n)
  {
    var s := Show(n);
    if n < 0 {
      assert s[1..] == Digits(-n);
      ParseNatDigits(-n);
    } else {
      assert IsDigit(s[0]);
      ParseNatDigits(n);
    }
  }

  /** `str` is one-to-one: distinct step counts never print alike. */
  lemma ShowInjective(m: int, n: int)
    requires Show(m) == Show(n)
    ensures m == n
  {
    ShowRoundTrip(m);
    ShowRoundTrip(n);
  }
}
