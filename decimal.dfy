/** Decimal rendering of integers (Integer#to_s) and its inverse. The same rendering stands
    in for the ISO-8601 timestamps the token record keeps, with the clock in whole seconds. */
module Decimal {
  import opened Outcome

  predicate IsDigit(c: char) {
    '0' <= c <= '9'
  }

  function DigitChar(d: nat): (c: char)
    requires d < 10
    ensures IsDigit(c)
  {
    (('0' as int) + d) as char
  }

  function DigitValue(c: char): (d: nat)
    requires IsDigit(c)
    ensures d < 10 && DigitChar(d) == c
  {
    (c as int) - ('0' as int)
  }

  /** The digits of `n`, most significant first, without leading zeros. */
  function Digits(n: nat): (s: string)
    ensures |s| > 0
    ensures forall i :: 0 <= i < |s| ==> IsDigit(s[i])
  {
    if n < 10 then [DigitChar(n)] else Digits(n / 10) + [DigitChar(n % 10)]
  }

  /** Reads a non-empty string of digits; anything else is None. */
  function ParseNat(s: string): Option<nat>
    decreases |s|
  {
    if |s| == 0 || !IsDigit(s[|s| - 1]) then None
    else if |s| == 1 then Some(DigitValue(s[0]))
    else
      match ParseNat(s[..|s| - 1])
      case None => None
      case Some(v) => Some(10 * v + DigitValue(s[|s| - 1]))
  }

  function Render(i: int): string {
    if i < 0 then "-" + Digits(-i) else Digits(i)
  }

  function Parse(s: string): Option<int> {
    if |s| > 0 && s[0] == '-' then
      match ParseNat(s[1..])
      case None => None
      case Some(v) => Some(-(v as int))
    else
      match ParseNat(s)
      case None => None
      case Some(v) => Some(v as int)
  }

  lemma {:induction false} ParseDigits(n: nat)
    ensures ParseNat(Digits(n)) == Some(n)
  {
    var s := Digits(n);
    if n >= 10 {
      ParseDigits(n / 10);
      assert s[..|s| - 1] == Digits(n / 10);
      assert s[|s| - 1] == DigitChar(n % 10);
    }
  }

  /** Reading back what was rendered gives the same integer. */
  lemma {:induction false} ParseRender(i: int)
    ensures Parse(Render(i)) == Some(i)
  {
    if i < 0 {
      ParseDigits(-i);
      assert Render(i)[1..] == Digits(-i);
    } else {
      ParseDigits(i);
      assert IsDigit(Digits(i)[0]);
    }
  }
}
