/** Python's decimal rendering of integers (`f"{n}"`), with its inverse. */
module Decimal {
  function DigitValue(c: char): int {
    c as int - '0' as int
  }

  function Digit(d: nat): (c: char)
    requires d < 10
    ensures '0' <= c <= '9' && DigitValue(c) == d
  {
    '0' + d as char
  }

  function NatValue(s: string): int {
    if s == "" then 0 else NatValue(s[..|s| - 1]) * 10 + DigitValue(s[|s| - 1])
  }

  function NatText(n: nat): (s: string)
    ensures s != "" && forall c :: c in s ==> '0' <= c <= '9'
    ensures NatValue(s) == n
  {
    if n < 10 then [Digit(n)] else NatText(n / 10) + [Digit(n % 10)]
  }

  function Text(n: int): string {
    if n < 0 then "-" + NatText(-n) else NatText(n)
  }

  function Value(s: string): int {
    if s != "" && s[0] == '-' then -NatValue(s[1..]) else NatValue(s)
  }

  /** Rendering loses nothing and never writes the separator of a uniqueness key. */
  lemma TextReadsBack(n: int)
    ensures Value(Text(n)) == n
    ensures '_' !in Text(n)
  {
    if n < 0 {
      assert Text(n)[1..] == NatText(-n);
      assert forall c :: c in Text(n) ==> c == '-' || c in NatText(-n);
    } else {
      assert Text(n)[0] in NatText(n);
    }
  }

  /** The digits are the usual ones, the highest first. */
  lemma DigitsAreDecimal(n: nat)
    ensures n < 10 ==> NatText(n) == ["0123456789"[n]]
    ensures n >= 10 ==> NatText(n) == NatText(n / 10) + ["0123456789"[n % 10]]
  {
    assert forall d: nat :: d < 10 ==> Digit(d) == "0123456789"[d];
  }
}
