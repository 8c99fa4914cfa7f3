/** Decimal text of integers: `String(n)` and `parseInt` restricted to strings it reads completely. */
module Decimal {

  predicate IsDigit(c: char) {
    '0' <= c <= '9'
  }

  predicate AllDigits(s: string) {
    forall i :: 0 <= i < |s| ==> IsDigit(s[i])
  }

  /** An optional sign followed by at least one digit. */
  predicate IsNumeric(s: string) {
    if |s| > 0 && (s[0] == '-' || s[0] == '+') then |s| > 1 && AllDigits(s[1..])
    else |s| > 0 && AllDigits(s)
  }

  function DigitChar(d: nat): (c: char)
    requires d < 10
    ensures IsDigit(c)
  {
    "0123456789"[d]
  }

  function DigitValue(c: char): (d: nat)
    requires IsDigit(c)
    ensures d < 10
  {
    (c as int) - ('0' as int)
  }

  /** Digits of `n` without leading zeros. */
  function NatToString(n: nat): (s: string)
    ensures |s| > 0 && AllDigits(s)
    decreases n
  {
    if n < 10 then [DigitChar(n)] else NatToString(n / 10) + [DigitChar(n % 10)]
  }

  /** `String(i)` for an integer `i`. */
  function IntToString(i: int): (s: string)
    ensures IsNumeric(s)
    ensures s[0] != '+'
  {
    if i < 0 then
      var t := NatToString(-i);
      assert ("-" + t)[1..] == t;
      "-" + t
    else NatToString(i)
  }

  function ParseDigits(s: string): nat
    requires AllDigits(s)
    decreases |s|
  {
    if s == [] then 0 else ParseDigits(s[..|s| - 1]) * 10 + DigitValue(s[|s| - 1])
  }

  /** `parseInt(s)` for a string that is entirely an integer literal. */
  function ParseInt(s: string): int
    requires IsNumeric(s)
  {
    if s[0] == '-' then 0 - ParseDigits(s[1..]) as int
    else if s[0] == '+' then ParseDigits(s[1..])
    else ParseDigits(s)
  }

  lemma {:induction false} ParseDigitsOfNat(n: nat)
    ensures ParseDigits(NatToString(n)) == n
    decreases n
  {
    var s := NatToString(n);
    if n < 10 {
      assert s[..|s| - 1] == [];
    } else {
      assert s[..|s| - 1] == NatToString(n / 10);
      ParseDigitsOfNat(n / 10);
    }
  }

  /** Reading back the decimal text of an integer gives that integer. */
  lemma {:induction false} ParseIntOfIntToString(i: int)
    ensures ParseInt(IntToString(i)) == i
  {
    var s := IntToString(i);
    if i < 0 {
      var t := NatToString(-i);
      assert s == "-" + t;
      assert s[1..] == t;
      ParseDigitsOfNat(-i);
    } else {
      var t := NatToString(i);
      assert s == t && IsDigit(t[0]);
      ParseDigitsOfNat(i);
    }
  }
}
