/** Decimal rendering of integers, as `strconv.Itoa` writes the `Auth-Port` header. */
module Decimal {
  import opened Wrappers

  predicate IsDigit(c: char) {
    '0' <= c <= '9'
  }

  predicate AllDigits(s: string) {
    forall i :: 0 <= i < |s| ==> IsDigit(s[i])
  }

  function DigitChar(d: nat): char
    requires d < 10
  {
    ('0' as int + d) as char
  }

  function DigitValue(c: char): nat
    requires IsDigit(c)
  {
    c as int - '0' as int
  }

  /** The decimal digits of `n`, most significant first, without leading zeros. */
  function Digits(n: nat): (s: string)
    ensures |s| > 0 && AllDigits(s)
    ensures s[0] == '0' <==> n == 0
    ensures n == 0 ==> s == "0"
    decreases n
  {
    if n < 10 then [DigitChar(n)] else Digits(n / 10) + [DigitChar(n % 10)]
  }

  /** The number a string of decimal digits denotes. */
  function Value(s: string): nat
    requires AllDigits(s)
    decreases |s|
  {
    if s == [] then 0 else 10 * Value(s[..|s| - 1]) + DigitValue(s[|s| - 1])
  }

  lemma {:induction false} ValueOfDigits(n: nat)
    ensures Value(Digits(n)) == n
    decreases n
  {
    if n >= 10 {
      ValueOfDigits(n / 10);
      var s := Digits(n);
      assert s[..|s| - 1] == Digits(n / 10);
    }
  }

  /** Reads back an optionally signed decimal numeral. */
  function Atoi(s: string): Option<int> {
    if |s| > 1 && s[0] == '-' && AllDigits(s[1..]) then Some(-(Value(s[1..]) as int))
    else if |s| > 0 && AllDigits(s) then Some(Value(s))
    else None
  }

  /** `strconv.Itoa(n)`: a numeral that reads back as `n`, so distinct numbers render differently. */
  function Itoa(n: int): (s: string)
    ensures Atoi(s) == Some(n)
    ensures |s| > 0
    // the canonical numeral: a sign only for negatives, no leading zero, no "-0"
    ensures s[0] == '-' <==> n < 0
    ensures s[0] == '0' ==> s == "0"
    ensures s[0] == '-' ==> |s| > 1 && s[1] != '0'
  {
    if n < 0 then
      ValueOfDigits(-n);
      var s := "-" + Digits(-n);
      assert s[1..] == Digits(-n);
      s
    else
      ValueOfDigits(n);
      Digits(n)
  }
}
