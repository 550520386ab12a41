/** Decimal text of integers. */
module Decimals {

  function Digits(n: nat): (s: string)
    ensures s != []
    decreases n
  {
    var last := ['0' + (n % 10) as char];
    if n < 10 then last else Digits(n / 10) + last
  }

  function Decimal(n: int): string {
    if n < 0 then "-" + Digits(-n) else Digits(n)
  }

  predicate IsDigit(c: char) {
    '0' <= c <= '9'
  }

  predicate AllDigits(s: string) {
    forall i :: 0 <= i < |s| ==> IsDigit(s[i])
  }

  function NatValue(s: string): nat
    requires AllDigits(s)
  {
    if s == [] then 0 else NatValue(s[..|s| - 1]) * 10 + (s[|s| - 1] as int - '0' as int)
  }

  /** Digits are read back as the number they were written from, without a leading zero. */
  lemma {:induction false} DigitsRoundTrip(n: nat)
    ensures AllDigits(Digits(n)) && NatValue(Digits(n)) == n
    ensures Digits(n)[0] == '0' ==> |Digits(n)| == 1
    decreases n
  {
    var s := Digits(n);
    if n >= 10 {
      DigitsRoundTrip(n / 10);
      assert s[..|s| - 1] == Digits(n / 10);
    } else {
      assert s[..0] == [];
    }
  }

  /** An optional sign and digits; anything else is no integer. */
  function ReadInt(s: string): (r: int)
    requires Readable(s)
  {
    if s[0] == '-' then 0 - NatValue(s[1..]) else NatValue(s)
  }

  predicate Readable(s: string) {
    s != [] && (AllDigits(s) || (|s| > 1 && s[0] == '-' && AllDigits(s[1..])))
  }

  lemma DecimalRoundTrip(n: int)
    ensures Readable(Decimal(n)) && ReadInt(Decimal(n)) == n
  {
    DigitsRoundTrip(if n < 0 then -n else n);
    if n < 0 {
      assert Decimal(n)[1..] == Digits(-n);
    } else {
      assert IsDigit(Digits(n)[0]);
    }
  }

  lemma DecimalIsInjective(m: int, n: int)
    requires Decimal(m) == Decimal(n)
    ensures m == n
  {
    DecimalRoundTrip(m);
    DecimalRoundTrip(n);
  }
}
