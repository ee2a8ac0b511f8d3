/** Decimal numerals as the formatter prints them and `str::parse` reads them. */
module Decimal {
  import opened Base

  function DigitChar(d: nat): char
    requires d < 10
  {
    '0' + d as char
  }

  function PrintNat(n: nat): (s: string)
    ensures s != []
  {
    if n < 10 then [DigitChar(n)] else PrintNat(n / 10) + [DigitChar(n % 10)]
  }

  function PrintInt(n: int): (s: string)
    ensures s != []
  {
    if n < 0 then ['-'] + PrintNat(-n) else PrintNat(n)
  }

  predicate IsDigit(c: char) { '0' <= c <= '9' }

  function DigitValue(c: char): nat
    requires IsDigit(c)
  {
    c as nat - '0' as nat
  }

  /** The value of a string of digits; nothing for the empty string or when another character occurs. */
  function ReadNat(s: string): Option<nat> {
    if s == [] then None
    else
      var last := s[|s| - 1];
      if !IsDigit(last) then None
      else if |s| == 1 then Some(DigitValue(last))
      else
        match ReadNat(s[..|s| - 1])
        case None => None
        case Some(high) => Some(10 * high + DigitValue(last))
  }

  /** A sign is allowed in front. */
  function ReadInt(s: string): Option<int> {
    if s != [] && s[0] == '-' then
      match ReadNat(s[1..])
      case None => None
      case Some(n) => Some(-(n as int))
    else
      match ReadNat(if s != [] && s[0] == '+' then s[1..] else s)
      case None => None
      case Some(n) => Some(n)
  }

  /** `parse::<i64>`. */
  function ParseI64(s: string): Option<I64> {
    match ReadInt(s)
    case None => None
    case Some(n) => if I64_MIN <= n <= I64_MAX then Some(n) else None
  }

  /** `parse::<u64>`: a plus sign is allowed in front, a minus sign is not. */
  function ParseU64(s: string): Option<U64> {
    match ReadNat(if s != [] && s[0] == '+' then s[1..] else s)
    case None => None
    case Some(n) => if n <= U64_MAX then Some(n) else None
  }

  predicate AllDigits(s: string) {
    forall i :: 0 <= i < |s| ==> IsDigit(s[i])
  }

  lemma DigitRoundTrip(d: nat)
    requires d < 10
    ensures IsDigit(DigitChar(d)) && DigitValue(DigitChar(d)) == d
  {
  }

  lemma {:induction false} NatRoundTrip(n: nat)
    ensures ReadNat(PrintNat(n)) == Some(n) && AllDigits(PrintNat(n))
  {
    DigitRoundTrip(n % 10);
    if n < 10 {
    } else {
      NatRoundTrip(n / 10);
      var s := PrintNat(n);
      assert s[..|s| - 1] == PrintNat(n / 10) && s[|s| - 1] == DigitChar(n % 10);
    }
  }

  lemma SignsAreNoDigits()
    ensures !IsDigit('-') && !IsDigit('+')
  {
  }

  /** A printed number is read back, with the sign where there is one. */
  lemma IntRoundTrip(n: int)
    ensures ReadInt(PrintInt(n)) == Some(n)
  {
    hide PrintNat;
    hide ReadNat;
    hide IsDigit;
    SignsAreNoDigits();
    if n < 0 {
      NatRoundTrip(-n);
      assert PrintInt(n)[1..] == PrintNat(-n);
    } else {
      NatRoundTrip(n);
      assert IsDigit(PrintNat(n)[0]);
    }
  }

  lemma I64RoundTrip(n: I64)
    ensures ParseI64(PrintInt(n)) == Some(n)
  {
    IntRoundTrip(n);
  }

  lemma U64RoundTrip(n: U64)
    ensures ParseU64(PrintNat(n)) == Some(n)
  {
    hide PrintNat;
    hide ReadNat;
    hide IsDigit;
    SignsAreNoDigits();
    NatRoundTrip(n);
    assert IsDigit(PrintNat(n)[0]);
  }
}
