/** What numerals mean: digits by their places, a sign in front, and no more digits than needed when printed. */
module Numerals {
  import opened Base
  import opened Decimal

  function Pow10(n: nat): nat {
    if n == 0 then 1 else 10 * Pow10(n - 1)
  }

  /** The value of digits by their places. */
  function Value(s: string): nat
    requires AllDigits(s)
  {
    if s == [] then 0 else DigitValue(s[0]) * Pow10(|s| - 1) + Value(s[1..])
  }

  predicate Digits(s: string) {
    s != [] && AllDigits(s)
  }

  /** This spells the number: digits, or digits behind a sign. */
  predicate IsNumeral(s: string, n: int) {
    || (Digits(s) && Value(s) == n)
    || (s != [] && s[0] == '+' && Digits(s[1..]) && Value(s[1..]) == n)
    || (s != [] && s[0] == '-' && Digits(s[1..]) && Value(s[1..]) == -n)
  }

  lemma {:induction false} ValueSnoc(s: string, c: char)
    requires AllDigits(s) && IsDigit(c)
    ensures AllDigits(s + [c]) && Value(s + [c]) == 10 * Value(s) + DigitValue(c)
  {
    if s == [] {
      assert ([] + [c])[1..] == [] && Pow10(0) == 1;
    } else {
      assert (s + [c])[1..] == s[1..] + [c];
      ValueSnoc(s[1..], c);
      assert Pow10(|s|) == 10 * Pow10(|s| - 1);
      Distribute(DigitValue(s[0]), Pow10(|s| - 1), Value(s[1..]));
    }
  }

  lemma Distribute(d: nat, p: nat, v: nat)
    ensures d * (10 * p) + 10 * v == 10 * (d * p + v)
  {
  }

  lemma {:induction false} ReadNatMeans(s: string)
    ensures ReadNat(s).Some? <==> Digits(s)
    ensures Digits(s) ==> ReadNat(s) == Some(Value(s))
  {
    if s != [] {
      var front, last := s[..|s| - 1], s[|s| - 1];
      assert s == front + [last];
      ReadNatMeans(front);
      if IsDigit(last) && AllDigits(front) { ValueSnoc(front, last); }
      if AllDigits(s) { assert IsDigit(s[|s| - 1]) && AllDigits(front); }
    }
  }

  /** An integer is read from exactly its spellings. */
  lemma ReadIntMeans(s: string, n: int)
    ensures ReadInt(s) == Some(n) <==> IsNumeral(s, n)
  {
    hide Value;
    hide ReadNat;
    ReadNatMeans(s);
    if s != [] {
      ReadNatMeans(s[1..]);
      SignsAreNoDigits();
    }
  }

  /** So is a signed 64-bit one, and an unsigned one from its spellings without a minus sign. */
  lemma ParseMeans(s: string)
    ensures forall n: I64 :: ParseI64(s) == Some(n) <==> IsNumeral(s, n)
    ensures forall n: U64 :: ParseU64(s) == Some(n) <==> IsNumeral(s, n) && s[0] != '-'
    ensures ParseI64(s).None? <==> forall n: I64 :: !IsNumeral(s, n)
  {
    hide Value;
    hide ReadNat;
    forall n: int ensures ReadInt(s) == Some(n) <==> IsNumeral(s, n) { ReadIntMeans(s, n); }
    ReadNatMeans(s);
    if s != [] {
      ReadNatMeans(s[1..]);
      SignsAreNoDigits();
    }
  }

  /** Printed numbers have no leading zero. */
  lemma {:induction false} PrintedShort(n: nat)
    ensures n == 0 ==> PrintNat(n) == "0"
    ensures n > 0 ==> PrintNat(n)[0] != '0'
  {
    if n >= 10 { PrintedShort(n / 10); }
  }
}
