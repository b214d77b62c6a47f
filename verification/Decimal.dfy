/** Decimal numbers as the array indices of configuration paths use them. */
module Decimal {
  import opened Options
  import opened Text

  const MIN_INT: int := -0x8000_0000_0000_0000
  const MAX_INT: int := 0x7fff_ffff_ffff_ffff

  predicate IsInt64(i: int) { MIN_INT <= i <= MAX_INT }

  function DigitValue(c: char): (v: nat)
    requires IsDigit(c)
    ensures v < 10
  {
    (c as int) - ('0' as int)
  }

  function DigitChar(v: nat): (c: char)
    requires v < 10
    ensures IsDigit(c) && DigitValue(c) == v
  {
    '0' + (v as char)
  }

  predicate AllDigits(s: string) { forall i | 0 <= i < |s| :: IsDigit(s[i]) }

  function Value(s: string): nat
    requires AllDigits(s)
  {
    if s == "" then 0 else 10 * Value(s[..|s| - 1]) + DigitValue(s[|s| - 1])
  }

  /** Decimal digits of a natural number, without leading zeros. */
  function Digits(n: nat): (s: string)
    ensures |s| >= 1 && AllDigits(s)
  {
    if n < 10 then [DigitChar(n)] else Digits(n / 10) + [DigitChar(n % 10)]
  }

  function Itoa(i: int): string {
    if i < 0 then "-" + Digits(-i) else Digits(i)
  }

  /** Atoi: an optional sign and decimal digits, within the range of a 64-bit integer. */
  function Atoi(s: string): Option<int> {
    var signed := |s| > 0 && (s[0] == '+' || s[0] == '-');
    var digits := if signed then s[1..] else s;
    if digits == "" || !AllDigits(digits) then None
    else
      var i := if signed && s[0] == '-' then -(Value(digits) as int) else Value(digits);
      if IsInt64(i) then Some(i) else None
  }

  function ParseCanonicalIndex(s: string): Option<int> {
    if s == "" then None
    else if Atoi(s).Some? && Itoa(Atoi(s).value) == s then Atoi(s)
    else None
  }

  lemma {:induction false} DigitsValue(n: nat)
    ensures Value(Digits(n)) == n
  {
    var s := Digits(n);
    if n < 10 {
      assert s[..|s| - 1] == "";
    } else {
      DigitsValue(n / 10);
      assert s[..|s| - 1] == Digits(n / 10);
    }
  }

  lemma AtoiItoa(i: int)
    requires IsInt64(i)
    ensures Atoi(Itoa(i)) == Some(i)
  {
    if i < 0 {
      DigitsValue(-i);
      assert Itoa(i)[1..] == Digits(-i);
    } else {
      DigitsValue(i);
      assert IsDigit(Itoa(i)[0]);
    }
  }

  /** An index is accepted exactly when it is the decimal form of a 64-bit integer: no
      sign but a minus, no leading zeros, nothing else. */
  lemma CanonicalIndex(s: string, i: int)
    ensures ParseCanonicalIndex(s) == Some(i) <==> s == Itoa(i) && IsInt64(i)
  {
    if IsInt64(i) { AtoiItoa(i); }
  }
}
