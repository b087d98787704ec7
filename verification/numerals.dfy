/** Decimal rendering of natural numbers, as Python's `str(int)` and f-strings
    produce it, and the "Точка k" label that the point cards and the chart
    legends are built from. */
module Numerals {

  predicate IsDigit(c: char) {
    '0' <= c <= '9'
  }

  predicate AllDigits(s: string) {
    forall i :: 0 <= i < |s| ==> IsDigit(s[i])
  }

  function DigitChar(d: nat): (c: char)
    requires d < 10
    ensures IsDigit(c)
  {
    ('0' as int + d) as char
  }

  function DigitValue(c: char): (d: nat)
    requires IsDigit(c)
    ensures d < 10
  {
    c as int - '0' as int
  }

  /** The decimal numeral of `n`: digits only, never empty, and without a
      leading zero unless `n` is zero itself. */
  function NatToString(n: nat): (s: string)
    ensures 0 < |s|
    ensures AllDigits(s)
    ensures n != 0 ==> s[0] != '0'
    ensures n < 10 <==> |s| == 1
    decreases n
  {
    if n < 10 then [DigitChar(n)] else NatToString(n / 10) + [DigitChar(n % 10)]
  }

  /** The value a string of decimal digits denotes (the reading direction). */
  function ParseDigits(s: string): nat
    requires AllDigits(s)
  {
    if |s| == 0 then 0 else ParseDigits(s[..|s| - 1]) * 10 + DigitValue(s[|s| - 1])
  }

  /** Reading back a rendered numeral yields the number that was rendered. */
  lemma {:induction false} ParseNatToString(n: nat)
    ensures ParseDigits(NatToString(n)) == n
    decreases n
  {
    var s := NatToString(n);
    if n < 10 {
      assert s[..|s| - 1] == [];
    } else {
      var prefix := NatToString(n / 10);
      assert s[..|s| - 1] == prefix;
      ParseNatToString(n / 10);
      assert ParseDigits(s) == (n / 10) * 10 + n % 10;
    }
  }

  /** Distinct numbers render as distinct numerals. */
  lemma NatToStringInjective(a: nat, b: nat)
    ensures NatToString(a) == NatToString(b) <==> a == b
  {
    if NatToString(a) == NatToString(b) {
      ParseNatToString(a);
      ParseNatToString(b);
    }
  }

  /** The word every point label starts with, followed by a space. */
  const PointPrefix: string := "Точка "

  /** The label `f"Точка {k}"` of the k-th point (k counts from 1). */
  function PointLabel(k: nat): (s: string)
    ensures |PointPrefix| < |s|
    ensures s[..|PointPrefix|] == PointPrefix
    ensures AllDigits(s[|PointPrefix|..])
    ensures ParseDigits(s[|PointPrefix|..]) == k
  {
    ParseNatToString(k);
    assert (PointPrefix + NatToString(k))[|PointPrefix|..] == NatToString(k);
    PointPrefix + NatToString(k)
  }

  /** Two point labels coincide exactly when they name the same number. */
  lemma PointLabelInjective(a: nat, b: nat)
    ensures PointLabel(a) == PointLabel(b) <==> a == b
  {
  }
}
