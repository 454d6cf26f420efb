/** Decimal formatting of non-negative integers as JavaScript does it with
    `String(n)` and `padStart`, and the inverse reading of a digit string. */
module Decimal {

  predicate IsDigit(c: char)
  {
    '0' <= c <= '9'
  }

  predicate AllDigits(s: string)
  {
    forall i :: 0 <= i < |s| ==> IsDigit(s[i])
  }

  function DigitChar(d: nat): (c: char)
    requires d < 10
    ensures IsDigit(c) && c as int - '0' as int == d
  {
    ('0' as int + d) as char
  }

  function DigitValue(c: char): (d: nat)
    requires IsDigit(c)
    ensures d < 10
  {
    c as int - '0' as int
  }

  /** `String(n)`: the decimal digits of `n`, most significant first, without a
      leading zero except for `n == 0` itself. */
  function ToDecimal(n: nat): (s: string)
    ensures |s| >= 1 && AllDigits(s)
    ensures s[0] == '0' ==> n == 0
    ensures n < 10 <==> |s| == 1
    decreases n
  {
    if n < 10 then [DigitChar(n)] else ToDecimal(n / 10) + [DigitChar(n % 10)]
  }

  /** The number a digit string denotes in base ten; leading zeros are allowed. */
  function ValueOf(s: string): nat
    requires AllDigits(s)
    decreases |s|
  {
    if |s| == 0 then 0 else ValueOf(s[..|s| - 1]) * 10 + DigitValue(s[|s| - 1])
  }

  /** Reading back what `ToDecimal` wrote gives the number again. */
  lemma {:induction false} ValueOfToDecimal(n: nat)
    ensures ValueOf(ToDecimal(n)) == n
    decreases n
  {
    if n >= 10 {
      ValueOfToDecimal(n / 10);
      var s := ToDecimal(n);
      assert s[..|s| - 1] == ToDecimal(n / 10);
    }
  }

  /** `s.padStart(width, fill)` for a one-character `fill`: `s` itself when it is
      already `width` long, otherwise `s` preceded by enough copies of `fill`. */
  function PadStart(s: string, width: nat, fill: char): (r: string)
    ensures |r| == if |s| >= width then |s| else width
    ensures r[|r| - |s|..] == s
    ensures forall i :: 0 <= i < |r| - |s| ==> r[i] == fill
  {
    if |s| >= width then s else seq(width - |s|, _ => fill) + s
  }

  /** Leading zeros do not change the value of a digit string. */
  lemma {:induction false} LeadingZerosKeepValue(z: string, s: string)
    requires forall i :: 0 <= i < |z| ==> z[i] == '0'
    requires AllDigits(s)
    ensures AllDigits(z + s) && ValueOf(z + s) == ValueOf(s)
    decreases |s|
  {
    if |s| == 0 {
      assert z + s == z;
      ZerosHaveNoValue(z);
    } else {
      var t := z + s;
      assert t[..|t| - 1] == z + s[..|s| - 1];
      LeadingZerosKeepValue(z, s[..|s| - 1]);
    }
  }

  lemma {:induction false} ZerosHaveNoValue(z: string)
    requires forall i :: 0 <= i < |z| ==> z[i] == '0'
    ensures AllDigits(z) && ValueOf(z) == 0
    decreases |z|
  {
    if |z| > 0 {
      ZerosHaveNoValue(z[..|z| - 1]);
    }
  }

  /** Zero-padding a decimal numeral keeps it a numeral for the same number. */
  lemma PaddedDecimalValue(n: nat, width: nat)
    ensures AllDigits(PadStart(ToDecimal(n), width, '0'))
    ensures ValueOf(PadStart(ToDecimal(n), width, '0')) == n
  {
    var s := ToDecimal(n);
    var r := PadStart(s, width, '0');
    var z := r[..|r| - |s|];
    assert r == z + s;
    LeadingZerosKeepValue(z, s);
    ValueOfToDecimal(n);
  }
}
