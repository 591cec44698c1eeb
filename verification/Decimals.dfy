// Decimal notation: str(n), zero padding, and reading it back.
module Decimals {

  predicate IsDigit(c: char) {
    '0' <= c <= '9'
  }

  function DigitValue(c: char): (v: nat)
    requires IsDigit(c)
    ensures v < 10
  {
    c as int - '0' as int
  }

  function DigitChar(v: nat): (c: char)
    requires v < 10
    ensures IsDigit(c) && DigitValue(c) == v
  {
    (v + '0' as int) as char
  }

  predicate AllDigits(s: string) {
    forall i :: 0 <= i < |s| ==> IsDigit(s[i])
  }

  /** `str(n)`. */
  function Decimal(n: nat): (s: string)
    ensures AllDigits(s) && s != ""
  {
    if n < 10 then [DigitChar(n)] else Decimal(n / 10) + [DigitChar(n % 10)]
  }

  /** `int(s)`. */
  function ParseNat(s: string): nat
    requires AllDigits(s)
  {
    if s == "" then 0 else ParseNat(s[..|s| - 1]) * 10 + DigitValue(s[|s| - 1])
  }

  /** `f"{n:0{width}d}"`, for a string of digits. */
  function ZeroPad(s: string, width: nat): (r: string)
    requires AllDigits(s)
    ensures AllDigits(r)
    ensures |r| == if |s| < width then width else |s|
    decreases width - |s|
  {
    if |s| >= width then s else ZeroPad("0" + s, width)
  }

  function Padded(n: nat, width: nat): (s: string)
    ensures AllDigits(s) && s != ""
  {
    ZeroPad(Decimal(n), width)
  }

  lemma {:induction false} ParseDecimal(n: nat)
    ensures ParseNat(Decimal(n)) == n
  {
    if n >= 10 {
      ParseDecimal(n / 10);
      assert Decimal(n)[..|Decimal(n)| - 1] == Decimal(n / 10);
    }
  }

  lemma {:induction false} ParseLeadingZero(s: string)
    requires AllDigits(s)
    ensures ParseNat("0" + s) == ParseNat(s)
  {
    if s == "" {
      assert "0" + s == "0";
      assert "0"[..0] == "";
    } else {
      var n := |s| - 1;
      ParseLeadingZero(s[..n]);
      assert ("0" + s)[..n + 1] == "0" + s[..n];
    }
  }

  lemma {:induction false} ParseZeroPad(s: string, width: nat)
    requires AllDigits(s)
    ensures ParseNat(ZeroPad(s, width)) == ParseNat(s)
    decreases width - |s|
  {
    if |s| < width {
      ParseZeroPad("0" + s, width);
      ParseLeadingZero(s);
    }
  }

  /** Reading back what was written, whatever the width. */
  lemma {:induction false} ParsePadded(n: nat, width: nat)
    ensures ParseNat(Padded(n, width)) == n
  {
    ParseDecimal(n);
    ParseZeroPad(Decimal(n), width);
  }

  lemma {:induction false} PaddedLength(n: nat, width: nat)
    requires 1 <= width && n < Pow10(width)
    ensures |Padded(n, width)| == width
  {
    DecimalLength(n, width);
  }

  function Pow10(n: nat): nat {
    if n == 0 then 1 else 10 * Pow10(n - 1)
  }

  lemma {:induction false} DecimalLength(n: nat, width: nat)
    requires 1 <= width && n < Pow10(width)
    ensures |Decimal(n)| <= width
    ensures n >= Pow10(width - 1) && width > 1 ==> |Decimal(n)| == width
  {
    if n >= 10 {
      assert width > 1;
      DecimalLength(n / 10, width - 1);
    }
  }
}
