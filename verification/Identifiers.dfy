// core/rules/identifiers.py and the structured communication of core/rules/belgian_peppol.py: the
// mod-97 control of Belgian VAT numbers, IBANs (ISO/IEC 7064 MOD 97-10 as ISO 13616 uses it) and
// payment references. Text is ASCII.
module Identifiers {
  import opened Common
  import opened Decimals
  import opened Text

  // ------------------------------------------------------------------ cleaning

  predicate IsSeparator(c: char) {
    IsSpace(c) || c in {'.', '-', '_', '/'}
  }

  predicate IsCapital(c: char) {
    'A' <= c <= 'Z'
  }

  /** The characters of s that satisfy `keep`, in order: what a regex substitution by "" leaves. */
  function Kept(s: string, keep: char -> bool): (r: string)
    ensures forall i :: 0 <= i < |r| ==> keep(r[i])
    ensures |r| <= |s|
  {
    if s == "" then ""
    else Kept(s[..|s| - 1], keep) + if keep(s[|s| - 1]) then [s[|s| - 1]] else ""
  }

  function Digits(s: string): (r: string)
    ensures AllDigits(r)
  {
    Kept(s, c => IsDigit(c))
  }

  function Unseparated(s: string): string {
    Kept(s, c => !IsSeparator(c))
  }

  function Unspaced(s: string): string {
    Kept(s, c => !IsSpace(c))
  }

  lemma {:induction false} KeptAll(s: string, keep: char -> bool)
    requires forall i :: 0 <= i < |s| ==> keep(s[i])
    ensures Kept(s, keep) == s
  {
    if s != "" {
      KeptAll(s[..|s| - 1], keep);
    }
  }

  // ------------------------------------------------------------------ VAT numbers

  function Given(raw: Option<string>): string {
    if raw.Some? then raw.value else ""
  }

  function CanonicalizeVat(raw: Option<string>, country: string): string {
    var cleaned := Upper(Unseparated(Given(raw)));
    if cleaned == "" then ""
    else if country == "BE" then
      var digits := Digits(if "BE" <= cleaned then cleaned[2..] else cleaned);
      if |digits| == 9 then "BE0" + digits
      else if |digits| == 10 then "BE" + digits
      else if "BE" <= cleaned then cleaned
      else "BE" + digits
    else if country <= cleaned then cleaned
    else country + cleaned
  }

  predicate BelgianShape(s: string) {
    |s| == 12 && s[..2] == "BE" && AllDigits(s[2..])
  }

  function ValidateBelgianVat(raw: Option<string>): Option<string> {
    var canonical := CanonicalizeVat(raw, "BE");
    if !BelgianShape(canonical) then None
    else if 97 - ParseNat(canonical[2..10]) % 97 == ParseNat(canonical[10..]) then Some(canonical)
    else None
  }

  /** The control as the tax administration states it: the eight-digit base and the two control
      digits add up to a multiple of 97, and the control lies in 1..97. */
  predicate SoundControl(digits: string)
    requires |digits| == 10 && AllDigits(digits)
  {
    var base, ctrl := ParseNat(digits[..8]), ParseNat(digits[8..]);
    (base + ctrl) % 97 == 0 && 1 <= ctrl <= 97
  }

  lemma {:induction false} CanonicalForms(digits: string)
    requires |digits| == 10 && AllDigits(digits)
    ensures CanonicalizeVat(Some("BE" + digits), "BE") == "BE" + digits
  {
    var s := "BE" + digits;
    KeptAll(s, c => !IsSeparator(c));
    assert Upper(s) == s;
    assert s[2..] == digits;
    KeptAll(digits, c => IsDigit(c));
  }

  /** Accepted exactly when the control is sound. */
  lemma {:induction false} BelgianVatAcceptedIff(digits: string)
    requires |digits| == 10 && AllDigits(digits)
    ensures ValidateBelgianVat(Some("BE" + digits)) == if SoundControl(digits) then Some("BE" + digits) else None
  {
    hide CanonicalizeVat, ParseNat;
    CanonicalForms(digits);
    var s := "BE" + digits;
    assert s[2..] == digits && s[2..10] == digits[..8] && s[10..] == digits[8..];
  }

  /** Whatever was typed, what comes back is a canonical number with a sound control, and
      validating it again returns it unchanged. */
  lemma {:induction false} BelgianVatIsCanonical(raw: Option<string>)
    ensures match ValidateBelgianVat(raw)
      case None => true
      case Some(s) => BelgianShape(s) && SoundControl(s[2..]) && ValidateBelgianVat(Some(s)) == Some(s)
  {
    hide CanonicalizeVat, ParseNat;
    if ValidateBelgianVat(raw).Some? {
      var s := ValidateBelgianVat(raw).value;
      assert s[2..10] == s[2..][..8] && s[10..] == s[2..][8..];
      assert s == "BE" + s[2..];
      BelgianVatAcceptedIff(s[2..]);
    }
  }

  // ------------------------------------------------------------------ arithmetic modulo 97

  /** 97 is prime to 10: 68 undoes a multiplication by 10. */
  lemma {:induction false} TenInvertible(x: int)
    requires (10 * x) % 97 == 0
    ensures x % 97 == 0
  {
    var q := (10 * x) / 97;
    assert 10 * x == 97 * q;
    assert x == 97 * (68 * q - 7 * x);
  }

  lemma {:induction false} ShiftedNonZero(d: int, m: nat)
    requires d % 97 != 0
    ensures (d * Pow10(m)) % 97 != 0
  {
    if m > 0 {
      ShiftedNonZero(d, m - 1);
      assert d * Pow10(m) == 10 * (d * Pow10(m - 1)) by {
        assert Pow10(m) == 10 * Pow10(m - 1);
      }
      if (10 * (d * Pow10(m - 1))) % 97 == 0 {
        TenInvertible(d * Pow10(m - 1));
      }
    }
  }

  lemma {:induction false} ShiftedResidue(d: int, m: nat)
    ensures (d * Pow10(m)) % 97 == 0 <==> d % 97 == 0
  {
    hide Pow10;
    if d % 97 != 0 {
      ShiftedNonZero(d, m);
    } else {
      assert d == 97 * (d / 97);
      assert d * Pow10(m) == 97 * (d / 97 * Pow10(m));
      MultipleOf97(d / 97 * Pow10(m));
    }
  }

  lemma {:induction false} SameResidue(a: int, b: int)
    ensures a % 97 == b % 97 <==> (a - b) % 97 == 0
  {
    var q, r := a / 97, b / 97;
    assert a == 97 * q + a % 97 && b == 97 * r + b % 97;
    assert a % 97 == b % 97 ==> a - b == 97 * (q - r);
    assert (a - b) % 97 == 0 ==> a % 97 - b % 97 == 97 * ((a - b) / 97 - q + r);
  }

  // ------------------------------------------------------------------ decimal numbers, digit by digit

  lemma {:induction false} ParseSnoc(s: string, c: char)
    requires AllDigits(s) && IsDigit(c)
    ensures AllDigits(s + [c]) && ParseNat(s + [c]) == ParseNat(s) * 10 + DigitValue(c)
  {
    assert (s + [c])[..|s|] == s;
  }

  lemma {:induction false} ParseAppend(a: string, b: string)
    requires AllDigits(a) && AllDigits(b)
    ensures ParseNat(a + b) == ParseNat(a) * Pow10(|b|) + ParseNat(b)
  {
    if b == "" {
      assert a + b == a;
    } else {
      var n := |b| - 1;
      hide ParseNat, Pow10;
      ParseAppend(a, b[..n]);
      ParseSnoc(b[..n], b[n]);
      ParseSnoc(a + b[..n], b[n]);
      assert b == b[..n] + [b[n]];
      assert a + b == (a + b[..n]) + [b[n]];
      ShiftOnce(ParseNat(a), n);
    }
  }

  lemma {:induction false} ShiftOnce(x: nat, n: nat)
    ensures x * Pow10(n + 1) == (x * Pow10(n)) * 10
  {
  }

  /** Replacing one digit moves the number by that difference, shifted to the digit's place. */
  lemma {:induction false} ParseReplaced(s: string, i: nat, c: char)
    requires AllDigits(s) && i < |s| && IsDigit(c)
    ensures ParseNat(s[i := c]) - ParseNat(s) == (DigitValue(c) - DigitValue(s[i])) * Pow10(|s| - 1 - i)
  {
    var n := |s| - 1;
    if i == n {
      assert s[i := c][..n] == s[..n];
    } else {
      assert s[i := c][..n] == s[..n][i := c];
      ParseReplaced(s[..n], i, c);
      assert Pow10(n - i) == 10 * Pow10(n - 1 - i);
      TimesTen(DigitValue(c) - DigitValue(s[i]), Pow10(n - 1 - i));
    }
  }

  lemma {:induction false} TimesTen(d: int, p: nat)
    ensures 10 * (d * p) == d * (10 * p)
  {
  }

  // ------------------------------------------------------------------ what the VAT control catches

  function BasePlusControl(digits: string): nat
    requires |digits| == 10 && AllDigits(digits)
  {
    ParseNat(digits[..8]) + ParseNat(digits[8..])
  }

  /** A digit of the base counts at its decimal place, a digit of the control at its own. */
  function Place(i: nat): nat
    requires i < 10
  {
    if i < 8 then 7 - i else 9 - i
  }

  lemma {:induction false} ReplacedControl(digits: string, i: nat, c: char)
    requires |digits| == 10 && AllDigits(digits) && i < 10 && IsDigit(c)
    ensures BasePlusControl(digits[i := c]) - BasePlusControl(digits)
         == (DigitValue(c) - DigitValue(digits[i])) * Pow10(Place(i))
  {
    var base, ctrl := digits[..8], digits[8..];
    if i < 8 {
      assert digits[i := c][..8] == base[i := c] && digits[i := c][8..] == ctrl;
      ParseReplaced(base, i, c);
    } else {
      assert digits[i := c][..8] == base && digits[i := c][8..] == ctrl[i - 8 := c];
      ParseReplaced(ctrl, i - 8, c);
    }
  }

  /** Mistyping any one digit of a valid Belgian VAT number is always caught. */
  lemma {:induction false} VatDigitChangeRejected(digits: string, i: nat, c: char)
    requires |digits| == 10 && AllDigits(digits) && i < 10 && IsDigit(c) && c != digits[i]
    requires ValidateBelgianVat(Some("BE" + digits)).Some?
    ensures ValidateBelgianVat(Some("BE" + digits[i := c])).None?
  {
    hide ValidateBelgianVat, ParseNat, Pow10;
    BelgianVatAcceptedIff(digits);
    BelgianVatAcceptedIff(digits[i := c]);
    ReplacedControl(digits, i, c);
    var d := DigitValue(c) - DigitValue(digits[i]);
    assert -9 <= d <= 9 && d != 0;
    ShiftedNonZero(d, Place(i));
    SameResidue(BasePlusControl(digits[i := c]), BasePlusControl(digits));
  }

  function Swapped(s: string, i: nat): (r: string)
    requires i + 1 < |s|
    ensures |r| == |s| && multiset(r) == multiset(s)
  {
    s[i := s[i + 1]][i + 1 := s[i]]
  }

  lemma {:induction false} SwappedControl(digits: string, i: nat)
    requires |digits| == 10 && AllDigits(digits) && i + 1 < 10
    ensures var d := DigitValue(digits[i + 1]) - DigitValue(digits[i]);
            BasePlusControl(Swapped(digits, i)) - BasePlusControl(digits) == d * Pow10(Place(i)) - d * Pow10(Place(i + 1))
  {
    hide ParseNat, Pow10, BasePlusControl;
    var half := digits[i := digits[i + 1]];
    var d, p := DigitValue(digits[i + 1]) - DigitValue(digits[i]), Pow10(Place(i + 1));
    ReplacedControl(digits, i, digits[i + 1]);
    ReplacedControl(half, i + 1, digits[i]);
    assert (DigitValue(digits[i]) - DigitValue(half[i + 1])) * p == (-d) * p == -(d * p);
  }

  /** Swapping any two different neighbouring digits, across the control too, is always caught. */
  lemma {:induction false} VatSwapRejected(digits: string, i: nat)
    requires |digits| == 10 && AllDigits(digits) && i + 1 < 10 && digits[i] != digits[i + 1]
    requires ValidateBelgianVat(Some("BE" + digits)).Some?
    ensures ValidateBelgianVat(Some("BE" + Swapped(digits, i))).None?
  {
    hide ValidateBelgianVat, ParseNat, Pow10;
    var swapped := Swapped(digits, i);
    BelgianVatAcceptedIff(digits);
    BelgianVatAcceptedIff(swapped);
    SwappedControl(digits, i);
    SwapDifference(DigitValue(digits[i + 1]) - DigitValue(digits[i]), i);
    SameResidue(BasePlusControl(swapped), BasePlusControl(digits));
  }

  lemma {:induction false} SwapDifference(d: int, i: nat)
    requires -9 <= d <= 9 && d != 0 && i + 1 < 10
    ensures (d * Pow10(Place(i)) - d * Pow10(Place(i + 1))) % 97 != 0
  {
    if i == 7 {
      assert Pow10(Place(7)) == 1 && Pow10(Place(8)) == 10;
      assert d * Pow10(Place(i)) - d * Pow10(Place(i + 1)) == -9 * d;
    } else {
      var m := Place(i + 1);
      assert Pow10(Place(i)) == 10 * Pow10(m);
      NineTimes(d, Pow10(m));
      ShiftedNonZero(9 * d, m);
    }
  }

  lemma {:induction false} NineTimes(d: int, p: nat)
    ensures d * (10 * p) - d * p == (9 * d) * p
  {
  }

  // ------------------------------------------------------------------ IBAN

  /** Country -> IBAN length; None for a country the table does not list. */
  function IbanLength(country: string): Option<nat> {
    if country == "NO" then Some(15)
    else if country == "BE" then Some(16)
    else if country == "NL" || country == "DK" || country == "FI" then Some(18)
    else if country == "LU" || country == "AT" then Some(20)
    else if country == "CH" then Some(21)
    else if country == "DE" || country == "IE" || country == "GB" then Some(22)
    else if country == "ES" || country == "SE" then Some(24)
    else if country == "PT" then Some(25)
    else if country == "FR" || country == "IT" then Some(27)
    else if country == "PL" then Some(28)
    else None
  }

  predicate IsIbanChar(c: char) {
    IsCapital(c) || IsDigit(c)
  }

  predicate AllIban(s: string) {
    forall i :: 0 <= i < |s| ==> IsIbanChar(s[i])
  }

  predicate IbanShape(s: string) {
    |s| >= 5 && IsCapital(s[0]) && IsCapital(s[1]) && IsDigit(s[2]) && IsDigit(s[3]) && AllIban(s)
  }

  function CharValue(c: char): (v: nat)
    requires IsIbanChar(c)
    ensures if IsDigit(c) then v < 10 else 10 <= v <= 35
  {
    if IsCapital(c) then c as int - 55 else DigitValue(c)
  }

  /** ISO 13616: each letter replaced by two digits, A = 10 to Z = 35. */
  function Expanded(s: string): (r: string)
    requires AllIban(s)
    ensures AllDigits(r)
  {
    if s == "" then "" else Expanded(s[..|s| - 1]) + Decimal(CharValue(s[|s| - 1]))
  }

  /** The integer ISO 13616 takes modulo 97: the four first characters go to the end. */
  function IbanNumber(s: string): nat
    requires IbanShape(s)
  {
    ParseNat(Expanded(s[4..] + s[..4]))
  }

  /** ISO 13616, for the characters that are left once white space is dropped. */
  predicate SoundIban(s: string) {
    && IbanShape(s)
    && (IbanLength(s[..2]).Some? ==> |s| == IbanLength(s[..2]).value)
    && IbanNumber(s) % 97 == 1
  }

  method ValidateIban(raw: Option<string>) returns (r: Option<string>)
    ensures var cleaned := Upper(Unspaced(Given(raw)));
            r == if SoundIban(cleaned) then Some(cleaned) else None
  {
    hide Unspaced, Upper, IbanLength, Expanded, ParseNat;
    var cleaned := Upper(Unspaced(Given(raw)));
    if !IbanShape(cleaned) {
      return None;
    }
    var expected := IbanLength(cleaned[..2]);
    if expected.Some? && |cleaned| != expected.value {
      return None;
    }
    var remainder := Remainder(cleaned[4..] + cleaned[..4]);
    r := if remainder == 1 then Some(cleaned) else None;
  }

  /** The loop of `validate_iban`. It never builds the expanded number: it keeps a remainder. */
  method Remainder(rearranged: string) returns (remainder: nat)
    requires AllIban(rearranged)
    ensures remainder == ParseNat(Expanded(rearranged)) % 97
  {
    hide Expanded, ParseNat, CharValue;
    remainder := 0;
    EmptyExpansion();
    for i := 0 to |rearranged|
      invariant remainder == NumberOf(rearranged[..i]) % 97
    {
      var value := CharValue(rearranged[i]);
      ExpandOnce(rearranged, i);
      RemainderStep(NumberOf(rearranged[..i]), if value >= 10 then 100 else 10, value);
      remainder := (remainder * (if value >= 10 then 100 else 10) + value) % 97;
    }
    assert rearranged[..|rearranged|] == rearranged;
  }

  lemma {:induction false} EmptyExpansion()
    ensures Expanded("") == "" && NumberOf("") == 0
  {
  }

  lemma {:induction false} RemainderStep(x: nat, base: nat, v: nat)
    ensures ((x % 97) * base + v) % 97 == (x * base + v) % 97
  {
    var q := x / 97;
    assert x * base == 97 * (q * base) + (x % 97) * base by {
      assert x == 97 * q + x % 97;
    }
    SameResidue(x * base + v, (x % 97) * base + v);
    MultipleOf97(q * base);
  }

  lemma {:induction false} MultipleOf97(k: int)
    ensures (97 * k) % 97 == 0
  {
  }

  lemma {:induction false} ExpandOnce(s: string, i: nat)
    requires AllIban(s) && i < |s|
    ensures var v := CharValue(s[i]);
            ParseNat(Expanded(s[..i + 1])) == ParseNat(Expanded(s[..i])) * (if v >= 10 then 100 else 10) + v
  {
    var v := CharValue(s[i]);
    assert s[..i + 1][..i] == s[..i];
    ParseAppend(Expanded(s[..i]), Decimal(v));
    ParseDecimal(v);
    DecimalWidth(v);
    WidthScale(v);
  }

  function Width(v: nat): nat {
    if v < 10 then 1 else 2
  }

  lemma {:induction false} DecimalWidth(v: nat)
    requires v < 100
    ensures |Decimal(v)| == Width(v)
  {
    assert v >= 10 ==> v / 10 < 10;
  }

  lemma {:induction false} WidthScale(v: nat)
    ensures Pow10(Width(v)) == if v >= 10 then 100 else 10
  {
    assert Pow10(1) == 10 * Pow10(0);
    assert Pow10(2) == 10 * Pow10(1);
  }

  // ------------------------------------------------------------------ what the IBAN control catches

  lemma {:induction false} ExpandSnoc(s: string, c: char)
    requires AllIban(s) && IsIbanChar(c)
    ensures AllIban(s + [c]) && Expanded(s + [c]) == Expanded(s) + Decimal(CharValue(c))
  {
    hide IsIbanChar, CharValue, Decimal;
    assert (s + [c])[..|s|] == s;
  }

  lemma {:induction false} Associative(a: string, b: string, c: string)
    ensures (a + b) + c == a + (b + c)
  {
  }

  lemma {:induction false} ExpandAppend(a: string, b: string)
    requires AllIban(a) && AllIban(b)
    ensures Expanded(a + b) == Expanded(a) + Expanded(b)
  {
    hide IsIbanChar, CharValue, Decimal, Expanded;
    if b == "" {
      assert a + b == a;
      EmptyExpansion();
    } else {
      var n := |b| - 1;
      ExpandAppend(a, b[..n]);
      ExpandSnoc(b[..n], b[n]);
      ExpandSnoc(a + b[..n], b[n]);
      assert b == b[..n] + [b[n]];
      Associative(a, b[..n], [b[n]]);
      Associative(Expanded(a), Expanded(b[..n]), Decimal(CharValue(b[n])));
    }
  }

  function NumberOf(s: string): nat
    requires AllIban(s)
  {
    ParseNat(Expanded(s))
  }

  function Scale(s: string): nat
    requires AllIban(s)
  {
    Pow10(|Expanded(s)|)
  }

  lemma {:induction false} NumberAppend(a: string, b: string)
    requires AllIban(a) && AllIban(b)
    ensures NumberOf(a + b) == NumberOf(a) * Scale(b) + NumberOf(b)
  {
    ExpandAppend(a, b);
    ParseAppend(Expanded(a), Expanded(b));
  }

  /** Two texts that differ in one stretch of the same expanded width differ by that stretch's
      difference, shifted. */
  lemma {:induction false} MiddleDifference(a: string, m: string, m': string, b: string)
    requires AllIban(a) && AllIban(m) && AllIban(m') && AllIban(b)
    requires |Expanded(m)| == |Expanded(m')|
    ensures NumberOf(a + m' + b) - NumberOf(a + m + b) == (NumberOf(m') - NumberOf(m)) * Scale(b)
  {
    hide NumberOf, Scale;
    NumberAppend(a, m);
    NumberAppend(a, m');
    NumberAppend(a + m, b);
    NumberAppend(a + m', b);
    assert Scale(m) == Scale(m') by { SameScale(m, m'); }
    Factor(NumberOf(a) * Scale(m) + NumberOf(m), NumberOf(a) * Scale(m) + NumberOf(m'), Scale(b));
  }

  lemma {:induction false} SameScale(m: string, m': string)
    requires AllIban(m) && AllIban(m') && |Expanded(m)| == |Expanded(m')|
    ensures Scale(m) == Scale(m')
  {
  }

  lemma {:induction false} Factor(x: int, y: int, p: int)
    ensures y * p - x * p == (y - x) * p
  {
  }

  lemma {:induction false} MiddleResidue(a: string, m: string, m': string, b: string)
    requires AllIban(a) && AllIban(m) && AllIban(m') && AllIban(b)
    requires |Expanded(m)| == |Expanded(m')|
    ensures NumberOf(a + m' + b) % 97 == NumberOf(a + m + b) % 97 <==> (NumberOf(m') - NumberOf(m)) % 97 == 0
  {
    hide NumberOf, Pow10, Expanded;
    MiddleDifference(a, m, m', b);
    SameResidue(NumberOf(a + m' + b), NumberOf(a + m + b));
    ShiftedResidue(NumberOf(m') - NumberOf(m), |Expanded(b)|);
  }

  lemma {:induction false} NumberOfOne(c: char)
    requires IsIbanChar(c)
    ensures NumberOf([c]) == CharValue(c) && |Expanded([c])| == Width(CharValue(c))
  {
    assert [c][..0] == "";
    assert Expanded([c]) == Decimal(CharValue(c));
    ParseDecimal(CharValue(c));
    DecimalWidth(CharValue(c));
  }

  lemma {:induction false} NumberOfTwo(c: char, d: char)
    requires IsIbanChar(c) && IsIbanChar(d)
    ensures NumberOf([c, d]) == CharValue(c) * (if IsDigit(d) then 10 else 100) + CharValue(d)
    ensures |Expanded([c, d])| == Width(CharValue(c)) + Width(CharValue(d))
  {
    assert [c, d] == [c] + [d];
    NumberOfOne(c);
    NumberOfOne(d);
    NumberAppend([c], [d]);
    ExpandAppend([c], [d]);
    WidthScale(CharValue(d));
  }

  predicate SameClass(c: char, d: char) {
    (IsDigit(c) && IsDigit(d)) || (IsCapital(c) && IsCapital(d))
  }

  lemma {:induction false} OneCharApart(c: char, d: char)
    requires IsIbanChar(c) && SameClass(c, d) && c != d
    ensures IsIbanChar(d) && |Expanded([c])| == |Expanded([d])| && (NumberOf([d]) - NumberOf([c])) % 97 != 0
  {
    NumberOfOne(c);
    NumberOfOne(d);
    hide NumberOf, Expanded;
  }

  lemma {:induction false} OneInTheMiddle(a: string, c: char, d: char, b: string)
    requires AllIban(a) && AllIban(b) && IsIbanChar(c) && SameClass(c, d) && c != d
    ensures AllIban(a + [c] + b) && AllIban(a + [d] + b) && NumberOf(a + [d] + b) % 97 != NumberOf(a + [c] + b) % 97
  {
    OneCharApart(c, d);
    hide NumberOf, Expanded, SameClass;
    MiddleResidue(a, [c], [d], b);
  }

  lemma {:induction false} OneApart(s: string, j: nat, c: char)
    requires AllIban(s) && j < |s| && SameClass(s[j], c) && c != s[j]
    ensures AllIban(s[j := c]) && NumberOf(s[j := c]) % 97 != NumberOf(s) % 97
  {
    hide NumberOf;
    OneInTheMiddle(s[..j], s[j], c, s[j + 1..]);
    assert s == s[..j] + [s[j]] + s[j + 1..] && s[j := c] == s[..j] + [c] + s[j + 1..];
  }

  /** Replacing one digit by another digit, or one letter by another letter, anywhere in a valid
      IBAN is always caught. */
  lemma {:induction false} IbanChangeRejected(s: string, i: nat, c: char)
    requires SoundIban(s) && i < |s| && SameClass(s[i], c) && c != s[i]
    ensures !SoundIban(s[i := c])
  {
    hide IbanLength;
    var t := s[i := c];
    assert IbanShape(t);
    var rotated := s[4..] + s[..4];
    var j := if i < 4 then |s| - 4 + i else i - 4;
    assert t[4..] + t[..4] == rotated[j := c];
    assert IbanNumber(s) == NumberOf(rotated) && IbanNumber(t) == NumberOf(rotated[j := c]);
    OneApart(rotated, j, c);
  }

  /** Two characters that read the same either way round: a digit next to the letter worth eleven
      times as much, 1 and B, 2 and M, 3 and X. */
  predicate Palindromic(c: char, d: char)
    requires IsIbanChar(c) && IsIbanChar(d)
  {
    (IsDigit(c) && IsCapital(d) && CharValue(d) == 11 * CharValue(c))
    || (IsCapital(c) && IsDigit(d) && CharValue(c) == 11 * CharValue(d))
  }

  lemma {:induction false} PairDifference(c: char, d: char)
    requires IsIbanChar(c) && IsIbanChar(d)
    ensures var x, y := CharValue(c), CharValue(d);
            NumberOf([d, c]) - NumberOf([c, d])
            == (if IsDigit(c) then 10 else 100) * y + x - ((if IsDigit(d) then 10 else 100) * x + y)
  {
    NumberOfTwo(c, d);
    NumberOfTwo(d, c);
    hide NumberOf, CharValue, Expanded, IsDigit;
  }

  lemma {:induction false} CharRange(c: char)
    requires IsIbanChar(c)
    ensures if IsDigit(c) then !IsCapital(c) && 0 <= CharValue(c) <= 9 else IsCapital(c) && 10 <= CharValue(c) <= 35
  {
  }

  lemma {:induction false} PalindromicMeans(c: char, d: char)
    requires IsIbanChar(c) && IsIbanChar(d)
    ensures Palindromic(c, d) <==>
      (IsDigit(c) && IsCapital(d) && CharValue(d) == 11 * CharValue(c)) || (IsCapital(c) && IsDigit(d) && CharValue(c) == 11 * CharValue(d))
  {
    hide CharValue;
  }

  lemma {:induction false} PairResidue(c: char, d: char)
    requires IsIbanChar(c) && IsIbanChar(d) && c != d
    ensures (NumberOf([d, c]) - NumberOf([c, d])) % 97 == 0 <==> Palindromic(c, d)
  {
    hide NumberOf, CharValue, Expanded, Palindromic;
    PairDifference(c, d);
    DifferentValues(c, d);
    PalindromicMeans(c, d);
    CharRange(c);
    CharRange(d);
    var x: int, y: int := CharValue(c), CharValue(d);
    if IsDigit(c) && IsDigit(d) {
      SmallMultiples(y - x);
      assert NumberOf([d, c]) - NumberOf([c, d]) == 9 * (y - x);
    } else if IsCapital(c) && IsCapital(d) {
      SmallMultiples(y - x);
      assert NumberOf([d, c]) - NumberOf([c, d]) == 99 * (y - x);
    } else if IsDigit(c) {
      SmallMultiples(y - 11 * x);
      assert NumberOf([d, c]) - NumberOf([c, d]) == 9 * (y - 11 * x);
    } else {
      SmallMultiples(11 * y - x);
      assert NumberOf([d, c]) - NumberOf([c, d]) == 9 * (11 * y - x);
    }
  }

  lemma {:induction false} DifferentValues(c: char, d: char)
    requires IsIbanChar(c) && IsIbanChar(d) && c != d
    ensures CharValue(c) != CharValue(d)
  {
  }

  lemma {:induction false} SmallMultiples(k: int)
    requires -96 <= k <= 96
    ensures (9 * k) % 97 == 0 <==> k == 0
    ensures (99 * k) % 97 == 0 <==> k == 0
  {
    var q, r := (9 * k) / 97, (99 * k) / 97;
    assert 9 * k == 97 * q ==> k == 97 * (54 * q - 5 * k);
    assert 99 * k == 97 * r ==> k == 97 * (49 * r - 50 * k);
  }

  lemma {:induction false} SwapApart(s: string, j: nat)
    requires AllIban(s) && j + 1 < |s| && s[j] != s[j + 1]
    ensures AllIban(Swapped(s, j))
    ensures NumberOf(Swapped(s, j)) % 97 == NumberOf(s) % 97 <==> Palindromic(s[j], s[j + 1])
  {
    var a, b := s[..j], s[j + 2..];
    var c, d := s[j], s[j + 1];
    assert s == a + [c, d] + b && Swapped(s, j) == a + [d, c] + b;
    NumberOfTwo(c, d);
    NumberOfTwo(d, c);
    PairResidue(c, d);
    hide NumberOf, Palindromic;
    MiddleResidue(a, [c, d], [d, c], b);
  }

  /** Swapping two different neighbours of the account part of a valid IBAN goes unnoticed exactly
      when they are one of those three pairs; two digits or two letters are always caught. */
  lemma {:induction false} IbanSwapAcceptedIff(s: string, i: nat)
    requires SoundIban(s) && 4 <= i && i + 1 < |s| && s[i] != s[i + 1]
    ensures SoundIban(Swapped(s, i)) <==> Palindromic(s[i], s[i + 1])
    ensures SameClass(s[i], s[i + 1]) ==> !SoundIban(Swapped(s, i))
  {
    SwapKeepsShape(s, i);
    var rotated := s[4..] + s[..4];
    assert rotated[i - 4] == s[i] && rotated[i - 3] == s[i + 1];
    assert IsIbanChar(s[i]) && IsIbanChar(s[i + 1]);
    hide IbanShape, IbanNumber, NumberOf, Swapped, Palindromic, SameClass, AllIban, IbanLength, IsIbanChar;
    SwapApart(rotated, i - 4);
    if SameClass(s[i], s[i + 1]) {
      SameClassIsNoPalindrome(s[i], s[i + 1]);
    }
  }

  lemma {:induction false} SwapKeepsShape(s: string, i: nat)
    requires IbanShape(s) && 4 <= i && i + 1 < |s|
    ensures AllIban(s[4..] + s[..4]) && IbanShape(Swapped(s, i)) && |Swapped(s, i)| == |s| && Swapped(s, i)[..2] == s[..2]
    ensures IbanNumber(s) == NumberOf(s[4..] + s[..4])
    ensures IbanNumber(Swapped(s, i)) == NumberOf(Swapped(s[4..] + s[..4], i - 4))
  {
    hide ParseNat, Expanded, IsIbanChar;
    var t, rotated := Swapped(s, i), s[4..] + s[..4];
    assert t[..2] == s[..2] && t[2] == s[2] && t[3] == s[3];
    assert forall k :: 0 <= k < |t| ==> t[k] == s[k] || t[k] == s[i] || t[k] == s[i + 1];
    assert t[4..] + t[..4] == Swapped(rotated, i - 4);
  }

  lemma {:induction false} SameClassIsNoPalindrome(c: char, d: char)
    requires IsIbanChar(c) && IsIbanChar(d) && SameClass(c, d)
    ensures !Palindromic(c, d)
  {
  }

  // ------------------------------------------------------------------ what an IBAN is

  /** Letters read as two digits, A as 10 to Z as 35. */
  ghost function Read(s: string): nat
    requires AllIban(s)
  {
    if s == "" then 0
    else
      var c := s[|s| - 1];
      if 'A' <= c <= 'Z' then Read(s[..|s| - 1]) * 100 + (c as int - 'A' as int + 10)
      else Read(s[..|s| - 1]) * 10 + (c as int - '0' as int)
  }

  lemma {:induction false} ReadIs(s: string)
    requires AllIban(s)
    ensures NumberOf(s) == Read(s)
  {
    if s == "" {
      EmptyExpansion();
    } else {
      var n := |s| - 1;
      ReadIs(s[..n]);
      ReadLast(s);
      NumberOfOne(s[n]);
      NumberAppend(s[..n], [s[n]]);
      WidthScale(CharValue(s[n]));
      assert s == s[..n] + [s[n]];
      hide Read, NumberOf, Expanded, CharValue;
    }
  }

  lemma {:induction false} ReadLast(s: string)
    requires AllIban(s) && s != ""
    ensures var n := |s| - 1;
            Read(s) == Read(s[..n]) * (if IsDigit(s[n]) then 10 else 100) + CharValue(s[n])
  {
  }

  /** What makes a text an IBAN: a country and two check digits in front of an account of letters and digits, of the
      country's length where it has one; account, country and check digits in this order read as a number that
      leaves 1 over 97. */
  lemma {:induction false} SoundIbanIff(country: string, check: string, account: string)
    requires |country| == 2 && |check| == 2 && AllDigits(check) && AllIban(country) && AllIban(account)
    ensures SoundIban(country + check + account)
        <==> && IsCapital(country[0]) && IsCapital(country[1]) && account != ""
             && (IbanLength(country).Some? ==> 4 + |account| == IbanLength(country).value)
             && (Read(account + country) * 100 + ParseNat(check)) % 97 == 1
  {
    var s := country + check + account;
    IbanParts(country, check, account);
    hide IbanShape, IbanLength, Expanded, ParseNat, IsIbanChar, AllIban, Read, AllDigits;
    CheckRead(account + country, check);
  }

  lemma {:induction false} IbanParts(country: string, check: string, account: string)
    requires |country| == 2 && |check| == 2 && AllDigits(check) && AllIban(country) && AllIban(account)
    ensures var s := country + check + account;
            && s[..2] == country && s[4..] + s[..4] == account + country + check
            && AllIban(account + country)
            && (IbanShape(s) <==> IsCapital(country[0]) && IsCapital(country[1]) && account != "")
  {
    var s := country + check + account;
    assert s[..4] == country + check && s[4..] == account;
    hide IsIbanChar;
    assert forall c :: IsDigit(c) ==> IsIbanChar(c) by { hide IsDigit; DigitsAreIban(); }
  }

  lemma {:induction false} DigitsAreIban()
    ensures forall c :: IsDigit(c) ==> IsIbanChar(c)
  {
  }

  lemma {:induction false} CheckRead(front: string, check: string)
    requires AllIban(front) && |check| == 2 && AllDigits(check)
    ensures AllIban(front + check) && ParseNat(Expanded(front + check)) == Read(front) * 100 + ParseNat(check)
  {
    assert AllIban(check);
    var a := front + [check[0]];
    assert front + check == a + [check[1]];
    ReadIs(front + check);
    ReadLast(front + check);
    ReadLast(a);
    assert a[..|front|] == front && (front + check)[..|a|] == a;
    TwoDigits(check);
    hide Read, Expanded, ParseNat, IsIbanChar;
  }

  lemma {:induction false} TwoDigits(check: string)
    requires |check| == 2 && AllDigits(check)
    ensures ParseNat(check) == DigitValue(check[0]) * 10 + DigitValue(check[1])
  {
    assert check[..1][..0] == "";
    assert ParseNat(check[..1]) == DigitValue(check[0]);
  }

  /** ISO 7064's recipe: the check digits 98 minus the remainder of the account, the country and two zeros make an
      IBAN of every account. */
  lemma {:induction false} CheckDigitsExist(country: string, account: string)
    requires |country| == 2 && AllIban(country) && IsCapital(country[0]) && IsCapital(country[1]) && AllIban(account) && account != ""
    requires IbanLength(country).Some? ==> 4 + |account| == IbanLength(country).value
    ensures AllIban(account + country)
    ensures SoundIban(country + Padded(98 - (Read(account + country) * 100) % 97, 2) + account)
  {
    hide *;
    IbanJoined(account, country);
    var rest := (Read(account + country) * 100) % 97;
    HundredIsPow10();
    PaddedLength(98 - rest, 2);
    ParsePadded(98 - rest, 2);
    SoundIbanIff(country, Padded(98 - rest, 2), account);
    Completed(Read(account + country) * 100);
  }

  lemma {:induction false} IbanJoined(a: string, b: string)
    requires AllIban(a) && AllIban(b)
    ensures AllIban(a + b)
  {
    hide IsIbanChar;
  }

  lemma {:induction false} Completed(x: nat)
    ensures (x + (98 - x % 97)) % 97 == 1
  {
    assert x + (98 - x % 97) == 97 * (x / 97 + 1) + 1;
  }

  /** The three pairs that read the same either way round. */
  lemma {:induction false} PalindromicPairs(c: char, d: char)
    requires IsIbanChar(c) && IsIbanChar(d)
    ensures Palindromic(c, d)
        <==> (c, d) in [('1', 'B'), ('B', '1'), ('2', 'M'), ('M', '2'), ('3', 'X'), ('X', '3')]
  {
    PalindromicMeans(c, d);
    CharRange(c);
    CharRange(d);
  }

  /** The lengths the table lists, country by country, and no others. */
  lemma {:induction false} ListedLengths(country: string)
    requires |country| == 2
    ensures IbanLength(country) == Some(15) <==> Spells(country, 'N', 'O')
    ensures IbanLength(country) == Some(16) <==> Spells(country, 'B', 'E')
    ensures IbanLength(country) == Some(18) <==> Spells(country, 'N', 'L') || Spells(country, 'D', 'K') || Spells(country, 'F', 'I')
    ensures IbanLength(country) == Some(20) <==> Spells(country, 'L', 'U') || Spells(country, 'A', 'T')
    ensures IbanLength(country) == Some(21) <==> Spells(country, 'C', 'H')
    ensures IbanLength(country) == Some(22) <==> Spells(country, 'D', 'E') || Spells(country, 'I', 'E') || Spells(country, 'G', 'B')
    ensures IbanLength(country) == Some(24) <==> Spells(country, 'E', 'S') || Spells(country, 'S', 'E')
    ensures IbanLength(country) == Some(25) <==> Spells(country, 'P', 'T')
    ensures IbanLength(country) == Some(27) <==> Spells(country, 'F', 'R') || Spells(country, 'I', 'T')
    ensures IbanLength(country) == Some(28) <==> Spells(country, 'P', 'L')
    ensures IbanLength(country).Some? ==> IbanLength(country).value in {15, 16, 18, 20, 21, 22, 24, 25, 27, 28}
  {
    assert country == [country[0], country[1]];
  }

  /** Blanks and lower case do not matter: an IBAN is cleaned to itself however it is cased, and blanks typed into a
      text leave what it is cleaned to. */
  lemma {:induction false} OwnForm(iban: string)
    requires AllIban(iban)
    ensures Upper(Unspaced(iban)) == iban && Upper(Unspaced(Lower(iban))) == iban
  {
    hide *;
    OwnCase(iban);
    NoBlanks(iban);
    NoBlanks(Lower(iban));
  }

  lemma {:induction false} OwnCase(iban: string)
    requires AllIban(iban)
    ensures Upper(iban) == iban && Upper(Lower(iban)) == iban
    ensures forall i :: 0 <= i < |iban| ==> !IsSpace(iban[i])
    ensures forall i :: 0 <= i < |Lower(iban)| ==> !IsSpace(Lower(iban)[i])
  {
  }

  lemma {:induction false} NoBlanks(s: string)
    requires forall i :: 0 <= i < |s| ==> !IsSpace(s[i])
    ensures Unspaced(s) == s
  {
    KeptAll(s, c => !IsSpace(c));
    hide Kept, IsSpace;
  }

  lemma {:induction false} BlankDropped(a: string, b: string)
    ensures Unspaced(a + " " + b) == Unspaced(a + b)
  {
    var keep := (c: char) => !IsSpace(c);
    assert Kept(" ", keep) == "" by { assert " "[..0] == ""; }
    KeptAppend(a, " ", keep);
    KeptAppend(a + " ", b, keep);
    KeptAppend(a, b, keep);
    hide Kept, IsSpace;
  }

  // ------------------------------------------------------------------ structured communication

  /** The last ten digits of the seed, left-padded with zeros. */
  function LastTen(seed: string): (r: string)
    ensures |r| == 10 && AllDigits(r)
  {
    var padded := ZeroPad(Digits(seed), 10);
    padded[|padded| - 10..]
  }

  function StructuredCommunication(seed: string): string {
    var digits := LastTen(seed);
    var rest := ParseNat(digits) % 97;
    var full := digits + Padded(if rest == 0 then 97 else rest, 2);
    if |full| < 12 then full
    else "+++" + full[..3] + "/" + full[3..7] + "/" + full[7..12] + "+++"
  }

  /** What a bank checks: ten digits and two control digits, the control being their remainder
      modulo 97 with 97 standing for zero. */
  predicate SoundCommunication(full: string) {
    |full| == 12 && AllDigits(full) && 1 <= ParseNat(full[10..]) <= 97
    && ParseNat(full[..10]) % 97 == ParseNat(full[10..]) % 97
  }

  lemma {:induction false} CommunicationIsSound(seed: string)
    ensures var r := StructuredCommunication(seed);
            && |r| == 20 && r[..3] == "+++" && r[6] == '/' && r[11] == '/' && r[17..] == "+++"
            && SoundCommunication(Digits(r)) && Digits(r)[..10] == LastTen(seed)
  {
    var digits := LastTen(seed);
    hide ParseNat, LastTen;
    var rest := ParseNat(digits) % 97;
    var ctrl := if rest == 0 then 97 else rest;
    HundredIsPow10();
    PaddedLength(ctrl, 2);
    ParsePadded(ctrl, 2);
    hide Padded;
    var full := digits + Padded(ctrl, 2);
    DigitsOfFramed(full);
    assert full[..10] == digits && full[10..] == Padded(ctrl, 2);
  }

  lemma {:induction false} HundredIsPow10()
    ensures Pow10(2) == 100
  {
    assert Pow10(1) == 10 * Pow10(0);
  }

  lemma {:induction false} KeptAppend(a: string, b: string, keep: char -> bool)
    ensures Kept(a + b, keep) == Kept(a, keep) + Kept(b, keep)
  {
    if b == "" {
      assert a + b == a;
    } else {
      var n := |b| - 1;
      assert (a + b)[..|a| + n] == a + b[..n];
      KeptAppend(a, b[..n], keep);
    }
  }

  lemma {:induction false} DigitsOfFramed(full: string)
    requires |full| == 12 && AllDigits(full)
    ensures Digits("+++" + full[..3] + "/" + full[3..7] + "/" + full[7..12] + "+++") == full
  {
    hide Digits;
    var a, b, c := full[..3], full[3..7], full[7..12];
    FrameHasNoDigits();
    AllKept(a);
    AllKept(b);
    AllKept(c);
    DigitsOfFrame("+++", a, "/", b, "/", c, "+++");
    assert full == a + b + c;
  }

  lemma {:induction false} FrameHasNoDigits()
    ensures Digits("+++") == "" && Digits("/") == ""
  {
    NoDigits("+++");
    NoDigits("/");
    hide Digits;
  }

  lemma {:induction false} DigitsOfFrame(p: string, a: string, q: string, b: string, r: string, c: string, s: string)
    requires Digits(p) == Digits(q) == Digits(r) == Digits(s) == "" && Digits(a) == a && Digits(b) == b && Digits(c) == c
    ensures Digits(p + a + q + b + r + c + s) == a + b + c
  {
    hide Digits;
    DigitsAppend(p + a + q + b + r + c, s);
    DigitsAppend(p + a + q + b + r, c);
    DigitsAppend(p + a + q + b, r);
    DigitsAppend(p + a + q, b);
    DigitsAppend(p + a, q);
    DigitsAppend(p, a);
  }

  lemma {:induction false} DigitsAppend(a: string, b: string)
    ensures Digits(a + b) == Digits(a) + Digits(b)
  {
    KeptAppend(a, b, c => IsDigit(c));
  }

  lemma {:induction false} AllKept(s: string)
    requires AllDigits(s)
    ensures Digits(s) == s
  {
    KeptAll(s, c => IsDigit(c));
  }

  lemma {:induction false} NoDigits(s: string)
    requires forall i :: 0 <= i < |s| ==> !IsDigit(s[i])
    ensures Digits(s) == ""
  {
    if s != "" {
      NoDigits(s[..|s| - 1]);
      DigitsAppend(s[..|s| - 1], [s[|s| - 1]]);
      assert s == s[..|s| - 1] + [s[|s| - 1]];
      assert [s[|s| - 1]][..0] == "";
    }
  }
}
