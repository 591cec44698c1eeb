// core/services/reporting_service.py:295-320: the declaration periods a report can be asked for.
module Periods {
  import opened Common
  import opened Calendar
  import opened Decimals
  import opened Text
  import opened Store

  /** Inclusive at both ends. */
  datatype Period = Period(first: Date, last: Date)

  predicate InPeriod(d: Date, p: Period) {
    NotAfter(p.first, d) && NotAfter(d, p.last)
  }

  // ------------------------------------------------------------------ parse_period

  /** The months of year named by what follows the four digits; None when the pattern does not match. */
  function MonthSpan(suffix: string): (r: Option<(int, int)>)
    ensures r.Some? ==> 1 <= r.value.0 <= r.value.1 <= 12
  {
    if suffix == "" then Some((1, 12))
    else if |suffix| != 3 || suffix[0] != '-' then None
    else if suffix[1] == 'Q' then
      if '1' <= suffix[2] <= '4' then
        var first := (DigitValue(suffix[2]) - 1) * 3 + 1;
        Some((first, first + 2))
      else None
    else if !IsDigit(suffix[1]) || !IsDigit(suffix[2]) then None
    else
      var month := DigitValue(suffix[1]) * 10 + DigitValue(suffix[2]);
      if 1 <= month <= 12 then Some((month, month)) else None
  }

  /** `date(year, first, 1), date(year, last, monthrange(year, last)[1])`. */
  function Months(year: int, first: int, last: int): Period
    requires 1 <= year <= 9999 && 1 <= first <= last <= 12
  {
    Period(YMD(year, first, 1), YMD(year, last, DaysInMonth(year, last)))
  }

  function ParsePeriod(period: string): Result<Period> {
    var s := Upper(Strip(period));
    if |s| < 4 || !AllDigits(s[..4]) || MonthSpan(s[4..]).None? then Err(BusinessRule)
    else
      var year, span := ParseNat(s[..4]), MonthSpan(s[4..]).value;
      if year == 0 || year > 9999 then Err(ValueError) else Ok(Months(year, span.0, span.1))
  }

  // ------------------------------------------------------------------ the texts that name periods

  function YearText(year: nat): string {
    Padded(year, 4)
  }

  function QuarterText(year: nat, quarter: nat): string {
    Padded(year, 4) + "-Q" + Decimal(quarter)
  }

  function MonthText(year: nat, month: nat): string {
    Padded(year, 4) + "-" + Padded(month, 2)
  }

  lemma {:induction false} TenThousand()
    ensures Pow10(2) == 100 && Pow10(4) == 10000
  {
    assert Pow10(1) == 10 * Pow10(0);
    assert Pow10(3) == 10 * Pow10(2);
  }

  lemma {:induction false} UpperDigits(s: string)
    requires AllDigits(s)
    ensures Upper(s) == s
  {
  }

  lemma {:induction false} UpperAppend(a: string, b: string)
    ensures Upper(a + b) == Upper(a) + Upper(b)
  {
  }

  /** A period is read as its year and the span its suffix names. */
  lemma {:induction false} ParseText(year: nat, suffix: string)
    requires 1 <= year <= 9999 && Upper(suffix) == suffix && MonthSpan(suffix).Some?
    ensures ParsePeriod(Padded(year, 4) + suffix)
         == Ok(Months(year, MonthSpan(suffix).value.0, MonthSpan(suffix).value.1))
  {
    var digits := Padded(year, 4);
    TenThousand();
    PaddedLength(year, 4);
    ParsePadded(year, 4);
    hide Padded, ParseNat;
    var s := digits + suffix;
    UpperDigits(digits);
    UpperAppend(digits, suffix);
    StripTight(s);
    assert s[..4] == digits && s[4..] == suffix;
  }

  lemma {:induction false} ParseNames(year: nat)
    requires 1 <= year <= 9999
    ensures ParsePeriod(YearText(year)) == Ok(Months(year, 1, 12))
    ensures forall q :: 1 <= q <= 4 ==> ParsePeriod(QuarterText(year, q)) == Ok(Months(year, 3 * q - 2, 3 * q))
    ensures forall m :: 1 <= m <= 12 ==> ParsePeriod(MonthText(year, m)) == Ok(Months(year, m, m))
  {
    ParseText(year, "");
    assert Padded(year, 4) + "" == Padded(year, 4);
    hide ParsePeriod, Padded;
    forall q | 1 <= q <= 4 ensures ParsePeriod(QuarterText(year, q)) == Ok(Months(year, 3 * q - 2, 3 * q)) {
      var suffix := "-Q" + Decimal(q);
      assert QuarterText(year, q) == Padded(year, 4) + suffix;
      ParseText(year, suffix);
    }
    forall m | 1 <= m <= 12 ensures ParsePeriod(MonthText(year, m)) == Ok(Months(year, m, m)) {
      MonthSuffix(m);
      assert MonthText(year, m) == Padded(year, 4) + ("-" + Padded(m, 2));
      ParseText(year, "-" + Padded(m, 2));
    }
  }

  lemma {:induction false} MonthSuffix(m: nat)
    requires 1 <= m <= 12
    ensures MonthSpan("-" + Padded(m, 2)) == Some((m, m))
    ensures Upper("-" + Padded(m, 2)) == "-" + Padded(m, 2)
  {
    TenThousand();
    PaddedLength(m, 2);
    ParsePadded(m, 2);
    UpperDigits(Padded(m, 2));
    var s := Padded(m, 2);
    assert ParseNat(s) == ParseNat(s[..1]) * 10 + DigitValue(s[1]);
    assert ParseNat(s[..1]) == ParseNat(s[..1][..0]) * 10 + DigitValue(s[0]);
  }

  /** Whatever text is accepted, it names whole months of one year: a month, a quarter or the year. */
  lemma {:induction false} ParsedSpans(period: string)
    requires ParsePeriod(period).Ok?
    ensures var p := ParsePeriod(period).value;
            && p == Months(p.first.year, p.first.month, p.last.month)
            && p.last.month - p.first.month in {0, 2, 11}
  {
    hide Upper, Strip, ParseNat;
  }

  // ------------------------------------------------------------------ the periods partition the year

  /** Whole months contain exactly the dates of those months, the 29th of February of a leap year
      included. */
  lemma {:induction false} InMonths(d: Date, year: int, first: int, last: int)
    requires 1 <= year <= 9999 && 1 <= first <= last <= 12
    ensures InPeriod(d, Months(year, first, last)) <==> d.year == year && first <= d.month <= last
  {
    var p := Months(year, first, last);
    var m, n := d.year * 12 + d.month, year * 12 + first;
    assert DateKey(p.first) == n * 31 + 1 && DateKey(d) == m * 31 + d.day;
    assert DateKey(p.last) == (n + last - first) * 31 + DaysInMonth(year, last);
    assert m < n ==> m * 31 + d.day <= (n - 1) * 31 + 31;
  }

  /** How many of the periods contain d. */
  function Hits(d: Date, ps: seq<Period>): nat {
    if ps == [] then 0 else Hits(d, ps[..|ps| - 1]) + if InPeriod(d, ps[|ps| - 1]) then 1 else 0
  }

  /** Every date of p lies in exactly one of the periods ps, and no other date in any. */
  ghost predicate Partitions(ps: seq<Period>, p: Period) {
    forall d: Date :: Hits(d, ps) == if InPeriod(d, p) then 1 else 0
  }

  function Quarters(year: int): seq<Period>
    requires 1 <= year <= 9999
  {
    seq(4, i requires 0 <= i < 4 => Months(year, 3 * i + 1, 3 * i + 3))
  }

  function TwelveMonths(year: int): seq<Period>
    requires 1 <= year <= 9999
  {
    seq(12, i requires 0 <= i < 12 => Months(year, i + 1, i + 1))
  }

  /** Consecutive stretches of months contain a date once, if its month is among them. */
  lemma {:induction false} ConsecutiveHits(d: Date, year: int, ps: seq<Period>, width: int)
    requires 1 <= year <= 9999 && width >= 1 && |ps| * width <= 12
    requires forall i :: 0 <= i < |ps| ==>
      1 <= i * width + 1 <= i * width + width <= 12 && ps[i] == Months(year, i * width + 1, i * width + width)
    ensures Hits(d, ps) == if d.year == year && d.month <= |ps| * width then 1 else 0
  {
    if ps != [] {
      var n := |ps| - 1;
      assert |ps| * width == n * width + width;
      ConsecutiveHits(d, year, ps[..n], width);
      InMonths(d, year, n * width + 1, n * width + width);
      hide InPeriod, Months;
    }
  }

  /** The quarters partition the year, and so do its months. */
  lemma {:induction false} YearIsPartitioned(year: int)
    requires 1 <= year <= 9999
    ensures Partitions(Quarters(year), Months(year, 1, 12))
    ensures Partitions(TwelveMonths(year), Months(year, 1, 12))
  {
    forall d: Date
      ensures Hits(d, Quarters(year)) == if InPeriod(d, Months(year, 1, 12)) then 1 else 0
      ensures Hits(d, TwelveMonths(year)) == if InPeriod(d, Months(year, 1, 12)) then 1 else 0
    {
      ConsecutiveHits(d, year, Quarters(year), 3);
      ConsecutiveHits(d, year, TwelveMonths(year), 1);
      InMonths(d, year, 1, 12);
    }
  }
}
