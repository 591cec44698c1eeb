// Calendar dates of the proleptic Gregorian calendar, as Python's datetime.date has them.
module Calendar {
  import opened Common

  datatype DateParts = YMD(year: int, month: int, day: int)

  predicate IsLeap(year: int) {
    year % 4 == 0 && (year % 100 != 0 || year % 400 == 0)
  }

  /** `calendar.monthrange(year, month)[1]`. */
  function DaysInMonth(year: int, month: int): int {
    if month == 2 then (if IsLeap(year) then 29 else 28)
    else if month == 4 || month == 6 || month == 9 || month == 11 then 30
    else 31
  }

  predicate ValidDate(d: DateParts) {
    && 1 <= d.year <= 9999
    && 1 <= d.month <= 12
    && 1 <= d.day <= DaysInMonth(d.year, d.month)
  }

  /** Python raises ValueError before an invalid date can exist. */
  type Date = d: DateParts | ValidDate(d) witness YMD(1, 1, 1)

  /** Date order. */
  function DateKey(d: Date): int {
    (d.year * 12 + d.month) * 31 + d.day
  }

  predicate Before(a: Date, b: Date) {
    DateKey(a) < DateKey(b)
  }

  predicate NotAfter(a: Date, b: Date) {
    DateKey(a) <= DateKey(b)
  }

  /** None past 9999-12-31, where Python raises OverflowError. */
  function NextDay(d: Date): Option<Date> {
    if d.day < DaysInMonth(d.year, d.month) then Some(YMD(d.year, d.month, d.day + 1))
    else if d.month < 12 then Some(YMD(d.year, d.month + 1, 1))
    else if d.year < 9999 then Some(YMD(d.year + 1, 1, 1))
    else None
  }

  /** `d + timedelta(days=n)`. */
  function AddDays(d: Date, n: nat): Option<Date>
    decreases n
  {
    if n == 0 then Some(d)
    else match NextDay(d)
      case None => None
      case Some(e) => AddDays(e, n - 1)
  }

  lemma {:induction false} AddDaysIsLater(d: Date, n: nat)
    ensures AddDays(d, n).Some? ==> DateKey(d) + n <= DateKey(AddDays(d, n).value)
    decreases n
  {
    if n > 0 && NextDay(d).Some? {
      AddDaysIsLater(NextDay(d).value, n - 1);
    }
  }

  // ------------------------------------------------------------------ day numbers

  function DaysBeforeYear(year: int): int {
    var n := year - 1;
    365 * n + n / 4 - n / 100 + n / 400
  }

  function DaysBeforeMonth(year: int, month: int): int
    requires 1 <= month <= 12
  {
    [0, 31, 59, 90, 120, 151, 181, 212, 243, 273, 304, 334][month - 1] + if month > 2 && IsLeap(year) then 1 else 0
  }

  /** `date.toordinal()`: day 1 is 0001-01-01. */
  function Ordinal(d: Date): int {
    DaysBeforeYear(d.year) + DaysBeforeMonth(d.year, d.month) + d.day
  }

  /** The ordinal of 9999-12-31. */
  const LAST_DAY := 3652059

  lemma {:induction false} LeapDays(year: int)
    ensures var n := year - 1; DaysBeforeYear(year) == 365 * n + n / 4 - n / 100 + n / 400
  {
  }

  lemma {:induction false} Fours(year: int)
    ensures year / 4 == (year - 1) / 4 + if year % 4 == 0 then 1 else 0
    ensures year % 100 == 0 ==> year % 4 == 0
  {
  }

  lemma {:induction false} Hundreds(year: int)
    ensures year / 100 == (year - 1) / 100 + if year % 100 == 0 then 1 else 0
    ensures year % 400 == 0 ==> year % 100 == 0
  {
  }

  lemma {:induction false} FourHundreds(year: int)
    ensures year / 400 == (year - 1) / 400 + if year % 400 == 0 then 1 else 0
  {
  }

  lemma {:induction false} YearLength(year: int)
    requires year >= 1
    ensures DaysBeforeYear(year + 1) == DaysBeforeYear(year) + if IsLeap(year) then 366 else 365
  {
    hide DaysBeforeYear;
    LeapDays(year);
    LeapDays(year + 1);
    Fours(year);
    Hundreds(year);
    FourHundreds(year);
  }

  lemma {:induction false} YearsApart(a: int, b: int)
    requires 1 <= a <= b
    ensures DaysBeforeYear(a) + 365 * (b - a) <= DaysBeforeYear(b)
    decreases b - a
  {
    if a < b {
      YearsApart(a, b - 1);
      YearLength(b - 1);
      hide DaysBeforeYear;
    }
  }

  lemma {:induction false} DayOfYear(d: Date)
    ensures 1 <= Ordinal(d) - DaysBeforeYear(d.year) <= if IsLeap(d.year) then 366 else 365
  {
    hide DaysBeforeYear;
  }

  lemma {:induction false} MonthsInOrder(a: Date, b: Date)
    requires a.year == b.year && a.month < b.month
    ensures Ordinal(a) < Ordinal(b)
  {
    hide DaysBeforeYear;
  }

  lemma {:induction false} EarlierKey(a: Date, b: Date)
    requires Before(a, b)
    ensures a.year < b.year || (a.year == b.year && (a.month < b.month || (a.month == b.month && a.day < b.day)))
  {
  }

  lemma {:induction false} EarlierYear(a: Date, b: Date)
    requires a.year < b.year
    ensures Ordinal(a) < Ordinal(b)
  {
    hide Ordinal, DaysBeforeYear;
    DayOfYear(a);
    DayOfYear(b);
    YearLength(a.year);
    YearsApart(a.year + 1, b.year);
  }

  lemma {:induction false} EarlierDay(a: Date, b: Date)
    requires Before(a, b)
    ensures Ordinal(a) < Ordinal(b)
  {
    EarlierKey(a, b);
    hide Before, DaysBeforeYear;
    if a.year < b.year {
      EarlierYear(a, b);
    } else if a.month < b.month {
      MonthsInOrder(a, b);
    }
  }

  /** Day numbers order the dates, and no two dates share one. */
  lemma {:induction false} OrdinalOrders(a: Date, b: Date)
    ensures Before(a, b) <==> Ordinal(a) < Ordinal(b)
    ensures a == b <==> Ordinal(a) == Ordinal(b)
  {
    SameKey(a, b);
    if Before(a, b) {
      EarlierDay(a, b);
    } else if Before(b, a) {
      EarlierDay(b, a);
    }
    hide Ordinal;
  }

  lemma {:induction false} SameKey(a: Date, b: Date)
    ensures DateKey(a) == DateKey(b) <==> a == b
  {
    assert DateKey(a) - 32 == ((a.year * 12 + a.month) - 1) * 31 + (a.day - 1);
  }

  lemma {:induction false} NextWithinYear(d: Date)
    requires d.day < DaysInMonth(d.year, d.month) || d.month < 12
    ensures NextDay(d).Some? && NextDay(d).value.year == d.year && Ordinal(NextDay(d).value) == Ordinal(d) + 1
  {
    hide DaysBeforeYear;
  }

  lemma {:induction false} NextYear(d: Date)
    requires d.month == 12 && d.day == 31
    ensures d.year < 9999 ==> NextDay(d) == Some(YMD(d.year + 1, 1, 1)) && Ordinal(NextDay(d).value) == Ordinal(d) + 1
    ensures d.year == 9999 ==> NextDay(d).None? && Ordinal(d) == LAST_DAY
  {
    YearLength(d.year);
    assert DaysBeforeYear(9999) == 3651694;
    hide DaysBeforeYear;
  }

  lemma {:induction false} DaysLeft(d: Date)
    ensures Ordinal(d) <= LAST_DAY
    ensures Ordinal(d) == LAST_DAY ==> NextDay(d).None?
  {
    var last := YMD(9999, 12, 31);
    assert Ordinal(last) == LAST_DAY && !Before(last, d);
    OrdinalOrders(d, last);
    hide Ordinal;
  }

  lemma {:induction false} NextOrdinal(d: Date)
    ensures NextDay(d).Some? ==> Ordinal(NextDay(d).value) == Ordinal(d) + 1
    ensures NextDay(d).None? <==> Ordinal(d) == LAST_DAY
    ensures Ordinal(d) <= LAST_DAY
  {
    DaysLeft(d);
    if d.day < DaysInMonth(d.year, d.month) || d.month < 12 {
      NextWithinYear(d);
    } else {
      NextYear(d);
    }
    hide Ordinal;
  }

  /** Adding n days adds n to the day number, and overflows exactly past the last day. */
  lemma {:induction false} AddDaysOrdinal(d: Date, n: nat)
    ensures AddDays(d, n).Some? <==> Ordinal(d) + n <= LAST_DAY
    ensures AddDays(d, n).Some? ==> Ordinal(AddDays(d, n).value) == Ordinal(d) + n
    decreases n
  {
    NextOrdinal(d);
    hide Ordinal, NextDay;
    if n > 0 && NextDay(d).Some? {
      AddDaysOrdinal(NextDay(d).value, n - 1);
    }
  }
}
