/** Calendar dates as the source's Python `datetime.date` values: a proleptic Gregorian
    (year, month, day) with years 1..9999, compared field by field, with day differences
    taken through the same ordinal Python uses, and the `relativedelta` month step that
    clamps the day to the end of the shorter month. */
module Dates {
  import opened Common

  datatype CivilDate = CivilDate(year: int, month: int, day: int)

  predicate IsLeap(y: int)
  {
    y % 4 == 0 && (y % 100 != 0 || y % 400 == 0)
  }

  function DaysInMonth(y: int, m: int): (n: int)
    requires 1 <= m <= 12
    ensures 28 <= n <= 31
  {
    if m == 2 then (if IsLeap(y) then 29 else 28)
    else if m == 4 || m == 6 || m == 9 || m == 11 then 30
    else 31
  }

  predicate IsValid(d: CivilDate)
  {
    1 <= d.year <= 9999 && 1 <= d.month <= 12 && 1 <= d.day <= DaysInMonth(d.year, d.month)
  }

  type Date = d: CivilDate | IsValid(d) witness CivilDate(1970, 1, 1)

  /** `a <= b` on Python dates. */
  predicate Le(a: Date, b: Date)
  {
    a.year < b.year || (a.year == b.year && (a.month < b.month || (a.month == b.month && a.day <= b.day)))
  }

  predicate Lt(a: Date, b: Date)
  {
    Le(a, b) && a != b
  }

  /** The English month name, as `%B` prints it in the default locale. */
  function MonthName(m: int): (r: string)
    requires 1 <= m <= 12
    ensures |r| >= 3
  {
    ["January", "February", "March", "April", "May", "June", "July", "August",
     "September", "October", "November", "December"][m - 1]
  }

  /** `d.strftime('%B %Y')`. */
  function MonthYearLabel(d: Date): string
  {
    MonthName(d.month) + " " + NatToString(d.year as nat)
  }

  /** A closed window of dates: `from <= d <= to`. */
  predicate InWindow(d: Date, from: Date, to: Date)
  {
    Le(from, d) && Le(d, to)
  }

  function DaysBeforeYear(y: int): int
    requires y >= 1
  {
    var p := y - 1;
    p * 365 + p / 4 - p / 100 + p / 400
  }

  function DaysBeforeMonth(y: int, m: int): (n: int)
    requires 1 <= m <= 12
    ensures n >= 0
  {
    var table := [0, 0, 31, 59, 90, 120, 151, 181, 212, 243, 273, 304, 334];
    table[m] + (if m > 2 && IsLeap(y) then 1 else 0)
  }

  /** Python's `date.toordinal()`: 1 for 0001-01-01, one more for each following day. */
  function Ordinal(d: Date): int
  {
    DaysBeforeYear(d.year) + DaysBeforeMonth(d.year, d.month) + d.day
  }

  /** `(a - b).days` on Python dates: negative when `a` comes before `b`. */
  function DaysBetween(a: Date, b: Date): int
  {
    Ordinal(a) - Ordinal(b)
  }

  lemma MonthStep(y: int, m: int)
    requires 1 <= m < 12
    ensures DaysBeforeMonth(y, m + 1) == DaysBeforeMonth(y, m) + DaysInMonth(y, m)
  {
  }

  lemma {:induction false} MonthsIncrease(y: int, m1: int, m2: int)
    requires 1 <= m1 < m2 <= 12
    ensures DaysBeforeMonth(y, m1) + DaysInMonth(y, m1) <= DaysBeforeMonth(y, m2)
    decreases m2 - m1
  {
    MonthStep(y, m1);
    if m1 + 1 < m2 {
      MonthsIncrease(y, m1 + 1, m2);
      assert DaysBeforeMonth(y, m1 + 1) < DaysBeforeMonth(y, m1 + 1) + DaysInMonth(y, m1 + 1);
    }
  }

  lemma DivStep(y: int)
    requires y >= 1
    ensures y / 4 - (y - 1) / 4 == if y % 4 == 0 then 1 else 0
    ensures y / 100 - (y - 1) / 100 == if y % 100 == 0 then 1 else 0
    ensures y / 400 - (y - 1) / 400 == if y % 400 == 0 then 1 else 0
  {
  }

  /** A year holds 365 days, or 366 in a leap year. */
  lemma YearStep(y: int)
    requires y >= 1
    ensures DaysBeforeYear(y + 1) == DaysBeforeYear(y) + DaysBeforeMonth(y, 12) + 31
  {
    DivStep(y);
    var p := y - 1;
    assert y * 365 == p * 365 + 365;
    assert DaysBeforeYear(y + 1) - DaysBeforeYear(y)
        == 365 + (y / 4 - p / 4) - (y / 100 - p / 100) + (y / 400 - p / 400);
    assert DaysBeforeMonth(y, 12) == 334 + (if IsLeap(y) then 1 else 0);
  }

  lemma {:induction false} YearsIncrease(y1: int, y2: int)
    requires 1 <= y1 < y2
    ensures DaysBeforeYear(y1) + DaysBeforeMonth(y1, 12) + 31 <= DaysBeforeYear(y2)
    decreases y2 - y1
  {
    YearStep(y1);
    if y1 + 1 < y2 {
      YearsIncrease(y1 + 1, y2);
    }
  }

  /** Ordinals order dates exactly as Python compares them. */
  lemma OrdinalStrictlyIncreasing(a: Date, b: Date)
    requires Lt(a, b)
    ensures Ordinal(a) < Ordinal(b)
  {
    if a.year < b.year {
      if a.month < 12 {
        MonthsIncrease(a.year, a.month, 12);
      }
      YearsIncrease(a.year, b.year);
    } else if a.month < b.month {
      MonthsIncrease(a.year, a.month, b.month);
    }
  }

  lemma OrdinalOrder(a: Date, b: Date)
    ensures Le(a, b) <==> Ordinal(a) <= Ordinal(b)
  {
    if a != b {
      if Le(a, b) {
        OrdinalStrictlyIncreasing(a, b);
      } else {
        OrdinalStrictlyIncreasing(b, a);
      }
    }
  }

  /** The day difference is negative exactly when the first date is earlier. */
  lemma DaysBetweenSign(a: Date, b: Date)
    ensures DaysBetween(a, b) < 0 <==> Lt(a, b)
    ensures DaysBetween(a, b) == 0 <==> a == b
  {
    OrdinalOrder(a, b);
    OrdinalOrder(b, a);
  }

  /** `d.replace(day=1)`. */
  function FirstOfMonth(d: Date): (r: Date)
    ensures r.year == d.year && r.month == d.month && r.day == 1
    ensures Le(r, d)
  {
    CivilDate(d.year, d.month, 1)
  }

  /** `d.replace(day=10)`: every month has a 10th. */
  function TenthOfMonth(d: Date): (r: Date)
    ensures r.year == d.year && r.month == d.month && r.day == 10
  {
    CivilDate(d.year, d.month, 10)
  }

  /** The 10th is nine days after the first of its month and falls after the last day
      of the previous month, which is where the monthly batch puts its payment date. The
      batch form's payment date, the 10th of the month after `date_from`, follows the
      window end exactly when `date_from` is on or before the 10th of its month. */
  lemma TenthOfMonthFacts(d: Date)
    ensures DaysBetween(TenthOfMonth(d), FirstOfMonth(d)) == 9
    ensures LastOfPreviousMonth(d).Ok? ==> Lt(LastOfPreviousMonth(d).value, TenthOfMonth(d))
    ensures forall n :: AddOneMonth(n) == Ok(d) && MonthWindowEnd(n).Ok? ==>
      (Lt(MonthWindowEnd(n).value, TenthOfMonth(d)) <==> n.day <= 10)
  {
    forall n | AddOneMonth(n) == Ok(d) && MonthWindowEnd(n).Ok?
      ensures Lt(MonthWindowEnd(n).value, TenthOfMonth(d)) <==> n.day <= 10
    {
      AddOneMonthShape(n);
    }
  }

  /** `d - relativedelta(days=1)`, which overflows below 0001-01-01. */
  function PreviousDay(d: Date): (r: Result<Date>)
  {
    if d.day > 1 then Ok(CivilDate(d.year, d.month, d.day - 1))
    else if d.month > 1 then Ok(CivilDate(d.year, d.month - 1, DaysInMonth(d.year, d.month - 1)))
    else if d.year > 1 then Ok(CivilDate(d.year - 1, 12, 31))
    else Err(DateOutOfRange)
  }

  /** `d + relativedelta(months=1)`: the same day of the next month, clamped to that
      month's last day; it overflows after December 9999. */
  function AddOneMonth(d: Date): (r: Result<Date>)
  {
    var (y, m) := if d.month == 12 then (d.year + 1, 1) else (d.year, d.month + 1);
    if y > 9999 then Err(DateOutOfRange)
    else
      var last := DaysInMonth(y, m);
      Ok(CivilDate(y, m, if d.day <= last then d.day else last))
  }

  lemma PreviousDayIsOneDayEarlier(d: Date)
    ensures PreviousDay(d).Err? <==> d == CivilDate(1, 1, 1)
    ensures PreviousDay(d).Ok? ==> Ordinal(PreviousDay(d).value) == Ordinal(d) - 1
  {
    match PreviousDay(d)
    case Ok(p) =>
      if d.day == 1 && d.month > 1 {
        MonthStep(d.year, d.month - 1);
      } else if d.day == 1 {
        YearStep(p.year);
      }
    case Err(_) =>
  }

  lemma AddOneMonthShape(d: Date)
    ensures AddOneMonth(d).Err? <==> d.year == 9999 && d.month == 12
    ensures AddOneMonth(d).Ok? ==>
      var r := AddOneMonth(d).value;
      (if d.month == 12 then r.year == d.year + 1 && r.month == 1 else r.year == d.year && r.month == d.month + 1)
      && r.day == (if d.day <= DaysInMonth(r.year, r.month) then d.day else DaysInMonth(r.year, r.month))
  {
  }

  /** `d + relativedelta(months=1) - relativedelta(days=1)` (written
      `relativedelta(months=1, days=-1)` in one place of the source). */
  function MonthWindowEnd(d: Date): (r: Result<Date>)
  {
    match AddOneMonth(d)
    case Ok(next) => PreviousDay(next)
    case Err(e) => Err(e)
  }

  /** The window end never precedes its start, and from the first of a month it is that
      month's last day. */
  lemma MonthWindowEndFacts(d: Date)
    ensures MonthWindowEnd(d).Err? <==> d.year == 9999 && d.month == 12
    ensures MonthWindowEnd(d).Ok? ==> Le(d, MonthWindowEnd(d).value)
    ensures MonthWindowEnd(d).Ok? && d.day == 1 ==>
      MonthWindowEnd(d).value == CivilDate(d.year, d.month, DaysInMonth(d.year, d.month))
  {
    AddOneMonthShape(d);
  }

  /** The first day of the calendar month before the one holding `d`:
      `(d.replace(day=1) - relativedelta(days=1)).replace(day=1)`. */
  function FirstOfPreviousMonth(d: Date): (r: Result<Date>)
  {
    match PreviousDay(FirstOfMonth(d))
    case Ok(p) => Ok(FirstOfMonth(p))
    case Err(e) => Err(e)
  }

  /** The last day of the calendar month before the one holding `d`. */
  function LastOfPreviousMonth(d: Date): (r: Result<Date>)
  {
    PreviousDay(FirstOfMonth(d))
  }

  lemma PreviousMonthFacts(d: Date)
    ensures FirstOfPreviousMonth(d).Err? <==> d.year == 1 && d.month == 1
    ensures LastOfPreviousMonth(d).Err? <==> d.year == 1 && d.month == 1
    ensures FirstOfPreviousMonth(d).Ok? ==>
      var f := FirstOfPreviousMonth(d).value;
      var l := LastOfPreviousMonth(d).value;
      f.day == 1 && l.year == f.year && l.month == f.month && l.day == DaysInMonth(f.year, f.month)
      && (if d.month == 1 then f.year == d.year - 1 && f.month == 12 else f.year == d.year && f.month == d.month - 1)
  {
  }
}
