/**
 * Civil (proleptic Gregorian) dates, as Python's `datetime.date` has them: the
 * "Valid until" line of a proposal is the issue date plus `timedelta(days=15)`,
 * and dates are printed with `strftime('%m/%d/%Y')`.
 */
module Dates {
  import opened Decimal

  /** Python's `date.max.year`: a date past it cannot be represented. */
  const MaxYear := 9999

  datatype Date = Date(year: int, month: int, day: int)

  predicate IsLeap(y: int) {
    y % 4 == 0 && (y % 100 != 0 || y % 400 == 0)
  }

  function DaysInMonth(y: int, m: int): (n: int)
    requires 1 <= m <= 12
    ensures 28 <= n <= 31
  {
    if m == 2 then (if IsLeap(y) then 29 else 28)
    else if m == 4 || m == 6 || m == 9 || m == 11 then 30
    else 31
  }

  function YearLength(y: int): int {
    if IsLeap(y) then 366 else 365
  }

  predicate Valid(d: Date) {
    1 <= d.year && 1 <= d.month <= 12 && 1 <= d.day <= DaysInMonth(d.year, d.month)
  }

  /** A calendar date that exists, as a Python `date` always is. */
  type ValidDate = d: Date | Valid(d) witness Date(1, 1, 1)

  /** The following calendar day. */
  function NextDay(d: Date): (e: Date)
    requires Valid(d)
    ensures Valid(e)
  {
    if d.day < DaysInMonth(d.year, d.month) then Date(d.year, d.month, d.day + 1)
    else if d.month < 12 then Date(d.year, d.month + 1, 1)
    else Date(d.year + 1, 1, 1)
  }

  /** `d + timedelta(days=n)` for n >= 0, one day at a time. */
  function AddDays(d: Date, n: nat): (e: Date)
    requires Valid(d)
    ensures Valid(e)
    decreases n
  {
    if n == 0 then d else AddDays(NextDay(d), n - 1)
  }

  /** Days in the years before year y. */
  function DaysBeforeYear(y: int): nat
    requires y >= 1
  {
    if y == 1 then 0 else DaysBeforeYear(y - 1) + YearLength(y - 1)
  }

  /** Python's closed form `_days_before_year`: 365 per year plus the leap days before year y. */
  lemma {:induction false} DaysBeforeYearClosedForm(y: int)
    requires y >= 1
    ensures DaysBeforeYear(y) == 365 * (y - 1) + (y - 1) / 4 - (y - 1) / 100 + (y - 1) / 400
    decreases y
  {
    if y > 1 {
      var p := y - 1;
      DaysBeforeYearClosedForm(p);
      StepDiv(p);
      DivisorChain(p);
      assert YearLength(p) == 365 + (p / 4 - (p - 1) / 4) - (p / 100 - (p - 1) / 100) + (p / 400 - (p - 1) / 400);
    }
  }

  /** A multiple of 400 is a multiple of 100, and a multiple of 100 a multiple of 4. */
  lemma DivisorChain(p: int)
    ensures p % 400 == 0 ==> p % 100 == 0
    ensures p % 100 == 0 ==> p % 4 == 0
  {
    if p % 400 == 0 {
      var q := p / 400;
      assert p == 400 * q;
      assert p / 100 == 4 * q;
    }
    if p % 100 == 0 {
      var q := p / 100;
      assert p == 100 * q;
      assert p / 4 == 25 * q;
    }
  }

  /** Going from p - 1 to p, p / k grows by one exactly when k divides p. */
  lemma StepDiv(p: int)
    requires p >= 1
    ensures p / 4 - (p - 1) / 4 == if p % 4 == 0 then 1 else 0
    ensures p / 100 - (p - 1) / 100 == if p % 100 == 0 then 1 else 0
    ensures p / 400 - (p - 1) / 400 == if p % 400 == 0 then 1 else 0
  {
  }

  /** Days in the months of year y before month m. */
  function DaysBeforeMonth(y: int, m: int): nat
    requires 1 <= m <= 12
  {
    if m == 1 then 0 else DaysBeforeMonth(y, m - 1) + DaysInMonth(y, m - 1)
  }

  /** Python's `date.toordinal()`: 1 for 0001-01-01, counting every day since. */
  function Ordinal(d: Date): int
    requires Valid(d)
  {
    DaysBeforeYear(d.year) + DaysBeforeMonth(d.year, d.month) + d.day
  }

  /** The twelve months add up to the year. */
  lemma MonthsMakeYear(y: int)
    ensures DaysBeforeMonth(y, 12) + DaysInMonth(y, 12) == YearLength(y)
  {
    assert DaysBeforeMonth(y, 2) == 31;
    assert DaysBeforeMonth(y, 3) == 31 + DaysInMonth(y, 2);
    assert DaysBeforeMonth(y, 4) == 62 + DaysInMonth(y, 2);
    assert DaysBeforeMonth(y, 5) == 92 + DaysInMonth(y, 2);
    assert DaysBeforeMonth(y, 6) == 123 + DaysInMonth(y, 2);
    assert DaysBeforeMonth(y, 7) == 153 + DaysInMonth(y, 2);
    assert DaysBeforeMonth(y, 8) == 184 + DaysInMonth(y, 2);
    assert DaysBeforeMonth(y, 9) == 215 + DaysInMonth(y, 2);
    assert DaysBeforeMonth(y, 10) == 245 + DaysInMonth(y, 2);
    assert DaysBeforeMonth(y, 11) == 276 + DaysInMonth(y, 2);
    assert DaysBeforeMonth(y, 12) == 306 + DaysInMonth(y, 2);
  }

  /** NextDay moves the ordinal on by exactly one. */
  lemma NextDayOrdinal(d: Date)
    requires Valid(d)
    ensures Ordinal(NextDay(d)) == Ordinal(d) + 1
  {
    if d.day == DaysInMonth(d.year, d.month) && d.month == 12 {
      MonthsMakeYear(d.year);
    }
  }

  /** AddDays(d, n) lies exactly n days after d. */
  lemma {:induction false} AddDaysOrdinal(d: Date, n: nat)
    requires Valid(d)
    ensures Ordinal(AddDays(d, n)) == Ordinal(d) + n
    decreases n
  {
    if n > 0 {
      NextDayOrdinal(d);
      AddDaysOrdinal(NextDay(d), n - 1);
    }
  }

  lemma {:induction false} DaysBeforeMonthBound(y: int, m: int)
    requires 1 <= m <= 12
    ensures DaysBeforeMonth(y, m) + DaysInMonth(y, m) <= YearLength(y)
    decreases 12 - m
  {
    if m == 12 {
      MonthsMakeYear(y);
    } else {
      DaysBeforeMonthBound(y, m + 1);
    }
  }

  lemma {:induction false} DaysBeforeMonthMonotone(y: int, m1: int, m2: int)
    requires 1 <= m1 < m2 <= 12
    ensures DaysBeforeMonth(y, m1) + DaysInMonth(y, m1) <= DaysBeforeMonth(y, m2)
    decreases m2 - m1
  {
    if m1 + 1 < m2 {
      DaysBeforeMonthMonotone(y, m1, m2 - 1);
    }
  }

  lemma {:induction false} DaysBeforeYearMonotone(y1: int, y2: int)
    requires 1 <= y1 < y2
    ensures DaysBeforeYear(y1) + YearLength(y1) <= DaysBeforeYear(y2)
    decreases y2 - y1
  {
    if y1 + 1 < y2 {
      DaysBeforeYearMonotone(y1, y2 - 1);
    }
  }

  /** Earlier dates have smaller ordinals (lexicographic order on year, month, day). */
  lemma OrdinalMonotone(a: Date, b: Date)
    requires Valid(a) && Valid(b)
    requires a.year < b.year || (a.year == b.year && a.month < b.month) ||
             (a.year == b.year && a.month == b.month && a.day < b.day)
    ensures Ordinal(a) < Ordinal(b)
  {
    if a.year < b.year {
      DaysBeforeMonthBound(a.year, a.month);
      DaysBeforeYearMonotone(a.year, b.year);
    } else if a.month < b.month {
      DaysBeforeMonthMonotone(a.year, a.month, b.month);
    }
  }

  /** Distinct valid dates have distinct ordinals. */
  lemma OrdinalInjective(a: Date, b: Date)
    requires Valid(a) && Valid(b) && Ordinal(a) == Ordinal(b)
    ensures a == b
  {
    if a.year < b.year || (a.year == b.year && a.month < b.month) ||
       (a.year == b.year && a.month == b.month && a.day < b.day) {
      OrdinalMonotone(a, b);
    } else if b.year < a.year || (a.year == b.year && b.month < a.month) ||
              (a.year == b.year && a.month == b.month && b.day < a.day) {
      OrdinalMonotone(b, a);
    }
  }

  /** AddDays(d, n) is the one valid date that lies n days after d. */
  lemma AddDaysUnique(d: Date, n: nat, e: Date)
    requires Valid(d) && Valid(e)
    ensures Ordinal(e) == Ordinal(d) + n <==> e == AddDays(d, n)
  {
    AddDaysOrdinal(d, n);
    if Ordinal(e) == Ordinal(d) + n {
      OrdinalInjective(e, AddDays(d, n));
    }
  }

  /** `strftime('%m/%d/%Y')`: two-digit month and day, four-digit year. */
  function FormatDate(d: Date): string
    requires Valid(d)
  {
    ZeroPad(d.month, 2) + "/" + ZeroPad(d.day, 2) + "/" + ZeroPad(d.year, 4)
  }

  lemma TwoDigits(n: nat)
    requires n < 100
    ensures |ZeroPad(n, 2)| == 2 && IsDigits(ZeroPad(n, 2)) && Value(ZeroPad(n, 2)) == n
  {
    ZeroPadSpec(n, 2);
    DigitsLength(n, 2);
  }

  lemma FourDigits(n: nat)
    requires n < 10000
    ensures |ZeroPad(n, 4)| == 4 && IsDigits(ZeroPad(n, 4)) && Value(ZeroPad(n, 4)) == n
  {
    ZeroPadSpec(n, 4);
    DigitsLength(n, 4);
  }

  /** A printed date is "MM/DD/YYYY" and reads back to the same month, day and year. */
  lemma FormatDateFields(d: Date)
    requires Valid(d) && d.year <= MaxYear
    ensures var s := FormatDate(d);
      |s| == 10 && s[2] == '/' && s[5] == '/' &&
      IsDigits(s[..2]) && IsDigits(s[3..5]) && IsDigits(s[6..]) &&
      Value(s[..2]) == d.month && Value(s[3..5]) == d.day && Value(s[6..]) == d.year
  {
    var m, dd, y := ZeroPad(d.month, 2), ZeroPad(d.day, 2), ZeroPad(d.year, 4);
    TwoDigits(d.month);
    TwoDigits(d.day);
    FourDigits(d.year);
    FieldsAt(FormatDate(d), m, dd, y);
  }

  /** Different dates (up to year 9999) never print the same. */
  lemma FormatDateInjective(a: Date, b: Date)
    requires Valid(a) && Valid(b) && a.year <= MaxYear && b.year <= MaxYear
    ensures FormatDate(a) == FormatDate(b) <==> a == b
  {
    FormatDateFields(a);
    FormatDateFields(b);
  }

  lemma FieldsAt(s: string, m: string, dd: string, y: string)
    requires s == m + "/" + dd + "/" + y && |m| == 2 && |dd| == 2 && |y| == 4
    ensures |s| == 10 && s[2] == '/' && s[5] == '/' && s[..2] == m && s[3..5] == dd && s[6..] == y
  {
  }
}
