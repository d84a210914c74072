/**
 Proleptic Gregorian calendar dates, and the calendar arithmetic that Luxon's
 `plus`/`minus` perform on a local date: whole days, and whole months with the
 day of month clamped to the length of the target month.
 */
module Calendar {

  datatype Date = Date(year: int, month: int, day: int)

  predicate IsLeapYear(y: int) {
    y % 4 == 0 && (y % 100 != 0 || y % 400 == 0)
  }

  function DaysInMonth(y: int, m: int): (n: int)
    requires 1 <= m <= 12
    ensures 28 <= n <= 31
    ensures m == 2 ==> (n == 29 <==> IsLeapYear(y))
  {
    if m == 2 then (if IsLeapYear(y) then 29 else 28)
    else if m == 4 || m == 6 || m == 9 || m == 11 then 30
    else 31
  }

  /** A date that exists on the calendar (what Luxon calls a valid date). */
  predicate ValidDate(d: Date) {
    1 <= d.month <= 12 && 1 <= d.day <= DaysInMonth(d.year, d.month)
  }

  /** Strict chronological order of dates. */
  predicate Before(a: Date, b: Date) {
    a.year < b.year ||
    (a.year == b.year && (a.month < b.month || (a.month == b.month && a.day < b.day)))
  }

  /** Number of whole months from year 0, January, to the month of `d`. */
  function MonthIndex(d: Date): int {
    d.year * 12 + d.month - 1
  }

  function Min(a: int, b: int): int {
    if a <= b then a else b
  }

  /** Days in the years from year 0 up to (not including) year `y`, leap days included. */
  function DaysBeforeYear(y: int): int {
    365 * y + (y + 3) / 4 - (y + 99) / 100 + (y + 399) / 400
  }

  /** Days in the months of year `y` before month `m`. */
  function DaysBeforeMonth(y: int, m: int): (n: int)
    requires 1 <= m <= 12
    ensures 0 <= n <= 335
  {
    var common :=
      if m == 1 then 0 else if m == 2 then 31 else if m == 3 then 59 else if m == 4 then 90
      else if m == 5 then 120 else if m == 6 then 151 else if m == 7 then 181 else if m == 8 then 212
      else if m == 9 then 243 else if m == 10 then 273 else if m == 11 then 304 else 334;
    common + (if m > 2 && IsLeapYear(y) then 1 else 0)
  }

  /**
   The day count of `d`: how many days 1 January of year 0 lies before it.
   Consecutive days have consecutive counts (`NextDayCount`), and the
   counts order valid dates as `Before` does (`DayNumberOrder`).
   */
  function DayNumber(d: Date): int
    requires 1 <= d.month <= 12
  {
    DaysBeforeYear(d.year) + DaysBeforeMonth(d.year, d.month) + d.day - 1
  }

  /** A year has 366 days when it is a leap year and 365 otherwise. */
  lemma YearLength(y: int)
    ensures DaysBeforeYear(y + 1) == DaysBeforeYear(y) + DaysBeforeMonth(y, 12) + DaysInMonth(y, 12)
    ensures DaysBeforeYear(y + 1) == DaysBeforeYear(y) + if IsLeapYear(y) then 366 else 365
  {
    LeapDays(y);
    assert DaysBeforeMonth(y, 12) == 334 + if IsLeapYear(y) then 1 else 0;
  }

  /** Going from `y` to `y + 1` adds one leap day exactly when `y` is a leap year. */
  lemma LeapDays(y: int)
    ensures ((y + 4) / 4 - (y + 3) / 4) - ((y + 100) / 100 - (y + 99) / 100) + ((y + 400) / 400 - (y + 399) / 400)
            == if IsLeapYear(y) then 1 else 0
  {
    MultiplesUpTo(y, 4);
    MultiplesUpTo(y, 100);
    MultiplesUpTo(y, 400);
    if y % 400 == 0 {
      DividesDown(y, 400, 100);
      DividesDown(y, 400, 4);
    } else if y % 100 == 0 {
      DividesDown(y, 100, 4);
    }
  }

  /** A multiple of `k` is a multiple of each divisor `j` of `k`. */
  lemma DividesDown(y: int, k: int, j: int)
    requires (k == 400 && (j == 100 || j == 4)) || (k == 100 && j == 4)
    requires y % k == 0
    ensures y % j == 0
  {
    var q := y / k;
    assert y == (q * (k / j)) * j;
  }

  /** Going from `y` to `y + 1` passes one more multiple of `k` exactly when `y` is one. */
  lemma MultiplesUpTo(y: int, k: int)
    requires k == 4 || k == 100 || k == 400
    ensures (y + k) / k - (y + k - 1) / k == if y % k == 0 then 1 else 0
  {
    var q, r := y / k, y % k;
    assert y == q * k + r && 0 <= r < k;
    assert (y + k) / k == q + 1 by {
      assert y + k == (q + 1) * k + r;
    }
    if r == 0 {
      assert (y + k - 1) / k == q by {
        assert y + k - 1 == q * k + (k - 1);
      }
    } else {
      assert (y + k - 1) / k == q + 1 by {
        assert y + k - 1 == (q + 1) * k + (r - 1);
      }
    }
  }

  /** Month `m` starts where month `m - 1` ends. */
  lemma MonthLength(y: int, m: int)
    requires 1 <= m < 12
    ensures DaysBeforeMonth(y, m + 1) == DaysBeforeMonth(y, m) + DaysInMonth(y, m)
  {
  }

  /** A later month of the same year starts after the earlier one ends. */
  lemma MonthsInOrder(y: int, m1: int, m2: int)
    requires 1 <= m1 < m2 <= 12
    ensures DaysBeforeMonth(y, m1) + DaysInMonth(y, m1) <= DaysBeforeMonth(y, m2)
  {
    MonthLength(y, m1);
  }

  /** Every valid date of year `y` has its count inside that year. */
  lemma WithinYear(d: Date)
    requires ValidDate(d)
    ensures DaysBeforeYear(d.year) <= DayNumber(d) < DaysBeforeYear(d.year + 1)
  {
    YearLength(d.year);
    if d.month < 12 {
      MonthsInOrder(d.year, d.month, 12);
    }
  }

  /** Counts of years grow with the year. */
  lemma {:induction false} YearsInOrder(y1: int, y2: int)
    requires y1 <= y2
    ensures DaysBeforeYear(y1) <= DaysBeforeYear(y2)
    decreases y2 - y1
  {
    if y1 < y2 {
      YearLength(y2 - 1);
      YearsInOrder(y1, y2 - 1);
    }
  }

  /** The day counts order valid dates exactly as `Before` does. */
  lemma DayNumberOrder(a: Date, b: Date)
    requires ValidDate(a) && ValidDate(b)
    ensures Before(a, b) <==> DayNumber(a) < DayNumber(b)
    ensures a == b <==> DayNumber(a) == DayNumber(b)
  {
    WithinYear(a);
    WithinYear(b);
    if a.year < b.year {
      YearsInOrder(a.year + 1, b.year);
    } else if b.year < a.year {
      YearsInOrder(b.year + 1, a.year);
    } else if a.month < b.month {
      MonthsInOrder(a.year, a.month, b.month);
    } else if b.month < a.month {
      MonthsInOrder(a.year, b.month, a.month);
    }
  }

  /** The day after a valid date is one day count later. */
  lemma NextDayCount(d: Date)
    requires ValidDate(d)
    ensures d.day < DaysInMonth(d.year, d.month) ==> DayNumber(Date(d.year, d.month, d.day + 1)) == DayNumber(d) + 1
    ensures d.day == DaysInMonth(d.year, d.month) && d.month < 12 ==>
      DayNumber(Date(d.year, d.month + 1, 1)) == DayNumber(d) + 1
    ensures d.day == DaysInMonth(d.year, d.month) && d.month == 12 ==>
      DayNumber(Date(d.year + 1, 1, 1)) == DayNumber(d) + 1
  {
    YearLength(d.year);
    if d.month < 12 {
      MonthLength(d.year, d.month);
    }
  }

  /** The following calendar day. */
  function NextDay(d: Date): (r: Date)
    requires ValidDate(d)
    ensures ValidDate(r) && Before(d, r)
    ensures DayNumber(r) == DayNumber(d) + 1
  {
    NextDayCount(d);
    if d.day < DaysInMonth(d.year, d.month) then Date(d.year, d.month, d.day + 1)
    else if d.month < 12 then Date(d.year, d.month + 1, 1)
    else Date(d.year + 1, 1, 1)
  }

  /** The preceding calendar day. */
  function PrevDay(d: Date): (r: Date)
    requires ValidDate(d)
    ensures ValidDate(r) && Before(r, d)
    ensures DayNumber(r) == DayNumber(d) - 1
  {
    var r := if d.day > 1 then Date(d.year, d.month, d.day - 1)
      else if d.month > 1 then Date(d.year, d.month - 1, DaysInMonth(d.year, d.month - 1))
      else Date(d.year - 1, 12, 31);
    NextDayCount(r);
    assert NextDay(r) == d;
    r
  }

  /** `plus({ days: n })`: the date `n` day counts later. */
  function AddDays(d: Date, n: nat): (r: Date)
    requires ValidDate(d)
    ensures ValidDate(r)
    ensures DayNumber(r) == DayNumber(d) + n
    ensures n > 0 ==> Before(d, r)
    decreases n
  {
    if n == 0 then d else AddDays(NextDay(d), n - 1)
  }

  /** `minus({ days: n })`: the date `n` day counts earlier. */
  function SubDays(d: Date, n: nat): (r: Date)
    requires ValidDate(d)
    ensures ValidDate(r)
    ensures DayNumber(r) == DayNumber(d) - n
    ensures n > 0 ==> Before(r, d)
    decreases n
  {
    if n == 0 then d else SubDays(PrevDay(d), n - 1)
  }

  /** Moving `n` days forward and then `n` days back returns to the same date. */
  lemma SubDaysUndoesAddDays(d: Date, n: nat)
    requires ValidDate(d)
    ensures SubDays(AddDays(d, n), n) == d
  {
    DayNumberOrder(SubDays(AddDays(d, n), n), d);
  }

  /**
   `plus({ months: n })`: move n months forward and clamp the day of month to
   the last day of the target month, keeping it otherwise.
   */
  function AddMonths(d: Date, n: nat): (r: Date)
    requires ValidDate(d)
    ensures ValidDate(r)
    ensures MonthIndex(r) == MonthIndex(d) + n
    ensures r.day == Min(d.day, DaysInMonth(r.year, r.month))
    ensures n > 0 ==> Before(d, r)
  {
    var t := MonthIndex(d) + n;
    var y, m := t / 12, t % 12 + 1;
    Date(y, m, Min(d.day, DaysInMonth(y, m)))
  }

  /** `plus({ years: n })`: the same clamping, twelve months at a time (Feb 29 becomes Feb 28). */
  function AddYears(d: Date, n: nat): (r: Date)
    requires ValidDate(d)
    ensures ValidDate(r)
    ensures r.year == d.year + n && r.month == d.month
    ensures r.day == Min(d.day, DaysInMonth(r.year, r.month))
  {
    AddMonths(d, 12 * n)
  }
}
