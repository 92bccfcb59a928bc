/** UTC calendar arithmetic as JavaScript's `Date.UTC` performs it, on integer
    milliseconds since 1970-01-01T00:00:00Z in the proleptic Gregorian calendar. */
module Calendar {

  const DayMs := 86400000

  type MonthIndex = m: int | 0 <= m < 12

  /** The current UTC year and month, as `getUTCFullYear` and `getUTCMonth` read them
      from the clock. The model takes four-digit years only. */
  datatype UtcNow = UtcNow(year: int, monthIndex: MonthIndex)

  predicate FourDigitYear(now: UtcNow) {
    1000 <= now.year <= 9999
  }

  predicate IsLeap(y: int) {
    y % 4 == 0 && (y % 100 != 0 || y % 400 == 0)
  }

  function MonthDays(y: int, m: MonthIndex): (r: int)
    ensures 28 <= r <= 31
  {
    if m == 1 then (if IsLeap(y) then 29 else 28)
    else if m == 3 || m == 5 || m == 8 || m == 10 then 30
    else 31
  }

  /** Days in the months of year `y` before month `m`. */
  function DaysBeforeMonth(y: int, m: MonthIndex): int {
    [0, 31, 59, 90, 120, 151, 181, 212, 243, 273, 304, 334][m] + (if m >= 2 && IsLeap(y) then 1 else 0)
  }

  function YearDays(y: int): int {
    if IsLeap(y) then 366 else 365
  }

  /** Days from 1970-01-01 to January 1st of year `y`, counted year by year. */
  function DaysBeforeYear(y: int): int
    decreases if y >= 1970 then y - 1970 else 1970 - y
  {
    if y == 1970 then 0
    else if y > 1970 then DaysBeforeYear(y - 1) + YearDays(y - 1)
    else DaysBeforeYear(y + 1) - YearDays(y)
  }

  /** Leap years in 1..n (for n >= 0), shifted consistently below. */
  function Leaps(n: int): int {
    n / 4 - n / 100 + n / 400
  }

  /** The day number of a calendar date, counted from 1970-01-01. */
  function DayNumber(y: int, m: MonthIndex, day: int): int {
    DaysBeforeYear(y) + DaysBeforeMonth(y, m) + day - 1
  }

  /** `Date.UTC(year, monthIndex, day)`: a year from 0 to 99 means 1900 + year, and a
      month index outside 0..11 carries into the year. */
  function DateUtc(year: int, monthIndex: int, day: int): int {
    UtcDay(year, monthIndex, day) * DayMs
  }

  /** The day number `Date.UTC` computes before scaling to milliseconds. */
  function UtcDay(year: int, monthIndex: int, day: int): int {
    var fullYear := if 0 <= year <= 99 then 1900 + year else year;
    DayNumber(fullYear + monthIndex / 12, monthIndex % 12, day)
  }

  /** A year has 366 days exactly when it is a leap year, 365 otherwise. */
  lemma YearLength(y: int)
    ensures DaysBeforeYear(y + 1) - DaysBeforeYear(y) == if IsLeap(y) then 366 else 365
  {
  }

  /** The year count agrees with the closed form `Date.UTC` uses: 365 days a year plus
      one for every leap year passed. */
  lemma {:induction false} DaysBeforeYearClosedForm(y: int)
    ensures DaysBeforeYear(y) == 365 * (y - 1970) + Leaps(y - 1) - Leaps(1969)
    decreases if y >= 1970 then y - 1970 else 1970 - y
  {
    if y > 1970 {
      DaysBeforeYearClosedForm(y - 1);
      LeapStep(y - 1);
    } else if y < 1970 {
      DaysBeforeYearClosedForm(y + 1);
      LeapStep(y);
    }
  }

  /** Passing year `y` adds one leap year exactly when `y` is a leap year. */
  lemma LeapStep(y: int)
    ensures Leaps(y) - Leaps(y - 1) == if IsLeap(y) then 1 else 0
  {
    QuotientStep4(y);
    QuotientStep100(y);
    QuotientStep400(y);
  }

  lemma QuotientStep4(y: int)
    ensures y / 4 - (y - 1) / 4 == if y % 4 == 0 then 1 else 0
  {
    var q, r := y / 4, y % 4;
    if r > 0 { DivBy4(y - 1, q, r - 1); } else { DivBy4(y - 1, q - 1, 3); }
  }

  lemma QuotientStep100(y: int)
    ensures y / 100 - (y - 1) / 100 == if y % 100 == 0 then 1 else 0
    ensures y % 100 == 0 ==> y % 4 == 0
  {
    var q, r := y / 100, y % 100;
    if r > 0 {
      DivBy100(y - 1, q, r - 1);
    } else {
      DivBy100(y - 1, q - 1, 99);
      DivBy4(y, 25 * q, 0);
    }
  }

  lemma QuotientStep400(y: int)
    ensures y / 400 - (y - 1) / 400 == if y % 400 == 0 then 1 else 0
    ensures y % 400 == 0 ==> y % 100 == 0
  {
    var q, r := y / 400, y % 400;
    if r > 0 {
      DivBy400(y - 1, q, r - 1);
    } else {
      DivBy400(y - 1, q - 1, 399);
      DivBy100(y, 4 * q, 0);
    }
  }

  /** Division by a constant is determined by a quotient and an in-range remainder. */
  lemma DivBy4(x: int, q: int, m: int)
    requires 0 <= m < 4 && x == q * 4 + m
    ensures x / 4 == q && x % 4 == m
  {
  }

  lemma DivBy100(x: int, q: int, m: int)
    requires 0 <= m < 100 && x == q * 100 + m
    ensures x / 100 == q && x % 100 == m
  {
  }

  lemma DivBy400(x: int, q: int, m: int)
    requires 0 <= m < 400 && x == q * 400 + m
    ensures x / 400 == q && x % 400 == m
  {
  }

  /** Day numbers: the first of the month after `m` of year `y` comes `MonthDays(y, m)`
      days after the first of `m`. */
  lemma NextMonthDay(y: int, m: MonthIndex)
    ensures m < 11 ==> DayNumber(y, m + 1, 1) == DayNumber(y, m, 1) + MonthDays(y, m)
    ensures m == 11 ==> DayNumber(y + 1, 0, 1) == DayNumber(y, m, 1) + MonthDays(y, m)
  {
    if m == 11 {
      YearLength(y);
    }
  }

  /** The first of the next month is the first of this month plus the month's length;
      after December comes January of the following year. */
  lemma NextMonthStart(year: int, m: MonthIndex)
    ensures var fullYear := if 0 <= year <= 99 then 1900 + year else year;
      DateUtc(year, m + 1, 1) == DateUtc(year, m, 1) + MonthDays(fullYear, m) * DayMs
  {
    var fullYear := if 0 <= year <= 99 then 1900 + year else year;
    UtcDayNext(year, m);
    var a, b := UtcDay(year, m, 1), MonthDays(fullYear, m);
    assert (a + b) * DayMs == a * DayMs + b * DayMs;
  }

  lemma UtcDayNext(year: int, m: MonthIndex)
    ensures var fullYear := if 0 <= year <= 99 then 1900 + year else year;
      UtcDay(year, m + 1, 1) == UtcDay(year, m, 1) + MonthDays(fullYear, m)
  {
    var fullYear := if 0 <= year <= 99 then 1900 + year else year;
    NextMonthDay(fullYear, m);
    assert m / 12 == 0 && m % 12 == m;
    assert UtcDay(year, m, 1) == DayNumber(fullYear, m, 1);
    if m == 11 {
      assert (m + 1) / 12 == 1 && (m + 1) % 12 == 0;
      assert UtcDay(year, m + 1, 1) == DayNumber(fullYear + 1, 0, 1);
    } else {
      assert (m + 1) / 12 == 0 && (m + 1) % 12 == m + 1;
      assert UtcDay(year, m + 1, 1) == DayNumber(fullYear, m + 1, 1);
    }
  }

  /** A month index of 12 carries into January of the next year, for years that
      `Date.UTC` does not read as two-digit years. */
  lemma DecemberCarry(y: int)
    requires y >= 100
    ensures DateUtc(y, 12, 1) == DateUtc(y + 1, 0, 1)
  {
    assert UtcDay(y, 12, 1) == DayNumber(y + 1, 0, 1);
  }

  /** `Date.UTC` reads a year from 0 to 99 as 1900 plus that year. */
  lemma TwoDigitYear(y: int, m: int, day: int)
    requires 0 <= y <= 99
    ensures DateUtc(y, m, day) == DateUtc(1900 + y, m, day)
  {
    assert UtcDay(y, m, day) == DayNumber(1900 + y + m / 12, m % 12, day);
  }

  /** The first day of 1970 is day zero. */
  lemma Epoch()
    ensures DateUtc(1970, 0, 1) == 0
  {
  }
}
