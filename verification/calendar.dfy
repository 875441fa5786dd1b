/** Civil dates in the proleptic Gregorian calendar, as the JavaScript `Date` methods the
    source calls (`getFullYear`, `getMonth`, `getDate`, `getUTCDay`) see them. The model
    does not distinguish local time from UTC. */
module Calendar {

  datatype Date = Date(year: int, month: int, day: int)

  predicate IsLeap(y: int) { y % 4 == 0 && (y % 100 != 0 || y % 400 == 0) }

  function DaysInYear(y: int): int { if IsLeap(y) then 366 else 365 }

  function DaysInMonth(y: int, m: int): (n: int)
    requires 1 <= m <= 12
    ensures 28 <= n <= 31
  {
    if m == 2 then (if IsLeap(y) then 29 else 28)
    else if m == 4 || m == 6 || m == 9 || m == 11 then 30
    else 31
  }

  predicate ValidDate(d: Date) { 1 <= d.month <= 12 && 1 <= d.day <= DaysInMonth(d.year, d.month) }

  type CivilDate = d: Date | ValidDate(d) witness Date(1970, 1, 1)

  const MsPerDay: int := 86400000

  type MsOfDay = x: int | 0 <= x < MsPerDay

  /** A moment: a civil date and the milliseconds elapsed since its midnight. */
  datatype Timestamp = Timestamp(date: CivilDate, msOfDay: MsOfDay)

  /** Days of the year before the first of month `m`. */
  function DaysBeforeMonth(y: int, m: int): (n: int)
    requires 1 <= m <= 12
    ensures n + DaysInMonth(y, m) <= DaysInYear(y)
    ensures m == 1 ==> n == 0
    ensures m > 1 ==> n == DaysBeforeMonth(y, m - 1) + DaysInMonth(y, m - 1)
  {
    var leap := if m > 2 && IsLeap(y) then 1 else 0;
    if m == 1 then 0 else if m == 2 then 31 else if m == 3 then 59 + leap
    else if m == 4 then 90 + leap else if m == 5 then 120 + leap
    else if m == 6 then 151 + leap else if m == 7 then 181 + leap
    else if m == 8 then 212 + leap else if m == 9 then 243 + leap
    else if m == 10 then 273 + leap else if m == 11 then 304 + leap
    else 334 + leap
  }

  /** 1-based day of the year. */
  function DayOfYear(d: CivilDate): (n: int)
    ensures 1 <= n <= DaysInYear(d.year)
  {
    DaysBeforeMonth(d.year, d.month) + d.day
  }

  /** Days from 0001-01-01 up to (not including) January 1 of year `y`. */
  function DaysBeforeYear(y: int): int
  {
    var p := y - 1;
    365 * p + p / 4 - p / 100 + p / 400
  }

  lemma DaysBeforeNextYear(y: int)
    ensures DaysBeforeYear(y + 1) == DaysBeforeYear(y) + DaysInYear(y)
  {
    Step4(y - 1);
    Step100(y - 1);
    Step400(y - 1);
  }

  lemma Step4(p: int)
    ensures (p + 1) / 4 == p / 4 + (if (p + 1) % 4 == 0 then 1 else 0)
  {
  }

  lemma Step100(p: int)
    ensures (p + 1) / 100 == p / 100 + (if (p + 1) % 100 == 0 then 1 else 0)
  {
  }

  lemma Step400(p: int)
    ensures (p + 1) / 400 == p / 400 + (if (p + 1) % 400 == 0 then 1 else 0)
  {
  }

  /** Day `n` of year `y` is a real day of that year. */
  predicate ValidPos(y: int, n: int) { 1 <= n <= DaysInYear(y) }

  /** Running day number: 0001-01-01 is day 1. */
  function Ordinal(y: int, n: int): int { DaysBeforeYear(y) + n }

  /** `getUTCDay()`: 0 is Sunday, 1 Monday, …, 6 Saturday (0001-01-01 was a Monday). */
  function WeekDay(y: int, n: int): (w: int)
    ensures 0 <= w < 7
  {
    Ordinal(y, n) % 7
  }

  /** The day `k` days away from day `n` of year `y`, for a shift of at most three days,
      as `setUTCDate(getUTCDate() + k)` normalises it. */
  function Shift(y: int, n: int, k: int): (r: (int, int))
    requires ValidPos(y, n) && -3 <= k <= 3
    ensures ValidPos(r.0, r.1)
  {
    if n + k < 1 then (y - 1, n + k + DaysInYear(y - 1))
    else if n + k > DaysInYear(y) then (y + 1, n + k - DaysInYear(y))
    else (y, n + k)
  }

  lemma ShiftOrdinal(y: int, n: int, k: int)
    requires ValidPos(y, n) && -3 <= k <= 3
    ensures Ordinal(Shift(y, n, k).0, Shift(y, n, k).1) == Ordinal(y, n) + k
  {
    DaysBeforeNextYear(y - 1);
    DaysBeforeNextYear(y);
  }

  /** The day after day `n` of year `y`. */
  function Next(y: int, n: int): (r: (int, int))
    requires ValidPos(y, n)
    ensures ValidPos(r.0, r.1)
  {
    if n < DaysInYear(y) then (y, n + 1) else (y + 1, 1)
  }

  lemma NextOrdinal(y: int, n: int)
    requires ValidPos(y, n)
    ensures Ordinal(Next(y, n).0, Next(y, n).1) == Ordinal(y, n) + 1
  {
    DaysBeforeNextYear(y);
  }

  lemma {:induction false} DaysBeforeYearMonotone(a: int, b: int)
    requires a <= b
    ensures DaysBeforeYear(a) + (if a < b then DaysInYear(a) else 0) <= DaysBeforeYear(b)
    decreases b - a
  {
    if a < b {
      DaysBeforeNextYear(a);
      if a + 1 < b {
        DaysBeforeYearMonotone(a + 1, b);
      }
    }
  }

  /** A day number names exactly one (year, day-of-year) pair. */
  lemma OrdinalInjective(y1: int, n1: int, y2: int, n2: int)
    requires ValidPos(y1, n1) && ValidPos(y2, n2)
    requires Ordinal(y1, n1) == Ordinal(y2, n2)
    ensures y1 == y2 && n1 == n2
  {
    if y1 < y2 {
      DaysBeforeYearMonotone(y1, y2);
    } else if y2 < y1 {
      DaysBeforeYearMonotone(y2, y1);
    }
  }

  /** Milliseconds since 1970-01-01T00:00:00, what `new Date(…)` holds. */
  const EpochOrdinal: int := 719163

  function TimeValue(t: Timestamp): int
  {
    (Ordinal(t.date.year, DayOfYear(t.date)) - EpochOrdinal) * 86400000 + t.msOfDay
  }

  /** Later dates have larger day numbers. */
  lemma OrdinalMonotone(y1: int, n1: int, y2: int, n2: int)
    requires ValidPos(y1, n1) && ValidPos(y2, n2)
    requires y1 < y2 || (y1 == y2 && n1 < n2)
    ensures Ordinal(y1, n1) < Ordinal(y2, n2)
  {
    if y1 < y2 {
      DaysBeforeYearMonotone(y1, y2);
    }
  }
}
