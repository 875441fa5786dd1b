/** Bucket keys for time periods and the reading of such keys back into time values:
    what `new Date(…)`, `toISOString`, `getFullYear`/`getMonth` and `Date.parse` do to
    the dates that pass through the aggregation pipeline. */
module DateKeys {
  import opened Wrappers
  import opened Text
  import opened Calendar

  /** One date-valued field of a raw record, as `||` and `new Date(field)` see it. */
  datatype DateField =
    | Absent                 // undefined, "" or NaN: falsy, and Invalid Date to `new Date`
    | FalsyEpoch             // null, 0 or false: falsy, yet `new Date` reads it as the epoch
    | Unparsable             // a truthy value that `new Date` reads as Invalid Date
    | At(moment: Timestamp)  // a truthy value that denotes this moment

  predicate Falsy(f: DateField) { f.Absent? || f.FalsyEpoch? }

  /** 1970-01-01T00:00:00, time value 0. */
  const Epoch := Timestamp(Date(1970, 1, 1), 0)

  /** Largest distance from the epoch a time value may have (ECMA-262, "Time Values and
      Time Range"): 10^8 days. */
  const MaxTime: int := 8640000000000000

  predicate InTimeRange(tv: int) { -MaxTime <= tv <= MaxTime }

  /** `new Date(field)`; `None` is Invalid Date. */
  function DateOf(f: DateField): Option<Timestamp>
  {
    if f.FalsyEpoch? then Some(Epoch)
    else if f.At? && InTimeRange(TimeValue(f.moment)) then Some(f.moment)
    else None
  }

  /** `new Date(a || b || c)`: the first field that is not falsy decides, and when both
      `a` and `b` are falsy, `c` decides whatever it is. */
  function FirstDate(a: DateField, b: DateField, c: DateField): (r: Option<Timestamp>)
    ensures !Falsy(a) ==> r == DateOf(a)
    ensures Falsy(a) && !Falsy(b) ==> r == DateOf(b)
    ensures Falsy(a) && Falsy(b) ==> r == DateOf(c)
  {
    DateOf(if !Falsy(a) then a else if !Falsy(b) then b else c)
  }

  function Pad2(n: nat): string { PadStart(NatToString(n), 2, '0') }

  /** The year field of `toISOString`: four digits for years 0–9999, otherwise a sign and
      six digits. */
  function IsoYear(y: int): string
  {
    if 0 <= y <= 9999 then PadStart(NatToString(y), 4, '0')
    else (if y < 0 then "-" else "+") + PadStart(NatToString(if y < 0 then -y else y), 6, '0')
  }

  /** "-MM-DD" */
  function MonthDaySuffix(m: nat, d: nat): string { "-" + Pad2(m) + "-" + Pad2(d) }

  /** `date.toISOString().split('T')[0]`: the `YYYY-MM-DD` part. */
  function DailyKey(t: Timestamp): string
  {
    IsoYear(t.date.year) + MonthDaySuffix(t.date.month, t.date.day)
  }

  /** The year `new Date(y, 0, 1)` builds: years 0–99 are taken as 1900–1999. */
  function ConstructorYear(y: int): int { if 0 <= y <= 99 then 1900 + y else y }

  function YearStart(y: int): int
  {
    TimeValue(Timestamp(Date(ConstructorYear(y), 1, 1), 0))
  }

  /** `Math.ceil(((date - yearStart) / 86400000 + 1) / 7)`; `None` is NaN, which arises
      when `yearStart` falls outside the time range. */
  function WeekNumber(t: Timestamp): Option<int>
  {
    var start := YearStart(t.date.year);
    if !InTimeRange(start) then None
    else
      var a := TimeValue(t) - start + 86400000;
      Some(-((-a) / 604800000))
  }

  /** `${getFullYear()}-W${weekNumber.toString().padStart(2, '0')}`. */
  function WeeklyKey(t: Timestamp): string
  {
    IntToString(t.date.year) + "-W" +
    match WeekNumber(t)
    case None => "NaN"
    case Some(w) => PadStart(IntToString(w), 2, '0')
  }

  /** `${getFullYear()}-${(getMonth() + 1).toString().padStart(2, '0')}`. */
  function MonthlyKey(t: Timestamp): string
  {
    IntToString(t.date.year) + MonthSuffix(t.date.month)
  }

  /** "-MM" */
  function MonthSuffix(m: nat): string { "-" + Pad2(m) }

  const InvalidTimeValue: string := "RangeError: Invalid time value"

  /** The bucket key of one record's date for a `timeRange`; `daily` and every name other
      than `weekly` and `monthly` use the daily key, whose `toISOString` throws on an
      invalid date, while the other two render NaN. */
  function BucketKey(d: Option<Timestamp>, timeRange: string): (k: Result<string>)
    ensures timeRange != "weekly" && timeRange != "monthly" ==>
      (k.Err? <==> d.None?) && (d.Some? ==> k == Ok(DailyKey(d.value)))
    ensures timeRange == "weekly" ==>
      k == Ok(if d.Some? then WeeklyKey(d.value) else "NaN-WNaN")
    ensures timeRange == "monthly" ==>
      k == Ok(if d.Some? then MonthlyKey(d.value) else "NaN-NaN")
  {
    if timeRange == "daily" then
      if d.None? then Err(InvalidTimeValue) else Ok(DailyKey(d.value))
    else if timeRange == "weekly" then
      Ok(if d.None? then "NaN-WNaN" else WeeklyKey(d.value))
    else if timeRange == "monthly" then
      Ok(if d.None? then "NaN-NaN" else MonthlyKey(d.value))
    else
      if d.None? then Err(InvalidTimeValue) else Ok(DailyKey(d.value))
  }

  // ---------------------------------------------------------------------------------
  // The week number

  /** Outside the years 0–99 the week number is the day of the year divided by seven and
      rounded up, where any time after midnight counts as part of the next day: so
      January 7 at 00:00 is in week 1 but a second later in week 2. */
  lemma WeekNumberOfDay(t: Timestamp)
    requires ConstructorYear(t.date.year) == t.date.year
    requires InTimeRange(YearStart(t.date.year))
    ensures WeekNumber(t) ==
      Some((DayOfYear(t.date) + 6 + (if t.msOfDay > 0 then 1 else 0)) / 7)
    ensures 1 <= WeekNumber(t).value <= 53
  {
    var n := DayOfYear(t.date);
    var a := TimeValue(t) - YearStart(t.date.year) + MsPerDay;
    assert a == n * MsPerDay + t.msOfDay;
    var w := (n + 6 + (if t.msOfDay > 0 then 1 else 0)) / 7;
    assert 7 * MsPerDay * (w - 1) < a <= 7 * MsPerDay * w;
  }

  /** Years 0–99 are measured from January 1 of 1900–1999, so their week numbers are
      negative. */
  lemma WeekNumberTwoDigitYear(t: Timestamp)
    requires 0 <= t.date.year <= 99
    ensures WeekNumber(t).Some? && WeekNumber(t).value < 0
  {
    var y := t.date.year;
    DaysBeforeYearMonotone(y, 1900 + y);
    DaysBeforeYearMonotone(1900, 1900 + y);
    DaysBeforeYearMonotone(1900 + y, 2000);
  }

  // ---------------------------------------------------------------------------------
  // Reading a key back: `new Date(key)` in a comparator

  /** The year of a date string: four digits, or a sign and six digits ("-000000" is not
      allowed). Also returns how many characters it spans. */
  function ParseYear(s: string): (r: Option<(int, nat)>)
    ensures r.Some? ==> r.value.1 <= |s|
  {
    if |s| >= 7 && (s[0] == '+' || s[0] == '-') && AllDigits(s[1..7]) then
      var v: int := DigitsValue(s[1..7]);
      var y: int := if s[0] == '-' then 0 - v else v;
      if s[0] == '-' && v == 0 then None else Some((y, 7))
    else if |s| >= 4 && AllDigits(s[..4]) then Some((DigitsValue(s[..4]), 4))
    else None
  }

  /** Month and day after the year: "", "-MM" or "-MM-DD". */
  function ParseMonthDay(rest: string): Option<(int, int)>
  {
    if |rest| == 0 then Some((1, 1))
    else if |rest| == 3 && rest[0] == '-' && AllDigits(rest[1..3]) then
      Some((DigitsValue(rest[1..3]), 1))
    else if |rest| == 6 && rest[0] == '-' && AllDigits(rest[1..3]) && rest[3] == '-'
            && AllDigits(rest[4..6]) then
      Some((DigitsValue(rest[1..3]), DigitsValue(rest[4..6])))
    else None
  }

  /** The day `new Date(s)` denotes for the date-only forms of ECMA-262's Date Time
      String Format (UTC midnight of that day); `None` is Invalid Date. */
  function KeyDate(s: string): (r: Option<CivilDate>)
    ensures r.Some? ==> InTimeRange(TimeValue(Timestamp(r.value, 0)))
  {
    match ParseYear(s)
    case None => None
    case Some(yn) =>
      match ParseMonthDay(s[yn.1..])
      case None => None
      case Some(md) =>
        if 1 <= md.0 <= 12 && 1 <= md.1 <= DaysInMonth(yn.0, md.0) then
          var d: CivilDate := Date(yn.0, md.0, md.1);
          if InTimeRange(TimeValue(Timestamp(d, 0))) then Some(d) else None
        else None
  }

  /** The time value of that day, as `Date.parse(s)` or `+new Date(s)` gives it. */
  function KeyTime(s: string): (r: Option<int>)
    ensures r.Some? <==> KeyDate(s).Some?
    ensures r.Some? ==> r.value == TimeValue(Timestamp(KeyDate(s).value, 0))
  {
    match KeyDate(s)
    case None => None
    case Some(d) => Some(TimeValue(Timestamp(d, 0)))
  }

  /** Only digits, signs and hyphens make up a string that reads as a date. */
  lemma KeyTimeCharacters(s: string)
    requires KeyTime(s).Some?
    ensures forall i :: 0 <= i < |s| ==> IsDigit(s[i]) || s[i] == '-' || s[i] == '+'
  {
    var yn := ParseYear(s).value;
    var rest := s[yn.1..];
    forall i | 0 <= i < |s|
      ensures IsDigit(s[i]) || s[i] == '-' || s[i] == '+'
    {
      if i >= yn.1 {
        assert s[i] == rest[i - yn.1];
        if |rest| == 3 {
          assert i - yn.1 == 0 || rest[1..3][i - yn.1 - 1] == rest[i - yn.1];
        } else if |rest| == 6 {
          var j := i - yn.1;
          assert j == 0 || j == 3 || (1 <= j < 3 && rest[1..3][j - 1] == rest[j])
            || (4 <= j < 6 && rest[4..6][j - 4] == rest[j]);
        }
      } else if yn.1 == 7 {
        assert i == 0 || s[1..7][i - 1] == s[i];
      } else {
        assert s[..4][i] == s[i];
      }
    }
  }

  /** Weekly keys never read as dates: `new Date("2024-W05")` is Invalid Date, which is
      why weekly buckets keep their first-seen order when sorted. */
  lemma WeeklyKeyUnparsable(t: Timestamp)
    ensures KeyTime(WeeklyKey(t)) == None
  {
    var k := WeeklyKey(t);
    var i := |IntToString(t.date.year)| + 1;
    assert k[i] == 'W';
    if KeyTime(k).Some? {
      KeyTimeCharacters(k);
      assert false;
    }
  }

  /** Keys made from an invalid date never read as dates either. */
  lemma NaNKeysUnparsable()
    ensures KeyTime("NaN-WNaN") == None
    ensures KeyTime("NaN-NaN") == None
  {
  }

  /** A moment inside the time range lies within a million years of year 0. */
  lemma YearBound(t: Timestamp)
    requires InTimeRange(TimeValue(t))
    ensures -999999 <= t.date.year <= 999999
  {
    var y := t.date.year;
    if y > 999999 {
      DaysBeforeYearMonotone(1000000, y);
      assert false;
    } else if y < -999999 {
      DaysBeforeYearMonotone(y, -999999);
      assert false;
    }
  }

  /** The midnight of a moment in the time range is itself in the range. */
  lemma MidnightInRange(t: Timestamp)
    requires InTimeRange(TimeValue(t))
    ensures InTimeRange(TimeValue(Timestamp(t.date, 0)))
  {
    var k := Ordinal(t.date.year, DayOfYear(t.date)) - EpochOrdinal;
    DayMultipleInRange(k, t.msOfDay);
  }

  /** -MaxTime is a whole number of days, so a whole day above it starts at or after it. */
  lemma DayMultipleInRange(k: int, ms: int)
    requires 0 <= ms < 86400000 && InTimeRange(k * 86400000 + ms)
    ensures InTimeRange(k * 86400000)
  {
  }

  lemma IsoYearRoundTrip(y: int, tail: string)
    requires -999999 <= y <= 999999
    ensures ParseYear(IsoYear(y) + tail) == Some((y, |IsoYear(y)|))
  {
    if 0 <= y <= 9999 {
      FourDigitYear(y, tail);
    } else {
      SixDigitYear(y, tail);
    }
  }

  lemma FourDigitYear(y: int, tail: string)
    requires 0 <= y <= 9999
    ensures |IsoYear(y)| == 4
    ensures ParseYear(IsoYear(y) + tail) == Some((y, 4))
  {
    var a := PadStart(NatToString(y), 4, '0');
    assert Pow10(4) == 10000;
    PaddedRoundTrip(y, 4);
    PaddedLength(y, 4);
    var s := a + tail;
    assert s[..4] == a;
    assert IsDigit(s[0]);
  }

  lemma SixDigitYear(y: int, tail: string)
    requires -999999 <= y <= 999999 && !(0 <= y <= 9999)
    ensures |IsoYear(y)| == 7
    ensures ParseYear(IsoYear(y) + tail) == Some((y, 7))
  {
    var v: nat := if y < 0 then -y else y;
    var c := if y < 0 then '-' else '+';
    var a := PadStart(NatToString(v), 6, '0');
    SixDigits(v);
    IsoYearSigned(y);
    SignedYear(c, a, tail, y);
  }

  /** Outside 0..9999 the year is a sign and the zero-padded magnitude. */
  lemma IsoYearSigned(y: int)
    requires !(0 <= y <= 9999)
    ensures IsoYear(y) == [if y < 0 then '-' else '+'] + PadStart(NatToString(if y < 0 then -y else y), 6, '0')
  {
  }

  /** A sign and the six digits of a year's magnitude read as that year. */
  lemma SignedYear(c: char, a: string, tail: string, y: int)
    requires |a| == 6 && AllDigits(a)
    requires (c == '-' && y < 0 && DigitsValue(a) == -y) || (c == '+' && y > 0 && DigitsValue(a) == y)
    ensures ParseYear([c] + a + tail) == Some((y, 7))
  {
    SignedYearForm(c, a, tail);
  }

  /** A number below a million, zero-padded to six places, is six digits that read
      back as the number. */
  lemma SixDigits(v: nat)
    requires v <= 999999
    ensures |PadStart(NatToString(v), 6, '0')| == 6
    ensures AllDigits(PadStart(NatToString(v), 6, '0'))
    ensures DigitsValue(PadStart(NatToString(v), 6, '0')) == v
  {
    assert Pow10(6) == 1000000;
    PaddedRoundTrip(v, 6);
    PaddedLength(v, 6);
  }

  /** A sign followed by six digits reads as a year spanning seven characters. */
  lemma SignedYearForm(c: char, a: string, tail: string)
    requires (c == '+' || c == '-') && |a| == 6 && AllDigits(a)
    ensures ParseYear([c] + a + tail) ==
      if c == '-' && DigitsValue(a) == 0 then None
      else Some((if c == '-' then 0 - DigitsValue(a) else DigitsValue(a), 7))
  {
    var s := [c] + a + tail;
    assert s[1..7] == a;
  }

  lemma MonthDayForm(p: string, q: string)
    requires |p| == 2 && AllDigits(p) && |q| == 2 && AllDigits(q)
    ensures ParseMonthDay("-" + p + "-" + q) == Some((DigitsValue(p), DigitsValue(q)))
  {
    var rest := "-" + p + "-" + q;
    assert rest[1..3] == p;
    assert rest[4..6] == q;
  }

  lemma MonthForm(p: string)
    requires |p| == 2 && AllDigits(p)
    ensures ParseMonthDay("-" + p) == Some((DigitsValue(p), 1))
  {
    var rest := "-" + p;
    assert rest[1..3] == p;
  }

  lemma Pad2RoundTrip(n: nat)
    requires n < 100
    ensures |Pad2(n)| == 2 && AllDigits(Pad2(n)) && DigitsValue(Pad2(n)) == n
  {
    assert Pow10(2) == 100;
    PaddedRoundTrip(n, 2);
    PaddedLength(n, 2);
  }

  lemma MonthDayRoundTrip(m: nat, d: nat)
    requires 1 <= m <= 12 && 1 <= d <= 31
    ensures ParseMonthDay(MonthDaySuffix(m, d)) == Some((m, d))
  {
    Pad2RoundTrip(m);
    Pad2RoundTrip(d);
    MonthDayForm(Pad2(m), Pad2(d));
  }

  lemma MonthRoundTrip(m: nat)
    requires 1 <= m <= 12
    ensures ParseMonthDay(MonthSuffix(m)) == Some((m, 1))
  {
    Pad2RoundTrip(m);
    MonthForm(Pad2(m));
  }

  lemma KeyTimeOf(s: string, y: int, n: nat, m: int, d: int)
    requires ParseYear(s) == Some((y, n)) && n <= |s|
    requires ParseMonthDay(s[n..]) == Some((m, d))
    requires ValidDate(Date(y, m, d))
    requires InTimeRange(TimeValue(Timestamp(Date(y, m, d), 0)))
    ensures KeyDate(s) == Some(Date(y, m, d))
    ensures KeyTime(s) == Some(TimeValue(Timestamp(Date(y, m, d), 0)))
  {
  }

  /** Reading a daily key back gives the midnight of the day it was made from, so sorting
      daily buckets by `new Date(key)` sorts them by day. */
  lemma DailyKeyRoundTrip(t: Timestamp)
    requires InTimeRange(TimeValue(t))
    ensures KeyDate(DailyKey(t)) == Some(t.date)
    ensures KeyTime(DailyKey(t)) == Some(TimeValue(Timestamp(t.date, 0)))
  {
    YearBound(t);
    MidnightInRange(t);
    var d := t.date;
    var rest := MonthDaySuffix(d.month, d.day);
    var s := DailyKey(t);
    IsoYearRoundTrip(d.year, rest);
    var n := |IsoYear(d.year)|;
    assert s[n..] == rest;
    MonthDayRoundTrip(d.month, d.day);
    KeyTimeOf(s, d.year, n, d.month, d.day);
  }

  /** For four-digit years, reading a monthly key back gives the first of that month. */
  lemma MonthlyKeyRoundTrip(t: Timestamp)
    requires 1000 <= t.date.year <= 9999
    ensures KeyDate(MonthlyKey(t)) == Some(Date(t.date.year, t.date.month, 1))
    ensures KeyTime(MonthlyKey(t)) == Some(TimeValue(Timestamp(Date(t.date.year, t.date.month, 1), 0)))
  {
    var d := t.date;
    NatToStringLength(d.year, 4);
    NatToStringLengthAtLeast(d.year, 4);
    assert IntToString(d.year) == IsoYear(d.year);
    var rest := MonthSuffix(d.month);
    var s := MonthlyKey(t);
    FourDigitYear(d.year, rest);
    assert s[4..] == rest;
    MonthRoundTrip(d.month);
    DaysBeforeYearMonotone(1000, d.year);
    DaysBeforeYearMonotone(d.year, 10000);
    KeyTimeOf(s, d.year, 4, d.month, 1);
  }
}
