/** `CommitChart`: commit counts per period as bars shaded from light to dark by count,
    under x-axis ticks labelled for the time range, and the week numbering that
    `Date.prototype.getWeek` adds for those labels. */
module CommitChart {
  import opened Wrappers
  import opened Numbers
  import opened Collections
  import opened Text
  import opened Calendar
  import opened DateKeys
  import opened DataProcessor
  import opened Visualization

  // ---------------------------------------------------------------------------------
  // `Date.prototype.getWeek`

  /** `getUTCDay() || 7`: Monday is 1 and Sunday 7. */
  function IsoDay(y: int, n: int): (k: int)
    ensures 1 <= k <= 7
  {
    if WeekDay(y, n) == 0 then 7 else WeekDay(y, n)
  }

  /** `setUTCDate(getUTCDate() + 4 - dayNum)`: the Thursday of the Monday-to-Sunday week
      that holds day `n` of year `y`. */
  function WeekThursday(y: int, n: int): (r: (int, int))
    requires ValidPos(y, n)
    ensures ValidPos(r.0, r.1)
  {
    Shift(y, n, 4 - IsoDay(y, n))
  }

  /** The ISO 8601 week number of day `n` of year `y`: the day of the year of its week's
      Thursday, divided by seven and rounded up. `getWeek` computes this wherever the
      years it passes to `Date.UTC` are not 0–99 (`GetWeekIso`). */
  function IsoWeek(y: int, n: int): int
    requires ValidPos(y, n)
  {
    (WeekThursday(y, n).1 + 6) / 7
  }

  /** `Date.UTC(getFullYear(), getMonth(), getDate())` as a year and a day of the year:
      `Date.UTC` takes years 0–99 as 1900–1999, and the day is counted in that year, so
      the February 29 of a leap year 0–99 whose stand-in is not leap becomes March 1. */
  function UtcDay(d: CivilDate): (r: (int, int))
    ensures ValidPos(r.0, r.1) && r.0 == ConstructorYear(d.year)
    ensures r.0 == d.year ==> r.1 == DayOfYear(d)
  {
    var y := ConstructorYear(d.year);
    (y, DaysBeforeMonth(y, d.month) + d.day)
  }

  /** The midnight of running day `o` is a time value rather than NaN. */
  predicate DayInRange(o: int)
  {
    InTimeRange((o - EpochOrdinal) * MsPerDay)
  }

  /** `date.getWeek()`; `None` is NaN. The day is rebuilt with `Date.UTC`, moved to the
      Thursday of its Monday-to-Sunday week, and counted in weeks from
      `Date.UTC(thursday.getUTCFullYear(), 0, 1)` with
      `Math.ceil(((d - yearStart) / 86400000 + 1) / 7)`. An Invalid Date, and any step that
      leaves the time range, gives NaN. */
  function GetWeek(d: Option<CivilDate>): Option<int>
  {
    if d.None? then None else WeekAt(UtcDay(d.value).0, UtcDay(d.value).1)
  }

  /** `getWeek` past its first `Date.UTC`, for day `n` of year `y`. */
  function WeekAt(y: int, n: int): Option<int>
    requires ValidPos(y, n)
  {
    var t := WeekThursday(y, n);
    var start := Ordinal(ConstructorYear(t.0), 1);
    if !DayInRange(Ordinal(y, n)) || !DayInRange(Ordinal(t.0, t.1)) || !DayInRange(start) then None
    else Some(-((start - Ordinal(t.0, t.1) - 1) / 7))
  }

  /** When the Thursday's year is not rewritten, the count from its year's start is the
      ISO week. */
  lemma CountFromYearStart(y: int, n: int)
    requires ValidPos(y, n)
    requires ConstructorYear(WeekThursday(y, n).0) == WeekThursday(y, n).0
    ensures var t := WeekThursday(y, n);
      -((Ordinal(ConstructorYear(t.0), 1) - Ordinal(t.0, t.1) - 1) / 7) == IsoWeek(y, n)
  {
  }

  /** The Thursday of a day's week lies in that day's year or a neighbouring one. */
  lemma ThursdayYear(y: int, n: int)
    requires ValidPos(y, n)
    ensures y - 1 <= WeekThursday(y, n).0 <= y + 1
  {
  }

  /** The first and last whole years of the time range. */
  lemma RangeYears()
    ensures DaysBeforeYear(-271820) == -99280582
    ensures DaysBeforeYear(275760) == 100718906
  {
  }

  lemma DaysInRange(o: int)
    requires DaysBeforeYear(-271820) < o <= DaysBeforeYear(275760) + 3
    ensures DayInRange(o)
  {
    RangeYears();
  }

  /** When the day lies inside the time range with room for its Thursday, and the
      Thursday's year is not rewritten, `getWeek` gives the ISO week of the day
      `Date.UTC` built. */
  lemma WeekFromRange(y: int, n: int)
    requires ValidPos(y, n)
    requires var t := WeekThursday(y, n);
      ConstructorYear(t.0) == t.0 && -271820 <= t.0 &&
      DaysBeforeYear(-271820) + 3 < Ordinal(y, n) <= DaysBeforeYear(275760)
    ensures WeekAt(y, n) == Some(IsoWeek(y, n))
  {
    var t := WeekThursday(y, n);
    IsoWeekFacts(y, n);
    CountFromYearStart(y, n);
    DaysBeforeYearMonotone(-271820, t.0);
    DaysInRange(Ordinal(y, n));
    DaysInRange(Ordinal(t.0, t.1));
    DaysInRange(Ordinal(t.0, 1));
  }

  /** Day `n` of year `y` lies after the start of year `lo` and no later than the start
      of year `hi` when `lo <= y < hi`. */
  lemma OrdinalBetween(y: int, n: int, lo: int, hi: int)
    requires ValidPos(y, n) && lo <= y < hi
    ensures DaysBeforeYear(lo) < Ordinal(y, n) <= DaysBeforeYear(hi)
  {
    DaysBeforeYearMonotone(lo, y);
    DaysBeforeNextYear(y);
    DaysBeforeYearMonotone(y + 1, hi);
  }

  /** Away from years 0–99 (and the year on either side whose weeks reach into them) and
      from the ends of the time range, `getWeek` gives the ISO week of the date. */
  lemma GetWeekIso(d: CivilDate)
    requires 100 < d.year < 275760 || -271820 < d.year < -1
    ensures GetWeek(Some(d)) == Some(IsoWeek(d.year, DayOfYear(d)))
  {
    ThursdayYear(d.year, DayOfYear(d));
    RangeYears();
    if d.year > 100 {
      OrdinalBetween(d.year, DayOfYear(d), 101, 275760);
    } else {
      OrdinalBetween(d.year, DayOfYear(d), -271819, -1);
    }
    WeekFromRange(d.year, DayOfYear(d));
  }

  /** For years 0–99, `getWeek` gives the ISO week of the same month and day in
      1900–1999. */
  lemma GetWeekTwoDigitYear(d: CivilDate)
    requires 0 <= d.year <= 99
    ensures UtcDay(d).0 == 1900 + d.year
    ensures GetWeek(Some(d)) == Some(IsoWeek(UtcDay(d).0, UtcDay(d).1))
  {
    var u := UtcDay(d);
    ThursdayYear(u.0, u.1);
    RangeYears();
    OrdinalBetween(u.0, u.1, 1900, 2000);
    WeekFromRange(u.0, u.1);
  }

  /** 0001-01-07 is taken as 1901-01-07, a Monday whose Thursday is the tenth: week 2,
      where the ISO week of 0001-01-07 is 1. */
  lemma YearOneWeek()
    ensures GetWeek(Some(Date(1, 1, 7))) == Some(2)
    ensures IsoWeek(1, 7) == 1
  {
    assert UtcDay(Date(1, 1, 7)) == (1901, 7);
    assert DaysBeforeYear(1901) == 693960;
    assert WeekDay(1901, 7) == 1;
    assert WeekThursday(1901, 7) == (1901, 10);
    DaysInRange(693967);
    DaysInRange(693970);
    DaysInRange(693961);
    assert DaysBeforeYear(1) == 0;
    assert WeekDay(1, 7) == 0;
    assert WeekThursday(1, 7) == (1, 4);
  }

  /** 0100-01-01 is a Friday whose Thursday falls in year 99; its year start is taken in
      1999, so the week count is far below zero. */
  lemma YearHundredWeek()
    ensures GetWeek(Some(Date(100, 1, 1))) == Some(-99085)
  {
    FirstOfHundred();
  }

  lemma FirstOfHundred()
    ensures WeekAt(100, 1) == Some(-99085)
  {
    assert DaysBeforeYear(100) == 36159;
    assert WeekDay(100, 1) == 5;
    assert DaysBeforeYear(99) == 35794;
    assert WeekThursday(100, 1) == (99, 365);
    assert DaysBeforeYear(1999) == 729754;
    DaysInRange(36160);
    DaysInRange(36159);
    DaysInRange(729755);
  }

  /** Weekday arithmetic on a running day number `o`: moving to the Thursday of its week
      lands on weekday 4. */
  lemma ThursdayOf(o: int)
    ensures var k := if o % 7 == 0 then 7 else o % 7;
      (o + 4 - k) % 7 == 4
  {
    var k := if o % 7 == 0 then 7 else o % 7;
    assert o + 4 - k == 7 * (o / 7) + 4 - (k - o % 7);
  }

  /** The weekday of the next day. */
  lemma DayAfter(o: int)
    ensures (o + 1) % 7 == if o % 7 == 6 then 0 else o % 7 + 1
  {
  }

  /** The day picked is a Thursday at most three days away, and the week number lies in
      1–53. */
  lemma IsoWeekFacts(y: int, n: int)
    requires ValidPos(y, n)
    ensures var t := WeekThursday(y, n);
      WeekDay(t.0, t.1) == 4 &&
      -3 <= Ordinal(t.0, t.1) - Ordinal(y, n) <= 3
    ensures 1 <= IsoWeek(y, n) <= 53
  {
    ShiftOrdinal(y, n, 4 - IsoDay(y, n));
    ThursdayOf(Ordinal(y, n));
  }

  /** Days from Monday to Sunday share a week number: the day after any day but a
      Sunday is in the same week. */
  lemma SameWeek(y: int, n: int)
    requires ValidPos(y, n) && WeekDay(y, n) != 0
    ensures IsoWeek(Next(y, n).0, Next(y, n).1) == IsoWeek(y, n)
  {
    var (y1, n1) := Next(y, n);
    NextOrdinal(y, n);
    DayAfter(Ordinal(y, n));
    assert IsoDay(y1, n1) == IsoDay(y, n) + 1;
    ShiftOrdinal(y, n, 4 - IsoDay(y, n));
    ShiftOrdinal(y1, n1, 4 - IsoDay(y1, n1));
    var t, t1 := WeekThursday(y, n), WeekThursday(y1, n1);
    OrdinalInjective(t.0, t.1, t1.0, t1.1);
  }

  /** A Monday starts the next week: its number is one more than the Sunday's, or 1 when
      its Thursday falls in a new year. */
  lemma NewWeek(y: int, n: int)
    requires ValidPos(y, n) && WeekDay(y, n) == 0
    ensures var w := IsoWeek(Next(y, n).0, Next(y, n).1);
      w == IsoWeek(y, n) + 1 || w == 1
  {
    var (y1, n1) := Next(y, n);
    NextOrdinal(y, n);
    DayAfter(Ordinal(y, n));
    assert IsoDay(y1, n1) == 1;
    ShiftOrdinal(y, n, 4 - IsoDay(y, n));
    ShiftOrdinal(y1, n1, 4 - IsoDay(y1, n1));
    var t, t1 := WeekThursday(y, n), WeekThursday(y1, n1);
    WeekLater(t.0, t.1, t1.0, t1.1);
  }

  /** The day a week after day `n` of year `y` is seven days on in the same year, or
      within the first week of the next. */
  lemma WeekLater(y: int, n: int, y1: int, n1: int)
    requires ValidPos(y, n) && ValidPos(y1, n1)
    requires Ordinal(y1, n1) == Ordinal(y, n) + 7
    ensures (y1 == y && n1 == n + 7) || (y1 == y + 1 && n1 <= 7)
  {
    if n + 7 <= DaysInYear(y) {
      OrdinalInjective(y, n + 7, y1, n1);
    } else {
      DaysBeforeNextYear(y);
      OrdinalInjective(y + 1, n + 7 - DaysInYear(y), y1, n1);
    }
  }

  // ---------------------------------------------------------------------------------
  // Tick labels

  const MonthAbbreviations: seq<string> :=
    ["Jan", "Feb", "Mar", "Apr", "May", "Jun", "Jul", "Aug", "Sep", "Oct", "Nov", "Dec"]

  /** What `toLocaleDateString` gives for an Invalid Date. */
  const InvalidDate := "Invalid Date"

  function ShortMonth(d: CivilDate): string
  {
    MonthAbbreviations[d.month - 1]
  }

  /** The x-axis `tickFormat`: the bucket key read with `new Date(key)`, then written
      as "Jan 5" for `daily`, "Week N" for `weekly`, "Jan" for `monthly`, and "1/5/2024"
      otherwise (the `en-US` forms). */
  function TickLabel(timeRange: Option<string>, key: string): string
  {
    var d := KeyDate(key);
    if timeRange == Some("daily") then
      if d.None? then InvalidDate else ShortMonth(d.value) + " " + NatToString(d.value.day)
    else if timeRange == Some("weekly") then
      "Week " + match GetWeek(d) { case None => "NaN" case Some(w) => IntToString(w) }
    else if timeRange == Some("monthly") then
      if d.None? then InvalidDate else ShortMonth(d.value)
    else
      if d.None? then InvalidDate
      else NatToString(d.value.month) + "/" + NatToString(d.value.day) + "/" + IntToString(d.value.year)
  }

  /** Daily buckets are labelled with their month and day. */
  lemma DailyTicks(t: Timestamp)
    requires InTimeRange(TimeValue(t))
    ensures TickLabel(Some("daily"), DailyKey(t)) == ShortMonth(t.date) + " " + NatToString(t.date.day)
  {
    DailyKeyRoundTrip(t);
  }

  /** Monthly buckets of four-digit years are labelled with their month. */
  lemma MonthlyTicks(t: Timestamp)
    requires 1000 <= t.date.year <= 9999
    ensures TickLabel(Some("monthly"), MonthlyKey(t)) == ShortMonth(t.date)
  {
    MonthlyKeyRoundTrip(t);
  }

  /** Weekly bucket keys do not read as dates, so every weekly tick reads "Week NaN". */
  lemma WeeklyTicks(t: Timestamp)
    ensures TickLabel(Some("weekly"), WeeklyKey(t)) == "Week NaN"
  {
    WeeklyKeyUnparsable(t);
  }

  /** A key that reads as a date away from years 0–99 and the ends of the time range is
      labelled with the ISO week of that day, in 1–53. */
  lemma WeekTicks(key: string)
    requires KeyDate(key).Some?
    requires var y := KeyDate(key).value.year; 100 < y < 275760 || -271820 < y < -1
    ensures var d := KeyDate(key).value;
      TickLabel(Some("weekly"), key) == "Week " + IntToString(IsoWeek(d.year, DayOfYear(d))) &&
      1 <= IsoWeek(d.year, DayOfYear(d)) <= 53
  {
    var d := KeyDate(key).value;
    GetWeekIso(d);
    IsoWeekFacts(d.year, DayOfYear(d));
  }

  /** A key in years 0–99 is labelled with the ISO week of the same day in 1900–1999. */
  lemma TwoDigitYearTicks(key: string)
    requires KeyDate(key).Some? && 0 <= KeyDate(key).value.year <= 99
    ensures var u := UtcDay(KeyDate(key).value);
      TickLabel(Some("weekly"), key) == "Week " + IntToString(IsoWeek(u.0, u.1)) &&
      1 <= IsoWeek(u.0, u.1) <= 53
  {
    var u := UtcDay(KeyDate(key).value);
    GetWeekTwoDigitYear(KeyDate(key).value);
    IsoWeekFacts(u.0, u.1);
  }

  // ---------------------------------------------------------------------------------
  // Scales and bars

  /** The two ends of the colour scale: the fewest commits and the most. */
  const LightEnd := "#7fcdbb"
  const DarkEnd := "#2c7fb8"

  /** `d3.max(commits, d => d.count)`; `None` is the `undefined` of an empty list. */
  function PeakCount(commits: seq<CommitBucket>): (r: Option<int>)
    ensures r.None? <==> |commits| == 0
    ensures r.Some? ==>
      (exists i :: 0 <= i < |commits| && commits[i].count == r.value) &&
      forall i :: 0 <= i < |commits| ==> commits[i].count <= r.value
  {
    if |commits| == 0 then None
    else
      var counts := Map(commits, CountOf);
      assert forall i :: 0 <= i < |commits| ==> counts[i] == commits[i].count;
      Some(MaxInt(counts))
  }

  /** The y domain's top: `undefined * 1.1` is NaN. */
  function PeakNum(commits: seq<CommitBucket>): Num
  {
    match PeakCount(commits)
    case None => NaN
    case Some(m) => Finite(m as real)
  }

  /** Bands for the bucket dates in order, each once, with padding 0.1. */
  function XScaleOf(commits: seq<CommitBucket>, a: Area): BandScale
  {
    BandScale(FirstSeen(Map(commits, DateOfBucket)), a.chartWidth, 0.1)
  }

  /** From 0 to 110% of the largest count, bottom to top. */
  function YScaleOf(commits: seq<CommitBucket>, a: Area): LinearScale
  {
    LinearScale(Headroom(PeakNum(commits)), a.chartHeight)
  }

  /** Where the colour scale `d3.scaleLinear().domain([0, peak]).range([LightEnd,
      DarkEnd])` puts a count between its two ends: `count / peak`, or the midpoint when
      the domain is [0, 0]. */
  function Shade(count: int, peak: int): real
  {
    if peak == 0 then 0.5 else count as real / peak as real
  }

  /** The largest count gets the dark end and no commits the light end; counts up to the
      peak stay between the ends, and more commits never make a lighter bar. */
  lemma ShadeFacts(count: int, peak: int)
    ensures peak == 0 ==> Shade(count, peak) == 0.5
    ensures peak != 0 ==> (Shade(count, peak) == 1.0 <==> count == peak)
    ensures peak != 0 ==> (Shade(count, peak) == 0.0 <==> count == 0)
    ensures 0 <= count <= peak ==> 0.0 <= Shade(count, peak) <= 1.0
  {
  }

  lemma ShadeMonotone(c1: int, c2: int, peak: int)
    requires 0 < peak && c1 <= c2
    ensures Shade(c1, peak) <= Shade(c2, peak)
  {
    assert c1 as real / peak as real <= c2 as real / peak as real by {
      assert (c2 - c1) as real / peak as real >= 0.0;
    }
  }

  /** One `rect.bar`: the bucket it is bound to and its position on the colour scale. */
  datatype Bar = Bar(date: string, count: int, shade: real)

  function BarOf(c: CommitBucket, peak: int): Bar
  {
    Bar(c.date, c.count, Shade(c.count, peak))
  }

  /** The bars once the join is done: one per bucket, in order. */
  function Bars(commits: seq<CommitBucket>): (bars: seq<Bar>)
    ensures |bars| == |commits|
  {
    match PeakCount(commits)
    case None => []
    case Some(peak) => seq(|commits|, i requires 0 <= i < |commits| => BarOf(commits[i], peak))
  }

  /** Exactly one bar per bucket, showing that bucket's date and count; the busiest
      buckets get the dark end and, when counts are not negative, every bar lies
      between the two ends. */
  lemma BarsFacts(commits: seq<CommitBucket>)
    ensures |Bars(commits)| == |commits|
    ensures forall i :: 0 <= i < |commits| ==>
      Bars(commits)[i].date == commits[i].date && Bars(commits)[i].count == commits[i].count
    ensures forall i :: 0 <= i < |commits| && PeakCount(commits).value != 0 ==>
      (Bars(commits)[i].shade == 1.0 <==> commits[i].count == PeakCount(commits).value)
    ensures (forall i :: 0 <= i < |commits| ==> commits[i].count >= 0) ==>
      forall i :: 0 <= i < |commits| ==> 0.0 <= Bars(commits)[i].shade <= 1.0
  {
    if |commits| > 0 {
      var peak := PeakCount(commits).value;
      forall i | 0 <= i < |commits|
        ensures commits[i].count <= peak
        ensures peak != 0 ==> (Bars(commits)[i].shade == 1.0 <==> commits[i].count == peak)
        ensures commits[i].count >= 0 ==> 0.0 <= Bars(commits)[i].shade <= 1.0
      {
        ShadeFacts(commits[i].count, peak);
      }
    }
  }

  /** No data, or data without `commits`; an empty `commits` list still renders. */
  predicate Missing(d: Option<ChartData>)
  {
    d.None? || d.value.commits.None?
  }

  /** The axis titles after a render and the title when set. */
  function CommitCaptions(captions: seq<Caption>, o: Options, a: Area): seq<Caption>
  {
    Retitle(Relabel(captions, AxisLabels(OrElse(o.xAxisLabel, "Date"), OrElse(o.yAxisLabel, "Commit Count"), a)),
            o.title, a)
  }

  /** The x-axis tick labels for the scale's domain. */
  function Ticks(domain: seq<string>, timeRange: Option<string>): (labels: seq<string>)
    ensures |labels| == |domain|
    ensures forall i :: 0 <= i < |domain| ==> labels[i] == TickLabel(timeRange, domain[i])
  {
    seq(|domain|, i requires 0 <= i < |domain| => TickLabel(timeRange, domain[i]))
  }

  class CommitChart {
    const view: Base
    var xScale: BandScale
    var yScale: LinearScale
    /** The labels under the x-axis ticks. */
    var ticks: seq<string>
    /** The `rect.bar` elements of the chart group, in document order. */
    var bars: seq<Bar>
    var captions: seq<Caption>

    predicate Valid()
      reads view
    {
      view.Valid()
    }

    /** `_init` before its first render: no bars, no captions, and d3's default scales. */
    constructor (view: Base)
      requires view.Valid()
      ensures Valid() && this.view == view
      ensures bars == [] && captions == [] && ticks == []
      ensures xScale == BandScale([], 1, 0.0) && yScale == LinearScale(Finite(1.0), 0)
    {
      this.view := view;
      xScale := BandScale([], 1, 0.0);
      yScale := LinearScale(Finite(1.0), 0);
      ticks := [];
      bars := [];
      captions := [];
    }

    /** The data join of the bars with the buckets, by index: the surplus bars exit, the
        bars that remain are updated in place, and a bar enters for each bucket beyond
        them. Returns the sizes of the enter and exit selections. */
    method JoinBars(commits: seq<CommitBucket>) returns (entered: nat, exited: nat)
      modifies this`bars
      ensures bars == Bars(commits)
      ensures exited == if |old(bars)| > |commits| then |old(bars)| - |commits| else 0
      ensures entered == if |commits| > |old(bars)| then |commits| - |old(bars)| else 0
    {
      exited, entered := 0, 0;
      if |commits| == 0 {
        exited := |bars|;
        bars := [];
        return;
      }
      var peak := PeakCount(commits).value;
      if |bars| > |commits| {
        exited := |bars| - |commits|;
        bars := bars[..|commits|];
      }
      var kept := |bars|;
      var i := 0;
      while i < kept
        invariant 0 <= i <= kept == |bars| <= |commits|
        invariant forall j :: 0 <= j < i ==> bars[j] == Bars(commits)[j]
      {
        bars := bars[i := BarOf(commits[i], peak)];
        i := i + 1;
      }
      while |bars| < |commits|
        invariant kept <= |bars| <= |commits|
        invariant forall j :: 0 <= j < |bars| ==> bars[j] == Bars(commits)[j]
        decreases |commits| - |bars|
      {
        bars := bars + [BarOf(commits[|bars|], peak)];
      }
      entered := |commits| - kept;
    }

    /** The state `render` leaves for a wrapper of `width` by `height` pixels, given the
        scales, ticks, bars, captions and error text it found. Without `commits` only the
        error is shown; otherwise the error is hidden, the scales and ticks follow the
        buckets, there is one bar per bucket and the captions are relabelled and
        retitled. */
    predicate RenderedFrom(width: int, height: int, xs: BandScale, ys: LinearScale, ts: seq<string>,
                           bs: seq<Bar>, cs: seq<Caption>, text: string)
      reads this, view
    {
      Valid() &&
      (Missing(view.data) ==>
        view.errorVisible && view.errorText == NoData &&
        xScale == xs && yScale == ys && ticks == ts && bars == bs && captions == cs) &&
      (!Missing(view.data) ==>
        var commits := view.data.value.commits.value;
        var a := AreaOf(width, height, view.options.margin.value);
        !view.errorVisible && view.errorText == text &&
        xScale == XScaleOf(commits, a) && yScale == YScaleOf(commits, a) &&
        ticks == Ticks(XScaleOf(commits, a).domain, view.options.timeRange) &&
        bars == Bars(commits) &&
        captions == CommitCaptions(cs, view.options, a))
    }

    /** `render`: without `commits` it only shows the error; otherwise it hides the
        error, rescales, relabels the ticks and axes, joins the bars with the buckets and
        retitles. */
    method Render(width: int, height: int)
      requires Valid()
      modifies this, view`errorText, view`errorVisible
      ensures RenderedFrom(width, height, old(xScale), old(yScale), old(ticks), old(bars), old(captions),
                           old(view.errorText))
    {
      if Missing(view.data) {
        view.ShowError(NoData);
        return;
      }
      var o := view.options;
      var commits := view.data.value.commits.value;
      var a := AreaOf(width, height, o.margin.value);
      view.HideError();
      xScale := XScaleOf(commits, a);
      yScale := YScaleOf(commits, a);
      ticks := Ticks(xScale.domain, o.timeRange);
      captions := CommitCaptions(captions, o, a);
      var _, _ := JoinBars(commits);
    }

    /** `resize` renders again, with the same data and options. */
    method Resize(width: int, height: int)
      requires Valid()
      modifies this, view`errorText, view`errorVisible
      ensures view.data == old(view.data) && view.options == old(view.options)
      ensures RenderedFrom(width, height, old(xScale), old(yScale), old(ticks), old(bars), old(captions),
                           old(view.errorText))
    {
      Render(width, height);
    }

    /** `updateData`: replaces the data wholesale, then renders. */
    method UpdateData(d: Option<ChartData>, width: int, height: int)
      requires Valid()
      modifies this, view`data, view`errorText, view`errorVisible
      ensures view.data == d && view.options == old(view.options)
      ensures RenderedFrom(width, height, old(xScale), old(yScale), old(ticks), old(bars), old(captions),
                           old(view.errorText))
    {
      view.data := d;
      Render(width, height);
    }

    /** `updateOptions`: a shallow merge of the options, then a render. */
    method UpdateOptions(o: Options, width: int, height: int)
      requires Valid()
      modifies this, view`options, view`errorText, view`errorVisible
      ensures view.options == Overlay(old(view.options), o) && view.data == old(view.data)
      ensures RenderedFrom(width, height, old(xScale), old(yScale), old(ticks), old(bars), old(captions),
                           old(view.errorText))
    {
      view.options := Overlay(view.options, o);
      Render(width, height);
    }
  }

  /** `new CommitChart(config)`: the base constructor's guard, `_init`, then the first
      render, from the empty chart `_init` leaves. */
  method NewCommitChart(element: Option<seq<string>>, data: Option<ChartData>, options: Options,
                        width: int, height: int)
    returns (r: Result<CommitChart>)
    ensures element.None? <==> r.Err?
    ensures r.Err? ==> r.error == ElementMissing
    ensures r.Ok? ==> fresh(r.value) && fresh(r.value.view)
    ensures r.Ok? ==>
      var v := r.value.view;
      v.data == Some(if data.Some? then data.value else EmptyData) &&
      v.options == Overlay(DefaultOptions, options) &&
      v.children == element.value + BaseChildren && v.observing && !v.loadingVisible
    ensures r.Ok? ==>
      r.value.RenderedFrom(width, height, BandScale([], 1, 0.0), LinearScale(Finite(1.0), 0), [], [], [], "")
  {
    var b := NewBase(element, data, options);
    if b.Err? {
      return Err(b.error);
    }
    var c := new CommitChart(b.value);
    c.Render(width, height);
    r := Ok(c);
  }
}
