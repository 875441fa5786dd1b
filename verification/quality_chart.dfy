/** `QualityMetricsChart`: one line per code-quality metric over time, issue counts on
    the left axis and coverage on a percentage axis on the right. */
module QualityChart {
  import opened Wrappers
  import opened Numbers
  import opened Collections
  import opened Calendar
  import opened DateKeys
  import opened DataProcessor
  import opened Visualization

  // ---------------------------------------------------------------------------------
  // Which metrics are drawn

  const Coverage := "coverage"

  /** `this.metrics`, fixed by `_init`: the `metrics` option, or the four defaults. */
  function InitialMetrics(o: Options): seq<string>
  {
    if o.metrics.Some? then o.metrics.value else DefaultMetrics
  }

  /** `options.metrics || this.metrics`, read on every render. */
  function DisplayedMetrics(o: Options, metrics: seq<string>): seq<string>
  {
    if o.metrics.Some? then o.metrics.value else metrics
  }

  predicate NotCoverage(m: string) { m != Coverage }

  /** The metrics on the primary (issues) axis: every listed one except coverage. */
  function PrimaryMetrics(ms: seq<string>): seq<string>
  {
    Filter(ms, NotCoverage)
  }

  /** The defaults apply exactly when no `metrics` option is given, and the options
      decide over `this.metrics` whenever they carry one. */
  lemma {:induction false} MetricsDefault(o: Options, metrics: seq<string>)
    ensures o.metrics.None? ==> InitialMetrics(o) == ["bugs", "vulnerabilities", "codeSmells", "coverage"]
    ensures o.metrics.Some? ==> InitialMetrics(o) == o.metrics.value && DisplayedMetrics(o, metrics) == o.metrics.value
    ensures o.metrics.None? ==> DisplayedMetrics(o, metrics) == metrics
    ensures DisplayedMetrics(o, InitialMetrics(o)) == InitialMetrics(o)
  {
  }

  /** Coverage never reaches the primary axis, and every other metric reaches it as often
      as it is listed, in the listed order. */
  lemma {:induction false} PrimaryPartition(ms: seq<string>)
    ensures Coverage !in PrimaryMetrics(ms)
    ensures forall m :: m != Coverage ==> multiset(PrimaryMetrics(ms))[m] == multiset(ms)[m]
    ensures |PrimaryMetrics(ms)| + multiset(ms)[Coverage] == |ms|
  {
    if |ms| > 0 {
      var p := ms[..|ms| - 1];
      PrimaryPartition(p);
      assert ms == p + [ms[|ms| - 1]];
    }
  }

  // ---------------------------------------------------------------------------------
  // Colours

  /** Used when neither the theme nor the fallback list has a colour for a slot. */
  const LastResort := "#666"

  const FallbackColours: seq<string> :=
    ["#2196f3", "#4caf50", "#ff9800", "#f44336", "#9c27b0", "#00bcd4", "#ffeb3b", "#795548"]

  /** `cssVar || fallbackColors[i] || '#666'`. */
  function SlotColour(palette: Palette, i: nat): string
  {
    ChartColour(palette, i, if i < |FallbackColours| then FallbackColours[i] else LastResort)
  }

  /** `d3.scaleOrdinal()` after `.domain(ds)` and `.range(rs)`: the domain keeps each
      value once, at its first position. */
  datatype OrdinalScale = OrdinalScale(domain: seq<string>, range: seq<string>)

  /** `colorScale(m)` for a value of the domain. */
  function Apply(s: OrdinalScale, m: string): string
    requires m in s.domain && |s.range| > 0
  {
    s.range[IndexIn(s.domain, m) % |s.range|]
  }

  /** The colour scale a render sets up: one colour slot per listed metric. */
  function ColourScaleOf(ms: seq<string>, palette: Palette): (s: OrdinalScale)
    ensures |s.domain| <= |s.range| == |ms|
    ensures forall m :: m in s.domain <==> m in ms
  {
    FirstSeenMembers(ms);
    OrdinalScale(FirstSeen(ms), seq(|ms|, i requires 0 <= i < |ms| => SlotColour(palette, i)))
  }

  /** The colour of a listed metric. */
  function ColourOf(ms: seq<string>, palette: Palette, m: string): string
    requires m in ms
  {
    Apply(ColourScaleOf(ms, palette), m)
  }

  /** With no metric listed twice, the metric at index `i` gets the theme's colour `i`,
      else fallback `i`, else the last resort. */
  lemma {:induction false} ColourFacts(ms: seq<string>, palette: Palette, i: int)
    requires 0 <= i < |ms|
    ensures NoDup(ms) ==> ColourOf(ms, palette, ms[i]) == SlotColour(palette, i)
    ensures SlotColour(palette, i) ==
      if i in palette && palette[i] != "" then palette[i]
      else if i < 8 then FallbackColours[i] else "#666"
  {
    FirstSeenMembers(ms);
    if NoDup(ms) {
      FirstSeenNoDup(ms);
      IndexInNoDup(ms, i);
      var sc := ColourScaleOf(ms, palette);
      assert sc.domain == ms;
      assert IndexIn(sc.domain, ms[i]) == i;
      ModSmall(i, |sc.range|);
      assert sc.range[i] == SlotColour(palette, i);
    }
  }

  // ---------------------------------------------------------------------------------
  // Scales

  /** `d3.scaleTime().domain(extent).range([0, w])`; `None` is `[undefined, undefined]`,
      the extent of no valid date. */
  datatype TimeScale = TimeScale(domain: Option<(int, int)>, rangeEnd: int)

  /** `d3.extent(qualityData, d => new Date(d.date))`: Invalid Dates are skipped. */
  function Extent(rows: seq<QualityRow>): Option<(int, int)>
  {
    var ts := Present(Map(rows, RowKey));
    if |ts| == 0 then None else Some((MinInt(ts), MaxInt(ts)))
  }

  /** The x domain runs from the earliest valid date to the latest, both of which occur;
      without a valid date it is undefined. */
  lemma {:induction false} ExtentFacts(rows: seq<QualityRow>)
    ensures Extent(rows).None? <==> forall i :: 0 <= i < |rows| ==> RowKey(rows[i]).None?
    ensures Extent(rows).Some? ==>
      var (lo, hi) := Extent(rows).value;
      (forall i :: 0 <= i < |rows| && RowKey(rows[i]).Some? ==> lo <= RowKey(rows[i]).value <= hi) &&
      (exists i :: 0 <= i < |rows| && RowKey(rows[i]) == Some(lo)) &&
      (exists j :: 0 <= j < |rows| && RowKey(rows[j]) == Some(hi))
  {
    var keys := Map(rows, RowKey);
    var ts := Present(keys);
    if |ts| > 0 {
      var lo, hi := MinInt(ts), MaxInt(ts);
      PresentSound(keys, lo);
      PresentSound(keys, hi);
      forall i | 0 <= i < |rows| && RowKey(rows[i]).Some?
        ensures lo <= RowKey(rows[i]).value <= hi
      {
        PresentComplete(keys, i);
        var k :| 0 <= k < |ts| && ts[k] == RowKey(rows[i]).value;
      }
    } else {
      forall i | 0 <= i < |rows|
        ensures RowKey(rows[i]).None?
      {
        if keys[i].Some? {
          PresentComplete(keys, i);
        }
      }
    }
  }

  /** `m => d[m] || 0` for one row. */
  function Reading(row: QualityRow): string -> int
  {
    m => RowValue(m)(row)
  }

  /** `d3.max(metricsForPrimaryAxis.map(m => d[m] || 0))` for one row. */
  function RowPeak(row: QualityRow, primary: seq<string>): int
    requires |primary| > 0
  {
    MaxInt(Map(primary, Reading(row)))
  }

  /** `maxIssues`: the largest primary reading over all rows. With no primary metric
      every row's maximum is undefined, so the result is undefined and the domain NaN. */
  function MaxIssues(rows: seq<QualityRow>, primary: seq<string>): Num
  {
    if |primary| == 0 || |rows| == 0 then NaN
    else Finite(MaxInt(seq(|rows|, i requires 0 <= i < |rows| => RowPeak(rows[i], primary))) as real)
  }

  /** The primary axis reaches every primary reading of every row, and one of them exactly;
      it is NaN when there is no primary metric. */
  lemma {:induction false} MaxIssuesFacts(rows: seq<QualityRow>, primary: seq<string>)
    ensures |primary| == 0 || |rows| == 0 <==> MaxIssues(rows, primary).NaN?
    ensures |primary| > 0 && |rows| > 0 ==>
      var top := MaxIssues(rows, primary);
      top.Finite? &&
      (forall i, m :: 0 <= i < |rows| && m in primary ==> RowValue(m)(rows[i]) as real <= top.value) &&
      (exists i, m :: 0 <= i < |rows| && m in primary && RowValue(m)(rows[i]) as real == top.value)
  {
    if |primary| > 0 && |rows| > 0 {
      var peaks := seq(|rows|, i requires 0 <= i < |rows| => RowPeak(rows[i], primary));
      forall i, m | 0 <= i < |rows| && m in primary
        ensures RowValue(m)(rows[i]) <= MaxInt(peaks)
      {
        var k :| 0 <= k < |primary| && primary[k] == m;
        assert Map(primary, Reading(rows[i]))[k] == RowValue(m)(rows[i]);
        assert peaks[i] == RowPeak(rows[i], primary);
      }
      var i :| 0 <= i < |rows| && peaks[i] == MaxInt(peaks);
      var readings := Map(primary, Reading(rows[i]));
      var k :| 0 <= k < |readings| && readings[k] == MaxInt(readings);
      assert RowValue(primary[k])(rows[i]) == MaxInt(peaks);
    }
  }

  /** The primary axis: 0 at the bottom, 110% of the largest reading at the top. */
  function YScaleOf(rows: seq<QualityRow>, primary: seq<string>, a: Area): LinearScale
  {
    LinearScale(Headroom(MaxIssues(rows, primary)), a.chartHeight)
  }

  /** The secondary axis: always 0 to 100 percent. */
  function Y2ScaleOf(a: Area): LinearScale
  {
    LinearScale(Finite(100.0), a.chartHeight)
  }

  // ---------------------------------------------------------------------------------
  // Line data

  datatype Point = Point(date: DateField, value: int)

  /** One entry of `lineData`; `secondary` marks the coverage line, drawn against the
      percentage axis. */
  datatype Line = Line(metric: string, values: seq<Point>, secondary: bool)

  function PointOf(m: string): QualityRow -> Point
  {
    (row: QualityRow) => Point(row.date, RowValue(m)(row))
  }

  function LineOf(rows: seq<QualityRow>, m: string, secondary: bool): Line
  {
    Line(m, Map(rows, PointOf(m)), secondary)
  }

  function MetricOf(l: Line): string { l.metric }

  /** The lines a render draws: one per primary metric in listed order, then coverage on
      the secondary axis when it is listed. */
  function LineData(rows: seq<QualityRow>, ms: seq<string>): seq<Line>
  {
    var primary := PrimaryMetrics(ms);
    seq(|primary|, i requires 0 <= i < |primary| => LineOf(rows, primary[i], false)) +
    (if Coverage in ms then [LineOf(rows, Coverage, true)] else [])
  }

  /** The line for a metric has one point per row, carrying the row's date and its
      reading of the metric, 0 when the row lacks it. */
  lemma {:induction false} LineFacts(rows: seq<QualityRow>, ms: seq<string>)
    ensures var lines := LineData(rows, ms);
      var primary := PrimaryMetrics(ms);
      |lines| == |primary| + (if Coverage in ms then 1 else 0) &&
      (forall i :: 0 <= i < |primary| ==> lines[i].metric == primary[i] && !lines[i].secondary) &&
      (Coverage in ms ==> lines[|lines| - 1].metric == Coverage && lines[|lines| - 1].secondary) &&
      Listed(lines, ms) &&
      (forall i :: 0 <= i < |lines| ==> lines[i].values == Map(rows, PointOf(lines[i].metric)))
  {
    var lines := LineData(rows, ms);
    var primary := PrimaryMetrics(ms);
    assert forall i :: 0 <= i < |primary| ==> lines[i] == LineOf(rows, primary[i], false);
    FilterMembers(ms, NotCoverage);
  }

  /** Each point of a metric's line carries its row's date and the row's reading of the
      metric, 0 when the row lacks it. */
  lemma {:induction false} PointFacts(rows: seq<QualityRow>, m: string)
    ensures |Map(rows, PointOf(m))| == |rows|
    ensures forall j :: 0 <= j < |rows| ==>
      Map(rows, PointOf(m))[j] == Point(rows[j].date, if m in rows[j].values then rows[j].values[m] else 0)
  {
    forall j | 0 <= j < |rows|
      ensures Map(rows, PointOf(m))[j] == Point(rows[j].date, if m in rows[j].values then rows[j].values[m] else 0)
    {
      assert Map(rows, PointOf(m))[j] == PointOf(m)(rows[j]);
      assert RowValue(m)(rows[j]) == if m in rows[j].values then rows[j].values[m] else 0;
    }
  }

  /** `lineData` as `render` builds it: a push per primary metric, then coverage. */
  method BuildLineData(rows: seq<QualityRow>, ms: seq<string>) returns (lines: seq<Line>)
    ensures lines == LineData(rows, ms)
  {
    var primary := PrimaryMetrics(ms);
    lines := [];
    var i := 0;
    while i < |primary|
      invariant 0 <= i <= |primary|
      invariant lines == seq(i, k requires 0 <= k < i => LineOf(rows, primary[k], false))
    {
      lines := lines + [LineOf(rows, primary[i], false)];
      i := i + 1;
    }
    if Coverage in ms {
      lines := lines + [LineOf(rows, Coverage, true)];
    }
  }

  // ---------------------------------------------------------------------------------
  // Drawing

  /** The elements of the chart group: the axis groups of `_init`, and each line's path
      and circles. */
  datatype Mark =
    | AxisGroup(axis: string)
    | MetricPath(metric: string, points: seq<Point>, colour: string)
    | MetricCircle(metric: string, point: Point, colour: string, secondary: bool)

  /** What survives the removal of `.metric-line` and `.metric-circle`. */
  predicate Kept(k: Mark) { k.AxisGroup? }

  /** `selectAll('.metric-circle-<m>').size()`: the circles of metric `m`. */
  function CircleCount(ks: seq<Mark>, m: string): nat
  {
    if |ks| == 0 then 0
    else
      var k := ks[|ks| - 1];
      CircleCount(ks[..|ks| - 1], m) + (if k.MetricCircle? && k.metric == m then 1 else 0)
  }

  /** The metrics of the `.metric-line` paths, in document order. */
  function PathMetrics(ks: seq<Mark>): seq<string>
  {
    if |ks| == 0 then []
    else
      var k := ks[|ks| - 1];
      PathMetrics(ks[..|ks| - 1]) + (if k.MetricPath? then [k.metric] else [])
  }

  lemma {:induction false} CountsAppend(a: seq<Mark>, b: seq<Mark>, m: string)
    ensures CircleCount(a + b, m) == CircleCount(a, m) + CircleCount(b, m)
    ensures PathMetrics(a + b) == PathMetrics(a) + PathMetrics(b)
    decreases |b|
  {
    if |b| == 0 {
      assert a + b == a;
    } else {
      assert (a + b)[..|a + b| - 1] == a + b[..|b| - 1];
      CountsAppend(a, b[..|b| - 1], m);
    }
  }

  /** Axis groups are neither paths nor circles. */
  lemma {:induction false} KeptCounts(kept: seq<Mark>, m: string)
    requires forall i :: 0 <= i < |kept| ==> Kept(kept[i])
    ensures CircleCount(kept, m) == 0 && PathMetrics(kept) == []
  {
    if |kept| > 0 {
      KeptCounts(kept[..|kept| - 1], m);
    }
  }

  /** The circles for a line's points from index `from` on. */
  function CirclesFrom(l: Line, colour: string, from: nat): (cs: seq<Mark>)
    ensures |cs| == if from <= |l.values| then |l.values| - from else 0
    ensures forall k :: 0 <= k < |cs| ==> cs[k] == MetricCircle(l.metric, l.values[from + k], colour, l.secondary)
  {
    if from <= |l.values| then
      seq(|l.values| - from, k requires 0 <= k < |l.values| - from =>
        MetricCircle(l.metric, l.values[from + k], colour, l.secondary))
    else []
  }

  /** Circles of one metric count for that metric only, and are no paths. */
  lemma {:induction false} CircleCounts(cs: seq<Mark>, metric: string, m: string)
    requires forall i :: 0 <= i < |cs| ==> cs[i].MetricCircle? && cs[i].metric == metric
    ensures CircleCount(cs, m) == (if m == metric then |cs| else 0) && PathMetrics(cs) == []
  {
    if |cs| > 0 {
      CircleCounts(cs[..|cs| - 1], metric, m);
    }
  }

  predicate Listed(lines: seq<Line>, ms: seq<string>)
  {
    forall i :: 0 <= i < |lines| ==> lines[i].metric in ms
  }

  /** One line drawn onto `drawn`: its path, then a data join of its points against the
      circles already of its metric, whose enter selection gets a circle each. */
  function DrawLine(drawn: seq<Mark>, l: Line, colour: string): seq<Mark>
  {
    drawn + ([MetricPath(l.metric, l.values, colour)] + CirclesFrom(l, colour, CircleCount(drawn, l.metric)))
  }

  /** The `lineData.forEach` of `render`, each line in its colour. */
  function Plot(lines: seq<Line>, ms: seq<string>, palette: Palette): (ks: seq<Mark>)
    requires Listed(lines, ms)
  {
    if |lines| == 0 then []
    else
      var l := lines[|lines| - 1];
      DrawLine(Plot(lines[..|lines| - 1], ms, palette), l, ColourOf(ms, palette, l.metric))
  }

  /** The drawing loop over `lineData`, appending to the chart group after the old lines
      and circles are gone. */
  method DrawLines(kept: seq<Mark>, lines: seq<Line>, ms: seq<string>, palette: Palette)
    returns (marks: seq<Mark>)
    requires Listed(lines, ms)
    requires forall i :: 0 <= i < |kept| ==> Kept(kept[i])
    ensures marks == kept + Plot(lines, ms, palette)
  {
    marks := kept;
    var i := 0;
    while i < |lines|
      invariant 0 <= i <= |lines|
      invariant marks == kept + Plot(lines[..i], ms, palette)
    {
      var l := lines[i];
      var colour := ColourOf(ms, palette, l.metric);
      var existing := CircleCount(marks, l.metric);
      KeptAdds(kept, Plot(lines[..i], ms, palette), l, colour);
      assert lines[..i + 1][..i] == lines[..i];
      marks := marks + ([MetricPath(l.metric, l.values, colour)] + CirclesFrom(l, colour, existing));
      i := i + 1;
    }
    assert lines[..i] == lines;
  }

  /** Drawing after the kept axis groups is drawing on its own, since those hold no
      circles. */
  lemma {:induction false} KeptAdds(kept: seq<Mark>, drawn: seq<Mark>, l: Line, colour: string)
    requires forall i :: 0 <= i < |kept| ==> Kept(kept[i])
    ensures kept + DrawLine(drawn, l, colour) ==
      (kept + drawn) + ([MetricPath(l.metric, l.values, colour)] +
                        CirclesFrom(l, colour, CircleCount(kept + drawn, l.metric)))
  {
    CountsAppend(kept, drawn, l.metric);
    KeptCounts(kept, l.metric);
  }

  /** A drawn line adds its path, tops the circles of its metric up to one per point, and
      adds no circle of another metric. */
  lemma {:induction false} DrawLineCounts(drawn: seq<Mark>, l: Line, colour: string, m: string)
    ensures PathMetrics(DrawLine(drawn, l, colour)) == PathMetrics(drawn) + [l.metric]
    ensures CircleCount(DrawLine(drawn, l, colour), m) ==
      if m == l.metric && CircleCount(drawn, m) <= |l.values| then |l.values| else CircleCount(drawn, m)
  {
    var path := MetricPath(l.metric, l.values, colour);
    var cs := CirclesFrom(l, colour, CircleCount(drawn, l.metric));
    CountsAppend(drawn, [path] + cs, m);
    CountsAppend([path], cs, m);
    assert [path][..0] == [];
    CircleCounts(cs, l.metric, m);
  }

  /** The plot holds no axis group. */
  lemma {:induction false} PlotNotKept(lines: seq<Line>, ms: seq<string>, palette: Palette)
    requires Listed(lines, ms)
    ensures forall i :: 0 <= i < |Plot(lines, ms, palette)| ==> !Kept(Plot(lines, ms, palette)[i])
  {
    if |lines| > 0 {
      var l := lines[|lines| - 1];
      PlotNotKept(lines[..|lines| - 1], ms, palette);
    }
  }

  /** The circles of metric `m` a plot draws: one per point when its lines all have `n`
      points and `m` has a line, none otherwise. */
  lemma {:induction false} PlotCircles(lines: seq<Line>, ms: seq<string>, palette: Palette, m: string, n: nat)
    requires Listed(lines, ms)
    requires forall i :: 0 <= i < |lines| ==> |lines[i].values| == n
    ensures CircleCount(Plot(lines, ms, palette), m) == if m in Map(lines, MetricOf) then n else 0
  {
    if |lines| > 0 {
      var before := lines[..|lines| - 1];
      var l := lines[|lines| - 1];
      var drawn := Plot(before, ms, palette);
      var colour := ColourOf(ms, palette, l.metric);
      assert Plot(lines, ms, palette) == DrawLine(drawn, l, colour);
      PlotCircles(before, ms, palette, m, n);
      DrawLineCounts(drawn, l, colour, m);
      MapSnoc(lines, MetricOf);
    }
  }

  /** A plot draws one path per line, in line order. */
  lemma {:induction false} PlotPaths(lines: seq<Line>, ms: seq<string>, palette: Palette)
    requires Listed(lines, ms)
    ensures PathMetrics(Plot(lines, ms, palette)) == Map(lines, MetricOf)
  {
    if |lines| > 0 {
      var before := lines[..|lines| - 1];
      var l := lines[|lines| - 1];
      var drawn := Plot(before, ms, palette);
      var colour := ColourOf(ms, palette, l.metric);
      assert Plot(lines, ms, palette) == DrawLine(drawn, l, colour);
      PlotPaths(before, ms, palette);
      DrawLineCounts(drawn, l, colour, l.metric);
      MapSnoc(lines, MetricOf);
    }
  }

  /** Whatever earlier renders left, a render leaves the axis groups, one path per line in
      line order, and for every metric exactly one circle per row when it is listed and
      none otherwise: repeated renders never duplicate elements. */
  lemma {:induction false} RedrawFacts(marks: seq<Mark>, rows: seq<QualityRow>, ms: seq<string>, palette: Palette, m: string)
    ensures var lines := LineData(rows, ms);
      Listed(lines, ms) &&
      var after := Filter(marks, Kept) + Plot(lines, ms, palette);
      Filter(after, Kept) == Filter(marks, Kept) &&
      PathMetrics(after) == Map(lines, MetricOf) &&
      CircleCount(after, m) == if m in ms then |rows| else 0
  {
    var lines := LineData(rows, ms);
    LineFacts(rows, ms);
    var kept := Filter(marks, Kept);
    var drawn := Plot(lines, ms, palette);
    PlotNotKept(lines, ms, palette);
    FilterAppend(kept, drawn, Kept);
    FilterAll(kept, Kept);
    FilterNone(drawn, Kept);
    CountsAppend(kept, drawn, m);
    KeptCounts(kept, m);
    PlotCircles(lines, ms, palette, m, |rows|);
    PlotPaths(lines, ms, palette);
    DrawnMetrics(rows, ms, m);
  }

  /** A metric gets a line exactly when it is listed. */
  lemma {:induction false} DrawnMetrics(rows: seq<QualityRow>, ms: seq<string>, m: string)
    ensures m in Map(LineData(rows, ms), MetricOf) <==> m in ms
  {
    var lines := LineData(rows, ms);
    var primary := PrimaryMetrics(ms);
    LineFacts(rows, ms);
    if m in ms {
      if m == Coverage {
        assert lines[|lines| - 1].metric == m;
      } else {
        var k :| 0 <= k < |ms| && ms[k] == m;
        FilterMembers(ms, NotCoverage);
        assert m in primary;
        var j :| 0 <= j < |primary| && primary[j] == m;
        assert Map(lines, MetricOf)[j] == m;
      }
    }
  }

  /** Nothing in the plot is kept by the next removal. */
  lemma {:induction false} FilterNoneKept(drawn: seq<Mark>)
    requires forall k :: k in drawn ==> !Kept(k)
    ensures Filter(drawn, Kept) == []
  {
    FilterNone(drawn, Kept);
  }

  // ---------------------------------------------------------------------------------
  // Metric names

  predicate IsUpper(c: char) { 'A' <= c <= 'Z' }

  predicate NotSpace(c: char) { c != ' ' }

  /** The characters `.` does not match. */
  predicate IsLineTerminator(c: char)
  {
    c == '\n' || c == '\r' || c == '\U{2028}' || c == '\U{2029}'
  }

  /** `toUpperCase` on one character, for the ASCII letters: a lower-case letter becomes
      its capital, 32 code points below it. */
  function UpperAscii(c: char): (u: char)
    ensures 'a' <= c <= 'z' ==> IsUpper(u) && u as int == c as int - 32
    ensures !('a' <= c <= 'z') ==> u == c
  {
    if 'a' <= c <= 'z' then (c as int - 32) as char else c
  }

  /** `.replace(/([A-Z])/g, ' $1')`. */
  function SpaceCapitals(s: string): string
  {
    if |s| == 0 then ""
    else
      var head := if IsUpper(s[0]) then [' ', s[0]] else [s[0]];
      head + SpaceCapitals(s[1..])
  }

  /** `.replace(/^./, str => str.toUpperCase())`. */
  function CapitaliseFirst(s: string): string
  {
    if |s| > 0 && !IsLineTerminator(s[0]) then [UpperAscii(s[0])] + s[1..] else s
  }

  /** `_formatMetricName`. */
  function FormatMetricName(metric: string): string
  {
    CapitaliseFirst(SpaceCapitals(metric))
  }

  function CountUpper(s: string): nat
  {
    if |s| == 0 then 0 else (if IsUpper(s[0]) then 1 else 0) + CountUpper(s[1..])
  }

  /** Spacing adds one character per capital. */
  lemma {:induction false} SpaceCapitalsLength(s: string)
    ensures |SpaceCapitals(s)| == |s| + CountUpper(s)
  {
    if |s| > 0 {
      SpaceCapitalsLength(s[1..]);
    }
  }

  /** The added characters are spaces only: the others keep their order. */
  lemma {:induction false} SpaceCapitalsKeeps(s: string)
    ensures Filter(SpaceCapitals(s), NotSpace) == Filter(s, NotSpace)
  {
    if |s| > 0 {
      var head := if IsUpper(s[0]) then [' ', s[0]] else [s[0]];
      SpaceCapitalsKeeps(s[1..]);
      FilterAppend([s[0]], s[1..], NotSpace);
      FilterAppend(head, SpaceCapitals(s[1..]), NotSpace);
      assert [s[0]] + s[1..] == s;
      if IsUpper(s[0]) {
        FilterAppend([' '], [s[0]], NotSpace);
        assert [' '] + [s[0]] == head;
      }
    }
  }

  /** Every capital of a spaced name follows a space. */
  lemma {:induction false} SpaceCapitalsSpaced(s: string)
    ensures forall i :: 0 <= i < |SpaceCapitals(s)| && IsUpper(SpaceCapitals(s)[i]) ==>
      0 < i && SpaceCapitals(s)[i - 1] == ' '
  {
    if |s| > 0 {
      var head := if IsUpper(s[0]) then [' ', s[0]] else [s[0]];
      var tail := SpaceCapitals(s[1..]);
      SpaceCapitalsSpaced(s[1..]);
      var r := head + tail;
      forall i | 0 <= i < |r| && IsUpper(r[i])
        ensures 0 < i && r[i - 1] == ' '
      {
        if i >= |head| {
          var j := i - |head|;
          assert r[i] == tail[j] && IsUpper(tail[j]);
          assert 0 < j && tail[j - 1] == ' ';
          assert r[i - 1] == tail[j - 1];
        }
      }
    }
  }

  /** Formatting changes at most the first character of the spaced name: a lower-case
      ASCII letter becomes upper case, and a name that starts with a capital starts with
      the space put before it. */
  lemma {:induction false} FormatMetricNameFacts(metric: string)
    requires |metric| > 0
    ensures var r := FormatMetricName(metric);
      var spaced := SpaceCapitals(metric);
      |r| == |spaced| > 0 && r[1..] == spaced[1..] &&
      ('a' <= metric[0] <= 'z' ==> r[0] == UpperAscii(metric[0]) && IsUpper(r[0])) &&
      (IsUpper(metric[0]) ==> r[0] == ' ' && r[1] == metric[0])
  {
    SpaceCapitalsLength(metric);
  }

  /** The names the default metrics get in the legend. */
  lemma CodeSmellsName()
    ensures FormatMetricName("codeSmells") == "Code Smells"
  {
  }

  lemma BugsName()
    ensures FormatMetricName("bugs") == "Bugs"
  {
  }

  // ---------------------------------------------------------------------------------
  // Legend and captions

  /** `_renderLegend(metricsToDisplay, …)`: one square per listed metric, in its colour,
      labelled with the formatted name. */
  function QualityLegend(ms: seq<string>, palette: Palette, m: Margin, a: Area): seq<LegendItem>
  {
    LegendRow(seq(|ms|, i requires 0 <= i < |ms| =>
      (FormatMetricName(ms[i]), ColourOf(ms, palette, ms[i]), Square)), m, a)
  }

  lemma {:induction false} QualityLegendFacts(ms: seq<string>, palette: Palette, m: Margin, a: Area)
    ensures var items := QualityLegend(ms, palette, m, a);
      |items| == |ms| &&
      forall i :: 0 <= i < |items| ==>
        items[i].name == FormatMetricName(ms[i]) && items[i].colour == ColourOf(ms, palette, ms[i]) &&
        items[i].x == m.left + 120 * i && items[i].y == m.top + a.chartHeight + 40
  {
  }

  /** The label of the percentage axis, placed along the right edge. */
  function CoverageLabel(a: Area): Caption
  {
    AxisLabel("y2", "Coverage %", a.height as real / 2.0, (15 - a.width) as real)
  }

  /** The SVG texts after a render: the axis titles (the coverage one only when coverage
      is listed) and the title when set. */
  function QualityCaptions(captions: seq<Caption>, o: Options, covered: bool, a: Area): seq<Caption>
  {
    var labels := AxisLabels(OrElse(o.xAxisLabel, "Date"), OrElse(o.yAxisLabel, "Issues"), a) +
                  (if covered then [CoverageLabel(a)] else []);
    Retitle(Relabel(captions, labels), o.title, a)
  }

  /** Old axis titles never survive a render, and the percentage axis is labelled
      exactly when coverage is listed. */
  lemma {:induction false} QualityCaptionsFacts(captions: seq<Caption>, o: Options, covered: bool, a: Area)
    ensures Filter(Relabel(captions, AxisLabels(OrElse(o.xAxisLabel, "Date"), OrElse(o.yAxisLabel, "Issues"), a) +
              (if covered then [CoverageLabel(a)] else [])), IsAxisLabel) ==
            AxisLabels(OrElse(o.xAxisLabel, "Date"), OrElse(o.yAxisLabel, "Issues"), a) +
              (if covered then [CoverageLabel(a)] else [])
  {
    var labels := AxisLabels(OrElse(o.xAxisLabel, "Date"), OrElse(o.yAxisLabel, "Issues"), a) +
                  (if covered then [CoverageLabel(a)] else []);
    FilterAppend(Filter(captions, NotAxisLabel), labels, IsAxisLabel);
    FilterNone(Filter(captions, NotAxisLabel), IsAxisLabel);
    FilterAll(labels, IsAxisLabel);
  }

  // ---------------------------------------------------------------------------------
  // The chart

  /** What reading a property of the missing `y2AxisGroup` throws. */
  const Y2AxisMissing := "TypeError: Cannot read properties of undefined (reading 'attr')"

  /** d3's default time domain: midnight of 2000-01-01 and of 2000-01-02. */
  const DefaultTimeDomain: (int, int) := (946684800000, 946771200000)

  /** No `qualityData`, or none at all: the chart shows its error instead. */
  predicate Missing(d: Option<ChartData>)
  {
    d.None? || d.value.qualityData.None? || |d.value.qualityData.value| == 0
  }

  /** The chart group after a render: the axis groups, then the lines of the listed
      metrics. */
  function Redraw(marks: seq<Mark>, rows: seq<QualityRow>, ms: seq<string>, palette: Palette): seq<Mark>
  {
    LineFacts(rows, ms);
    Filter(marks, Kept) + Plot(LineData(rows, ms), ms, palette)
  }

  /** The chart group's redraw: the lines are built, then drawn after the kept marks. */
  method RedrawMarks(marks: seq<Mark>, rows: seq<QualityRow>, ms: seq<string>, palette: Palette)
    returns (after: seq<Mark>)
    ensures after == Redraw(marks, rows, ms, palette)
  {
    var lines := BuildLineData(rows, ms);
    LineFacts(rows, ms);
    after := DrawLines(Filter(marks, Kept), lines, ms, palette);
  }

  /** The axis groups `_init` creates; the percentage axis only when `this.metrics`
      lists coverage. */
  function AxisGroups(covered: bool): seq<Mark>
  {
    [AxisGroup("x-axis"), AxisGroup("y-axis")] + (if covered then [AxisGroup("y2-axis")] else [])
  }

  class QualityMetricsChart {
    const view: Base
    /** `this.metrics`. */
    const metrics: seq<string>
    /** Whether `_init` created `y2AxisGroup`. */
    const hasY2Axis: bool
    var colourScale: OrdinalScale
    var xScale: TimeScale
    var yScale: LinearScale
    var y2Scale: LinearScale
    var marks: seq<Mark>
    var captions: seq<Caption>
    var legend: seq<LegendItem>

    /** The base's invariant; the chart's own fields need none. */
    predicate Valid()
      reads view
    {
      view.Valid()
    }

    /** `_init` before its first render: the metric list, the axis groups (the percentage
        one only when coverage is listed), and d3's default scales. */
    constructor (view: Base)
      requires view.Valid()
      ensures Valid() && this.view == view
      ensures metrics == InitialMetrics(view.options) && hasY2Axis == (Coverage in metrics)
      ensures marks == AxisGroups(hasY2Axis) && captions == [] && legend == []
      ensures colourScale == OrdinalScale([], []) && xScale == TimeScale(Some(DefaultTimeDomain), 1) &&
              yScale == LinearScale(Finite(1.0), 0) && y2Scale == LinearScale(Finite(1.0), 0)
    {
      this.view := view;
      metrics := InitialMetrics(view.options);
      hasY2Axis := Coverage in InitialMetrics(view.options);
      colourScale := OrdinalScale([], []);
      xScale := TimeScale(Some(DefaultTimeDomain), 1);
      yScale := LinearScale(Finite(1.0), 0);
      y2Scale := LinearScale(Finite(1.0), 0);
      marks := AxisGroups(Coverage in InitialMetrics(view.options));
      captions := [];
      legend := [];
    }

    /** The state and outcome `r` of `render` for a wrapper of `width` by `height` pixels
        under a theme `palette`, given the scales, marks, captions, legend and error text
        it found. Without quality data only the error is shown. Otherwise the error is
        hidden and the scales follow the rows; the render throws exactly when coverage
        is listed but `_init` made no percentage axis, leaving the elements as they
        were, and otherwise the captions, lines and legend are redrawn. */
    predicate RenderedFrom(width: int, height: int, palette: Palette, r: Outcome, cs0: OrdinalScale,
                           xs: TimeScale, ys: LinearScale, y2s: LinearScale,
                           ms: seq<Mark>, cs: seq<Caption>, ls: seq<LegendItem>, text: string)
      reads this, view
    {
      Valid() &&
      (Missing(view.data) ==>
        r == Pass && view.errorVisible && view.errorText == NoData &&
        colourScale == cs0 && xScale == xs && yScale == ys && y2Scale == y2s &&
        marks == ms && captions == cs && legend == ls) &&
      (!Missing(view.data) ==>
        var rows := view.data.value.qualityData.value;
        var shown := DisplayedMetrics(view.options, metrics);
        var a := AreaOf(width, height, view.options.margin.value);
        !view.errorVisible && view.errorText == text &&
        Scaled(rows, shown, a, palette, y2s) &&
        (r.Fail? <==> Coverage in shown && !hasY2Axis) &&
        (r.Fail? ==> r.error == Y2AxisMissing && marks == ms && captions == cs && legend == ls) &&
        (r.Pass? ==> Drawn(ms, cs, rows, shown, view.options, a, palette)))
    }

    /** `render`: without quality data it only shows the error. Otherwise it hides the
        error and rescales; when coverage is listed but `_init` made no percentage axis it
        throws there, and otherwise it relabels, redraws the lines, re-lays the legend and
        retitles. */
    method Render(width: int, height: int, palette: Palette) returns (r: Outcome)
      requires Valid()
      modifies this, view`errorText, view`errorVisible
      ensures RenderedFrom(width, height, palette, r, old(colourScale), old(xScale), old(yScale), old(y2Scale),
                           old(marks), old(captions), old(legend), old(view.errorText))
    {
      if Missing(view.data) {
        view.ShowError(NoData);
        return Pass;
      }
      var o := view.options;
      var rows := view.data.value.qualityData.value;
      var ms := DisplayedMetrics(o, metrics);
      r := Refresh(rows, ms, o, AreaOf(width, height, o.margin.value), palette);
    }

    /** `render` past its guard, for the rows `rows`, the metrics `ms`, the options `o` and
        the area `a`. */
    method Refresh(rows: seq<QualityRow>, ms: seq<string>, o: Options, a: Area, palette: Palette)
      returns (r: Outcome)
      requires o.margin.Some?
      modifies this, view`errorVisible
      ensures !view.errorVisible && Scaled(rows, ms, a, palette, old(y2Scale))
      ensures r.Fail? <==> Coverage in ms && !hasY2Axis
      ensures r.Fail? ==>
        r.error == Y2AxisMissing && marks == old(marks) && captions == old(captions) && legend == old(legend)
      ensures r.Pass? ==> Drawn(old(marks), old(captions), rows, ms, o, a, palette)
    {
      view.HideError();
      Rescale(rows, ms, a, palette);
      if Coverage in ms && !hasY2Axis {
        return Fail(Y2AxisMissing);
      }
      Repaint(rows, ms, o, a, palette);
      r := Pass;
    }

    /** The element updates of `render` past the scales: the captions, the lines and
        the legend. */
    method Repaint(rows: seq<QualityRow>, ms: seq<string>, o: Options, a: Area, palette: Palette)
      requires o.margin.Some?
      modifies this`marks, this`captions, this`legend
      ensures Drawn(old(marks), old(captions), rows, ms, o, a, palette)
    {
      captions := QualityCaptions(captions, o, Coverage in ms, a);
      marks := RedrawMarks(marks, rows, ms, palette);
      legend := QualityLegend(ms, palette, o.margin.value, a);
    }

    /** The scales after `render` rescales for `rows` and the metrics `ms` in the area
        `a`: colours by metric, the time extent of the rows, the peak of the primary
        metrics, and the percentage scale, set only when coverage is listed. */
    predicate Scaled(rows: seq<QualityRow>, ms: seq<string>, a: Area, palette: Palette, previousY2: LinearScale)
      reads this`colourScale, this`xScale, this`yScale, this`y2Scale
    {
      colourScale == ColourScaleOf(ms, palette) &&
      xScale == TimeScale(Extent(rows), a.chartWidth) &&
      yScale == YScaleOf(rows, PrimaryMetrics(ms), a) &&
      y2Scale == if Coverage in ms then Y2ScaleOf(a) else previousY2
    }

    /** The elements after a full `render`: the lines redrawn over the kept axis groups,
        the legend re-laid and the captions relabelled and retitled. */
    predicate Drawn(previousMarks: seq<Mark>, previousCaptions: seq<Caption>, rows: seq<QualityRow>,
                    ms: seq<string>, o: Options, a: Area, palette: Palette)
      reads this`marks, this`legend, this`captions
      requires o.margin.Some?
    {
      marks == Redraw(previousMarks, rows, ms, palette) &&
      legend == QualityLegend(ms, palette, o.margin.value, a) &&
      captions == QualityCaptions(previousCaptions, o, Coverage in ms, a)
    }

    /** The scale updates of `render`. */
    method Rescale(rows: seq<QualityRow>, ms: seq<string>, a: Area, palette: Palette)
      modifies this`colourScale, this`xScale, this`yScale, this`y2Scale
      ensures Scaled(rows, ms, a, palette, old(y2Scale))
    {
      colourScale := ColourScaleOf(ms, palette);
      xScale := TimeScale(Extent(rows), a.chartWidth);
      yScale := YScaleOf(rows, PrimaryMetrics(ms), a);
      if Coverage in ms {
        y2Scale := Y2ScaleOf(a);
      }
    }

    /** `resize` renders again, with the same data and options. */
    method Resize(width: int, height: int, palette: Palette) returns (r: Outcome)
      requires Valid()
      modifies this, view`errorText, view`errorVisible
      ensures view.data == old(view.data) && view.options == old(view.options)
      ensures RenderedFrom(width, height, palette, r, old(colourScale), old(xScale), old(yScale), old(y2Scale),
                           old(marks), old(captions), old(legend), old(view.errorText))
    {
      r := Render(width, height, palette);
    }

    /** `updateData`: replaces the data wholesale, then renders. */
    method UpdateData(d: Option<ChartData>, width: int, height: int, palette: Palette) returns (r: Outcome)
      requires Valid()
      modifies this, view`data, view`errorText, view`errorVisible
      ensures view.data == d && view.options == old(view.options)
      ensures RenderedFrom(width, height, palette, r, old(colourScale), old(xScale), old(yScale), old(y2Scale),
                           old(marks), old(captions), old(legend), old(view.errorText))
    {
      view.data := d;
      r := Render(width, height, palette);
    }

    /** `updateOptions`: a shallow merge of the options, then a render, which throws when
        the new options list coverage and `_init` made no percentage axis. */
    method UpdateOptions(o: Options, width: int, height: int, palette: Palette) returns (r: Outcome)
      requires Valid()
      modifies this, view`options, view`errorText, view`errorVisible
      ensures view.options == Overlay(old(view.options), o) && view.data == old(view.data)
      ensures RenderedFrom(width, height, palette, r, old(colourScale), old(xScale), old(yScale), old(y2Scale),
                           old(marks), old(captions), old(legend), old(view.errorText))
    {
      view.options := Overlay(view.options, o);
      r := Render(width, height, palette);
    }
  }

  /** `new QualityMetricsChart(config)`: the base constructor's guard, `_init`, then the
      first render, whose throw would reach the caller. It cannot throw: `_init` made the
      percentage axis exactly when the metrics it renders list coverage, so the chart
      exists whenever the element does, and it is the first render of the empty chart. */
  method NewQualityMetricsChart(element: Option<seq<string>>, data: Option<ChartData>, options: Options,
                                width: int, height: int, palette: Palette)
    returns (r: Result<QualityMetricsChart>)
    ensures element.None? <==> r.Err?
    ensures r.Err? ==> r.error == ElementMissing
    ensures r.Ok? ==> fresh(r.value) && fresh(r.value.view)
    ensures r.Ok? ==>
      var v := r.value.view;
      v.data == Some(if data.Some? then data.value else EmptyData) &&
      v.options == Overlay(DefaultOptions, options) &&
      v.children == element.value + BaseChildren && v.observing && !v.loadingVisible
    ensures r.Ok? ==> r.value.metrics == InitialMetrics(r.value.view.options) &&
                      r.value.hasY2Axis == (Coverage in r.value.metrics)
    ensures r.Ok? ==>
      r.value.RenderedFrom(width, height, palette, Pass, OrdinalScale([], []), TimeScale(Some(DefaultTimeDomain), 1),
                           LinearScale(Finite(1.0), 0), LinearScale(Finite(1.0), 0),
                           AxisGroups(r.value.hasY2Axis), [], [], "")
  {
    var b := NewBase(element, data, options);
    if b.Err? {
      return Err(b.error);
    }
    var c := new QualityMetricsChart(b.value);
    MetricsDefault(b.value.options, c.metrics);
    var outcome := c.Render(width, height, palette);
    r := if outcome.Pass? then Ok(c) else Err(Y2AxisMissing);
  }
}
