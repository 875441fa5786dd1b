/** `VelocityChart`: a total bar and a completed bar per sprint, with an optional
    rolling-average velocity line, a legend and a summary box. */
module VelocityChart {
  import opened Wrappers
  import opened Numbers
  import opened Collections
  import opened DataProcessor
  import opened Visualization

  /** `options.velocityWindow || 3`: an absent or zero window means three sprints. */
  function WindowOf(o: Options): int
  {
    if o.velocityWindow.Some? && o.velocityWindow.value != 0 then o.velocityWindow.value else 3
  }

  datatype VelocityPoint = VelocityPoint(period: string, velocity: Num)

  /** The first sprint of the window ending at sprint `i`. */
  function WindowStart(i: int, w: int): int
  {
    if i - w + 1 > 0 then i - w + 1 else 0
  }

  /** How many sprints the window ending at `i` covers: `min(i + 1, w)`, or none when the
      window is not positive. */
  function WindowSize(i: nat, w: int): (n: nat)
    ensures n <= i + 1
    ensures w > 0 ==> n == if i + 1 < w then i + 1 else w
  {
    if WindowStart(i, w) <= i then i + 1 - WindowStart(i, w) else 0
  }

  /** The mean completed points over the window ending at sprint `i`; an empty window
      divides 0 by 0. */
  function WindowMean(rows: seq<SprintRow>, i: nat, w: int): Num
    requires i < |rows|
  {
    var n := WindowSize(i, w);
    Divide(SumOf(rows[i + 1 - n..i + 1], CompletedOf) as real, n as real)
  }

  /** One velocity point per sprint, with the same period, in the same order. */
  function Velocity(rows: seq<SprintRow>, w: int): (v: seq<VelocityPoint>)
    ensures |v| == |rows|
    ensures forall i :: 0 <= i < |rows| ==> v[i].period == rows[i].period
  {
    seq(|rows|, i requires 0 <= i < |rows| => VelocityPoint(rows[i].period, WindowMean(rows, i, w)))
  }

  /** `_calculateVelocity`: for each sprint, add up `completed` over its window. */
  method CalculateVelocity(rows: seq<SprintRow>, w: int) returns (v: seq<VelocityPoint>)
    ensures v == Velocity(rows, w)
  {
    v := [];
    var i := 0;
    while i < |rows|
      invariant 0 <= i <= |rows|
      invariant |v| == i
      invariant forall k :: 0 <= k < i ==> v[k] == VelocityPoint(rows[k].period, WindowMean(rows, k, w))
    {
      var sum, count := WindowTotals(rows, i, w);
      v := v + [VelocityPoint(rows[i].period, Divide(sum as real, count as real))];
      i := i + 1;
    }
  }

  /** The inner loop for sprint `i`: the sum of `completed` over its window and the
      number of sprints added, whose quotient is the window mean. */
  method WindowTotals(rows: seq<SprintRow>, i: nat, w: int) returns (sum: int, count: int)
    requires i < |rows|
    ensures Divide(sum as real, count as real) == WindowMean(rows, i, w)
  {
    var start := WindowStart(i, w);
    sum := 0;
    count := 0;
    var j := start;
    while j <= i
      invariant start <= j
      invariant j <= i + 1 || j == start
      invariant j <= i + 1 ==> sum == SumOf(rows[start..j], CompletedOf) && count == j - start
      invariant j > i + 1 ==> sum == 0 && count == 0
    {
      SumOfSnoc(rows, start, j);
      sum := sum + rows[j].completed;
      count := count + 1;
      j := j + 1;
    }
    WindowDone(rows, i, w, j, sum, count);
  }

  /** When the inner loop stops, its sum and count give the window mean. */
  lemma WindowDone(rows: seq<SprintRow>, i: nat, w: int, j: int, sum: int, count: int)
    requires i < |rows| && j > i && WindowStart(i, w) <= j
    requires j <= i + 1 || j == WindowStart(i, w)
    requires j <= i + 1 ==> sum == SumOf(rows[WindowStart(i, w)..j], CompletedOf) && count == j - WindowStart(i, w)
    requires j > i + 1 ==> sum == 0 && count == 0
    ensures Divide(sum as real, count as real) == WindowMean(rows, i, w)
  {
    var n := WindowSize(i, w);
    if j == i + 1 {
      assert i + 1 - n == WindowStart(i, w);
    } else {
      assert n == 0;
      assert rows[i + 1..i + 1] == [];
    }
  }

  lemma SumOfSnoc(rows: seq<SprintRow>, start: int, j: int)
    requires 0 <= start <= j < |rows|
    ensures SumOf(rows[start..j + 1], CompletedOf) == SumOf(rows[start..j], CompletedOf) + rows[j].completed
  {
    assert rows[start..j + 1][..j - start] == rows[start..j];
  }

  /** With a positive window, sprint `i` averages over `min(i + 1, w)` sprints, never
      zero. */
  lemma WindowSizePositive(i: nat, w: int)
    requires w >= 1
    ensures WindowSize(i, w) == if i + 1 < w then i + 1 else w
    ensures i + 1 - WindowSize(i, w) == WindowStart(i, w)
  {
  }

  /** With a positive window, the velocity lies between the least and the most
      completed in its window. */
  lemma WindowMeanBounds(rows: seq<SprintRow>, i: nat, w: int)
    requires i < |rows| && w >= 1
    ensures var window := Map(rows[WindowStart(i, w)..i + 1], CompletedOf);
      WindowMean(rows, i, w).Finite? &&
      MinInt(window) as real <= WindowMean(rows, i, w).value <= MaxInt(window) as real
  {
    var lo := WindowStart(i, w);
    WindowSizePositive(i, w);
    var slice := rows[lo..i + 1];
    var window := Map(slice, CompletedOf);
    SumOfMap(slice, CompletedOf);
    var n := WindowSize(i, w);
    assert n == |window| && i + 1 - n == lo;
    var total := SumOf(slice, CompletedOf);
    assert total == Sum(window);
    assert WindowMean(rows, i, w) == Finite(total as real / n as real);
    MeanBounds(window);
  }

  /** While the window is still filling, the velocity is the mean of all sprints so far. */
  lemma WindowFilling(rows: seq<SprintRow>, i: nat, w: int)
    requires i < |rows| && i < w
    ensures WindowMean(rows, i, w) == Divide(SumOf(rows[..i + 1], CompletedOf) as real, (i + 1) as real)
  {
    assert rows[0..i + 1] == rows[..i + 1];
  }

  /** A one-sprint window reproduces each sprint's completed points. */
  lemma WindowOfOne(rows: seq<SprintRow>, i: nat)
    requires i < |rows|
    ensures WindowMean(rows, i, 1) == Finite(rows[i].completed as real)
  {
    assert rows[i..i + 1] == [rows[i]];
    assert [rows[i]][..0] == [];
    assert SumOf([rows[i]], CompletedOf) == rows[i].completed;
  }

  /** A negative `velocityWindow` is truthy, so it is used as given: every window is
      empty and every velocity is NaN. */
  lemma NegativeWindow(rows: seq<SprintRow>, i: nat, w: int)
    requires i < |rows| && w < 0
    ensures WindowMean(rows, i, w) == NaN
  {
  }

  // ---------------------------------------------------------------------------------
  // Drawing

  /** The elements of the chart group: the two axis groups `_init` creates, and what
      `render` draws. */
  datatype Mark =
    | AxisGroup(axis: string)
    | TotalBar(row: SprintRow)
    | CompletedBar(row: SprintRow)
    | VelocityLine(points: seq<VelocityPoint>)
    | VelocityDot(point: VelocityPoint)

  /** Selected by `.bar-total`, `.bar-completed`, `.velocity-line` or `.velocity-point`. */
  predicate Drawn(m: Mark) { !m.AxisGroup? }

  predicate Kept(m: Mark) { m.AxisGroup? }

  predicate IsTotalBar(m: Mark) { m.TotalBar? }

  predicate IsCompletedBar(m: Mark) { m.CompletedBar? }

  predicate IsVelocityLine(m: Mark) { m.VelocityLine? }

  predicate IsVelocityDot(m: Mark) { m.VelocityDot? }

  function TotalBarOf(row: SprintRow): Mark { TotalBar(row) }

  function CompletedBarOf(row: SprintRow): Mark { CompletedBar(row) }

  function DotOf(p: VelocityPoint): Mark { VelocityDot(p) }

  predicate ShowsVelocity(o: Options) { o.showVelocity == Some(true) }

  /** What one render draws: a total bar per sprint, then a completed bar per sprint, then
      the velocity line and its points when enabled and there is more than one point. */
  function Drawing(rows: seq<SprintRow>, o: Options): seq<Mark>
  {
    var v := Velocity(rows, WindowOf(o));
    Map(rows, TotalBarOf) + (Map(rows, CompletedBarOf) + VelocityMarks(v, o))
  }

  /** The velocity line and its points, drawn only when enabled and there is more than
      one point. */
  function VelocityMarks(v: seq<VelocityPoint>, o: Options): seq<Mark>
  {
    if ShowsVelocity(o) && |v| > 1 then [VelocityLine(v)] + Map(v, DotOf) else []
  }

  /** Removes every drawn element, keeping the axis groups, then draws afresh. */
  function Redraw(marks: seq<Mark>, rows: seq<SprintRow>, o: Options): seq<Mark>
  {
    Filter(marks, Kept) + Drawing(rows, o)
  }

  lemma {:induction false} FilterMapNone<T>(s: seq<T>, f: T -> Mark, p: Mark -> bool)
    requires forall x :: !p(f(x))
    ensures Filter(Map(s, f), p) == []
  {
    FilterNone(Map(s, f), p);
  }

  lemma {:induction false} FilterMapAll<T>(s: seq<T>, f: T -> Mark, p: Mark -> bool)
    requires forall x :: p(f(x))
    ensures Filter(Map(s, f), p) == Map(s, f)
  {
    FilterAll(Map(s, f), p);
  }

  /** Any selection of the redrawn elements splits along the four parts. */
  lemma RedrawFilter(marks: seq<Mark>, rows: seq<SprintRow>, o: Options, p: Mark -> bool)
    ensures var v := Velocity(rows, WindowOf(o));
      Filter(Redraw(marks, rows, o), p) ==
        Filter(Filter(marks, Kept), p) + (Filter(Map(rows, TotalBarOf), p) +
        (Filter(Map(rows, CompletedBarOf), p) + Filter(VelocityMarks(v, o), p)))
  {
    var v := Velocity(rows, WindowOf(o));
    var t, c, e := Map(rows, TotalBarOf), Map(rows, CompletedBarOf), VelocityMarks(v, o);
    FilterAppend(Filter(marks, Kept), t + (c + e), p);
    FilterAppend(t, c + e, p);
    FilterAppend(c, e, p);
  }

  /** A render leaves the axis groups as they were. */
  lemma RedrawKeepsAxes(marks: seq<Mark>, rows: seq<SprintRow>, o: Options)
    ensures Filter(Redraw(marks, rows, o), Kept) == Filter(marks, Kept)
  {
    RedrawFilter(marks, rows, o, Kept);
    FilterAll(Filter(marks, Kept), Kept);
    FilterMapNone(rows, TotalBarOf, Kept);
    FilterMapNone(rows, CompletedBarOf, Kept);
    VelocityMarksNone(Velocity(rows, WindowOf(o)), o, Kept);
  }

  /** However many bars earlier renders left, a render leaves exactly one total bar per
      sprint, in sprint order. */
  lemma RedrawTotalBars(marks: seq<Mark>, rows: seq<SprintRow>, o: Options)
    ensures Filter(Redraw(marks, rows, o), IsTotalBar) == Map(rows, TotalBarOf)
  {
    RedrawFilter(marks, rows, o, IsTotalBar);
    FilterNone(Filter(marks, Kept), IsTotalBar);
    FilterMapAll(rows, TotalBarOf, IsTotalBar);
    FilterMapNone(rows, CompletedBarOf, IsTotalBar);
    VelocityMarksNone(Velocity(rows, WindowOf(o)), o, IsTotalBar);
  }

  /** Likewise exactly one completed bar per sprint, in sprint order. */
  lemma RedrawCompletedBars(marks: seq<Mark>, rows: seq<SprintRow>, o: Options)
    ensures Filter(Redraw(marks, rows, o), IsCompletedBar) == Map(rows, CompletedBarOf)
  {
    RedrawFilter(marks, rows, o, IsCompletedBar);
    FilterNone(Filter(marks, Kept), IsCompletedBar);
    FilterMapNone(rows, TotalBarOf, IsCompletedBar);
    FilterMapAll(rows, CompletedBarOf, IsCompletedBar);
    VelocityMarksNone(Velocity(rows, WindowOf(o)), o, IsCompletedBar);
  }

  lemma VelocityMarksLine(v: seq<VelocityPoint>, o: Options)
    ensures Filter(VelocityMarks(v, o), IsVelocityLine) ==
      if ShowsVelocity(o) && |v| > 1 then [VelocityLine(v)] else []
  {
    if ShowsVelocity(o) && |v| > 1 {
      FilterAppend([VelocityLine(v)], Map(v, DotOf), IsVelocityLine);
      FilterMapNone(v, DotOf, IsVelocityLine);
    }
  }

  lemma VelocityMarksDots(v: seq<VelocityPoint>, o: Options)
    ensures Filter(VelocityMarks(v, o), IsVelocityDot) ==
      if ShowsVelocity(o) && |v| > 1 then Map(v, DotOf) else []
  {
    if ShowsVelocity(o) && |v| > 1 {
      FilterAppend([VelocityLine(v)], Map(v, DotOf), IsVelocityDot);
      FilterMapAll(v, DotOf, IsVelocityDot);
    }
  }

  /** The velocity line is there, once, exactly when velocity is enabled and there are at
      least two sprints. */
  lemma RedrawVelocityLine(marks: seq<Mark>, rows: seq<SprintRow>, o: Options)
    ensures Filter(Redraw(marks, rows, o), IsVelocityLine) ==
      if ShowsVelocity(o) && |rows| > 1 then [VelocityLine(Velocity(rows, WindowOf(o)))] else []
  {
    RedrawFilter(marks, rows, o, IsVelocityLine);
    FilterNone(Filter(marks, Kept), IsVelocityLine);
    FilterMapNone(rows, TotalBarOf, IsVelocityLine);
    FilterMapNone(rows, CompletedBarOf, IsVelocityLine);
    VelocityMarksLine(Velocity(rows, WindowOf(o)), o);
  }

  /** Under the same condition there is one velocity point per sprint, in order, and
      otherwise none. */
  lemma RedrawVelocityDots(marks: seq<Mark>, rows: seq<SprintRow>, o: Options)
    ensures Filter(Redraw(marks, rows, o), IsVelocityDot) ==
      if ShowsVelocity(o) && |rows| > 1 then Map(Velocity(rows, WindowOf(o)), DotOf) else []
  {
    RedrawFilter(marks, rows, o, IsVelocityDot);
    FilterNone(Filter(marks, Kept), IsVelocityDot);
    FilterMapNone(rows, TotalBarOf, IsVelocityDot);
    FilterMapNone(rows, CompletedBarOf, IsVelocityDot);
    VelocityMarksDots(Velocity(rows, WindowOf(o)), o);
  }

  lemma VelocityMarksNone(v: seq<VelocityPoint>, o: Options, p: Mark -> bool)
    requires !p(VelocityLine(v)) && forall x :: !p(DotOf(x))
    ensures Filter(VelocityMarks(v, o), p) == []
  {
    if ShowsVelocity(o) && |v| > 1 {
      FilterAppend([VelocityLine(v)], Map(v, DotOf), p);
      FilterMapNone(v, DotOf, p);
    }
  }

  /** Rendering the same data twice draws nothing twice. */
  lemma RedrawIdempotent(marks: seq<Mark>, rows: seq<SprintRow>, o: Options)
    ensures Redraw(Redraw(marks, rows, o), rows, o) == Redraw(marks, rows, o)
  {
    RedrawKeepsAxes(marks, rows, o);
  }

  // ---------------------------------------------------------------------------------
  // Scales, legend and summary

  function Peak(row: SprintRow): int
  {
    if row.total >= row.completed then row.total else row.completed
  }

  /** `d3.max(storyPoints, d => Math.max(d.total, d.completed))`. */
  function MaxPoints(rows: seq<SprintRow>): int
    requires |rows| > 0
  {
    MaxInt(Map(rows, Peak))
  }

  /** The tallest bar reaches the largest total or completed count, and no bar is taller. */
  lemma MaxPointsFacts(rows: seq<SprintRow>)
    requires |rows| > 0
    ensures forall i :: 0 <= i < |rows| ==> rows[i].total <= MaxPoints(rows) && rows[i].completed <= MaxPoints(rows)
    ensures exists i :: 0 <= i < |rows| && (MaxPoints(rows) == rows[i].total || MaxPoints(rows) == rows[i].completed)
  {
    var m := Map(rows, Peak);
    assert forall i :: 0 <= i < |rows| ==> m[i] == Peak(rows[i]);
    var i :| 0 <= i < |m| && m[i] == MaxInt(m);
    assert Peak(rows[i]) == MaxPoints(rows);
  }

  /** The x axis lists the sprint periods in order, each once, across the plotting width. */
  function XScaleOf(rows: seq<SprintRow>, a: Area): BandScale
  {
    BandScale(FirstSeen(Map(rows, PeriodOf)), a.chartWidth, 0.2)
  }

  /** The y axis runs from 0 to 110% of the tallest bar, bottom to top. */
  function YScaleOf(rows: seq<SprintRow>, a: Area): LinearScale
    requires |rows| > 0
  {
    LinearScale(Headroom(Finite(MaxPoints(rows) as real)), a.chartHeight)
  }

  const TotalFallback := "#2196f3"

  const CompletedFallback := "#4caf50"

  const VelocityFallback := "#ff9800"

  /** `_renderLegend`: total and completed points, plus velocity when it is shown. */
  function VelocityLegend(o: Options, m: Margin, a: Area, palette: Palette): seq<LegendItem>
  {
    var base := [("Total Points", ChartColour(palette, 0, TotalFallback), Square),
                 ("Completed Points", ChartColour(palette, 1, CompletedFallback), Square)];
    LegendRow(base + (if ShowsVelocity(o) then [("Velocity", ChartColour(palette, 2, VelocityFallback), Stroke)] else []), m, a)
  }

  function NameOf(item: LegendItem): string { item.name }

  /** The legend always names total and completed points, and names velocity exactly
      when it is shown; entries step 120 pixels right from the left margin. */
  lemma VelocityLegendFacts(o: Options, m: Margin, a: Area, palette: Palette)
    ensures var items := VelocityLegend(o, m, a, palette);
      Map(items, NameOf) ==
        ["Total Points", "Completed Points"] + (if ShowsVelocity(o) then ["Velocity"] else []) &&
      (forall i :: 0 <= i < |items| ==> items[i].x == m.left + 120 * i) &&
      (forall i :: 0 <= i < |items| ==> items[i].y == m.top + a.chartHeight + 40)
  {
  }

  /** `_renderSummary`: the old box goes and a new one is placed 150 pixels in from the
      right margin. */
  function Resummarise(captions: seq<Caption>, summary: StorySummary, m: Margin, a: Area): seq<Caption>
  {
    Filter(captions, NotSummary) + [SummaryBox(a.width - m.right - 150, m.top + 30, summary)]
  }

  /** The SVG texts after a render: new axis titles, the title when set, and a new
      summary box when the data carries a summary. */
  function Captioned(captions: seq<Caption>, d: ChartData, o: Options, a: Area): seq<Caption>
    requires o.margin.Some?
  {
    var titled := Retitle(Relabel(captions, AxisLabels(OrElse(o.xAxisLabel, "Sprint"),
                                                       OrElse(o.yAxisLabel, "Story Points"), a)), o.title, a);
    if d.storySummary.Some? then Resummarise(titled, d.storySummary.value, o.margin.value, a) else titled
  }

  /** The bars of `render`, then the velocity line and points it draws after computing
      `_calculateVelocity` when enabled. */
  method Draw(rows: seq<SprintRow>, o: Options) returns (drawn: seq<Mark>)
    ensures drawn == Drawing(rows, o)
  {
    drawn := Map(rows, TotalBarOf);
    drawn := drawn + Map(rows, CompletedBarOf);
    if ShowsVelocity(o) {
      var v := CalculateVelocity(rows, WindowOf(o));
      if |v| > 1 {
        drawn := drawn + ([VelocityLine(v)] + Map(v, DotOf));
      }
    }
  }

  /** No `storyPoints`, or none at all: the chart shows its error instead. */
  predicate Missing(d: Option<ChartData>)
  {
    d.None? || d.value.storyPoints.None? || |d.value.storyPoints.value| == 0
  }

  class VelocityChart {
    const view: Base
    var xScale: BandScale
    var yScale: LinearScale
    var marks: seq<Mark>
    var captions: seq<Caption>
    var legend: seq<LegendItem>

    predicate Valid()
      reads this, view
    {
      view.Valid()
    }

    /** `_init` before its first render: empty axis groups, no captions, no legend, and
        d3's default scales. */
    constructor (view: Base)
      requires view.Valid()
      ensures Valid() && this.view == view
      ensures marks == [AxisGroup("x-axis"), AxisGroup("y-axis")] && captions == [] && legend == []
      ensures xScale == BandScale([], 1, 0.0) && yScale == LinearScale(Finite(1.0), 0)
    {
      this.view := view;
      xScale := BandScale([], 1, 0.0);
      yScale := LinearScale(Finite(1.0), 0);
      marks := [AxisGroup("x-axis"), AxisGroup("y-axis")];
      captions := [];
      legend := [];
    }

    /** The state `render` leaves for a wrapper of `width` by `height` pixels under a
        theme `palette`, given the scales, marks, captions, legend and error text it found.
        Without story points only the error is shown; otherwise the error is hidden, the
        scales follow the rows, the marks are redrawn, the legend is re-laid and the
        captions are relabelled, retitled and, when the data has a summary, given a new
        summary box (an old box stays when the data has none). */
    predicate RenderedFrom(width: int, height: int, palette: Palette, xs: BandScale, ys: LinearScale,
                           ms: seq<Mark>, cs: seq<Caption>, ls: seq<LegendItem>, text: string)
      reads this, view
    {
      Valid() &&
      (Missing(view.data) ==>
        view.errorVisible && view.errorText == NoData &&
        xScale == xs && yScale == ys && marks == ms && captions == cs && legend == ls) &&
      (!Missing(view.data) ==>
        var rows := view.data.value.storyPoints.value;
        var a := AreaOf(width, height, view.options.margin.value);
        !view.errorVisible && view.errorText == text &&
        xScale == XScaleOf(rows, a) && yScale == YScaleOf(rows, a) &&
        marks == Redraw(ms, rows, view.options) &&
        legend == VelocityLegend(view.options, view.options.margin.value, a, palette) &&
        captions == Captioned(cs, view.data.value, view.options, a))
    }

    /** `render`: without story points it only shows the error; otherwise it hides the
        error, rescales, relabels, redraws, re-lays the legend, retitles and replaces the
        summary box. */
    method Render(width: int, height: int, palette: Palette)
      requires Valid()
      modifies this, view`errorText, view`errorVisible
      ensures RenderedFrom(width, height, palette, old(xScale), old(yScale), old(marks), old(captions),
                           old(legend), old(view.errorText))
    {
      if Missing(view.data) {
        view.ShowError(NoData);
        return;
      }
      var d := view.data.value;
      var o := view.options;
      var rows := d.storyPoints.value;
      var a := AreaOf(width, height, o.margin.value);
      var drawn := Draw(rows, o);
      view.HideError();
      assert view.data == Some(d) && view.options == o && view.errorText == old(view.errorText);
      xScale, yScale := XScaleOf(rows, a), YScaleOf(rows, a);
      marks := Filter(marks, Kept) + drawn;
      legend := VelocityLegend(o, o.margin.value, a, palette);
      captions := Captioned(captions, d, o, a);
    }

    /** `resize` renders again, with the same data and options. */
    method Resize(width: int, height: int, palette: Palette)
      requires Valid()
      modifies this, view`errorText, view`errorVisible
      ensures view.data == old(view.data) && view.options == old(view.options)
      ensures RenderedFrom(width, height, palette, old(xScale), old(yScale), old(marks), old(captions),
                           old(legend), old(view.errorText))
    {
      Render(width, height, palette);
    }

    /** `updateData`: replaces the data wholesale, then renders. */
    method UpdateData(d: Option<ChartData>, width: int, height: int, palette: Palette)
      requires Valid()
      modifies this, view`data, view`errorText, view`errorVisible
      ensures view.data == d && view.options == old(view.options)
      ensures RenderedFrom(width, height, palette, old(xScale), old(yScale), old(marks), old(captions),
                           old(legend), old(view.errorText))
    {
      view.data := d;
      Render(width, height, palette);
    }

    /** `updateOptions`: a shallow merge of the options, then a render. */
    method UpdateOptions(o: Options, width: int, height: int, palette: Palette)
      requires Valid()
      modifies this, view`options, view`errorText, view`errorVisible
      ensures view.options == Overlay(old(view.options), o) && view.data == old(view.data)
      ensures RenderedFrom(width, height, palette, old(xScale), old(yScale), old(marks), old(captions),
                           old(legend), old(view.errorText))
    {
      view.options := Overlay(view.options, o);
      Render(width, height, palette);
    }
  }

  /** `new VelocityChart(config)`: the base constructor's guard, then `_init`, which
      builds the empty chart and renders it once. */
  method NewVelocityChart(element: Option<seq<string>>, data: Option<ChartData>, options: Options,
                          width: int, height: int, palette: Palette)
    returns (r: Result<VelocityChart>)
    ensures element.None? <==> r.Err?
    ensures r.Err? ==> r.error == ElementMissing
    ensures r.Ok? ==> fresh(r.value) && fresh(r.value.view)
    ensures r.Ok? ==>
      var v := r.value.view;
      v.data == Some(if data.Some? then data.value else EmptyData) &&
      v.options == Overlay(DefaultOptions, options) &&
      v.children == element.value + BaseChildren && v.observing && !v.loadingVisible
    ensures r.Ok? ==>
      r.value.RenderedFrom(width, height, palette, BandScale([], 1, 0.0), LinearScale(Finite(1.0), 0),
                           [AxisGroup("x-axis"), AxisGroup("y-axis")], [], [], "")
  {
    var b := NewBase(element, data, options);
    if b.Err? {
      return Err(b.error);
    }
    var c := new VelocityChart(b.value);
    c.Render(width, height, palette);
    r := Ok(c);
  }
}
