/** `BaseVisualization`: the options, data, error box and element children every chart
    shares. The charts hold one of these (composition stands in for `extends`), and the
    geometry helpers the three charts compute the same way live here too. */
module Visualization {
  import opened Wrappers
  import opened Collections
  import opened Numbers
  import opened DataProcessor

  datatype Margin = Margin(top: int, right: int, bottom: int, left: int)

  /** The option keys the charts read. `None` is a key that is not present. */
  datatype Options = Options(
    width: Option<string>, height: Option<string>, margin: Option<Margin>,
    title: Option<string>, xAxisLabel: Option<string>, yAxisLabel: Option<string>,
    showVelocity: Option<bool>, velocityWindow: Option<int>,
    metrics: Option<seq<string>>, timeRange: Option<string>)

  const NoOptions := Options(None, None, None, None, None, None, None, None, None, None)

  const DefaultMargin := Margin(20, 20, 30, 40)

  /** The defaults the constructor starts from. */
  const DefaultOptions := NoOptions.(width := Some("100%"), height := Some("300px"),
                                     margin := Some(DefaultMargin))

  function Pick<T>(under: Option<T>, over: Option<T>): Option<T>
  {
    if over.Some? then over else under
  }

  /** `{...under, ...over}`: a shallow merge, so a `margin` in `over` replaces the whole
      margin of `under`. */
  function Overlay(under: Options, over: Options): (r: Options)
  {
    Options(Pick(under.width, over.width), Pick(under.height, over.height),
            Pick(under.margin, over.margin), Pick(under.title, over.title),
            Pick(under.xAxisLabel, over.xAxisLabel), Pick(under.yAxisLabel, over.yAxisLabel),
            Pick(under.showVelocity, over.showVelocity),
            Pick(under.velocityWindow, over.velocityWindow),
            Pick(under.metrics, over.metrics), Pick(under.timeRange, over.timeRange))
  }

  /** Keys given in `over` win, keys absent from it keep their value, and a present
      margin survives any overlay. */
  lemma OverlayFacts(under: Options, over: Options)
    ensures var r := Overlay(under, over);
      (over.margin.Some? ==> r.margin == over.margin) &&
      (over.margin.None? ==> r.margin == under.margin) &&
      (over.title.Some? ==> r.title == over.title) &&
      (over.title.None? ==> r.title == under.title) &&
      (under.margin.Some? ==> r.margin.Some?)
    ensures Overlay(under, NoOptions) == under
    ensures Overlay(NoOptions, over) == over
    ensures Overlay(Overlay(under, over), over) == Overlay(under, over)
  {
  }

  /** The fields of `data` the charts read; `None` is a field that is absent. */
  datatype ChartData = ChartData(
    commits: Option<seq<CommitBucket>>, storyPoints: Option<seq<SprintRow>>,
    storySummary: Option<StorySummary>, qualityData: Option<seq<QualityRow>>)

  const EmptyData := ChartData(None, None, None, None)

  const RenderMissing := "BaseVisualization: render() method must be implemented by subclass"

  const ElementMissing := "BaseVisualization: Element is required"

  /** The message every chart shows when its data is missing. */
  const NoData := "No data available"

  /** The three children `_init` appends to the element. */
  const BaseChildren: seq<string> := ["viz-wrapper", "viz-loading", "viz-error"]

  class Base {
    var data: Option<ChartData>
    var options: Options
    var errorText: string
    var errorVisible: bool
    var loadingVisible: bool
    /** The class names of the element's children, oldest first. */
    var children: seq<string>
    var observing: bool

    predicate Valid()
      reads this
    {
      options.margin.Some?
    }

    /** The constructor and the base `_init`, for an element that is present: `data`
        defaults to `{}`, options overlay the defaults, and the element gets its three
        children with the loading indicator and the error box hidden. */
    constructor (existing: seq<string>, data: Option<ChartData>, options: Options)
      ensures Valid()
      ensures this.data == Some(if data.Some? then data.value else EmptyData)
      ensures this.options == Overlay(DefaultOptions, options)
      ensures errorText == "" && !errorVisible && !loadingVisible
      ensures children == existing + BaseChildren && observing
    {
      this.data := Some(if data.Some? then data.value else EmptyData);
      this.options := Overlay(DefaultOptions, options);
      errorText := "";
      errorVisible := false;
      loadingVisible := false;
      children := existing + BaseChildren;
      observing := true;
    }

    method ShowLoading()
      modifies this`loadingVisible
      ensures loadingVisible
    {
      loadingVisible := true;
    }

    method HideLoading()
      modifies this`loadingVisible
      ensures !loadingVisible
    {
      loadingVisible := false;
    }

    /** Sets the message and shows the error box. */
    method ShowError(message: string)
      modifies this`errorText, this`errorVisible
      ensures errorText == message && errorVisible
    {
      errorText := message;
      errorVisible := true;
    }

    /** Hides the error box; the message text stays. */
    method HideError()
      modifies this`errorVisible
      ensures !errorVisible
    {
      errorVisible := false;
    }

    /** The base `resize`, which every chart replaces: it does nothing. */
    method Resize()
      ensures data == old(data) && options == old(options) && children == old(children)
      ensures errorText == old(errorText) && errorVisible == old(errorVisible)
      ensures loadingVisible == old(loadingVisible) && observing == old(observing)
    {
    }

    /** The base `render`, which every chart replaces: it always throws. */
    method Render() returns (r: Outcome)
      ensures r == Fail(RenderMissing)
    {
      r := Fail(RenderMissing);
    }

    /** `updateData` on the base class: the data is replaced wholesale, then the base
        `render` throws. */
    method UpdateData(d: Option<ChartData>) returns (r: Outcome)
      modifies this`data
      ensures data == d && r == Fail(RenderMissing)
    {
      data := d;
      r := Render();
    }

    /** `updateOptions` on the base class: a shallow merge, then the base `render` throws. */
    method UpdateOptions(o: Options) returns (r: Outcome)
      requires Valid()
      modifies this`options
      ensures Valid()
      ensures options == Overlay(old(options), o) && r == Fail(RenderMissing)
    {
      options := Overlay(options, o);
      r := Render();
    }

    /** Stops observing resizes and removes the element's children one by one. */
    method Destroy()
      modifies this`children, this`observing
      ensures children == [] && !observing
    {
      observing := false;
      while |children| > 0
        invariant !observing
        decreases |children|
      {
        children := children[1..];
      }
    }
  }

  /** The constructor's guard: without an element it throws. */
  method NewBase(element: Option<seq<string>>, data: Option<ChartData>, options: Options)
    returns (r: Result<Base>)
    ensures element.None? <==> r.Err?
    ensures r.Err? ==> r.error == ElementMissing
    ensures r.Ok? ==> fresh(r.value) && r.value.Valid() && r.value.options == Overlay(DefaultOptions, options)
    ensures r.Ok? ==> r.value.children == element.value + BaseChildren
    ensures r.Ok? ==> r.value.data == Some(if data.Some? then data.value else EmptyData)
    ensures r.Ok? ==> r.value.errorText == "" && !r.value.errorVisible && !r.value.loadingVisible &&
                      r.value.observing
  {
    if element.None? {
      return Err(ElementMissing);
    }
    var b := new Base(element.value, data, options);
    r := Ok(b);
  }

  // ---------------------------------------------------------------------------------
  // Geometry shared by the charts

  /** The plotting area: the wrapper's size less the margins. */
  datatype Area = Area(width: int, height: int, chartWidth: int, chartHeight: int)

  function AreaOf(width: int, height: int, m: Margin): (a: Area)
    ensures a.chartWidth + m.left + m.right == width
    ensures a.chartHeight + m.top + m.bottom == height
  {
    Area(width, height, width - m.left - m.right, height - m.top - m.bottom)
  }

  /** `d3.scaleBand().domain(keys).range([0, width]).padding(p)`; the scale keeps the
      first of repeated keys, so `domain` holds each key once. */
  datatype BandScale = BandScale(domain: seq<string>, rangeEnd: int, padding: real)

  /** `d3.scaleLinear().domain([0, top]).range([bottom, 0])`, or the secondary axis. */
  datatype LinearScale = LinearScale(domainEnd: Num, rangeStart: int)

  /** `top * 1.1`: ten percent of headroom above the tallest value. */
  function Headroom(top: Num): (r: Num)
    ensures top.Finite? ==> r.Finite? && r.value * 10.0 == top.value * 11.0
    ensures top.Finite? && 0.0 <= top.value ==> top.value <= r.value
    ensures top.Finite? && 0.0 < top.value ==> top.value < r.value
    ensures !top.Finite? ==> r == top
  {
    match top
    case Finite(v) => Finite(v * 11.0 / 10.0)
    case _ => top
  }

  /** One legend entry: its label, colour, marker and where its group is translated to. */
  datatype Marker = Square | Stroke

  datatype LegendItem = LegendItem(name: string, colour: string, marker: Marker, x: int, y: int)

  /** Legend entries laid out in a row from the left margin, 120 pixels apart, 40 pixels
      below the plotting area. */
  function LegendRow(entries: seq<(string, string, Marker)>, m: Margin, a: Area): (items: seq<LegendItem>)
    ensures |items| == |entries|
    ensures forall i :: 0 <= i < |items| ==>
      items[i] == LegendItem(entries[i].0, entries[i].1, entries[i].2, m.left + 120 * i,
                             m.top + a.chartHeight + 40)
  {
    seq(|entries|, i requires 0 <= i < |entries| =>
      LegendItem(entries[i].0, entries[i].1, entries[i].2, m.left + 120 * i, m.top + a.chartHeight + 40))
  }

  /** `getComputedStyle(wrapper).getPropertyValue('--dd-color-chart-<i>')`: the theme's
      chart colours, "" where a variable is not set. */
  type Palette = map<int, string>

  function ChartColour(palette: Palette, i: int, fallback: string): (c: string)
    ensures i in palette && palette[i] != "" ==> c == palette[i]
    ensures !(i in palette && palette[i] != "") ==> c == fallback
  {
    if i in palette && palette[i] != "" then palette[i] else fallback
  }

  /** The texts placed on the SVG outside the plotting area. */
  datatype Caption =
    | AxisLabel(axis: string, text: string, x: real, y: real)
    | ChartTitle(text: string, x: real)
    | SummaryBox(left: int, top: int, summary: StorySummary)

  /** The two axis titles: the x title centred under the chart, the y title rotated
      and centred along the left edge. */
  function AxisLabels(x: string, y: string, a: Area): seq<Caption>
  {
    [AxisLabel("x", x, a.width as real / 2.0, (a.height - 5) as real),
     AxisLabel("y", y, -(a.height as real) / 2.0, 15.0)]
  }

  /** Removes the old axis titles and appends the new ones. */
  function Relabel(captions: seq<Caption>, labels: seq<Caption>): seq<Caption>
  {
    Filter(captions, NotAxisLabel) + labels
  }

  predicate IsAxisLabel(c: Caption) { c.AxisLabel? }

  predicate NotAxisLabel(c: Caption) { !c.AxisLabel? }

  predicate NotTitle(c: Caption) { !c.ChartTitle? }

  predicate NotSummary(c: Caption) { !c.SummaryBox? }

  /** `opt || fallback` for a string option. */
  function OrElse(opt: Option<string>, fallback: string): string
  {
    if opt.Some? && opt.value != "" then opt.value else fallback
  }

  predicate IsTitle(c: Caption) { c.ChartTitle? }

  /** The title text, centred above the chart, when `title` is set. */
  function TitleOf(title: Option<string>, a: Area): seq<Caption>
  {
    if title.Some? && title.value != "" then [ChartTitle(title.value, a.width as real / 2.0)] else []
  }

  /** Removes the old title and adds one only when `title` is set. */
  function Retitle(captions: seq<Caption>, title: Option<string>, a: Area): seq<Caption>
  {
    Filter(captions, NotTitle) + TitleOf(title, a)
  }

  /** The added title is the only title, and it adds nothing else. */
  lemma TitleOfFilters(title: Option<string>, a: Area)
    ensures Filter(TitleOf(title, a), IsTitle) == TitleOf(title, a)
    ensures Filter(TitleOf(title, a), NotTitle) == []
  {
    var added := TitleOf(title, a);
    FilterAll(added, IsTitle);
    FilterNone(added, NotTitle);
  }

  /** Afterwards there is exactly the given title or none, and every other caption is
      kept in order. */
  lemma RetitleFacts(captions: seq<Caption>, title: Option<string>, a: Area)
    ensures Filter(Retitle(captions, title, a), IsTitle) == TitleOf(title, a)
    ensures |TitleOf(title, a)| <= 1
    ensures Filter(Retitle(captions, title, a), NotTitle) == Filter(captions, NotTitle)
  {
    var kept := Filter(captions, NotTitle);
    var added := TitleOf(title, a);
    FilterAppend(kept, added, IsTitle);
    FilterAppend(kept, added, NotTitle);
    FilterNone(kept, IsTitle);
    FilterAll(kept, NotTitle);
    TitleOfFilters(title, a);
  }
}
