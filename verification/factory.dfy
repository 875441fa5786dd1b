/** The helpers of `DevDashboardFactory` in `src/devdashboard.js`: the layout grid, the
    per-feature chart settings and types, the per-feature processing of fresh data, the
    theme cycle of the `t` key, and the plan `create` follows for its features. */
module Factory {
  import opened Wrappers
  import opened Text
  import opened Collections
  import opened JsObjects
  import opened Numbers
  import CS = ConfigStore
  import DP = DataProcessor
  import DB = Dashboard

  /** JavaScript truthiness of a value. */
  predicate Truthy(v: CS.Value)
  {
    match v
    case Undefined => false
    case Null => false
    case Bool(b) => b
    case Number(x) => x != 0.0
    case Str(s) => s != ""
    case Arr(_, _) => true
    case Obj(_) => true
  }

  /* ---------------- layout ---------------- */

  /** One grid cell of the automatic layout. */
  function Cell(width: string, height: string): CS.Value
  {
    CS.Obj([("width", CS.Str(width)), ("height", CS.Str(height))])
  }

  /** `_getLayoutConfig(layout, features)` for `count` features: with `auto`, one full
      cell for one feature, two half cells for two, and otherwise a full cell over two
      half cells, lower; any other layout comes back as it was given. */
  function GetLayoutConfig(layout: CS.Value, count: nat): (r: CS.Value)
    ensures layout != CS.Str("auto") ==> r == layout
    ensures layout == CS.Str("auto") ==> r.Arr? && |r.items| == (if count == 1 || count == 2 then count else 3)
  {
    if layout != CS.Str("auto") then layout
    else if count == 1 then CS.Arr([Cell("100%", "500px")], [])
    else if count == 2 then CS.Arr([Cell("50%", "500px"), Cell("50%", "500px")], [])
    else CS.Arr([Cell("100%", "400px"), Cell("50%", "400px"), Cell("50%", "400px")], [])
  }

  /** The width of a cell in percent, as the cell writes it. */
  function WidthOf(cell: CS.Value): int
  {
    if cell == Cell("100%", "500px") || cell == Cell("100%", "400px") then 100
    else if cell == Cell("50%", "500px") || cell == Cell("50%", "400px") then 50
    else 0
  }

  /** The automatic cells fill whole rows: for one or two features they add up to one full
      row of 500px, and for any other count to two full rows of 400px, the full-width
      cell first. */
  lemma AutoLayoutRows(count: nat)
    ensures var cells := GetLayoutConfig(CS.Str("auto"), count).items;
      SumOf(cells, WidthOf) == (if count == 1 || count == 2 then 100 else 200) &&
      (forall i :: 0 <= i < |cells| ==> cells[i].entries[1].1 == CS.Str(if count == 1 || count == 2 then "500px" else "400px")) &&
      WidthOf(cells[0]) == (if count == 2 then 50 else 100)
  {
    var cells := GetLayoutConfig(CS.Str("auto"), count).items;
    if count == 1 {
      assert SumOf(cells, WidthOf) == SumOf(cells[..0], WidthOf) + WidthOf(cells[0]);
    } else if count == 2 {
      assert cells[..1][..0] == [];
      assert SumOf(cells, WidthOf) == SumOf(cells[..1], WidthOf) + WidthOf(cells[1]);
    } else {
      assert cells[..2][..1] == cells[..1];
      assert cells[..1][..0] == [];
      assert SumOf(cells, WidthOf) == SumOf(cells[..2], WidthOf) + WidthOf(cells[2]);
      assert SumOf(cells[..2], WidthOf) == SumOf(cells[..1], WidthOf) + WidthOf(cells[1]);
    }
  }

  /** What `null[i]` and `undefined[i]` throw, naming the index read. */
  function ReadError(v: CS.Value, i: nat): string
  {
    (if v.Null? then "TypeError: Cannot read properties of null" else "TypeError: Cannot read properties of undefined")
    + " (reading '" + NatToString(i) + "')"
  }

  /** `v[i]`: an array item, a one-character string, the property named by the index, or
      `undefined`; reading from `null` or `undefined` throws. */
  function ElementAt(v: CS.Value, i: nat): (r: Result<CS.Value>)
    ensures r.Err? <==> v.Null? || v.Undefined?
  {
    match v
    case Undefined => Err(ReadError(v, i))
    case Null => Err(ReadError(v, i))
    case Arr(items, _) => Ok(if i < |items| then items[i] else CS.Undefined)
    case Str(s) => Ok(if i < |s| then CS.Str([s[i]]) else CS.Undefined)
    case Obj(es) => Ok(match CS.Lookup(es, NatToString(i)) case Some(x) => x case None => CS.Undefined)
    case _ => Ok(CS.Undefined)
  }

  /** With `auto`, the first three features get a cell and any later one reads
      `undefined`. */
  lemma AutoCellFor(count: nat, i: nat)
    ensures var r := ElementAt(GetLayoutConfig(CS.Str("auto"), count), i);
      r.Ok? && (r.value.Obj? <==> i < (if count == 1 || count == 2 then count else 3)) &&
      (r.value.Undefined? <==> i >= (if count == 1 || count == 2 then count else 3))
  {
  }

  /* ---------------- chart settings ---------------- */

  /** The properties `...v` copies: an object's own entries, an array's items under
      their indices followed by its named properties, a string's characters under their
      indices, and nothing for anything else. */
  function OwnEntries(v: CS.Value): CS.Entries
  {
    match v
    case Obj(es) => es
    case Arr(items, props) => seq(|items|, i requires 0 <= i < |items| => (NatToString(i), items[i])) + props
    case Str(s) => seq(|s|, i requires 0 <= i < |s| => (NatToString(i), CS.Str([s[i]])))
    case _ => []
  }

  /** Distinct indices have distinct names. */
  lemma IndexNamesDistinct(i: nat, j: nat)
    requires i != j
    ensures NatToString(i) != NatToString(j)
  {
    DigitsValueOfNatToString(i);
    DigitsValueOfNatToString(j);
  }

  /** Spreading a value copies each property name once, when an object's own names are
      distinct. */
  lemma OwnEntriesUnique(v: CS.Value)
    requires v.Obj? ==> CS.UniqueKeys(v.entries)
    requires v.Arr? ==> ArrayProps(v)
    ensures CS.UniqueKeys(OwnEntries(v))
  {
    var es := OwnEntries(v);
    forall i, j | 0 <= i < j < |es| ensures es[i].0 != es[j].0 {
      if v.Arr? && j >= |v.items| {
        if i >= |v.items| {
          assert es[i] == v.props[i - |v.items|] && es[j] == v.props[j - |v.items|];
        } else {
          IndexName(i);
          assert !IsArrayIndex(v.props[j - |v.items|].0);
        }
      } else if !v.Obj? {
        IndexNamesDistinct(i, j);
      }
    }
  }

  /** What holds of every JavaScript array: fewer than 2^32 - 1 elements, and named
      properties that are distinct and not array indices. */
  predicate ArrayProps(v: CS.Value)
    requires v.Arr?
  {
    |v.items| < 4294967295 && CS.UniqueKeys(v.props) &&
    forall i :: 0 <= i < |v.props| ==> !IsArrayIndex(v.props[i].0)
  }

  /** The name of an element's position is an array index. */
  lemma IndexName(i: nat)
    requires i < 4294967295
    ensures IsArrayIndex(NatToString(i))
  {
    DigitsValueOfNatToString(i);
    NoLeadingZero(i);
  }

  lemma {:induction false} NoLeadingZero(n: nat)
    ensures NatToString(n)[0] != '0' || n == 0
  {
    if n >= 10 {
      NoLeadingZero(n / 10);
    }
  }

  const CommitDefaults: CS.Entries :=
    [("title", CS.Str("Commit Activity")), ("xAxisLabel", CS.Str("Date")), ("yAxisLabel", CS.Str("Commits")),
     ("timeRange", CS.Str("daily"))]

  const QualityDefaults: CS.Entries :=
    [("title", CS.Str("Code Quality Trends")),
     ("metrics", CS.Arr([CS.Str("bugs"), CS.Str("vulnerabilities"), CS.Str("codeSmells"), CS.Str("coverage")], [])),
     ("xAxisLabel", CS.Str("Date")), ("yAxisLabel", CS.Str("Count"))]

  const VelocityDefaults: CS.Entries :=
    [("title", CS.Str("Sprint Velocity")), ("xAxisLabel", CS.Str("Sprint")), ("yAxisLabel", CS.Str("Story Points")),
     ("showVelocity", CS.Bool(true)), ("velocityWindow", CS.Number(3.0))]

  predicate Known(feature: string)
  {
    feature == "commits" || feature == "quality" || feature == "velocity"
  }

  /** The chart type and the default options of a known feature. */
  function Defaults(feature: string): (string, CS.Entries)
    requires Known(feature)
  {
    if feature == "commits" then ("commitFrequency", CommitDefaults)
    else if feature == "quality" then ("codeQuality", QualityDefaults)
    else ("velocity", VelocityDefaults)
  }

  /** A chart's `type` and `options` as the factory passes them on. */
  datatype VizSetup = VizSetup(vizType: CS.Value, options: CS.Value)

  /** `_getVisualizationConfig(feature, layout)`. A name every object inherits, such as
      `constructor`, finds a function in the table, whose `type` and `options` are
      `undefined`. */
  function GetVisualizationConfig(feature: string, layout: CS.Value): VizSetup
  {
    if Known(feature) then
      VizSetup(CS.Str(Defaults(feature).0), CS.Obj(CS.Spread(Defaults(feature).1, OwnEntries(layout))))
    else if feature in InheritedMembers then VizSetup(CS.Undefined, CS.Undefined)
    else VizSetup(CS.Str(feature), layout)
  }

  /** A known feature gets its fixed type, and each option comes from the layout when the
      layout has it and from the feature's defaults otherwise; an unknown feature is its
      own type, with the layout as its options. */
  lemma VisualizationConfigFacts(feature: string, layout: CS.Value, k: string)
    requires layout.Obj? ==> CS.UniqueKeys(layout.entries)
    requires layout.Arr? ==> ArrayProps(layout)
    ensures Known(feature) ==>
      var setup := GetVisualizationConfig(feature, layout);
      setup.vizType == CS.Str(Defaults(feature).0) && setup.options.Obj? &&
      CS.Lookup(setup.options.entries, k) ==
        (if CS.Lookup(OwnEntries(layout), k).Some? then CS.Lookup(OwnEntries(layout), k)
         else CS.Lookup(Defaults(feature).1, k))
    ensures !Known(feature) && feature !in InheritedMembers ==>
      GetVisualizationConfig(feature, layout) == VizSetup(CS.Str(feature), layout)
  {
    if Known(feature) {
      OwnEntriesUnique(layout);
      CS.SpreadLookup(Defaults(feature).1, OwnEntries(layout), k);
    }
  }

  /** `_getVisualizationType(type)`: `None` is the inherited function a name such as
      `constructor` finds in the table. */
  function GetVisualizationType(name: string): Option<string>
  {
    if name == "commits" then Some("commitFrequency")
    else if name == "quality" then Some("codeQuality")
    else if name == "velocity" then Some("velocity")
    else if name in InheritedMembers then None
    else Some(name)
  }

  /** The type table agrees with the settings table, and it is idempotent: mapping a chart
      type again leaves it as it is. */
  lemma VisualizationTypeFacts(name: string, layout: CS.Value)
    requires name !in InheritedMembers
    ensures GetVisualizationType(name).Some?
    ensures GetVisualizationConfig(name, layout).vizType == CS.Str(GetVisualizationType(name).value)
    ensures GetVisualizationType(GetVisualizationType(name).value) == GetVisualizationType(name)
  {
    assert "commitFrequency" !in InheritedMembers && "codeQuality" !in InheritedMembers;
  }

  /* ---------------- processing ---------------- */

  /** What `_processDataForFeature` returns. */
  datatype Processed =
    | CommitsReport(commits: Result<DP.CommitReport>)
    | QualityReport(quality: DP.QualityReport)
    | StoriesReport(stories: Result<DP.StoryReport>)
    | Raw(data: seq<DP.Record>)

  /** Every record passes the processors' default filter. */
  function KeepAll(r: DP.Record): bool { true }

  /** The feature's processor with its default options, or the data as it came. */
  function ProcessedOf(feature: string, rawData: seq<DP.Record>): Processed
  {
    if feature == "commits" then CommitsReport(DP.CommitReportOf(rawData, "daily", KeepAll))
    else if feature == "quality" then QualityReport(DP.QualityReportOf(rawData, DP.DefaultMetrics, KeepAll))
    else if feature == "velocity" then StoriesReport(DP.StoryReportOf(rawData, "sprint", KeepAll))
    else Raw(rawData)
  }

  /** `_processDataForFeature(feature, rawData)`. */
  method ProcessDataForFeature(feature: string, rawData: seq<DP.Record>) returns (r: Processed)
    ensures r == ProcessedOf(feature, rawData)
    ensures !Known(feature) ==> r == Raw(rawData)
    ensures feature == "quality" ==> |r.quality.qualityData| == |rawData|
  {
    if feature == "commits" {
      var report := DP.ProcessCommitData(rawData, "daily", KeepAll);
      r := CommitsReport(report);
    } else if feature == "quality" {
      var report := DP.ProcessCodeQualityData(rawData, DP.DefaultMetrics, KeepAll);
      DP.QualityRows(rawData, DP.DefaultMetrics, KeepAll);
      FilterAll(rawData, KeepAll);
      assert |multiset(report.qualityData)| == |multiset(Map(rawData, DP.RowMaker(DP.DefaultMetrics)))|;
      r := QualityReport(report);
    } else if feature == "velocity" {
      var report := DP.ProcessStoryPointsData(rawData, "sprint", KeepAll);
      r := StoriesReport(report);
    } else {
      r := Raw(rawData);
    }
  }

  /* ---------------- theme cycle ---------------- */

  /** The keys of the themes the header offers, in their order. */
  const ThemeKeys: seq<string> := ["professional", "darkMode", "cyberpunk", "ocean"]

  /** `keys.indexOf(x)`: the first position of `x`, or -1. */
  function IndexOf(keys: seq<string>, x: string): (i: int)
    ensures -1 <= i < |keys|
    ensures i == -1 <==> x !in keys
    ensures i >= 0 ==> keys[i] == x && x !in keys[..i]
  {
    if x in keys then IndexIn(keys, x) else -1
  }

  /** The theme the `t` key moves to: the one after the current theme, wrapping round,
      and the first one when the current theme is not listed. With no keys the index is
      NaN and there is no theme. */
  function NextTheme(keys: seq<string>, current: string): Option<string>
  {
    if |keys| == 0 then None else Some(keys[(IndexOf(keys, current) + 1) % |keys|])
  }

  /** The theme after `n` presses of `t`. */
  function Cycle(keys: seq<string>, current: string, n: nat): Option<string>
  {
    if n == 0 then Some(current)
    else match Cycle(keys, current, n - 1)
      case None => None
      case Some(t) => NextTheme(keys, t)
  }

  /** Pressing `t` repeatedly from the first theme visits the themes in order and comes
      back round: after `n` presses it is at theme `n mod |keys|`. From an unlisted
      theme one press lands on the first theme. */
  lemma {:induction false} CycleVisitsAll(keys: seq<string>, n: nat)
    requires |keys| >= 1 && NoDup(keys)
    ensures Cycle(keys, keys[0], n) == Some(keys[n % |keys|])
  {
    var m := |keys|;
    if n == 0 {
      ModSmall(0, m);
    } else {
      CycleVisitsAll(keys, n - 1);
      var i := (n - 1) % m;
      IndexInNoDup(keys, i);
      assert NextTheme(keys, keys[i]) == Some(keys[(i + 1) % m]);
      ModNext(n - 1, m);
      assert (i + 1) % m == n % m;
    }
  }

  lemma UnlistedThemeGoesFirst(keys: seq<string>, current: string)
    requires |keys| >= 1 && current !in keys
    ensures NextTheme(keys, current) == Some(keys[0])
  {
  }

  /* ---------------- create ---------------- */

  /** The settings `create` reads from its options, each with its default when the option
      is absent or `undefined`. */
  datatype CreateSettings = CreateSettings(theme: CS.Value, demo: CS.Value, realtime: CS.Value, data: CS.Value,
                                           features: CS.Value, layout: CS.Value, exportEnabled: CS.Value,
                                           responsive: CS.Value)

  /** A destructured option with a default. */
  function Setting(options: CS.Entries, key: string, default: CS.Value): (r: CS.Value)
    ensures r == default || CS.Lookup(options, key) == Some(r)
    ensures r.Undefined? ==> default.Undefined?
    ensures CS.Lookup(options, key).Some? && !CS.Lookup(options, key).value.Undefined? ==>
      r == CS.Lookup(options, key).value
    ensures CS.Lookup(options, key).None? || CS.Lookup(options, key).value.Undefined? ==> r == default
  {
    match CS.Lookup(options, key)
    case None => default
    case Some(v) => if v.Undefined? then default else v
  }

  const DefaultFeatures: CS.Value := CS.Arr([CS.Str("commits"), CS.Str("quality"), CS.Str("velocity")], [])

  function SettingsOf(options: CS.Entries): CreateSettings
  {
    CreateSettings(Setting(options, "theme", CS.Str("professional")), Setting(options, "demo", CS.Bool(false)),
                   Setting(options, "realtime", CS.Bool(false)), Setting(options, "data", CS.Null),
                   Setting(options, "features", DefaultFeatures), Setting(options, "layout", CS.Str("auto")),
                   Setting(options, "exportEnabled", CS.Bool(true)), Setting(options, "responsive", CS.Bool(true)))
  }

  /** With no options, `create` shows the professional theme, the three standard features
      in the automatic layout, no demo, no live updates, export and resizing on. */
  lemma CreateDefaults()
    ensures SettingsOf([]) ==
      CreateSettings(CS.Str("professional"), CS.Bool(false), CS.Bool(false), CS.Null, DefaultFeatures,
                     CS.Str("auto"), CS.Bool(true), CS.Bool(true))
  {
  }

  /** Where a chart's first data comes from. */
  datatype Source = GivenData(feature: string) | SimulatorData(feature: string) | NoData

  /** One feature of `create`: the chart added for it, where its data comes from, and
      whether a live-update subscription is made for it. */
  datatype Step = Step(id: string, setup: VizSetup, source: Source, subscribes: bool)

  /** How far `create`'s loop over `features` got: the features it added, in order, and
      the error that ended it part-way. `create` returns its dashboard only when there is
      no error; otherwise the charts already added (and a started simulator) stay behind
      while the error reaches the caller. */
  datatype Plan = Plan(steps: seq<Step>, error: Option<string>)

  /** Why iteration `i` throws, if it does: reading the cell of a `null` or `undefined`
      layout, then the guards of `addVisualization` — an empty id, or a type that is
      `undefined` or empty, and an id an earlier feature already took. */
  function StepError(features: seq<string>, grid: CS.Value, i: nat): Option<string>
    requires i < |features|
  {
    match ElementAt(grid, i)
    case Err(e) => Some(e)
    case Ok(cell) =>
      if features[i] == "" || !Truthy(GetVisualizationConfig(features[i], cell).vizType) then
        Some(DB.IdAndTypeRequired)
      else if features[i] in features[..i] then Some(DB.AlreadyExists(features[i]))
      else None
  }

  /** The chart added for feature `i`, with the layout cell at its index. */
  function StepAt(s: CreateSettings, features: seq<string>, grid: CS.Value, i: nat): Step
    requires i < |features| && ElementAt(grid, i).Ok?
  {
    var simulated := Truthy(s.demo) || Truthy(s.realtime);
    Step(features[i], GetVisualizationConfig(features[i], ElementAt(grid, i).value),
         if Truthy(s.data) then GivenData(features[i]) else if simulated then SimulatorData(features[i]) else NoData,
         Truthy(s.realtime))
  }

  /** The loop from feature `i` on, the features before it having been added. */
  function PlanFrom(s: CreateSettings, features: seq<string>, grid: CS.Value, i: nat): Plan
    requires i <= |features|
    decreases |features| - i
  {
    if i == |features| then Plan([], None)
    else if StepError(features, grid, i).Some? then Plan([], StepError(features, grid, i))
    else
      var rest := PlanFrom(s, features, grid, i + 1);
      Plan([StepAt(s, features, grid, i)] + rest.steps, rest.error)
  }

  /** `create`'s loop over `features`, given the settings it read: each feature in turn
      gets the layout cell at its index and is added, until one throws. */
  function PlanOf(s: CreateSettings, features: seq<string>): (r: Plan)
    ensures |r.steps| <= |features|
    ensures r.error.None? <==> |r.steps| == |features|
  {
    PlanFromFacts(s, features, GetLayoutConfig(s.layout, |features|), 0);
    PlanFrom(s, features, GetLayoutConfig(s.layout, |features|), 0)
  }

  /** The features `create` can add without a throw: when there are any, the layout can
      be read; none is empty or a name every object inherits; none repeats. */
  predicate Addable(layout: CS.Value, features: seq<string>)
  {
    (|features| > 0 ==> ElementAt(GetLayoutConfig(layout, |features|), 0).Ok?) &&
    NoDup(features) && forall i :: 0 <= i < |features| ==> features[i] != "" && features[i] !in InheritedMembers
  }

  /** A configured type is truthy exactly for a feature that is neither empty nor a name
      every object inherits. */
  lemma TypeTruthy(feature: string, cell: CS.Value)
    ensures Truthy(GetVisualizationConfig(feature, cell).vizType) <==> feature != "" && feature !in InheritedMembers
  {
    assert "commits" !in InheritedMembers && "quality" !in InheritedMembers && "velocity" !in InheritedMembers;
  }

  /** The loop from `i` completes the features from `i` in order, and stops exactly at the
      first of them that throws, with that error. */
  lemma {:induction false} PlanFromFacts(s: CreateSettings, features: seq<string>, grid: CS.Value, i: nat)
    requires i <= |features|
    ensures var p := PlanFrom(s, features, grid, i);
      i + |p.steps| <= |features| &&
      (forall k :: i <= k < i + |p.steps| ==> ElementAt(grid, k).Ok? && p.steps[k - i] == StepAt(s, features, grid, k)) &&
      (forall j :: i <= j < i + |p.steps| ==> StepError(features, grid, j).None?) &&
      (p.error.None? <==> i + |p.steps| == |features|) &&
      (p.error.Some? ==> p.error == StepError(features, grid, i + |p.steps|))
    decreases |features| - i
  {
    if i < |features| && StepError(features, grid, i).None? {
      PlanFromFacts(s, features, grid, i + 1);
      var rest := PlanFrom(s, features, grid, i + 1);
      var p := PlanFrom(s, features, grid, i);
      assert ElementAt(grid, i).Ok?;
      assert p.steps == [StepAt(s, features, grid, i)] + rest.steps;
      forall k | i <= k < i + |p.steps|
        ensures ElementAt(grid, k).Ok? && p.steps[k - i] == StepAt(s, features, grid, k)
      {
        if k > i {
          assert p.steps[k - i] == rest.steps[k - (i + 1)];
        }
      }
    }
  }

  /** Every iteration passes exactly when the features are addable. */
  lemma NoStepError(layout: CS.Value, features: seq<string>)
    ensures (forall j :: 0 <= j < |features| ==> StepError(features, GetLayoutConfig(layout, |features|), j).None?)
            <==> Addable(layout, features)
  {
    var grid := GetLayoutConfig(layout, |features|);
    if forall j :: 0 <= j < |features| ==> StepError(features, grid, j).None? {
      forall j | 0 <= j < |features|
        ensures features[j] != "" && features[j] !in InheritedMembers
      {
        assert StepError(features, grid, j).None?;
        TypeTruthy(features[j], ElementAt(grid, j).value);
      }
      forall a, b | 0 <= a < b < |features| ensures features[a] != features[b] {
        assert StepError(features, grid, b).None?;
        assert features[a] in features[..b];
      }
      if |features| > 0 {
        assert StepError(features, grid, 0).None?;
      }
    }
    if Addable(layout, features) {
      forall j | 0 <= j < |features|
        ensures StepError(features, grid, j).None?
      {
        assert ElementAt(grid, j).Ok?;
        TypeTruthy(features[j], ElementAt(grid, j).value);
        assert features[j] !in features[..j];
      }
    }
  }

  /** `create` adds every feature exactly when the features are addable; otherwise it
      adds the features before the first that throws and then throws that iteration's
      error. */
  lemma PlanStops(s: CreateSettings, features: seq<string>)
    ensures var p := PlanOf(s, features);
      (p.error.None? <==> Addable(s.layout, features)) &&
      (p.error.Some? ==> p.error == StepError(features, GetLayoutConfig(s.layout, |features|), |p.steps|))
  {
    var grid := GetLayoutConfig(s.layout, |features|);
    var p := PlanOf(s, features);
    PlanFromFacts(s, features, grid, 0);
    NoStepError(s.layout, features);
    if p.error.None? {
      assert forall j :: 0 <= j < |features| ==> StepError(features, grid, j).None?;
    } else {
      assert StepError(features, grid, |p.steps|).Some?;
    }
  }

  /** The charts added are the leading features, in order, each with its feature as id. */
  lemma PlanIds(s: CreateSettings, features: seq<string>)
    ensures var p := PlanOf(s, features);
      Map(p.steps, (st: Step) => st.id) == features[..|p.steps|]
  {
    var p := PlanOf(s, features);
    PlanSteps(s, features);
    var ids := Map(p.steps, (st: Step) => st.id);
    assert forall j :: 0 <= j < |ids| ==> ids[j] == features[j];
  }

  /** The step at position `j` is the step of feature `j`. */
  lemma PlanSteps(s: CreateSettings, features: seq<string>)
    ensures var p := PlanOf(s, features); var grid := GetLayoutConfig(s.layout, |features|);
      forall j :: 0 <= j < |p.steps| ==> ElementAt(grid, j).Ok? && p.steps[j] == StepAt(s, features, grid, j)
  {
    var p := PlanOf(s, features);
    var grid := GetLayoutConfig(s.layout, |features|);
    PlanFromFacts(s, features, grid, 0);
    forall j | 0 <= j < |p.steps|
      ensures ElementAt(grid, j).Ok? && p.steps[j] == StepAt(s, features, grid, j)
    {
      assert p.steps[j - 0] == StepAt(s, features, grid, j);
    }
  }

  /** One subscription is made per added feature in live mode and none otherwise; and
      without data or a simulator the charts start empty. */
  lemma PlanSubscriptions(s: CreateSettings, features: seq<string>)
    ensures var p := PlanOf(s, features);
      |Filter(p.steps, (st: Step) => st.subscribes)| == (if Truthy(s.realtime) then |p.steps| else 0) &&
      (forall i :: 0 <= i < |p.steps| ==> (p.steps[i].source.NoData? <==> !Truthy(s.data) && !Truthy(s.demo) && !Truthy(s.realtime)))
  {
    var p := PlanOf(s, features);
    PlanSteps(s, features);
    var q := (st: Step) => st.subscribes;
    if Truthy(s.realtime) {
      FilterAll(p.steps, q);
    } else {
      FilterNone(p.steps, q);
    }
  }
}
