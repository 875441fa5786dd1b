# DevDashboard core, modelled in Dafny

DevDashboard is a browser library that draws developer metrics:
- commit frequency;
- code-quality trends;
- sprint velocity.

This project models the deterministic logic behind it and proves properties of that logic.

**Data pipeline.** `DataProcessor` filters raw records and groups them into buckets. A bucket is a day (`YYYY-MM-DD`), a week (`YYYY-W##`), a month (`YYYY-MM`) or a sprint label (`Unassigned` when there is none). The pipeline then summarises the buckets:
- commit counts with distinct authors and repositories;
- per-metric quality minimum, maximum, average and trend;
- sprint completed and total points, with velocity and completion rate.

**Charts.** Three charts render the results:
- a commit bar chart, with its ISO week-number routine;
- a quality line chart;
- a velocity bar chart with a rolling-average line.

Around them sit:
- the visualization lifecycle;
- the dashboard's id-to-chart registry and events;
- a dotted-path configuration store with change notification;
- the theme registry and its CSS-variable flattening;
- a CSV exporter;
- a real-time data simulator;
- the factory helpers that choose layout, chart type and options.

Files, one module each:
- `data_processor.dfy`: the `DataProcessor` aggregation pipeline.
- `date_keys.dfy`: bucket keys, and how `new Date(key)` reads a key back.
- `calendar.dfy`: the proleptic Gregorian calendar those rest on.
- `commit_chart.dfy`, `quality_chart.dfy`, `velocity_chart.dfy`: the three chart classes.
- `base_visualization.dfy`: the shared `BaseVisualization` class, with scale, legend and title helpers.
- `config.dfy`: `Config`, over a JSON-like value tree.
- `dashboard.dfy`: `DevDashboard`.
- `theme_manager.dfy`: `ThemeManager`.
- `csv_export.dfy`: the CSV text `exportToCSV` builds.
- `simulator.dfy`: `RealtimeSimulator`.
- `factory.dfy`: the `DevDashboardFactory` helpers.
- Shared helpers:
  - `collections.dfy`: filter, map, first-seen order, a stable sort.
  - `js_objects.dfy`: `Object.entries` key order.
  - `text.dfy`: decimal rendering, `padStart`, `split`.
  - `numbers.dfy`: JavaScript numbers with NaN and ±Infinity, `Math.round`.
  - `wrappers.dfy`: `Option`, `Result`, and a pass/throw `Outcome`.

Code that updates state in place is modelled as classes:
- the chart objects;
- `Config`, `DevDashboard`, `ThemeManager`'s registry and `RealtimeSimulator`.

Their methods are proved against specification functions. Grouping, summarising, parsing and formatting are functions with lemmas. A thrown `Error` is a `Result.Err`/`Outcome.Fail` carrying the message. Drawn SVG elements are a sequence of marks that each `render` rewrites. Colours read from the page's CSS are a palette passed in.

Where the code and its own comments or documentation differ, the model follows the code:
- A weekly key's week number counts any time after midnight as part of the next day (`WeekNumberOfDay`).
- Weekly keys never read as dates, so weekly buckets are never put in date order (`WeeklyCommitOrder`).
- An empty `commits` array is not "no data" for the commit chart.
- `maxCommitsInPeriod` over no buckets is -Infinity.
- `averageCommitsPerPeriod` over no buckets is NaN.
- The commit chart's `getWeek` builds its days with `Date.UTC`, which takes years 0–99 as 1900–1999. Dates in years 0–99 get the ISO week of the same day in the twentieth century (`GetWeekTwoDigitYear`). Dates near the start of year 1 and year 100 get week numbers that are not ISO weeks (`YearOneWeek`, `YearHundredWeek`).
- A record whose `date` and `timestamp` are falsy and whose `createdAt` is `null`, `0` or `false` is dated at the epoch, as `new Date` reads those values (`DateKeys.DateField`).

## Model

| member | source | states |
|---|---|---|
| DataProcessor.GroupByTimePeriod | src/processors/data-processor.js:141-169 | Returns the grouping of the records by their period key, or the first error a record raises; the lemmas below state what that grouping holds |
| DataProcessor.GroupBySprint | src/processors/data-processor.js:177-191 | Returns the grouping of the stories by sprint label (`Unassigned` when blank), or the first error |
| DataProcessor.GroupInto | src/processors/data-processor.js:144-166 | The `forEach` loop, one push per record, computes exactly the grouping `GroupAll` specifies and stops at the first throw |
| DataProcessor.PushRecord | src/processors/data-processor.js:161-165 | A new key is listed last with a one-record bucket; a known key's bucket gains the record at its end; other buckets unchanged |
| DataProcessor.GroupAllStops | src/processors/data-processor.js:144-166 | Once a prefix of the records has thrown, the records after it do not change the outcome |
| DataProcessor.GroupAllFails | src/processors/data-processor.js:144-166 | Grouping fails iff some record has no key or a key naming an inherited member of `{}`; the error is the first such record's |
| DataProcessor.GroupAllOrder | src/processors/data-processor.js:161-163 | Bucket keys are listed once each, in order of first appearance |
| DataProcessor.GroupAllKeys | src/processors/data-processor.js:144-166 | Every record has a key and the grouping holds a bucket under it |
| DataProcessor.GroupAllOrderKeys | src/processors/data-processor.js:161-163 | Every listed key is the key of some record (no empty buckets) |
| DataProcessor.GroupAllBuckets | src/processors/data-processor.js:161-165 | Each bucket is exactly the records with that key, in input order |
| DataProcessor.SelectAbsent | src/processors/data-processor.js:161-165 | A key the grouping did not produce belongs to no record |
| DataProcessor.GroupAllTotal | src/processors/data-processor.js:144-166 | Every record lands in exactly one bucket: any per-record total over the buckets equals that total over the input, and the bucket sizes add up to the record count |
| DataProcessor.AuthorsMembers | src/processors/data-processor.js:202-207 | The collected names are exactly the truthy `author \|\| authorName \|\| authorEmail` values of the records |
| DataProcessor.RepositoriesMembers | src/processors/data-processor.js:221-226 | The same for `repository \|\| repositoryName \|\| repoName` |
| DataProcessor.UniqueAuthors | src/processors/data-processor.js:199-210 | The distinct authors have no repeats and are exactly the names some record carries |
| DataProcessor.ExtractUniqueAuthors | src/processors/data-processor.js:199-210 | The `Set`-building loop returns each truthy author once, in order of first appearance |
| DataProcessor.UniqueRepositories | src/processors/data-processor.js:218-229 | The distinct repositories have no repeats and are exactly the names some record carries |
| DataProcessor.ExtractUniqueRepositories | src/processors/data-processor.js:218-229 | The loop returns each truthy repository once, in order of first appearance |
| DataProcessor.BuildCommitRows | src/processors/data-processor.js:28-33 | The entries loop gives one row per listed key: its bucket's size, distinct authors and repositories |
| DataProcessor.CommitRowsSum | src/processors/data-processor.js:28-33 | Row counts add up to the sizes of the listed buckets |
| DataProcessor.SortedRowsTotal | src/processors/data-processor.js:36-41 | After the date sort, `totalCommits` still equals the number of grouped records |
| DataProcessor.SortedRowsContent | src/processors/data-processor.js:28-36 | Every sorted row is the row of one bucket |
| DataProcessor.SortedRowsKeys | src/processors/data-processor.js:28-36 | The sorted rows list every bucket exactly once |
| DataProcessor.SortedRowsUnkeyed | src/processors/data-processor.js:36 | When no key reads as a date and none is an array index, the rows keep the keys' creation order |
| DataProcessor.UnkeyedRows | src/processors/data-processor.js:36 | Rows whose dates are all Invalid Date are left in place by the sort |
| DataProcessor.SortedRowsKeyed | src/processors/data-processor.js:36 | When every key reads as a date, the rows come out in ascending order of those dates |
| DataProcessor.ProcessCommitData | src/processors/data-processor.js:15-48 | The method's report equals the specification `CommitReportOf`, whose properties follow |
| DataProcessor.PeriodGroupable | src/processors/data-processor.js:145-159 | Weekly and monthly keys always exist; the daily key exists iff the record has a valid date; no period key names an inherited member |
| DataProcessor.CommitReportFails | src/processors/data-processor.js:22-25 | `processCommitData` throws iff a kept record has no daily key (no valid date); the error is `toISOString`'s RangeError |
| DataProcessor.CommitRowsContent | src/processors/data-processor.js:28-33 | Each `commits` entry is one bucket: the kept records with that key (at least one), counted, with their distinct authors and repositories |
| DataProcessor.CommitRowsCover | src/processors/data-processor.js:22-33 | Entry dates are distinct, and every kept record's key is one of them |
| DataProcessor.CommitSummaryFacts | src/processors/data-processor.js:40-45 | `totalCommits` is the number of kept records; there are no buckets iff none is kept; the average is then NaN and the max -Infinity, otherwise the rounded total per bucket |
| DataProcessor.WeeklyKeyFacts | src/processors/data-processor.js:150-154 | A weekly key never reads as a date and is never an array index |
| DataProcessor.WeeklyCommitOrder | src/processors/data-processor.js:36 | With `weekly`, every sort comparison is NaN and `commits` lists weeks in first-seen order |
| DataProcessor.DailyKeyReads | src/processors/data-processor.js:149 | A daily key reads back as midnight of the record's day |
| DataProcessor.MonthlyKeyReads | src/processors/data-processor.js:156 | A monthly key of a four-digit year reads back as the first of the month |
| DataProcessor.DailyCommitOrder | src/processors/data-processor.js:36 | With daily keys, `commits` is in chronological order |
| DataProcessor.MonthlyCommitOrder | src/processors/data-processor.js:36 | With monthly keys and years 1000–9999, `commits` is in chronological order |
| DataProcessor.ProcessCodeQualityData | src/processors/data-processor.js:56-85 | Copies the kept records, sorts the copy in place, and returns the report `QualityReportOf` specifies; the caller's data is never reordered |
| DataProcessor.QualityRows | src/processors/data-processor.js:63-79 | One row per kept record (as a multiset), each carrying exactly the requested metrics, falsy values as 0 |
| DataProcessor.QualityRowsSorted | src/processors/data-processor.js:66 | When every kept record has a valid date, the rows are in ascending date order |
| DataProcessor.RowKeys | src/processors/data-processor.js:69-72 | A row's date reads exactly as its record's date |
| DataProcessor.SummaryFacts | src/processors/data-processor.js:238-254 | No values: current, average and trend are 0, min +Infinity, max -Infinity. Otherwise current is the last value, first + trend = current, and min ≤ average ≤ max |
| DataProcessor.ProcessStoryPointsData | src/processors/data-processor.js:93-132 | The method's report equals the specification `StoryReportOf` |
| DataProcessor.DoneTotal | src/processors/data-processor.js:126 | Points summed over done stories equal done-points summed over all stories |
| DataProcessor.DonePointsBounds | src/processors/data-processor.js:110-111 | With no negative estimates, done points lie between 0 and all points |
| DataProcessor.SprintRowsSum | src/processors/data-processor.js:108-113 | Row totals add up to the totals over the listed buckets |
| DataProcessor.ReportOfGrouping | src/processors/data-processor.js:103-105 | The report exists iff the grouping succeeds, and otherwise fails with the grouping's error |
| DataProcessor.StoryReportFails | src/processors/data-processor.js:100-105 | The report fails iff some kept story cannot be grouped |
| DataProcessor.SprintReportFails | src/processors/data-processor.js:177-191 | With `sprint`, the report fails iff a label names an inherited member of `{}`; the error is `push` not being a function |
| DataProcessor.StoryTotals | src/processors/data-processor.js:108-126 | Sprint rows add up to `totalStories`, `totalPoints` and `completedPoints`, which are the totals over the kept stories |
| DataProcessor.StoryRowsAt | src/processors/data-processor.js:108-113 | Row i summarises the bucket of the i-th key in `Object.entries` order |
| DataProcessor.StoryRowsContent | src/processors/data-processor.js:108-113 | Each row summarises the kept stories of its period (at least one); the periods are the distinct keys in entries order |
| DataProcessor.SprintOrder | src/processors/data-processor.js:177-191 | With `sprint` and no label that is an array index, rows follow first appearance of the sprints |
| DataProcessor.SprintLabelsNoIndex | src/processors/data-processor.js:181 | Sprint keys are distinct and none is an array index when no story's label is one |
| DataProcessor.SprintKeys | src/processors/data-processor.js:181 | Grouping by sprint keys each story by its label, `Unassigned` when blank |
| DataProcessor.SprintCompletion | src/processors/data-processor.js:110-111 | With no negative estimates, each sprint completes between 0 and its total |
| DataProcessor.RowCompletion | src/processors/data-processor.js:110-111 | One row's completed points lie between 0 and its total |
| DataProcessor.CompletionRate | src/processors/data-processor.js:128-129 | With no negative estimates, `completionRate` is in 0–100: 0 without points, 100 when all points are done |
| DataProcessor.PercentBounds | src/processors/data-processor.js:128-129 | A rounded done-over-max(1, all) percentage lies in 0–100 |
| DataProcessor.VelocityBounds | src/processors/data-processor.js:116-127 | `velocity` is 0 without sprints, else between the least and most any sprint completed |
| DateKeys.WeekNumberOfDay | src/processors/data-processor.js:152-153 | Outside years 0–99 the week number is ceil of the day offset (time of day included) over 7, hence in 1–53 |
| DateKeys.WeekNumberTwoDigitYear | src/processors/data-processor.js:152-153 | For years 0–99, the year start is taken in 1900–1999, so week numbers are negative |
| DateKeys.WeeklyKeyUnparsable | src/processors/data-processor.js:36 | A weekly key never reads as a date |
| DateKeys.NaNKeysUnparsable | src/processors/data-processor.js:154 | The keys of an invalid date never read as dates |
| DateKeys.DailyKeyRoundTrip | src/processors/data-processor.js:149 | Reading a daily key back gives the day it was made from, at midnight |
| DateKeys.MonthlyKeyRoundTrip | src/processors/data-processor.js:156 | Reading a monthly key of a four-digit year back gives the first of its month |
| Text.PaddedRoundTrip | src/processors/data-processor.js:154 | Zero-padding a decimal rendering is undone by reading its digits |
| Text.SplitJoin | src/core/config.js:133 | Joining `split`'s parts gives the string back, and no part holds the separator |
| Text.JoinSplit | src/core/config.js:159 | Splitting joined separator-free parts gives the parts back |
| Numbers.Round | src/processors/data-processor.js:42 | `Math.round` gives the integer within half below and less than half above its argument |
| Numbers.SpreadMax | src/processors/data-processor.js:43 | `Math.max(...s)` is -Infinity iff `s` is empty; otherwise it is an element of `s` and at least every element |
| Numbers.SpreadMin | src/processors/data-processor.js:246 | `Math.min(...s)` is +Infinity iff `s` is empty; otherwise it is an element of `s` and at most every element |
| Collections.SortInPlace | src/processors/data-processor.js:66 | Sorting the array in place leaves it equal to the stable sort of its old contents |
| Collections.SortByPermutation | src/processors/data-processor.js:66 | The sort rearranges: same multiset of elements |
| Collections.SortBySorted | src/processors/data-processor.js:66 | With every date valid, the sorted array is in ascending date order |
| Collections.SortByUnkeyed | src/processors/data-processor.js:36 | With every date invalid (all comparisons NaN), the order is left as it was |
| Collections.FirstSeenMembers | src/processors/data-processor.js:209 | `Array.from(set)` lists each added element exactly once |
| JsObjects.EntriesOrderPermutation | src/processors/data-processor.js:28 | `Object.entries` lists each key once |
| JsObjects.EntriesOrderShape | src/processors/data-processor.js:108 | Array-index keys come first in ascending numeric order, then the others in creation order |
| JsObjects.EntriesOrderNoIndex | src/processors/data-processor.js:28 | Without array-index keys, entries follow creation order |
| CommitChart.IsoDay | src/visualizations/commit-chart.js:208 | `getUTCDay() \|\| 7` lies in 1–7 (Sunday is 7) |
| CommitChart.WeekThursday | src/visualizations/commit-chart.js:207-209 | The shifted day is a valid day of some year |
| CommitChart.IsoWeekFacts | src/visualizations/commit-chart.js:206-212 | The chosen day is the Thursday of the Monday-to-Sunday week, at most three days away, and the week number is in 1–53 |
| CommitChart.SameWeek | src/visualizations/commit-chart.js:206-212 | The day after any day other than Sunday has the same week number |
| CommitChart.NewWeek | src/visualizations/commit-chart.js:206-212 | A Monday's week number is the previous Sunday's plus one, or 1 when its Thursday is in a new year |
| CommitChart.DailyTicks | src/visualizations/commit-chart.js:95-96 | Daily buckets are labelled month and day |
| CommitChart.WeeklyTicks | src/visualizations/commit-chart.js:97-98 | Weekly bucket keys do not parse, so every weekly tick reads `Week NaN` |
| CommitChart.WeekTicks | src/visualizations/commit-chart.js:97-98 | A key that parses, away from years 0–99 and the ends of the time range, is labelled with the ISO week of its day, in 1–53 |
| CommitChart.TwoDigitYearTicks | src/visualizations/commit-chart.js:97-98 | A key in years 0–99 is labelled with the ISO week of the same day in 1900–1999 |
| CommitChart.GetWeekIso | src/visualizations/commit-chart.js:205-212 | Away from years 0–100 and the ends of the time range, `getWeek` is the ISO week of the date |
| CommitChart.GetWeekTwoDigitYear | src/visualizations/commit-chart.js:205-212 | `Date.UTC` takes years 0–99 as 1900–1999, so `getWeek` gives the ISO week of that later day |
| CommitChart.YearOneWeek | src/visualizations/commit-chart.js:205-212 | 0001-01-07 gets week 2, where its ISO week is 1 |
| CommitChart.YearHundredWeek | src/visualizations/commit-chart.js:205-212 | 0100-01-01, whose Thursday lies in year 99, counts from 1999 and gets week -99085 |
| CommitChart.MonthlyTicks | src/visualizations/commit-chart.js:99-100 | Monthly buckets of four-digit years are labelled with the month |
| CommitChart.PeakCount | src/visualizations/commit-chart.js:87 | `d3.max` is undefined iff there are no buckets, else the largest count, which occurs |
| CommitChart.ShadeFacts | src/visualizations/commit-chart.js:142-144 | The peak count gets the dark end and 0 the light end (iff); counts up to the peak stay between the ends |
| CommitChart.ShadeMonotone | src/visualizations/commit-chart.js:142-144 | More commits never give a lighter bar |
| CommitChart.Bars | src/visualizations/commit-chart.js:147-169 | One bar per bucket |
| CommitChart.BarsFacts | src/visualizations/commit-chart.js:147-169 | Exactly one bar per bucket, showing its date and count; the busiest buckets are darkest; all bars lie between the ends |
| CommitChart.CommitChart.constructor | src/visualizations/commit-chart.js:15-54 | `_init` starts with no bars, captions or ticks |
| CommitChart.CommitChart.JoinBars | src/visualizations/commit-chart.js:147-169 | The exit/update/enter join leaves exactly the bucket bars; exit and enter sizes are the surplus on each side |
| CommitChart.CommitChart.Render | src/visualizations/commit-chart.js:66-202 | Missing `data` or `commits` only shows the error and changes no bars; otherwise (an empty array included) the error is hidden and the bars are one per bucket |
| CommitChart.CommitChart.Resize | src/visualizations/commit-chart.js:59-61 | `resize` renders again with data and options unchanged; the new state is what `RenderedFrom` states: error state, or scales, ticks, one bar per bucket and captions |
| CommitChart.CommitChart.UpdateData | src/visualizations/base.js:106-109 | The data is replaced wholesale, then the render reaches the state `RenderedFrom` states |
| CommitChart.CommitChart.UpdateOptions | src/visualizations/base.js:115-121 | Options become the shallow merge, then the render reaches the state `RenderedFrom` states |
| CommitChart.NewCommitChart | src/visualizations/base.js:14-36 | Fails iff there is no element; otherwise a fresh chart holding the data and overlaid options, rendered once from the `_init` state (commit-chart.js:15-54) as `RenderedFrom` states |
| VelocityChart.WindowSize | src/visualizations/velocity-chart.js:299 | The window never covers more than i + 1 sprints, and a positive window w covers min(i + 1, w) |
| VelocityChart.WindowSizePositive | src/visualizations/velocity-chart.js:299 | With a positive window, the divisor is min(i + 1, w) ≥ 1 |
| VelocityChart.Velocity | src/visualizations/velocity-chart.js:290-311 | One point per sprint, same period, same order |
| VelocityChart.CalculateVelocity | src/visualizations/velocity-chart.js:290-311 | The nested loops compute exactly `Velocity`: each point is the window mean of `completed` |
| VelocityChart.WindowTotals | src/visualizations/velocity-chart.js:296-303 | The inner loop's sum over its count is the window mean of sprint i |
| VelocityChart.WindowDone | src/visualizations/velocity-chart.js:299-306 | When the inner loop stops, sum over count is the window mean |
| VelocityChart.WindowMeanBounds | src/visualizations/velocity-chart.js:296-307 | With a positive window, velocity lies between the least and the most completed in its window |
| VelocityChart.WindowFilling | src/visualizations/velocity-chart.js:299-306 | While the window fills, velocity is the mean of all sprints so far |
| VelocityChart.WindowOfOne | src/visualizations/velocity-chart.js:299-306 | A one-sprint window reproduces each sprint's completed points |
| VelocityChart.NegativeWindow | src/visualizations/velocity-chart.js:291-306 | A negative window is truthy and used as given: every window is empty and every velocity NaN |
| VelocityChart.MaxPointsFacts | src/visualizations/velocity-chart.js:90 | The y maximum is at least every total and completed count, and equals one of them |
| VelocityChart.RedrawKeepsAxes | src/visualizations/velocity-chart.js:140-143 | A render leaves the axis groups as they were |
| VelocityChart.RedrawTotalBars | src/visualizations/velocity-chart.js:140-155 | Whatever earlier renders left, exactly one total bar per sprint remains, in order |
| VelocityChart.RedrawCompletedBars | src/visualizations/velocity-chart.js:141-187 | Exactly one completed bar per sprint remains, in order |
| VelocityChart.RedrawVelocityLine | src/visualizations/velocity-chart.js:209-228 | One velocity line iff velocity is shown and there are at least two sprints, else none |
| VelocityChart.RedrawVelocityDots | src/visualizations/velocity-chart.js:220-235 | Under that condition one velocity point per sprint in order, else none |
| VelocityChart.RedrawIdempotent | src/visualizations/velocity-chart.js:140-259 | Rendering the same data twice gives the same marks as once |
| VelocityChart.RedrawFilter | src/visualizations/velocity-chart.js:140-259 | Any selection of the redrawn marks splits into kept marks, bars and velocity marks |
| VelocityChart.VelocityLegendFacts | src/visualizations/velocity-chart.js:322-342 | The legend names Total and Completed Points, plus Velocity iff shown; item i sits at margin.left + 120·i |
| VelocityChart.Draw | src/visualizations/velocity-chart.js:145-259 | The drawing steps produce exactly `Drawing(rows, options)` |
| VelocityChart.VelocityChart.constructor | src/visualizations/velocity-chart.js:14-57 | `_init` starts with the two axis groups, no captions and no legend |
| VelocityChart.VelocityChart.Render | src/visualizations/velocity-chart.js:69-282 | Missing or empty `storyPoints` only shows the error; otherwise the error is hidden and the marks are redrawn as `Redraw` states |
| VelocityChart.VelocityChart.Resize | src/visualizations/velocity-chart.js:62-64 | `resize` renders again with data and options unchanged, reaching the state `RenderedFrom` states |
| VelocityChart.VelocityChart.UpdateData | src/visualizations/base.js:106-109 | The data is replaced, then the render reaches the state `RenderedFrom` states |
| VelocityChart.VelocityChart.UpdateOptions | src/visualizations/base.js:115-121 | Shallow merge of the options, then the render reaches the state `RenderedFrom` states |
| VelocityChart.NewVelocityChart | src/visualizations/base.js:14-36 | Fails iff there is no element; otherwise a fresh chart rendered once from the two axis groups `_init` makes (velocity-chart.js:14-57), as `RenderedFrom` states |
| QualityChart.MetricsDefault | src/visualizations/quality-metrics.js:19 | Without `options.metrics` the list is bugs, vulnerabilities, codeSmells, coverage; with it, the options decide at `render` too |
| QualityChart.PrimaryPartition | src/visualizations/quality-metrics.js:99-100 | Coverage never goes on the primary axis; every other metric does, as often as listed, in order |
| QualityChart.ColourScaleOf | src/visualizations/quality-metrics.js:103-110 | One colour slot per listed metric; the domain is exactly the listed metrics |
| QualityChart.ColourFacts | src/visualizations/quality-metrics.js:103-110 | Metric i gets theme colour i, else fallback i of eight, else `#666` |
| QualityChart.ExtentFacts | src/visualizations/quality-metrics.js:113-115 | The x domain runs from the earliest to the latest valid date, both of which occur; undefined without a valid date |
| QualityChart.MaxIssuesFacts | src/visualizations/quality-metrics.js:118-124 | The primary maximum bounds every primary reading and equals one; NaN without primary metrics or rows |
| QualityChart.LineFacts | src/visualizations/quality-metrics.js:211-239 | One line per primary metric in order, then coverage when listed; one point per row, missing values 0 |
| QualityChart.PointFacts | src/visualizations/quality-metrics.js:215-218 | Each point carries its row's date and the metric's value, 0 when absent |
| QualityChart.BuildLineData | src/visualizations/quality-metrics.js:211-239 | The pushes build exactly `LineData` |
| QualityChart.DrawnMetrics | src/visualizations/quality-metrics.js:211-239 | A metric gets a line iff it is listed |
| QualityChart.DrawLines | src/visualizations/quality-metrics.js:245-283 | The drawing loop appends exactly the plot after the kept marks |
| QualityChart.DrawLineCounts | src/visualizations/quality-metrics.js:245-283 | A drawn line adds its path and tops its metric's circles up to one per point, adding none of another metric |
| QualityChart.PlotCircles | src/visualizations/quality-metrics.js:245-283 | The plot has one circle per row for each metric with a line, and none for others |
| QualityChart.PlotPaths | src/visualizations/quality-metrics.js:245-283 | The plot has one path per line, in line order |
| QualityChart.RedrawFacts | src/visualizations/quality-metrics.js:242-283 | After a render: axis groups kept, one path per line, one circle per row per listed metric, so repeated renders never duplicate |
| QualityChart.RedrawMarks | src/visualizations/quality-metrics.js:242-283 | The removal and redraw give exactly `Redraw` |
| QualityChart.UpperAscii | src/visualizations/quality-metrics.js:349 | A lower-case ASCII letter becomes its capital (code point less 32); other characters are unchanged |
| QualityChart.SpaceCapitalsLength | src/visualizations/quality-metrics.js:348 | Spacing adds one character per capital |
| QualityChart.SpaceCapitalsKeeps | src/visualizations/quality-metrics.js:348 | Only spaces are added; the other characters keep their order |
| QualityChart.SpaceCapitalsSpaced | src/visualizations/quality-metrics.js:348 | Every capital is preceded by a space |
| QualityChart.FormatMetricNameFacts | src/visualizations/quality-metrics.js:345-350 | Only the first character of the spaced name changes: lower case to upper, or a leading capital keeps its added space |
| QualityChart.CodeSmellsName | src/visualizations/quality-metrics.js:345-350 | `codeSmells` is shown as `Code Smells` |
| QualityChart.BugsName | src/visualizations/quality-metrics.js:345-350 | `bugs` is shown as `Bugs` |
| QualityChart.QualityLegendFacts | src/visualizations/quality-metrics.js:310-337 | One legend entry per metric, with its formatted name and colour, at margin.left + 120·i |
| QualityChart.QualityCaptionsFacts | src/visualizations/quality-metrics.js:167-197 | Old axis titles are gone after a render; the Coverage % title is there iff coverage is listed |
| QualityChart.QualityMetricsChart.constructor | src/visualizations/quality-metrics.js:15-69 | `_init` fixes the metric list and makes the percentage axis iff coverage is listed |
| QualityChart.QualityMetricsChart.Render | src/visualizations/quality-metrics.js:81-301 | Missing or empty data only shows the error; otherwise it rescales, then throws iff coverage is displayed without a percentage axis, else redraws everything |
| QualityChart.QualityMetricsChart.Refresh | src/visualizations/quality-metrics.js:87-301 | Past the guard: rescaled, and the throw happens iff coverage is listed with no percentage axis; otherwise everything is drawn |
| QualityChart.QualityMetricsChart.Repaint | src/visualizations/quality-metrics.js:167-300 | Captions, lines and legend become what `Drawn` states |
| QualityChart.QualityMetricsChart.Rescale | src/visualizations/quality-metrics.js:103-131 | Colour, x, y and (with coverage) the fixed 0–100 scales become what `Scaled` states |
| QualityChart.QualityMetricsChart.Resize | src/visualizations/quality-metrics.js:74-76 | `resize` renders again with data and options unchanged, reaching the state `RenderedFrom` states, throw included |
| QualityChart.QualityMetricsChart.UpdateData | src/visualizations/base.js:106-109 | Data replaced, then the render reaches the state `RenderedFrom` states |
| QualityChart.QualityMetricsChart.UpdateOptions | src/visualizations/base.js:115-121 | Shallow merge, then a render that throws iff the new options list coverage and `_init` made no percentage axis, otherwise reaching the state `RenderedFrom` states |
| QualityChart.NewQualityMetricsChart | src/visualizations/base.js:14-36 | Fails iff there is no element; otherwise a fresh chart whose first render, from the `_init` state (quality-metrics.js:15-69), cannot throw and reaches the state `RenderedFrom` states |
| Visualization.OverlayFacts | src/visualizations/base.js:21-26 | Given option keys win, others are kept, an overlay with nothing changes nothing, and overlaying twice is overlaying once |
| Visualization.Base.constructor | src/visualizations/base.js:14-70 | Data defaults to `{}`, options overlay the defaults, three children are added, loading and error hidden, resizes observed |
| Visualization.Base.ShowLoading | src/visualizations/base.js:75-77 | The loading indicator is shown |
| Visualization.Base.HideLoading | src/visualizations/base.js:82-84 | The loading indicator is hidden |
| Visualization.Base.ShowError | src/visualizations/base.js:90-93 | The message is set and shown |
| Visualization.Base.HideError | src/visualizations/base.js:98-100 | The error is hidden; its text stays |
| Visualization.Base.Resize | src/visualizations/base.js:126-128 | The base `resize` changes nothing |
| Visualization.Base.Render | src/visualizations/base.js:133-135 | The base `render` always throws |
| Visualization.Base.UpdateData | src/visualizations/base.js:106-109 | Data replaced wholesale, then the base render throws |
| Visualization.Base.UpdateOptions | src/visualizations/base.js:115-121 | Shallow merge, then the base render throws |
| Visualization.Base.Destroy | src/visualizations/base.js:140-148 | Observation stops and every child is removed |
| Visualization.NewBase | src/visualizations/base.js:14-36 | Throws iff there is no element; otherwise fresh with the data (or `{}`), overlaid options, the three children, loading and error hidden, resizes observed |
| Visualization.Headroom | src/visualizations/commit-chart.js:87 | The y maximum is 11/10 of a finite top value, above it when the top is positive; NaN and ±Infinity pass through |
| Visualization.RetitleFacts | src/visualizations/commit-chart.js:190-200 | After a render there is exactly the given title, or none; other captions are kept in order |
| ConfigStore.Put | src/core/config.js:171 | Assignment sets the key, leaves every other key and keeps an existing key's place; a new key goes last unless it is an array index |
| ConfigStore.PutOrder | src/core/config.js:171 | Assignment keeps the properties in ECMA-262 property order: array indices first, ascending, then other names |
| ConfigStore.SetPathOrdered | src/core/config.js:154-172 | A nested write keeps property order at every level of the tree |
| ConfigStore.IndexKeyFirst | src/core/config.js:55-63 | After `set("a.1", 2)` on `{a: {b: 1}}`, a `set("a", {1: 2, b: 1})` fires no `change`, as the JSON texts agree |
| ConfigStore.ArrayPropertyWrite | src/core/config.js:154-172 | `set("items.x", 1)` on `{items: []}` succeeds; `get` reads 1 back and the array's JSON text stays `[]` |
| ConfigStore.SpreadLookup | src/core/config.js:13-33 | In `{...target, ...source}` a key given in source wins, others come from target |
| ConfigStore.Initial | src/core/config.js:13-33 | The built configuration is an object |
| ConfigStore.InitialLookup | src/core/config.js:13-33 | An override replaces its default; unmentioned keys keep theirs (theme `light`) |
| ConfigStore.SetPath | src/core/config.js:154-172 | A successful nested write starts from an object or array and gives the same kind back, an array keeping its elements |
| ConfigStore.SetPathFresh | src/core/config.js:163-171 | Writing into a fresh `{}` never fails |
| ConfigStore.SetThenGet | src/core/config.js:154-172 | After a write, the path reads back the value written |
| ConfigStore.SetKeepsOtherPaths | src/core/config.js:154-172 | Paths that part from the written one read as before (siblings untouched) |
| ConfigStore.SetPathFails | src/core/config.js:163-171 | A write fails iff a step it must descend through holds a primitive or undefined; objects, arrays and null are written through |
| ConfigStore.SetNestedThenGet | src/core/config.js:128-172 | For dotted paths, `get` after a successful `set` returns the value, whatever the fallback |
| ConfigStore.JsonOf | src/core/config.js:60 | `JSON.stringify` has no text exactly for undefined |
| ConfigStore.FromJson | src/core/config.js:236 | Parsing never gives undefined |
| ConfigStore.JsonRoundTrip | src/core/config.js:226-236 | Parsing JSON text and writing it again gives the same text |
| ConfigStore.JsonCopy | src/core/config.js:226-228 | The deep copy has the same JSON text as the original |
| ConfigStore.CopyTwice | src/core/config.js:226-240 | A copy of a copy is the copy |
| ConfigStore.OffRemoves | src/core/config.js:196-204 | `off` removes every registration of the callback, keeps others in order, and undoes an `on` of a new callback |
| ConfigStore.AssignFacts | src/core/config.js:55-65 | After `set`, `get` returns the value; `change` fires iff the JSON texts differ |
| ConfigStore.AssignAllLast | src/core/config.js:72-78 | After a completed `setMultiple`, its last entry reads back as written |
| ConfigStore.AssignAllStops | src/core/config.js:72-78 | A throwing `set` ends `setMultiple` with that throw |
| ConfigStore.Config.constructor | src/core/config.js:12-37 | The defaults overlaid by `initialConfig`; no listeners |
| ConfigStore.Config.GetNestedProperty | src/core/config.js:128-145 | The loop returns exactly `GetNested`: whole config for an empty path, fallback at a missing or null step |
| ConfigStore.Config.Get | src/core/config.js:45-47 | `get` reads the nested path with the fallback |
| ConfigStore.Config.Has | src/core/config.js:85-87 | `has` is true iff `get` is not undefined |
| ConfigStore.Config.TriggerEvent | src/core/config.js:212-220 | Calls are extended by the event's listeners in order |
| ConfigStore.Config.Set | src/core/config.js:55-65 | The configuration and calls become what `Assign` states, or stay on a throw |
| ConfigStore.Config.SetMultiple | src/core/config.js:72-78 | Each entry is `set` in order, stopping at a throw |
| ConfigStore.Config.Reset | src/core/config.js:94-118 | Defaults overlaid by the argument, then `reset` is announced |
| ConfigStore.Config.On | src/core/config.js:180-188 | The callback joins the end of the event's list; an inherited name throws on `push` |
| ConfigStore.Config.Off | src/core/config.js:196-204 | The event's list loses every registration of the callback; other events unchanged |
| ConfigStore.Config.ToObject | src/core/config.js:226-228 | Returns the JSON deep copy |
| ConfigStore.Config.FromObject | src/core/config.js:235-240 | Stores the JSON deep copy and announces `import`; undefined throws and changes nothing |
| Dashboard.RegisterFacts | src/core/dashboard.js:92-96 | Adding a new id adds exactly one entry and leaves all others |
| Dashboard.UnregisterFacts | src/core/dashboard.js:193-194 | Deleting a present id removes exactly it and keeps the others in order |
| Dashboard.UnregisterUndoesRegister | src/core/dashboard.js:187-202 | Deleting what was just added restores the registry |
| Dashboard.DevDashboard.constructor | src/core/dashboard.js:13-58 | The container styled with its theme, empty registry, no listeners |
| Dashboard.DevDashboard.TriggerEvent | src/core/dashboard.js:172-180 | Calls are extended by the event's listeners in order |
| Dashboard.DevDashboard.On | src/core/dashboard.js:156-164 | The callback joins the end of the list; an inherited name throws |
| Dashboard.DevDashboard.AddVisualization | src/core/dashboard.js:69-105 | Missing id or type, or a taken id, throws and changes nothing; otherwise one entry added and `visualizationAdded` fired |
| Dashboard.DevDashboard.UpdateData | src/core/dashboard.js:130-148 | An unknown id throws; otherwise only that entry's data changes and `dataUpdated` fires |
| Dashboard.DevDashboard.RemoveVisualization | src/core/dashboard.js:187-202 | An unknown id throws; otherwise exactly that entry goes and `visualizationRemoved` fires |
| Dashboard.DevDashboard.SetTheme | src/core/dashboard.js:209-219 | The theme is recorded and set on the container, then `themeChanged` fires |
| Dashboard.DevDashboard.Destroy | src/core/dashboard.js:224-236 | Listeners cleared first, so no events; the registry ends empty; class and theme removed |
| Dashboard.NewDevDashboard | src/core/dashboard.js:13-49 | Throws without a container, for an unknown selector, or for an unsupported value; otherwise the theme defaults to `light` |
| Themes.Derive | src/themes/theme-manager.js:35-39 | The given name or the key; each section given replaces the base's whole, each absent one comes from the base |
| Themes.ThemeManager.constructor | src/themes/theme-manager.js:14-18 | The registry holds light, dark and ocean |
| Themes.ThemeManager.GetTheme | src/themes/theme-manager.js:25-27 | Some registered theme, the named one when registered, else light; no theme iff the name is unregistered and inherited by `{}` |
| Themes.ThemeManager.RegisterTheme | src/themes/theme-manager.js:34-40 | Only that key changes, to light overlaid by the spec, and reads back so; a new key is listed last; other keys read back unchanged |
| Themes.ThemeManager.AvailableThemes | src/themes/theme-manager.js:46-54 | One pair per key, with its theme's display name, keys in `Object.keys` order |
| Themes.ThemeManager.AvailableThemesComplete | src/themes/theme-manager.js:46-54 | Each registered key is listed exactly once |
| Themes.ColourVarsFacts | src/themes/theme-manager.js:92-100 | One variable per single colour and one per series element; each entry's variables appear |
| Themes.SectionVarsFacts | src/themes/theme-manager.js:102-120 | One variable per section entry, with the section's prefix, names distinct when keys are |
| Themes.CssVarsCount | src/themes/theme-manager.js:88-123 | With distinct names, the variables are exactly the assignments in order, counted as colour widths plus section sizes |
| CsvExport.ExportToCsv | src/utils/export.js:54-95 | Missing data makes nothing; otherwise the text is `Csv(data)` |
| CsvExport.AppendSection | src/utils/export.js:59-66 | Appends a title, a header, each row, then the blank line if the section has one |
| CsvExport.AppendRows | src/utils/export.js:62-64 | Appends each row with its line feed, in order |
| CsvExport.CsvReadsBack | src/utils/export.js:54-83 | Without line feeds in fields, the text splits into exactly its lines: present sections in order commits, quality, velocity |
| CsvExport.CsvLineCount | src/utils/export.js:59-83 | Three lines per commit or quality section plus one per item; two per velocity section plus one per item |
| CsvExport.CommitLineQuotes | src/utils/export.js:63 | A commit row holds eight quotes plus its fields' quotes, so embedded quotes are not doubled |
| Simulator.Pick | src/utils/realtime-simulator.js:169 | `Math.floor(draw * k)` lies in 0..k-1 |
| Simulator.AddFacts | src/utils/realtime-simulator.js:60-63 | Adding keeps the set free of repeats, adds exactly the callback, and is idempotent |
| Simulator.RemoveFacts | src/utils/realtime-simulator.js:66-68 | Removing drops exactly the callback and undoes an add of an absent one |
| Simulator.NotifyOnce | src/utils/realtime-simulator.js:215-221 | Each subscriber is called once; non-subscribers never |
| Simulator.PushFacts | src/utils/realtime-simulator.js:157-162 | Append then trim keeps the newest, ends with the new point, never exceeds the cap |
| Simulator.Max0 | src/utils/realtime-simulator.js:151-153 | `Math.max(0, x)` is non-negative, at least x, and 0 for negative x |
| Simulator.ClampPercent | src/utils/realtime-simulator.js:154 | Coverage is clamped to 0–100: 0 below, 100 above, unchanged inside |
| Simulator.NextPointFacts | src/utils/realtime-simulator.js:149-155 | The next point is always sane; counts move by at most 1, 1 and 5, coverage by bounded drift |
| Simulator.InitialQuality | src/utils/realtime-simulator.js:90-101 | One sane point per date, oldest first |
| Simulator.CurrentSprint | src/utils/realtime-simulator.js:166 | The first sprint in progress, or none |
| Simulator.LeadingDigits | src/utils/realtime-simulator.js:176 | The longest leading digit run, as `parseInt` reads |
| Simulator.NextLabelCounts | src/utils/realtime-simulator.js:176-178 | The sprint after `Sprint n` is `Sprint n+1` |
| Simulator.InitialVelocity | src/utils/realtime-simulator.js:104-120 | Seven sprints, six finished and the last in progress |
| Simulator.Credit | src/utils/realtime-simulator.js:169-170 | Adds 1 to 5 points without passing the total |
| Simulator.AdvanceKeepsOthers | src/utils/realtime-simulator.js:165-189 | Only the current sprint changes, bar the oldest dropped past the cap |
| Simulator.AdvanceWithinTotal | src/utils/realtime-simulator.js:165-189 | No written sprint's completed exceeds its total |
| Simulator.AdvanceStep | src/utils/realtime-simulator.js:165-189 | Progress adds 1–5 points, or completes the sprint and starts the next numbered one, capped at 8 |
| Simulator.ProgressStep | src/utils/realtime-simulator.js:167-170 | A credit short of the total changes only the last sprint's completed points, by 1 to 5, and keeps the shape |
| Simulator.CompleteStep | src/utils/realtime-simulator.js:168-188 | A credit reaching the total finishes the sprint at exactly its total and appends `Sprint n+1` in progress with 0 of 30–69 points, dropping the oldest past eight |
| Simulator.RealtimeSimulator.constructor | src/utils/realtime-simulator.js:7-23 | Interval defaults to 3000 ms; no callbacks or timers; initial histories |
| Simulator.RealtimeSimulator.GetData | src/utils/realtime-simulator.js:74-76 | `commits`, `quality` and `velocity` return the current history of that type, each variant iff its name; any other name gives no data |
| Simulator.RealtimeSimulator.Start | src/utils/realtime-simulator.js:28-46 | Three timers at 1, 1.5 and 2 intervals are set; older timers keep running |
| Simulator.RealtimeSimulator.Stop | src/utils/realtime-simulator.js:51-54 | Every mapped timer is cleared and the map emptied; nothing else changes |
| Simulator.ClearTimers | src/utils/realtime-simulator.js:52 | The running timers lose exactly those of the map |
| Simulator.RealtimeSimulator.Subscribe | src/utils/realtime-simulator.js:59-64 | The type's set gains the callback; nothing else changes |
| Simulator.RealtimeSimulator.Unsubscribe | src/utils/realtime-simulator.js:66-68 | The type's set loses exactly the callback |
| Simulator.RealtimeSimulator.TriggerUpdate | src/utils/realtime-simulator.js:215-221 | Each subscriber gets the current data in order; no subscribers, no calls |
| Simulator.RealtimeSimulator.UpdateQualityMetrics | src/utils/realtime-simulator.js:145-163 | Appends the next point and trims to 30; throws with no points |
| Simulator.RealtimeSimulator.UpdateSprintProgress | src/utils/realtime-simulator.js:165-191 | Sprints become `Advance` of the old ones; the history stays well formed |
| Simulator.RealtimeSimulator.FindCurrent | src/utils/realtime-simulator.js:166 | The search loop stops at `CurrentSprint` |
| Factory.GetLayoutConfig | src/devdashboard.js:185-205 | `auto` gives 1, 2 or 3 cells by feature count; any other layout is returned unchanged |
| Factory.AutoLayoutRows | src/devdashboard.js:186-201 | Auto cells fill whole rows: one 500px row for 1–2 features, else a full 400px row over two halves |
| Factory.ElementAt | src/devdashboard.js:70 | Indexing throws exactly on null or undefined |
| Factory.AutoCellFor | src/devdashboard.js:69-70 | With `auto`, the first three features get a cell and later ones undefined |
| Factory.VisualizationConfigFacts | src/devdashboard.js:144-180 | Known features get their fixed type and defaults, layout keys winning; unknown ones are their own type with the layout as options |
| Factory.VisualizationTypeFacts | src/devdashboard.js:308-316 | The type map agrees with the config table and is idempotent |
| Factory.ProcessDataForFeature | src/devdashboard.js:128-139 | Dispatches to the matching processor; unknown features get the raw data |
| Factory.IndexOf | src/devdashboard.js:274 | `indexOf` is the first position or -1 iff absent |
| Factory.CycleVisitsAll | src/devdashboard.js:272-276 | n presses from the first theme reach theme n mod count |
| Factory.UnlistedThemeGoesFirst | src/devdashboard.js:273-276 | From an unlisted theme one press gives the first |
| Factory.Setting | src/devdashboard.js:32-41 | A destructured option is the given value iff one is given and not `undefined`, else the default |
| Factory.CreateDefaults | src/devdashboard.js:32-41 | Defaults: theme professional, the three features, auto layout, no demo or realtime, export and resizing on |
| Factory.PlanOf | src/devdashboard.js:69-87 | At most one chart per feature; the loop finishes iff no iteration throws |
| Factory.PlanStops | src/devdashboard.js:69-87 | Every feature is added iff the layout cell reads, each feature is non-empty, not inherited by `{}` and not repeated (dashboard.js:70-76); otherwise the error is the first failing iteration's |
| Factory.PlanIds | src/devdashboard.js:69-87 | The charts added are the leading features, in order, each with its feature as id |
| Factory.PlanSubscriptions | src/devdashboard.js:69-87 | One subscription per added chart in realtime mode and none otherwise; a chart starts empty iff there is no data, demo or realtime |

## Left out

- DOM, d3 and SVG specifics are not modelled:
  - element styles, axis drawing, tooltip HTML and its position;
  - line generators and curves, `getComputedStyle` (a palette parameter instead);
  - `ResizeObserver` (a flag), `document.createElement` and `appendChild` (class-name lists).
- The velocity tooltip's completion rate, which divides by `d.total` unguarded, is not modelled, because it is tooltip HTML.
- The velocity summary box `_renderSummary` is modelled only as present or absent; its text is not modelled.
- Clock and randomness:
  - `Math.random` draws are parameters;
  - timers are ids in a map plus a set of running ids;
  - `_addNewCommit` and `_generateDayCommits` depend on the wall clock and are not modelled; the commit history is a parameter.
- `smoothTransitions` has no effect in the code and is not modelled.
- The Blob download, `alert` and `console.error` of `exportToCSV` are not modelled; only the text it builds is. `exportToPNG`, clipboard and toast code are left out.
- Factory wiring is not modelled, because it is DOM and event plumbing:
  - `create`'s DOM parts, `_addDashboardHeader` and the keydown listener (only the theme-cycle index is modelled);
  - `createWidget`, `_getDemoData`, `_exportAllData`.
- `ThemeManager.applyTheme` and `_getBaseStyles` are not modelled; they write styles into the page.
- Numbers are exact: JavaScript doubles are modelled as reals or integers with NaN and ±Infinity. Rounding error, and integer overflow beyond 2^53, are not modelled.
- Quality metric values and story points are integers in the model; fractional coverage values in records are not modelled.
- Dates are civil (year, month, day) plus milliseconds of the day in UTC. The local time zone, and with it the local/UTC difference between `getFullYear` and `toISOString` and daylight-saving effects, is not modelled.
- `new Date(string)` is modelled for the date-only forms of ECMA-262's Date Time String Format; any other string is Invalid Date. Record date fields are given already parsed.
- Values are given in their string form where the code prints them (CSV numbers, sprint labels). `parseInt` is modelled for a leading run of digits only (no sign or whitespace).
- Records are total: a field read from a missing record (`null` rows) is not modelled.
- `data[type]` in `getData` and `_triggerUpdate` for an inherited name is not modelled. Features are a list of strings.
- Aliasing of the nested objects `_setNestedProperty` walks is not modelled (values are immutable trees).
- ConfigStore.Put: the key `__proto__` is stored as an ordinary own property. In the code, `obj["__proto__"] = v` calls the inherited `__proto__` setter instead: it replaces the object's prototype (or does nothing for a primitive) and adds no own property. So `set("__proto__.a", 1)` leaves `get("__proto__.a")` at its fallback and `toObject()` without the key, while the model reads 1 back; `ConfigStore.SetThenGet`, `ConfigStore.SetNestedThenGet` and `ConfigStore.AssignFacts` state their read-back for this key only as the model stores it.
- Themes.ThemeManager.RegisterTheme: `registerTheme("__proto__", spec)` replaces the registry's prototype in the code, so `getAvailableThemes` does not list the key and `getTheme("name")` or `getTheme("colors")` read the prototype's fields; the model stores `__proto__` as an ordinary registered key and `Themes.ThemeManager.AvailableThemes` lists it.
- ConfigStore.SetPath: on an array, paths read and write only its named properties. An index name or `length` is not read as an element or the length, and writing an index name adds a named property where the code would set an element.
- Values handed to `Config` from outside (`initialConfig`, the value given to `set`) are assumed to list their properties in property order, as every JavaScript object does (`ConfigStore.Ordered`).
- ConfigStore.FromJson: members are read in text order, where `JSON.parse` lists array-index names first. The texts it reads here are written by `JSON.stringify` from values in property order, and for those the two agree.
- QualityRowOf: a metric named `date` would overwrite the row's date with the record's `date || 0` in the code; the model keeps the date and the metrics apart.
- WindowSize: `velocityWindow` is an integer. With a fractional window the code's inner loop reads `storyPoints` at fractional positions and throws unless the window starts at 0; that is not modelled.
- `Array.prototype.sort` with a subtracting comparator is modelled as a stable insertion sort. An engine may order NaN comparisons differently.
- Options, ThemeSpec and DashboardConfig: a key present with the value `undefined` is modelled as absent. So the model does not capture three behaviours:
  - `updateOptions({title: undefined})` sets the title to undefined in the code, but keeps it in the model;
  - `{margin: undefined}` makes the code's `render` throw when it reads `margin.left`;
  - `registerTheme` with `colors: undefined` stores undefined colours.
- TickLabel: `toLocaleDateString` follows the runtime's locale; the model fixes the en-US month and day form.
- UpperAscii: only ASCII letters are capitalised. `toUpperCase` also maps other letters (é to É, ß to SS); metric names outside ASCII are not modelled.
- GetPath: the own properties of strings (`"theme.length"`, an index into a string) are not read; a string is a leaf, so such paths give undefined.
- Listeners that throw or re-enter the object that calls them are not modelled; each call is a recorded event.
- Dashboard.DevDashboard.UpdateData: `viz.config.data = data` writes into the config object the caller passed to `addVisualization`. That aliasing is not modelled; the registry holds its own copy.
- `Set` iteration order is insertion order; the model lists callbacks in a duplicate-free sequence.
