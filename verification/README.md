# A verified model of the GraphQL profile dashboard

The dashboard signs a student in to a GraphQL endpoint, fetches that student's
XP transactions, audits, results and progress records, reduces them to a few
figures (total XP, XP per day, XP per project, the audit ratio, the pass/fail
ratio and the list of completed projects) and draws them as SVG charts.

This project models, in Dafny, the three files that do that work:

- **the query client** (`public/js/graphql.js`). Its parts are the user-id guard
  at the head of every getter, and the reductions each getter applies to the
  rows it receives. The biggest reduction is the three-stage
  completed-projects pipeline with its exclusion vocabulary and replace rule.
  Modules: `Queries`, `Aggregation`, `Completed`.
- **the chart helpers** (`js/graphs.js`). These are the linear scale, `extent`
  and `max`, the tick sampling, the bar layout, the truncated bar labels and
  the pie slicing. The four renderers come with their empty-data guards.
  Modules: `Scales`, `Graphs`.
- **the page controller** (`public/js/profile.js`). It covers:
  - the `graphData` cache of the three chart views;
  - the graph switcher, which fetches a view only while its slot is `null`;
  - the initial load, which puts a default in place of every rejected
    request;
  - the audit-ratio text and the completed-project cards.

  Module: `Dashboard`, class `Profile`.

Support modules:

- `Common` (Option, `Settled`);
- `Text` (substring search, lower-casing, `split('/').pop()`, decimal text of
  an integer and `parseInt`);
- `Records` (the rows and view records);
- `Sorting` (a stable insertion sort standing for `Array.prototype.sort`).

### How the model is written

- The loops that build the daily series, the project groups, the counts, the
  completed list, the ticks, the bars and the pie slices are methods with
  loop invariants.
- Each of these methods is proved equal to a reference function, such as
  `DailySeriesOf`, `TopProjectsOf`, `AuditSummaryOf`, `PassFailOf` or
  `CompletedOf`.
- What the source promises is then proved about that function.
- The `graphData` object and the page are a class whose methods update its
  fields.

### How source values are represented

- GraphQL `null` for a number (amount, grade, object id) is `0`, and for a
  string it is `""`. Every use in the source treats the two the same way
  (`|| 0`, `|| ''`, truthiness, `>=`).
- A missing list is the empty list.
- Timestamps are integer milliseconds. A day is `createdAt / 86400000`, which
  is the date part of `toISOString()`.
- Chart coordinates are exact reals.
- Angles are in turns: slice `i` spans `value / total` of a turn from `-1/4`.
- Where the source divides by a zero-width scale domain, the drawn SVG has
  `NaN` coordinates, and the model returns the scene `NaNGeometry`. This
  happens for a single date, a maximum of 0, or an absent audit total.

### Behaviour of the source worth knowing

- **Empty audit list.** `getAuditRatio` returns no `total` for an empty audit
  list (`public/js/graphql.js:289-290`). The page therefore shows "N/A", and
  `renderAuditRatio`'s `total === 0` guard does not fire, so a NaN pie is
  drawn rather than the "No audit data" message.
- **Fallback ids.** The completed-projects fallback may list two projects with
  the same id, because it is keyed by path (`FallbackIdsMayRepeat`).

## Model

| member | source | states |
|---|---|---|
| Queries.ResolveUserIdCases | public/js/graphql.js:94-111 | A stored id decides alone and is accepted exactly when it parses, otherwise the error is "Invalid user ID: " plus the text. Without one, the user row's non-zero id is used and always parses. No row or no id gives "Unable to determine user ID". A failed user query passes its error on. |
| Queries.GetTotalXP | public/js/graphql.js:94-133 | Rejects with the id guard's or the request's error; otherwise the sum of the amounts, 0 for no rows. |
| Queries.GetXPOverTime | public/js/graphql.js:138-196 | Rejects with the guard's or the request's error; otherwise the daily series of the time-ordered rows. |
| Queries.GetXPByProject | public/js/graphql.js:200-253 | Rejects with the guard's or the request's error; otherwise the top ten path totals. |
| Queries.GetAuditRatio | public/js/graphql.js:258-308 | Rejects with the guard's or the request's error; otherwise the audit summary. |
| Queries.GetPassFailRatio | public/js/graphql.js:313-380 | Rejects with the guard's or the request's error; otherwise the pass/fail counts. |
| Queries.GetCompletedProjects | public/js/graphql.js:424-652 | Rejects with the guard's or the first request's error; otherwise the completed list. A failure of the fallback request is swallowed. |
| Text.ParseIntString | public/js/graphql.js:99-109 | `parseInt(String(id))` gives back the id for every integer, so an id read from the user row never trips the `NaN` guard. |
| Text.LastSegment | public/js/graphql.js:513 | `split('/').pop()` is a suffix of the path without '/', and it is the whole path or is preceded by a '/'. |
| Aggregation.XPOverTime | public/js/graphql.js:179-195 | The per-date dictionary loop and the sort by date produce exactly the daily series: one point per day with a transaction, in increasing date order, with that day's XP and the XP earned up to the end of the day. |
| Aggregation.DailySeriesOfIsSeries | public/js/graphql.js:179-195 | For rows in time order, the days in first-seen order, each with its day total and running total, form such a series. |
| Aggregation.FirstSeenDaysFacts | public/js/graphql.js:192-195 | The dictionary's keys are exactly the days of the rows; for rows in time order, insertion order is already strictly increasing date order, so the final sort changes nothing. |
| Aggregation.CumulativeIsRunningTotal | public/js/graphql.js:181-189 | Each point's cumulative XP is the sum of the daily XP of the points up to and including it. |
| Aggregation.DailySeriesSumsToTotal | public/js/graphql.js:132 | The daily XP of the series sums to the total XP, and the last point's cumulative XP is that total. |
| Aggregation.CumulativeNonDecreasing | public/js/graphql.js:181-189 | With non-negative amounts the cumulative XP never decreases along the series. |
| Aggregation.FirstSeenPathsFacts | public/js/graphql.js:239-247 | The grouping keys (`path \|\| 'Unknown'`) are distinct and are exactly the keys of the rows; a key not present totals 0. |
| Aggregation.XPByProject | public/js/graphql.js:239-252 | The grouping loop, sort and slice give exactly the top projects: at most ten, with distinct paths, each carrying its path's total. They are ordered by XP descending, with ties in first-seen order. Every omitted path has no more XP than the tenth entry. |
| Aggregation.TopProjectsOfFacts | public/js/graphql.js:250-252 | The reference top-ten list has all of these properties. |
| Aggregation.TopOfGroups | public/js/graphql.js:250-252 | Sorting any grouping of the rows descending and cutting it at ten gives the top projects. |
| Aggregation.AuditRatio | public/js/graphql.js:286-307 | The counting loop gives the reference summary, with no total for an empty list. |
| Aggregation.AuditSummaryFacts | public/js/graphql.js:286-307 | Passes are the audits graded at least 1 and failures are the rest. A total is present exactly for a non-empty list and equals passed plus failed. The ratio lies in [0, 100] and is within 0.05 of the exact percentage. An empty list gives 0/0/0 with no total. |
| Aggregation.RoundTenthsBounds | public/js/graphql.js:305 | `toFixed(1)` lands within half a tenth of its argument and keeps a percentage in [0, 100]. |
| Aggregation.AuditRatioExample | public/js/graphql.js:296-307 | Grades 1, 0.5 and 1 give 2 passed, 1 failed, 66.7 and total 3. |
| Aggregation.PassFailRatio | public/js/graphql.js:365-379 | The counting loop gives the reference counts over the results that are not excluded. |
| Aggregation.PiscineMarkersReduce | public/js/graphql.js:354-363 | Of the three piscine spellings only "piscine" matters. |
| Aggregation.PassFailFacts | public/js/graphql.js:349-379 | A result counts exactly when its object is a project and its lower-cased path does not contain "piscine". Passed plus failed is the total, which is at most the number of results. An empty list gives all zeros. |
| Completed.VocabularyReduces | public/js/graphql.js:491-505 | The nine exclusion words exclude exactly what the six words not contained in another one exclude. |
| Completed.ExcludedPathExcludesAll | public/js/graphql.js:491-505 | A path that is excluded on its own is excluded whatever the name. |
| Completed.FindIndex | public/js/graphql.js:542 | `findIndex` gives -1 when no entry has the id, and otherwise the first entry with it. |
| Completed.CollectProgress | public/js/graphql.js:509-530 | The progress loop gives the list that keeps the first admitted row of each object id, and its seen-set is exactly the ids of that list. |
| Completed.MergeResults | public/js/graphql.js:533-570 | Starting from the progress list, the result loop gives the reference merged list. A new id is appended. A known id is replaced when the row is strictly later or strictly better graded. |
| Completed.CollectFallback | public/js/graphql.js:618-634 | The fallback loop keeps the first admitted project transaction of each path. |
| Completed.CompletedProjects | public/js/graphql.js:507-651 | The three stages and the final sort give the reference list. The fallback is used only when the first two stages find nothing, and a failed fallback leaves the list empty. |
| Completed.ProgressFirstWins | public/js/graphql.js:509-530 | The first admitted progress row of an id is the one listed. |
| Completed.ResultStepRule | public/js/graphql.js:536-567 | For any list and row: a row that is not admitted changes nothing, and an admitted row with a new id is appended. Otherwise only the first entry with that id may change. It becomes the row's entry exactly when the row is strictly later or strictly better graded. |
| Completed.ReplaceRuleExample | public/js/graphql.js:555-567 | A later result replaces the entry. An earlier result with the same grade does not. An earlier result with a better grade does. |
| Completed.MergedCovers | public/js/graphql.js:509-570 | Every admitted progress or result row has its id in the merged list. |
| Completed.CompletedFromStages | public/js/graphql.js:509-570 | When the first two stages find something, the answer has distinct ids. It holds only entries made from admitted rows, and it lists every admitted row's id. |
| Completed.CompletedFromFallback | public/js/graphql.js:600-647 | When they find nothing, the answer has distinct paths. It holds only entries made from admitted project transactions (grade 1, the transaction time), and it lists every such path. |
| Completed.CompletedFallbackFailed | public/js/graphql.js:636-639 | A failed fallback request leaves the answer empty. |
| Completed.FallbackIdsMayRepeat | public/js/graphql.js:620-630 | Two paths of one object are listed twice with the same id. |
| Completed.CompletedNewestFirst | public/js/graphql.js:642-647 | The answer is a permutation of the collected list, newest completion first. |
| Completed.UnknownNameNotExcluded | public/js/graphql.js:491-505 | When a path is not excluded on its own, the name "Unknown Project" does not exclude it either. |
| Completed.CompletedAdmissible | public/js/graphql.js:509-640 | Every listed project has a non-empty name, and neither its path alone nor its path with its name mentions an excluded word. |
| Sorting.SortPermutes | public/js/graphql.js:643-647 | The sort is a permutation of its input. |
| Sorting.SortDescending | public/js/graphql.js:643-647 | The sort orders by key, largest first. |
| Sorting.SortStable | public/js/graphql.js:643-647 | Entries with equal keys keep their input order. |
| Sorting.SortKeepsDistinct | public/js/graphql.js:643-647 | A list whose entries differ in some field still does after the sort. |
| Completed.SortKeepsIds | public/js/graphql.js:643-647 | The sort keeps the ids distinct, keeps each entry's origin, and loses no id. |
| Completed.SortKeepsPaths | public/js/graphql.js:643-647 | The sort keeps the paths distinct, keeps each entry's origin, and loses no path. |
| Scales.ScaleEnds | js/graphs.js:31-37 | The scale maps the domain ends to the range ends. |
| Scales.ScaleAffine | js/graphs.js:31-37 | The scale is affine: it maps a point a fraction t of the way from a to b to the same fraction of the way between their images. |
| Scales.ScaleStep | js/graphs.js:31-37 | Differences of images are differences of inputs times the slope. |
| Scales.ScaleIncreasing | js/graphs.js:31-37 | An increasing domain onto an increasing range preserves strict order. |
| Scales.ScaleDecreasing | js/graphs.js:31-37 | An increasing domain onto a decreasing range reverses strict order. |
| Scales.ScaleWithin | js/graphs.js:31-37 | A value inside the domain maps inside the range. |
| Scales.ExtentBounds | js/graphs.js:42-45 | On a non-empty array, `extent` bounds every value below and above, and both bounds are attained. |
| Scales.MaxBounds | js/graphs.js:50-52 | On a non-empty array, `max` bounds every value and is attained. |
| Scales.ExtentMax | js/graphs.js:42-52 | The upper end of `extent` is `max`. |
| Scales.TickHeight | js/graphs.js:95-98 | Tick k sits k fifths of the plot height above the axis. |
| Scales.TickSpacing | js/graphs.js:95-98 | Ticks are a fifth of the maximum apart in value and a fifth of the height apart on screen, from 0 at the axis to the maximum at the top. |
| Scales.YTicks | js/graphs.js:95-98 | The grid loop gives six ticks, evenly spaced from (0, height) to (max, 0), each placed by the Y scale. |
| Scales.XTickIndexBounds | js/graphs.js:158-162 | Every sampled index is in range, so the `idx < data.length` test always passes, and successive indices increase. |
| Scales.XTickIndices | js/graphs.js:158-178 | `min(5, n)` labelled indices, strictly increasing, starting at 0 and all below n. |
| Scales.BarLayout | js/graphs.js:274-306 | Each bar starts a tenth of a slot into its slot, is eight tenths of a slot wide, and has its top at the scaled value and its bottom on the axis. |
| Scales.BarHeight | js/graphs.js:295 | A bar's height is value / max of the plot height, and lies within the plot for a value in [0, max]. |
| Scales.BarsLaidOutInside | js/graphs.js:274-306 | Bars lie strictly inside the plot width, and each bar ends before every later bar begins, so no two overlap. Their heights are proportional to their values. |
| Scales.Truncate | js/graphs.js:322 | Names of at most 15 characters are kept. Longer ones become their first 15 characters followed by "...". |
| Scales.BarLabelFacts | js/graphs.js:313-322 | A bar label is non-empty, has no '/', starts with the first min(15, n) characters of the project's last path segment of length n (or of "Unknown"), is at most 18 characters long, and truncating it again changes nothing. |
| Scales.PieSlices | js/graphs.js:422-472 | The slice loop starts at the top. Each slice begins where the previous one ended and spans value / total of a turn. The large-arc flag is set exactly when the slice is more than half a turn. |
| Scales.LargeArcIff | js/graphs.js:440 | `angle > π` holds exactly when twice the value exceeds the total. |
| Scales.SlicesCoverTurn | js/graphs.js:422-472 | When the values add up to the total, the last slice ends one full turn after the first one starts. |
| Graphs.RenderXPOverTime | js/graphs.js:64-240 | No data draws the "No XP data available" message. A single date or a zero maximum draws NaN geometry. Otherwise each day is a point at its scaled date and cumulative XP, with the sampled X ticks and six Y ticks. |
| Graphs.LinePointsInside | js/graphs.js:88-150 | Every point lies inside the plot. |
| Graphs.LaterDaysRight | js/graphs.js:88-89 | A later day is drawn strictly further right. |
| Graphs.MoreXPHigher | js/graphs.js:91-92 | More cumulative XP is drawn strictly higher. |
| Graphs.RenderXPByProject | js/graphs.js:247-385 | No data draws the "No project data available" message. A zero maximum draws NaN geometry. Otherwise one bar and one truncated label per project, and six Y ticks. |
| Graphs.BarChartLaidOut | js/graphs.js:255-306 | A drawn bar chart has a non-zero maximum and one bar per project, laid out over the project totals. |
| Graphs.BarChartInside | js/graphs.js:274-306 | When the plot is wider than its margins, every bar of a drawn chart lies strictly inside it, and no two bars overlap. |
| Graphs.BarChartHeights | js/graphs.js:271-296 | When no project total is negative, every bar's height is its total's share of the maximum, times the plot height, and so lies within the plot. |
| Graphs.RenderPie | js/graphs.js:398-472 | Draws two slices, passed then failed, labelled with their counts, on a radius of min(width, 400)/2 - 60. |
| Graphs.RenderPassFailRatio | js/graphs.js:392-480 | The "No result data available" message is shown exactly when there is no data or the total is 0; otherwise the pass/fail pie. |
| Graphs.RenderAuditRatio | js/graphs.js:485-576 | The "No audit data available" message is shown exactly when there is no data or the total is 0. An absent total gives NaN geometry. Otherwise the audit pie. |
| Graphs.PieCoversTurn | js/graphs.js:422-472 | The two slices cover exactly one turn from the top, and each has the large-arc flag exactly when it holds more than half. |
| Graphs.PassFailPie | js/graphs.js:422-472 | The pass/fail counts of any results fill the pie exactly. |
| Graphs.AuditPie | js/graphs.js:515-576 | The audit counts of any non-empty list fill the pie exactly. |
| Dashboard.AuditRatioTextFacts | public/js/profile.js:89-91 | The text is a percentage exactly for a non-empty audit list, and that percentage is in [0, 100]. The default for a failed request shows "N/A". |
| Dashboard.CardName | public/js/profile.js:162 | A card's name is never empty. It is the project's name if it has one, otherwise the last '/'-free segment of its path, otherwise "Unknown Project". |
| Dashboard.ProjectsListingFacts | public/js/profile.js:147-171 | The "no completed projects" message appears exactly for an empty list; otherwise there is one card per project, in order. |
| Dashboard.CompletedCardsShowNames | public/js/profile.js:155-162 | The cards of the completed list show each project's own name. |
| Dashboard.LoadedViews | public/js/profile.js:54-69 | After the initial load, a fulfilled XP-over-time request holds a daily series, and a fulfilled XP-by-project request holds the top projects. A rejected one holds `[]`. |
| Dashboard.LoadTotalXP | public/js/profile.js:65 | The settled total, or 0. |
| Dashboard.LoadXPOverTime | public/js/profile.js:66 | The settled series, or `[]`. |
| Dashboard.LoadXPByProject | public/js/profile.js:67 | The settled top projects, or `[]`. |
| Dashboard.LoadAuditRatio | public/js/profile.js:68 | The settled summary, or the all-zero one. |
| Dashboard.LoadCompletedProjects | public/js/profile.js:69 | The settled completed list, or `[]`. |
| Dashboard.FetchPageData | public/js/profile.js:54-69 | The six settled results, each with its default in place of a rejection. |
| Dashboard.SeparateLookups | public/js/profile.js:54-65 | With no stored id, the page's own user query can fail while `getTotalXP`'s own lookup succeeds. The page then holds no user row next to a real total. |
| Dashboard.Profile.constructor | public/js/profile.js:3-7 | All three cache slots start `null` and nothing is shown. |
| Dashboard.Profile.ShowXPOverTime | public/js/profile.js:117-122 | An empty slot is filled by fetching; a full one is reused without a request. A failed fetch leaves the slot empty and shows the graph error. A held series is drawn as the XP-over-time chart. Nothing else changes. |
| Dashboard.Profile.ShowXPByProject | public/js/profile.js:124-129 | The same, for the XP-by-project slot and chart. |
| Dashboard.Profile.ShowAuditRatio | public/js/profile.js:131-136 | The same, for the audit slot and pie. |
| Dashboard.Profile.RenderGraph | public/js/profile.js:112-145 | Dispatches on the three graph names and shows "Unknown graph type" for any other. Slots only go from `null` to a value, and a fully cached page makes no request. Every case leaves the page's text fields alone. |
| Dashboard.Profile.ShowPageData | public/js/profile.js:78-95 | Fills the three slots, the total, the audit-ratio text and the project cards. The login and id change only when a user row was returned. |
| Dashboard.Profile.LoadProfileData | public/js/profile.js:43-110 | Issues the six requests. The slots hold the loaded views and the texts show the loaded figures. The XP-over-time chart of the loaded series is drawn. |

## Left out

- The HTTP transport (`executeQuery`), the query texts, the 30-second abort and authentication headers are not modelled. How each request settles is an input (`Queries.Session`), as is the row order the XP-over-time query asks for.
- Each user lookup is an input too: the page's own `getUserInfo()` call, and the one each getter makes when no id is stored, which may settle differently. Storing the id in `localStorage` is not modelled. A view that the graph switcher fetches again settles as the initial load's request did, and an id stored meanwhile is not fed to it.
- `getProgressInfo` is not used by the page and is not part of this model; neither are `auth.js`, `config.js`, the login page or `js/profile.js`.
- Concurrency: `Promise.allSettled` is modelled as the six getters settling independently; interleavings are not.
- Dates: `toISOString`, `toLocaleString`, `toLocaleDateString` and `formatDate` are not modelled as text. A day is the integer day number, and `new Date(day)` is that day's midnight in milliseconds.
- Floating point: every chart coordinate and percentage is an exact real. `toFixed(1)` is rounding to tenths with halves upwards, and its string result is the number it spells.
- Trigonometry: slice end points use `Math.cos`/`Math.sin`. They are not modelled, and slices are kept as angles in turns.
- `parseInt` reads an optional sign and leading decimal digits; leading whitespace and other radices are not modelled.
- `toLowerCase` is ASCII-only in the model.
- String lengths and substrings count characters, whereas JavaScript counts UTF-16 code units. `Scales.Truncate`, `Scales.BarLabel`, `Text.LastSegment` and `Dashboard.CardName` therefore agree with the source only for names without characters outside the Basic Multilingual Plane. For such a name the source cuts at a different place and may split a surrogate pair, which the model cannot represent.
- Object key order: `Object.values` on the date and path dictionaries is modelled as insertion order. For an integer-like path key JavaScript would list it first.
- `extent`/`max` on an empty array (±Infinity) are not reached, because every renderer returns its message first; `Scales.Extent` and `Scales.Max` require a non-empty array.
- The SVG and DOM output (elements, colours, titles, axis lines, the area path, the `cos`/`sin` placement of the slice labels, the percentage labels under them, the audit title with its ratio, `escapeHtml`) is not modelled. A chart is its `Graphs.Scene`.
- Scenes with `NaN` coordinates are one `NaNGeometry` value, not the NaN numbers themselves.
- `Array.prototype.sort` is modelled on values, as a stable sort returning a new sequence; sorting in place and aliasing of the sorted array are not modelled.
- The loading indicator, the error panel of `loadProfileData`, button wiring, console logging and exceptions thrown by a renderer are not modelled.
