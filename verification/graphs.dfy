/** The four chart renderers. Each one either leaves a placeholder message
  * in its container or draws a chart; the model returns what is drawn as a
  * `Scene`. Where the source divides by a zero-width scale domain (a single
  * date, a zero maximum, an absent total) the SVG it draws has `NaN`
  * coordinates; the model reports that outcome as `NaNGeometry`. */
module Graphs {
  import opened Common
  import opened Text
  import opened Records
  import opened Aggregation
  import opened Scales

  /** The SVG is always 400 units high. */
  const SvgHeight: real := 400.0

  /** `container.clientWidth || 800`. */
  function ContainerWidth(clientWidth: real): real {
    if clientWidth == 0.0 then 800.0 else clientWidth
  }

  datatype Point = Point(x: real, y: real)

  datatype Scene =
    | Placeholder(message: string)
    | NaNGeometry
    /** The XP-over-time chart: plot size, one point per day, the indices of
      * the days labelled on the X axis, and the Y grid/ticks. */
    | LineChart(width: real, height: real, points: seq<Point>, xTicks: seq<nat>, yTicks: seq<Tick>)
    /** The XP-by-project chart: plot size, one bar and one label per project,
      * and the Y grid/ticks. */
    | BarChart(width: real, height: real, bars: seq<Bar>, labels: seq<string>, yTicks: seq<Tick>)
    /** A pie: its radius, one slice and one `label: value` text per slice. */
    | PieChart(radius: real, slices: seq<Slice>, labels: seq<string>)

  const NoXPData: string := "No XP data available"
  const NoProjectData: string := "No project data available"
  const NoResultData: string := "No result data available"
  const NoAuditData: string := "No audit data available"

  // ---------------------------------------------------------------------------
  // XP over time
  // ---------------------------------------------------------------------------

  /** Margins left 80 and right 40; top 40 and bottom 60 of the 400 units. */
  const LinePlotHeight: real := 300.0

  /** `new Date(d.date).getTime()`: midnight UTC of the day, in milliseconds. */
  function DateMs(d: DailyXP): real { (d.date * MsPerDay) as real }

  function CumulativeXP(d: DailyXP): real { d.cumulative as real }

  /** What `renderXPOverTime` draws: the placeholder for no data; otherwise
    * each day at its scaled date and cumulative XP, the sampled X ticks and
    * the six Y ticks. */
  ghost predicate IsXPOverTimeScene(data: seq<DailyXP>, clientWidth: real, s: Scene) {
    if data == [] then s == Placeholder(NoXPData)
    else
      var width := ContainerWidth(clientWidth) - 120.0;
      var dates := Extent(data, DateMs);
      var maxXP := Max(data, CumulativeXP);
      if dates.0 == dates.1 || maxXP == 0.0 then s == NaNGeometry
      else
        && s.LineChart? && s.width == width && s.height == LinePlotHeight
        && |s.points| == |data|
        && (forall i :: 0 <= i < |data| ==>
              s.points[i] == Point(LinearScale(dates.0, dates.1, 0.0, width, DateMs(data[i])),
                                   LinearScale(0.0, maxXP, LinePlotHeight, 0.0, CumulativeXP(data[i]))))
        && |s.xTicks| == Min(5, |data|)
        && (forall i :: 0 <= i < |s.xTicks| ==> s.xTicks[i] == XTickIndex(i, |data|))
        && |s.yTicks| == YTickCount + 1
        && (forall i :: 0 <= i < |s.yTicks| ==> s.yTicks[i] == TickAt(maxXP, LinePlotHeight, i))
  }

  /** `renderXPOverTime(data, container)`. */
  method RenderXPOverTime(data: seq<DailyXP>, clientWidth: real) returns (s: Scene)
    ensures IsXPOverTimeScene(data, clientWidth, s)
  {
    if |data| == 0 {
      return Placeholder(NoXPData);
    }
    var width := ContainerWidth(clientWidth) - 120.0;
    var height := LinePlotHeight;
    var dateExtent := Extent(data, DateMs);
    var maxXP := Max(data, CumulativeXP);
    if dateExtent.0 == dateExtent.1 || maxXP == 0.0 {
      return NaNGeometry;
    }
    var yTicks := YTicks(maxXP, height);
    var points: seq<Point> := [];
    for i := 0 to |data|
      invariant |points| == i
      invariant forall k :: 0 <= k < i ==> points[k] == Point(LinearScale(dateExtent.0, dateExtent.1, 0.0, width, DateMs(data[k])),
                                                   LinearScale(0.0, maxXP, height, 0.0, CumulativeXP(data[k])))
    {
      points := points + [Point(LinearScale(dateExtent.0, dateExtent.1, 0.0, width, DateMs(data[i])),
                              LinearScale(0.0, maxXP, height, 0.0, CumulativeXP(data[i])))];
    }
    var xTicks := XTickIndices(|data|);
    s := LineChart(width, height, points, xTicks, yTicks);
  }

  /** With a positive plot width and no negative running total, every point
    * of the line chart lies inside the plot area. */
  lemma LinePointsInside(data: seq<DailyXP>, clientWidth: real, s: Scene, i: nat)
    requires IsXPOverTimeScene(data, clientWidth, s) && s.LineChart?
    requires s.width >= 0.0 && i < |data|
    requires forall k :: 0 <= k < |data| ==> data[k].cumulative >= 0
    ensures 0.0 <= s.points[i].x <= s.width
    ensures 0.0 <= s.points[i].y <= LinePlotHeight
  {
    var dates := Extent(data, DateMs);
    var maxXP := Max(data, CumulativeXP);
    ExtentBounds(data, DateMs);
    MaxBounds(data, CumulativeXP);
    assert data[0].cumulative >= 0;
    ScaleWithin(dates.0, dates.1, 0.0, s.width, DateMs(data[i]));
    ScaleWithin(0.0, maxXP, LinePlotHeight, 0.0, CumulativeXP(data[i]));
  }

  /** Later days are drawn further right. */
  lemma LaterDaysRight(data: seq<DailyXP>, clientWidth: real, s: Scene, i: nat, j: nat)
    requires IsXPOverTimeScene(data, clientWidth, s) && s.LineChart?
    requires s.width > 0.0 && i < |data| && j < |data|
    requires data[i].date < data[j].date
    ensures s.points[i].x < s.points[j].x
  {
    var dates := Extent(data, DateMs);
    assert DateMs(data[i]) < DateMs(data[j]);
    ScaleIncreasing(dates.0, dates.1, 0.0, s.width, DateMs(data[i]), DateMs(data[j]));
  }

  /** With no negative running total, a day with more XP so far is drawn
    * higher up (a smaller `y`). */
  lemma MoreXPHigher(data: seq<DailyXP>, clientWidth: real, s: Scene, i: nat, j: nat)
    requires IsXPOverTimeScene(data, clientWidth, s) && s.LineChart?
    requires i < |data| && j < |data|
    requires forall k :: 0 <= k < |data| ==> data[k].cumulative >= 0
    requires data[i].cumulative < data[j].cumulative
    ensures s.points[i].y > s.points[j].y
  {
    var maxXP := Max(data, CumulativeXP);
    MaxBounds(data, CumulativeXP);
    assert maxXP >= CumulativeXP(data[0]) >= 0.0;
    ScaleDecreasing(0.0, maxXP, LinePlotHeight, 0.0, CumulativeXP(data[i]), CumulativeXP(data[j]));
  }

  // ---------------------------------------------------------------------------
  // XP by project
  // ---------------------------------------------------------------------------

  /** Margins left 80 and right 40; top 40 and bottom 120 of the 400 units. */
  const BarPlotHeight: real := 240.0

  function ProjectXPValue(d: ProjectXP): real { d.xp as real }

  /** The bar values, in chart order. */
  function XPValues(data: seq<ProjectXP>): (values: seq<real>)
    ensures |values| == |data|
    ensures forall i :: 0 <= i < |data| ==> values[i] == data[i].xp as real
  {
    seq(|data|, i requires 0 <= i < |data| => data[i].xp as real)
  }

  /** What `renderXPByProject` draws: the placeholder for no data; otherwise
    * one bar per project laid out across the plot, one truncated label per
    * bar, and the six Y ticks. */
  ghost predicate IsXPByProjectScene(data: seq<ProjectXP>, clientWidth: real, s: Scene) {
    if data == [] then s == Placeholder(NoProjectData)
    else
      var width := ContainerWidth(clientWidth) - 120.0;
      var maxXP := Max(data, ProjectXPValue);
      if maxXP == 0.0 then s == NaNGeometry
      else
        && s.BarChart? && s.width == width && s.height == BarPlotHeight
        && BarsLaidOut(s.bars, XPValues(data), width, BarPlotHeight, maxXP)
        && |s.labels| == |data|
        && (forall i :: 0 <= i < |data| ==> s.labels[i] == BarLabel(data[i].path))
        && |s.yTicks| == YTickCount + 1
        && (forall i :: 0 <= i < |s.yTicks| ==> s.yTicks[i] == TickAt(maxXP, BarPlotHeight, i))
  }

  /** `renderXPByProject(data, container)`. */
  method RenderXPByProject(data: seq<ProjectXP>, clientWidth: real) returns (s: Scene)
    ensures IsXPByProjectScene(data, clientWidth, s)
  {
    if |data| == 0 {
      return Placeholder(NoProjectData);
    }
    var labels := seq(|data|, i requires 0 <= i < |data| => BarLabel(data[i].path));
    var width := ContainerWidth(clientWidth) - 120.0;
    var height := BarPlotHeight;
    var maxXP := Max(data, ProjectXPValue);
    if maxXP == 0.0 {
      return NaNGeometry;
    }
    var yTicks := YTicks(maxXP, height);
    var bars := BarLayout(XPValues(data), width, height, maxXP);
    s := BarChart(width, height, bars, labels, yTicks);
  }

  /** A drawn bar chart has one bar per project, laid out over the project
    * totals, so `BarsLaidOutInside` applies to its bars. */
  lemma BarChartLaidOut(data: seq<ProjectXP>, clientWidth: real, s: Scene)
    requires IsXPByProjectScene(data, clientWidth, s) && s.BarChart?
    ensures |data| > 0 && Max(data, ProjectXPValue) != 0.0
    ensures BarsLaidOut(s.bars, XPValues(data), s.width, BarPlotHeight, Max(data, ProjectXPValue))
    ensures |s.bars| == |data|
  {
  }

  /** When the plot of a drawn bar chart is wider than its margins, every bar
    * lies inside it and no two bars overlap. */
  lemma BarChartInside(data: seq<ProjectXP>, clientWidth: real, s: Scene)
    requires IsXPByProjectScene(data, clientWidth, s) && s.BarChart? && s.width > 0.0
    ensures forall i :: 0 <= i < |s.bars| ==> 0.0 < s.bars[i].x && s.bars[i].x + s.bars[i].width < s.width
    ensures forall i, j :: 0 <= i < j < |s.bars| ==> s.bars[i].x + s.bars[i].width < s.bars[j].x
  {
    BarChartLaidOut(data, clientWidth, s);
    BarsApartInside(s.bars, XPValues(data), s.width, BarPlotHeight, Max(data, ProjectXPValue));
  }

  /** With no negative total, every bar value lies between 0 and the maximum. */
  lemma ValuesWithinMax(data: seq<ProjectXP>)
    requires |data| > 0 && forall i :: 0 <= i < |data| ==> data[i].xp >= 0
    ensures forall i :: 0 <= i < |data| ==> 0.0 <= XPValues(data)[i] <= Max(data, ProjectXPValue)
  {
    var m := Max(data, ProjectXPValue);
    MaxBounds(data, ProjectXPValue);
    forall i | 0 <= i < |data|
      ensures 0.0 <= XPValues(data)[i] <= m
    {
      assert ProjectXPValue(data[i]) <= m;
    }
  }

  /** When no project total of a drawn bar chart is negative, every bar's
    * height is its total's share of the plot height. */
  lemma BarChartHeights(data: seq<ProjectXP>, clientWidth: real, s: Scene)
    requires IsXPByProjectScene(data, clientWidth, s) && s.BarChart?
    requires forall i :: 0 <= i < |data| ==> data[i].xp >= 0
    ensures |s.bars| == |data|
    ensures forall i :: 0 <= i < |s.bars| ==>
      && 0.0 <= s.bars[i].height <= BarPlotHeight
      && s.bars[i].height == data[i].xp as real / Max(data, ProjectXPValue) * BarPlotHeight
  {
    BarChartLaidOut(data, clientWidth, s);
    var values := XPValues(data);
    var m := Max(data, ProjectXPValue);
    ValuesWithinMax(data);
    BarHeights(s.bars, values, s.width, BarPlotHeight, m);
  }

  // ---------------------------------------------------------------------------
  // Pies
  // ---------------------------------------------------------------------------

  /** `Math.min(width, 400) / 2 - 60`. */
  function PieRadius(clientWidth: real): real {
    MinReal(ContainerWidth(clientWidth), SvgHeight) / 2.0 - 60.0
  }

  /** The two slice labels `Passed: n` and `Failed: m`. */
  function PieLabels(passed: nat, failed: nat): seq<string> {
    ["Passed: " + IntString(passed), "Failed: " + IntString(failed)]
  }

  /** A passed/failed pie over a non-zero total. */
  ghost predicate IsPie(passed: nat, failed: nat, total: nat, clientWidth: real, s: Scene)
    requires total != 0
  {
    && s.PieChart? && s.radius == PieRadius(clientWidth)
    && PieLaidOut(s.slices, [passed as real, failed as real], total as real, s.radius)
    && s.labels == PieLabels(passed, failed)
  }

  /** The slice loop shared by the two pie renderers. */
  method RenderPie(passed: nat, failed: nat, total: nat, clientWidth: real) returns (s: Scene)
    requires total != 0
    ensures IsPie(passed, failed, total, clientWidth, s)
  {
    var radius := PieRadius(clientWidth);
    var slices := PieSlices([passed as real, failed as real], total as real, radius);
    s := PieChart(radius, slices, PieLabels(passed, failed));
  }

  /** `renderPassFailRatio(data, container)`: the placeholder when there is
    * no data or the total is 0, the pie otherwise. */
  method RenderPassFailRatio(data: Option<PassFail>, clientWidth: real) returns (s: Scene)
    ensures data.None? || data.value.total == 0 <==> s == Placeholder(NoResultData)
    ensures data.Some? && data.value.total != 0 ==>
      IsPie(data.value.passed, data.value.failed, data.value.total, clientWidth, s)
  {
    if data.None? || data.value.total == 0 {
      return Placeholder(NoResultData);
    }
    s := RenderPie(data.value.passed, data.value.failed, data.value.total, clientWidth);
  }

  /** `renderAuditRatio(data, container)`: the placeholder when there is no
    * data or the total is 0. A summary without a total (no audit at all)
    * passes the guard and divides by an undefined total. */
  method RenderAuditRatio(data: Option<AuditSummary>, clientWidth: real) returns (s: Scene)
    ensures data.None? || data.value.total == Some(0) <==> s == Placeholder(NoAuditData)
    ensures data.Some? && data.value.total.None? ==> s == NaNGeometry
    ensures data.Some? && data.value.total.Some? && data.value.total.value != 0 ==>
      IsPie(data.value.passed, data.value.failed, data.value.total.value, clientWidth, s)
  {
    if data.None? || data.value.total == Some(0) {
      return Placeholder(NoAuditData);
    }
    if data.value.total.None? {
      return NaNGeometry;
    }
    s := RenderPie(data.value.passed, data.value.failed, data.value.total.value, clientWidth);
  }

  /** When passed and failed make up the total, the two slices cover exactly
    * one turn, and the passed slice takes the long arc exactly when more than
    * half passed. */
  lemma PieCoversTurn(passed: nat, failed: nat, total: nat, clientWidth: real, s: Scene)
    requires total != 0 && passed + failed == total
    requires IsPie(passed, failed, total, clientWidth, s)
    ensures s.slices[0].start == StartAngle && s.slices[1].end == StartAngle + 1.0
    ensures s.slices[0].largeArc <==> 2 * passed > total
    ensures s.slices[1].largeArc <==> 2 * failed > total
  {
    SumRealPair(passed as real, failed as real);
    SlicesCoverTurn([passed as real, failed as real], total as real);
    LargeArcIff(passed as real, total as real);
    LargeArcIff(failed as real, total as real);
  }

  /** The pie of every pass/fail summary the aggregation produces covers
    * exactly one turn. */
  lemma PassFailPie(results: seq<GradedResult>, clientWidth: real, s: Scene)
    requires PassFailOf(results).total != 0
    requires IsPie(PassFailOf(results).passed, PassFailOf(results).failed, PassFailOf(results).total, clientWidth, s)
    ensures s.slices[0].start == StartAngle && s.slices[1].end == StartAngle + 1.0
  {
    var d := PassFailOf(results);
    PassFailFacts(results);
    PieCoversTurn(d.passed, d.failed, d.total, clientWidth, s);
  }

  /** The pie of the audit summary of a non-empty audit list covers exactly
    * one turn. */
  lemma AuditPie(audits: seq<Audit>, clientWidth: real, s: Scene)
    requires |audits| > 0
    requires IsPie(AuditSummaryOf(audits).passed, AuditSummaryOf(audits).failed, |audits|, clientWidth, s)
    ensures s.slices[0].start == StartAngle && s.slices[1].end == StartAngle + 1.0
  {
    var d := AuditSummaryOf(audits);
    PieCoversTurn(d.passed, d.failed, |audits|, clientWidth, s);
  }
}
