/** The reductions the aggregation engine applies to the record lists returned
  * by the query service: total XP, XP over time, XP by project, the audit
  * ratio and the pass/fail ratio. Each query's list is an input; a list the
  * service leaves out is modelled as the empty list, which every reduction
  * treats the same way. */
module Aggregation {
  import opened Common
  import opened Records
  import opened Text
  import opened Sorting

  // ---------------------------------------------------------------------------
  // Total XP
  // ---------------------------------------------------------------------------

  /** `transactions.reduce((sum, t) => sum + (t.amount || 0), 0)`, with `0`
    * for an empty list. */
  function TotalXP(txs: seq<Transaction>): int
  {
    if txs == [] then 0 else TotalXP(txs[..|txs| - 1]) + txs[|txs| - 1].amount
  }

  // ---------------------------------------------------------------------------
  // XP over time
  // ---------------------------------------------------------------------------

  const MsPerDay: int := 86_400_000

  /** The UTC calendar day of a timestamp, as days since the epoch (the day
    * part of `toISOString()`). */
  function Day(ts: int): int { ts / MsPerDay }

  /** The order the XP-over-time query asks for (`order_by: { createdAt: asc }`). */
  ghost predicate SortedByTime(txs: seq<Transaction>) {
    forall i, j :: 0 <= i <= j < |txs| ==> txs[i].createdAt <= txs[j].createdAt
  }

  /** The XP earned on day `d`. */
  function DayTotal(txs: seq<Transaction>, d: int): int
  {
    if txs == [] then 0
    else DayTotal(txs[..|txs| - 1], d) + (if Day(txs[|txs| - 1].createdAt) == d then txs[|txs| - 1].amount else 0)
  }

  /** The XP earned up to the end of day `d`. */
  function XPThrough(txs: seq<Transaction>, d: int): int
  {
    if txs == [] then 0
    else XPThrough(txs[..|txs| - 1], d) + (if Day(txs[|txs| - 1].createdAt) <= d then txs[|txs| - 1].amount else 0)
  }

  /** The days on which some transaction happened. */
  function Days(txs: seq<Transaction>): set<int>
  {
    if txs == [] then {} else Days(txs[..|txs| - 1]) + {Day(txs[|txs| - 1].createdAt)}
  }

  /** What the XP-over-time view promises about its points: one per day that
    * has a transaction, in increasing date order, each with the XP of its day
    * and the XP earned up to the end of its day. */
  ghost predicate IsDailySeries(txs: seq<Transaction>, r: seq<DailyXP>) {
    && (forall i, j :: 0 <= i < j < |r| ==> r[i].date < r[j].date)
    && (forall i :: 0 <= i < |r| ==>
          r[i].xp == DayTotal(txs, r[i].date) && r[i].cumulative == XPThrough(txs, r[i].date))
    && (forall d :: d in Days(txs) <==> exists i :: 0 <= i < |r| && r[i].date == d)
  }

  lemma DayMonotone(a: int, b: int)
    requires a <= b
    ensures Day(a) <= Day(b)
  {
    var qa, qb := a / MsPerDay, b / MsPerDay;
    assert qa * MsPerDay <= a;
    assert b < qb * MsPerDay + MsPerDay;
  }

  lemma {:induction false} InDays(txs: seq<Transaction>, d: int)
    ensures d in Days(txs) <==> exists j :: 0 <= j < |txs| && Day(txs[j].createdAt) == d
  {
    if txs != [] {
      var init := txs[..|txs| - 1];
      InDays(init, d);
      if d in Days(init) {
        var j :| 0 <= j < |init| && Day(init[j].createdAt) == d;
        assert txs[j] == init[j];
      }
      if exists j :: 0 <= j < |txs| && Day(txs[j].createdAt) == d {
        var j :| 0 <= j < |txs| && Day(txs[j].createdAt) == d;
        if j < |init| { assert init[j] == txs[j]; }
      }
    }
  }

  lemma {:induction false} DayTotalOutside(txs: seq<Transaction>, d: int)
    requires d !in Days(txs)
    ensures DayTotal(txs, d) == 0
  {
    if txs != [] {
      DayTotalOutside(txs[..|txs| - 1], d);
    }
  }

  /** When no transaction is later than day `d`, the XP up to `d` is all of it. */
  lemma {:induction false} XPThroughAll(txs: seq<Transaction>, d: int)
    requires forall j :: 0 <= j < |txs| ==> Day(txs[j].createdAt) <= d
    ensures XPThrough(txs, d) == TotalXP(txs)
  {
    if txs != [] {
      XPThroughAll(txs[..|txs| - 1], d);
    }
  }

  /** Adding one transaction at the end changes a day's XP and the running
    * total only by that transaction's amount. */
  lemma SnocTotals(txs: seq<Transaction>, i: nat, d: int)
    requires i < |txs|
    ensures DayTotal(txs[..i + 1], d) ==
      DayTotal(txs[..i], d) + (if Day(txs[i].createdAt) == d then txs[i].amount else 0)
    ensures XPThrough(txs[..i + 1], d) ==
      XPThrough(txs[..i], d) + (if Day(txs[i].createdAt) <= d then txs[i].amount else 0)
    ensures TotalXP(txs[..i + 1]) == TotalXP(txs[..i]) + txs[i].amount
    ensures Days(txs[..i + 1]) == Days(txs[..i]) + {Day(txs[i].createdAt)}
  {
    assert txs[..i + 1][..i] == txs[..i];
  }

  /** In time order, the day of the next transaction is not before any day met so far. */
  lemma DaysBefore(txs: seq<Transaction>, i: nat)
    requires SortedByTime(txs) && i < |txs|
    ensures forall j :: 0 <= j <= i ==> Day(txs[j].createdAt) <= Day(txs[i].createdAt)
    ensures forall d :: d in Days(txs[..i]) ==> d <= Day(txs[i].createdAt)
  {
    forall j | 0 <= j <= i ensures Day(txs[j].createdAt) <= Day(txs[i].createdAt) {
      DayMonotone(txs[j].createdAt, txs[i].createdAt);
    }
    forall d | d in Days(txs[..i]) ensures d <= Day(txs[i].createdAt) {
      InDays(txs[..i], d);
      var j :| 0 <= j < i && Day(txs[..i][j].createdAt) == d;
      assert txs[..i][j] == txs[j];
    }
  }

  /** The days with a transaction, each once, in the order they are first met. */
  function FirstSeenDays(txs: seq<Transaction>): seq<int>
  {
    if txs == [] then []
    else
      var prev := FirstSeenDays(txs[..|txs| - 1]);
      var d := Day(txs[|txs| - 1].createdAt);
      if d in prev then prev else prev + [d]
  }

  /** The first-seen days are the days with a transaction, and in time order
    * they are met in increasing order. */
  lemma {:induction false} FirstSeenDaysFacts(txs: seq<Transaction>)
    ensures forall d :: d in FirstSeenDays(txs) <==> d in Days(txs)
    ensures SortedByTime(txs) ==>
      forall a, b :: 0 <= a < b < |FirstSeenDays(txs)| ==> FirstSeenDays(txs)[a] < FirstSeenDays(txs)[b]
  {
    if txs != [] {
      var init := txs[..|txs| - 1];
      FirstSeenDaysFacts(init);
      var prev := FirstSeenDays(init);
      var d := Day(txs[|txs| - 1].createdAt);
      if SortedByTime(txs) {
        assert SortedByTime(init) by {
          forall i, j | 0 <= i <= j < |init| ensures init[i].createdAt <= init[j].createdAt {
            assert init[i] == txs[i] && init[j] == txs[j];
          }
        }
        if d !in prev {
          DaysBefore(txs, |txs| - 1);
          forall a | 0 <= a < |prev| ensures prev[a] < d {
            assert prev[a] in prev;
          }
        }
      }
    }
  }

  /** The reference definition of the XP-over-time series: for each day met,
    * in that order, its XP and the XP earned up to the end of it. */
  function DailySeriesOf(txs: seq<Transaction>): seq<DailyXP>
  {
    var days := FirstSeenDays(txs);
    seq(|days|, k requires 0 <= k < |days| => DailyXP(days[k], DayTotal(txs, days[k]), XPThrough(txs, days[k])))
  }

  /** In time order, the reference series is a daily series: one point per
    * day with a transaction, dates increasing, each with its day's XP and
    * the XP through it. */
  lemma DailySeriesOfIsSeries(txs: seq<Transaction>)
    requires SortedByTime(txs)
    ensures IsDailySeries(txs, DailySeriesOf(txs))
  {
    var r := DailySeriesOf(txs);
    var days := FirstSeenDays(txs);
    FirstSeenDaysFacts(txs);
    forall d ensures d in Days(txs) <==> exists i :: 0 <= i < |r| && r[i].date == d {
      if d in Days(txs) {
        var k :| 0 <= k < |days| && days[k] == d;
        assert r[k].date == d;
      }
    }
  }

  /** One step of the grouping loop: adding the next transaction to its day's
    * entry (made empty first when the day is new) keeps every entry equal to
    * that day's XP and running total, and the insertion order the order in
    * which the days are first met. */
  lemma DayStep(txs: seq<Transaction>, i: nat, m: map<int, DailyXP>, order: seq<int>,
                m': map<int, DailyXP>, order': seq<int>)
    requires SortedByTime(txs) && i < |txs|
    requires m.Keys == Days(txs[..i])
    requires order == FirstSeenDays(txs[..i])
    requires forall d :: d in m <==> d in order
    requires forall d :: d in m ==> m[d] == DailyXP(d, DayTotal(txs[..i], d), XPThrough(txs[..i], d))
    requires var date := Day(txs[i].createdAt);
      var m0 := if date in m then m else m[date := DailyXP(date, 0, 0)];
      && order' == (if date in m then order else order + [date])
      && m' == m0[date := m0[date].(xp := m0[date].xp + txs[i].amount,
                                     cumulative := TotalXP(txs[..i + 1]))]
    ensures m'.Keys == Days(txs[..i + 1])
    ensures order' == FirstSeenDays(txs[..i + 1])
    ensures forall d :: d in m' <==> d in order'
    ensures forall d :: d in m' ==>
      m'[d] == DailyXP(d, DayTotal(txs[..i + 1], d), XPThrough(txs[..i + 1], d))
  {
    var date := Day(txs[i].createdAt);
    assert txs[..i + 1][..i] == txs[..i];
    DaysBefore(txs, i);
    SnocTotals(txs, i, date);
    if date !in m {
      DayTotalOutside(txs[..i], date);
    }
    XPThroughAll(txs[..i + 1], date);
    forall d | d in m'
      ensures m'[d] == DailyXP(d, DayTotal(txs[..i + 1], d), XPThrough(txs[..i + 1], d))
    {
      SnocTotals(txs, i, d);
      if d != date {
        assert d in m && d <= date;
      }
    }
  }

  /** `getXPOverTime`: groups the transactions by UTC day in a dictionary,
    * keeping a running total. The query orders the transactions by
    * `createdAt`; under that order the days are met in increasing order, so
    * the final sort by date leaves the dictionary's insertion order as it is. */
  method XPOverTime(txs: seq<Transaction>) returns (r: seq<DailyXP>)
    requires SortedByTime(txs)
    ensures r == DailySeriesOf(txs)
    ensures IsDailySeries(txs, r)
  {
    var xpByDate: map<int, DailyXP> := map[];
    var order: seq<int> := [];  // the dictionary's insertion order
    var cumulative := 0;
    for i := 0 to |txs|
      invariant cumulative == TotalXP(txs[..i])
      invariant xpByDate.Keys == Days(txs[..i])
      invariant order == FirstSeenDays(txs[..i])
      invariant forall d :: d in xpByDate <==> d in order
      invariant forall d :: d in xpByDate ==>
        xpByDate[d] == DailyXP(d, DayTotal(txs[..i], d), XPThrough(txs[..i], d))
    {
      var t := txs[i];
      var date := Day(t.createdAt);
      ghost var before, orderBefore := xpByDate, order;
      SnocTotals(txs, i, date);
      cumulative := cumulative + t.amount;
      if date !in xpByDate {
        xpByDate := xpByDate[date := DailyXP(date, 0, 0)];
        order := order + [date];
      }
      var entry := xpByDate[date];
      xpByDate := xpByDate[date := entry.(xp := entry.xp + t.amount, cumulative := cumulative)];
      DayStep(txs, i, before, orderBefore, xpByDate, order);
    }
    assert txs[..|txs|] == txs;
    DictionaryInOrder(txs, xpByDate, order);
    r := seq(|order|, k requires 0 <= k < |order| => xpByDate[order[k]]);
    DailySeriesOfIsSeries(txs);
  }

  /** The dictionary of days, read in insertion order, is the reference series. */
  lemma DictionaryInOrder(txs: seq<Transaction>, xpByDate: map<int, DailyXP>, order: seq<int>)
    requires order == FirstSeenDays(txs)
    requires forall d :: d in xpByDate <==> d in order
    requires forall d :: d in xpByDate ==>
      xpByDate[d] == DailyXP(d, DayTotal(txs, d), XPThrough(txs, d))
    ensures forall k :: 0 <= k < |order| ==> order[k] in xpByDate
    ensures seq(|order|, k requires 0 <= k < |order| => xpByDate[order[k]]) == DailySeriesOf(txs)
  {
    forall k | 0 <= k < |order| ensures order[k] in xpByDate {
      var d := order[k];
      assert d in order;
      assert d in xpByDate;
    }
  }

  lemma {:induction false} DayTotalNonNegative(txs: seq<Transaction>, d: int)
    requires forall j :: 0 <= j < |txs| ==> txs[j].amount >= 0
    ensures DayTotal(txs, d) >= 0
  {
    if txs != [] {
      DayTotalNonNegative(txs[..|txs| - 1], d);
    }
  }

  /** Between two days with no transaction strictly between them, the running
    * total grows by exactly the later day's XP. */
  lemma {:induction false} XPThroughStep(txs: seq<Transaction>, d: int, e: int)
    requires d < e
    requires forall j :: 0 <= j < |txs| ==> !(d < Day(txs[j].createdAt) < e)
    ensures XPThrough(txs, e) == XPThrough(txs, d) + DayTotal(txs, e)
  {
    if txs != [] {
      XPThroughStep(txs[..|txs| - 1], d, e);
    }
  }

  /** Before the first day with a transaction the running total is the XP of
    * that first day. */
  lemma {:induction false} XPThroughFirst(txs: seq<Transaction>, e: int)
    requires forall j :: 0 <= j < |txs| ==> Day(txs[j].createdAt) >= e
    ensures XPThrough(txs, e) == DayTotal(txs, e)
  {
    if txs != [] {
      XPThroughFirst(txs[..|txs| - 1], e);
    }
  }

  /** The sum of the `xp` fields of the first `n` points. */
  function SumDaily(r: seq<DailyXP>, n: nat): int
    requires n <= |r|
  {
    if n == 0 then 0 else SumDaily(r, n - 1) + r[n - 1].xp
  }

  /** Each point's `cumulative` is the running total of the series' `xp`
    * fields through that point: the first equals its own `xp` and each next
    * one adds its `xp`. */
  lemma {:induction false} CumulativeIsRunningTotal(txs: seq<Transaction>, r: seq<DailyXP>, n: nat)
    requires IsDailySeries(txs, r)
    requires 0 < n <= |r|
    ensures r[n - 1].cumulative == SumDaily(r, n)
  {
    var e := r[n - 1].date;
    forall j | 0 <= j < |txs| ensures n == 1 ==> Day(txs[j].createdAt) >= e {
      InDays(txs, Day(txs[j].createdAt));
      var k :| 0 <= k < |r| && r[k].date == Day(txs[j].createdAt);
    }
    if n == 1 {
      XPThroughFirst(txs, e);
    } else {
      var d := r[n - 2].date;
      forall j | 0 <= j < |txs| ensures !(d < Day(txs[j].createdAt) < e) {
        InDays(txs, Day(txs[j].createdAt));
        var k :| 0 <= k < |r| && r[k].date == Day(txs[j].createdAt);
      }
      XPThroughStep(txs, d, e);
      CumulativeIsRunningTotal(txs, r, n - 1);
    }
  }

  /** The `xp` fields of the series add up to the total XP, and so does the
    * last `cumulative`. */
  lemma DailySeriesSumsToTotal(txs: seq<Transaction>, r: seq<DailyXP>)
    requires IsDailySeries(txs, r)
    ensures SumDaily(r, |r|) == TotalXP(txs)
    ensures |r| > 0 ==> r[|r| - 1].cumulative == TotalXP(txs)
  {
    if |r| == 0 {
      if txs != [] {
        InDays(txs, Day(txs[0].createdAt));
      }
    } else {
      var last := r[|r| - 1].date;
      forall j | 0 <= j < |txs| ensures Day(txs[j].createdAt) <= last {
        InDays(txs, Day(txs[j].createdAt));
        var k :| 0 <= k < |r| && r[k].date == Day(txs[j].createdAt);
      }
      XPThroughAll(txs, last);
      CumulativeIsRunningTotal(txs, r, |r|);
    }
  }

  /** With no negative amounts the cumulative series never decreases. */
  lemma CumulativeNonDecreasing(txs: seq<Transaction>, r: seq<DailyXP>, i: nat, j: nat)
    requires IsDailySeries(txs, r)
    requires forall k :: 0 <= k < |txs| ==> txs[k].amount >= 0
    requires i <= j < |r|
    ensures r[i].cumulative <= r[j].cumulative
    decreases j - i
  {
    if i < j {
      CumulativeNonDecreasing(txs, r, i, j - 1);
      CumulativeIsRunningTotal(txs, r, j);
      CumulativeIsRunningTotal(txs, r, j + 1);
      DayTotalNonNegative(txs, r[j].date);
    }
  }

  // ---------------------------------------------------------------------------
  // XP by project
  // ---------------------------------------------------------------------------

  const MaxProjects: nat := 10

  /** `t.path || 'Unknown'`. */
  function PathKey(t: Transaction): string {
    if t.path == "" then "Unknown" else t.path
  }

  /** The XP earned under a path key. */
  function PathTotal(txs: seq<Transaction>, p: string): int
  {
    if txs == [] then 0
    else PathTotal(txs[..|txs| - 1], p) + (if PathKey(txs[|txs| - 1]) == p then txs[|txs| - 1].amount else 0)
  }

  /** The path keys, each once, in the order they are first met. */
  function FirstSeenPaths(txs: seq<Transaction>): seq<string>
  {
    if txs == [] then []
    else
      var prev := FirstSeenPaths(txs[..|txs| - 1]);
      if PathKey(txs[|txs| - 1]) in prev then prev else prev + [PathKey(txs[|txs| - 1])]
  }

  /** The position of `x` in `s`, or `|s|` when it is absent. */
  function IndexOf<T(==)>(s: seq<T>, x: T): (k: nat)
    ensures k <= |s|
    ensures k < |s| ==> s[k] == x
    ensures forall j :: 0 <= j < k ==> s[j] != x
  {
    if s == [] then 0 else if s[0] == x then 0 else 1 + IndexOf(s[1..], x)
  }

  ghost predicate Distinct<T>(s: seq<T>) {
    forall i, j :: 0 <= i < j < |s| ==> s[i] != s[j]
  }

  lemma {:induction false} FirstSeenPathsFacts(txs: seq<Transaction>)
    ensures Distinct(FirstSeenPaths(txs))
    ensures forall p :: p in FirstSeenPaths(txs) <==> exists j :: 0 <= j < |txs| && PathKey(txs[j]) == p
    ensures forall p :: p !in FirstSeenPaths(txs) ==> PathTotal(txs, p) == 0
  {
    if txs != [] {
      var init := txs[..|txs| - 1];
      FirstSeenPathsFacts(init);
      forall p ensures p in FirstSeenPaths(txs) <==> exists j :: 0 <= j < |txs| && PathKey(txs[j]) == p {
        if p in FirstSeenPaths(init) {
          var j :| 0 <= j < |init| && PathKey(init[j]) == p;
          assert txs[j] == init[j];
        }
        if exists j :: 0 <= j < |txs| && PathKey(txs[j]) == p {
          var j :| 0 <= j < |txs| && PathKey(txs[j]) == p;
          if j < |init| { assert init[j] == txs[j]; }
        }
      }
    }
  }

  function XPKey(e: ProjectXP): int { e.xp }

  /** What the XP-by-project view promises: at most ten entries, each a path
    * key with its total XP, no key twice, largest XP first with ties in the
    * order the keys were first met, and every key left out earns no more than
    * the last entry kept. */
  ghost predicate IsTopProjects(txs: seq<Transaction>, r: seq<ProjectXP>) {
    var paths := FirstSeenPaths(txs);
    && |r| == Min(MaxProjects, |paths|)
    && (forall i :: 0 <= i < |r| ==> r[i].path in paths && r[i].xp == PathTotal(txs, r[i].path))
    && (forall i, j :: 0 <= i < j < |r| ==> r[i].path != r[j].path)
    && (forall i, j :: 0 <= i < j < |r| ==>
          r[i].xp > r[j].xp || (r[i].xp == r[j].xp && IndexOf(paths, r[i].path) < IndexOf(paths, r[j].path)))
    && (forall p :: p in paths && (forall i :: 0 <= i < |r| ==> r[i].path != p) ==>
          |r| == MaxProjects && PathTotal(txs, p) <= r[MaxProjects - 1].xp)
  }

  /** The grouped totals in first-seen order: one entry per path key. */
  ghost predicate IsGrouping(txs: seq<Transaction>, groups: seq<ProjectXP>) {
    var paths := FirstSeenPaths(txs);
    && |groups| == |paths|
    && forall k :: 0 <= k < |groups| ==> groups[k] == ProjectXP(paths[k], PathTotal(txs, paths[k]))
  }

  /** The reference grouping: each path key, in the order first met, with its total. */
  function GroupsOf(txs: seq<Transaction>): seq<ProjectXP>
  {
    var paths := FirstSeenPaths(txs);
    seq(|paths|, k requires 0 <= k < |paths| => ProjectXP(paths[k], PathTotal(txs, paths[k])))
  }

  /** The reference definition of the XP-by-project view: the grouped totals,
    * sorted by XP with the largest first, cut to ten entries. */
  function TopProjectsOf(txs: seq<Transaction>): seq<ProjectXP>
  {
    var sorted := SortDesc(GroupsOf(txs), XPKey);
    sorted[..Min(MaxProjects, |sorted|)]
  }

  /** Every sorted entry is a grouped entry, so a path key with its total. */
  lemma SortedEntriesAreTotals(txs: seq<Transaction>, groups: seq<ProjectXP>, sorted: seq<ProjectXP>)
    requires IsGrouping(txs, groups)
    requires multiset(sorted) == multiset(groups)
    ensures forall i :: 0 <= i < |sorted| ==>
      sorted[i].path in FirstSeenPaths(txs) && sorted[i].xp == PathTotal(txs, sorted[i].path)
  {
    forall i | 0 <= i < |sorted|
      ensures sorted[i].path in FirstSeenPaths(txs) && sorted[i].xp == PathTotal(txs, sorted[i].path)
    {
      assert sorted[i] in multiset(groups);
    }
  }

  /** A path key missing from the first ten sorted entries sits further down. */
  lemma OmittedAreSmaller(txs: seq<Transaction>, groups: seq<ProjectXP>, sorted: seq<ProjectXP>, p: string)
    requires IsGrouping(txs, groups)
    requires multiset(sorted) == multiset(groups) && Descending(sorted, XPKey)
    requires p in FirstSeenPaths(txs)
    requires forall i :: 0 <= i < |sorted[..Min(MaxProjects, |sorted|)]| ==> sorted[..Min(MaxProjects, |sorted|)][i].path != p
    ensures |sorted| > MaxProjects && PathTotal(txs, p) <= sorted[MaxProjects - 1].xp
  {
    var paths := FirstSeenPaths(txs);
    var k :| 0 <= k < |paths| && paths[k] == p;
    assert groups[k] in multiset(sorted);
    var m :| 0 <= m < |sorted| && sorted[m] == groups[k];
    var cut := Min(MaxProjects, |sorted|);
    assert forall i :: 0 <= i < cut ==> sorted[i].path != p by {
      forall i | 0 <= i < cut ensures sorted[i].path != p {
        assert sorted[..cut][i] == sorted[i];
      }
    }
    assert sorted[m].path == p;
    assert m >= cut;
    assert XPKey(sorted[MaxProjects - 1]) >= XPKey(sorted[m]);
  }

  /** Sorting the grouped totals, stably by XP, keeps them totals, largest
    * first and, among equal XP, in the order the keys were first met. */
  lemma SortedGroups(txs: seq<Transaction>, groups: seq<ProjectXP>)
    requires IsGrouping(txs, groups)
    ensures var sorted := SortDesc(groups, XPKey);
      && multiset(sorted) == multiset(groups)
      && Descending(sorted, XPKey)
      && (forall i :: 0 <= i < |sorted| ==>
            sorted[i].path in FirstSeenPaths(txs) && sorted[i].xp == PathTotal(txs, sorted[i].path))
      && (forall i, j :: 0 <= i < j < |sorted| ==>
            sorted[i].xp > sorted[j].xp
            || (sorted[i].xp == sorted[j].xp
                && IndexOf(FirstSeenPaths(txs), sorted[i].path) < IndexOf(FirstSeenPaths(txs), sorted[j].path)))
  {
    var paths := FirstSeenPaths(txs);
    var sorted := SortDesc(groups, XPKey);
    var rank := (e: ProjectXP) => IndexOf(paths, e.path);
    FirstSeenPathsFacts(txs);
    forall a, b | 0 <= a < b < |groups| ensures rank(groups[a]) < rank(groups[b]) {
      assert IndexOf(paths, paths[a]) == a;
      assert IndexOf(paths, paths[b]) == b;
    }
    SortStable(groups, XPKey, rank);
    SortDescending(groups, XPKey);
    SortPermutes(groups, XPKey);
    SortedEntriesAreTotals(txs, groups, sorted);
  }

  /** A prefix of the sorted totals keeps their facts, and no path key
    * appears twice in it. */
  lemma SortedPrefix(txs: seq<Transaction>, sorted: seq<ProjectXP>, cut: nat)
    requires cut <= |sorted|
    requires forall i :: 0 <= i < |sorted| ==>
      sorted[i].path in FirstSeenPaths(txs) && sorted[i].xp == PathTotal(txs, sorted[i].path)
    requires forall i, j :: 0 <= i < j < |sorted| ==>
      sorted[i].xp > sorted[j].xp
      || (sorted[i].xp == sorted[j].xp
          && IndexOf(FirstSeenPaths(txs), sorted[i].path) < IndexOf(FirstSeenPaths(txs), sorted[j].path))
    ensures var r := sorted[..cut];
      && (forall i :: 0 <= i < |r| ==> r[i].path in FirstSeenPaths(txs) && r[i].xp == PathTotal(txs, r[i].path))
      && (forall i, j :: 0 <= i < j < |r| ==> r[i].path != r[j].path)
      && (forall i, j :: 0 <= i < j < |r| ==>
            r[i].xp > r[j].xp
            || (r[i].xp == r[j].xp
                && IndexOf(FirstSeenPaths(txs), r[i].path) < IndexOf(FirstSeenPaths(txs), r[j].path)))
  {
    var r := sorted[..cut];
    forall i | 0 <= i < |r| ensures r[i].path in FirstSeenPaths(txs) && r[i].xp == PathTotal(txs, r[i].path) {
      assert r[i] == sorted[i];
    }
    forall i, j | 0 <= i < j < |r|
      ensures r[i].xp > r[j].xp
        || (r[i].xp == r[j].xp
            && IndexOf(FirstSeenPaths(txs), r[i].path) < IndexOf(FirstSeenPaths(txs), r[j].path))
    {
      assert r[i] == sorted[i] && r[j] == sorted[j];
    }
  }

  /** The grouped totals, sorted and cut to ten entries, are the top projects. */
  lemma TopOfGroups(txs: seq<Transaction>, groups: seq<ProjectXP>)
    requires IsGrouping(txs, groups)
    ensures var sorted := SortDesc(groups, XPKey);
      IsTopProjects(txs, sorted[..Min(MaxProjects, |sorted|)])
  {
    var paths := FirstSeenPaths(txs);
    var sorted := SortDesc(groups, XPKey);
    var cut := Min(MaxProjects, |sorted|);
    var r := sorted[..cut];
    SortedGroups(txs, groups);
    assert |sorted| == |groups| by {
      assert |multiset(sorted)| == |multiset(groups)|;
    }
    SortedPrefix(txs, sorted, cut);
    forall p | p in paths && (forall i :: 0 <= i < |r| ==> r[i].path != p)
      ensures |r| == MaxProjects && PathTotal(txs, p) <= r[MaxProjects - 1].xp
    {
      OmittedAreSmaller(txs, groups, sorted, p);
    }
  }

  /** The reference view is the top projects: at most ten distinct path
    * keys with their totals, largest first, ties in first-seen order, and
    * nothing left out earns more than the last entry kept. */
  lemma TopProjectsOfFacts(txs: seq<Transaction>)
    ensures IsTopProjects(txs, TopProjectsOf(txs))
  {
    TopOfGroups(txs, GroupsOf(txs));
  }

  /** One step of the summing loop: adding the next transaction to its path
    * key's entry (made empty first when the key is new) keeps every entry
    * that key's total and the insertion order the first-seen order. */
  lemma PathStep(txs: seq<Transaction>, i: nat, m: map<string, ProjectXP>, order: seq<string>,
                 m': map<string, ProjectXP>, order': seq<string>)
    requires i < |txs|
    requires order == FirstSeenPaths(txs[..i])
    requires forall p :: p in m <==> p in order
    requires forall p :: p in m ==> m[p] == ProjectXP(p, PathTotal(txs[..i], p))
    requires var path := PathKey(txs[i]);
      var m0 := if path in m then m else m[path := ProjectXP(path, 0)];
      && order' == (if path in m then order else order + [path])
      && m' == m0[path := m0[path].(xp := m0[path].xp + txs[i].amount)]
    ensures order' == FirstSeenPaths(txs[..i + 1])
    ensures forall p :: p in m' <==> p in order'
    ensures forall p :: p in m' ==> m'[p] == ProjectXP(p, PathTotal(txs[..i + 1], p))
  {
    assert txs[..i + 1][..i] == txs[..i];
    if PathKey(txs[i]) !in m {
      FirstSeenPathsFacts(txs[..i]);
    }
  }

  /** The dictionary's entries, read in insertion order, are the grouping. */
  lemma DictionaryGroups(txs: seq<Transaction>, m: map<string, ProjectXP>, order: seq<string>)
    requires order == FirstSeenPaths(txs)
    requires forall p :: p in m <==> p in order
    requires forall p :: p in m ==> m[p] == ProjectXP(p, PathTotal(txs, p))
    ensures forall k :: 0 <= k < |order| ==> order[k] in m
    ensures seq(|order|, k requires 0 <= k < |order| => m[order[k]]) == GroupsOf(txs)
  {
    forall k | 0 <= k < |order| ensures order[k] in m {
      assert order[k] in order;
    }
  }

  /** `getXPByProject`: sums the XP per path key in a dictionary, then sorts
    * the entries by XP, largest first, and keeps the first ten. */
  method XPByProject(txs: seq<Transaction>) returns (r: seq<ProjectXP>)
    ensures r == TopProjectsOf(txs)
    ensures IsTopProjects(txs, r)
  {
    var xpByPath: map<string, ProjectXP> := map[];
    var order: seq<string> := [];  // the dictionary's insertion order
    for i := 0 to |txs|
      invariant order == FirstSeenPaths(txs[..i])
      invariant forall p :: p in xpByPath <==> p in order
      invariant forall p :: p in xpByPath ==> xpByPath[p] == ProjectXP(p, PathTotal(txs[..i], p))
    {
      var t := txs[i];
      ghost var before, orderBefore := xpByPath, order;
      var path := if t.path != "" then t.path else "Unknown";
      if path !in xpByPath {
        xpByPath := xpByPath[path := ProjectXP(path, 0)];
        order := order + [path];
      }
      var entry := xpByPath[path];
      xpByPath := xpByPath[path := entry.(xp := entry.xp + t.amount)];
      PathStep(txs, i, before, orderBefore, xpByPath, order);
    }
    assert txs[..|txs|] == txs;
    DictionaryGroups(txs, xpByPath, order);
    var groups := seq(|order|, k requires 0 <= k < |order| => xpByPath[order[k]]);
    var sorted := SortDesc(groups, XPKey);
    r := sorted[..Min(MaxProjects, |sorted|)];
    TopProjectsOfFacts(txs);
  }

  // ---------------------------------------------------------------------------
  // Audit ratio
  // ---------------------------------------------------------------------------

  /** The threshold at or above which a grade counts as a pass. */
  const PassGrade: real := 1.0

  /** The number of audits graded at least `PassGrade`. */
  function CountPassed(audits: seq<Audit>): (n: nat)
    ensures n <= |audits|
  {
    if audits == [] then 0
    else CountPassed(audits[..|audits| - 1]) + (if audits[|audits| - 1].grade >= PassGrade then 1 else 0)
  }

  /** `x.toFixed(1)` read back as a number, on exact rationals: rounds to the
    * nearest tenth, halves upwards. */
  function RoundTenths(x: real): real {
    ((x * 10.0 + 0.5).Floor as real) / 10.0
  }

  /** The reference definition of the audit summary: the passes counted, the
    * rest failed, and the pass percentage of all audits. */
  function AuditSummaryOf(audits: seq<Audit>): AuditSummary {
    if |audits| == 0 then AuditSummary(0, 0, 0.0, None)
    else
      var passed := CountPassed(audits);
      AuditSummary(passed, |audits| - passed,
                   RoundTenths(passed as real / |audits| as real * 100.0), Some(|audits|))
  }

  /** `getAuditRatio`: counts passes and failures in one pass over the audits. */
  method AuditRatio(audits: seq<Audit>) returns (r: AuditSummary)
    ensures r == AuditSummaryOf(audits)
  {
    if |audits| == 0 {
      return AuditSummary(0, 0, 0.0, None);
    }
    var passed: nat := 0;
    var failed: nat := 0;
    for i := 0 to |audits|
      invariant passed == CountPassed(audits[..i])
      invariant passed + failed == i
    {
      assert audits[..i + 1][..i] == audits[..i];
      if audits[i].grade >= PassGrade {
        passed := passed + 1;
      } else {
        failed := failed + 1;
      }
    }
    assert audits[..|audits|] == audits;
    var total := passed + failed;
    var ratio := if total > 0 then RoundTenths(passed as real / total as real * 100.0) else 0.0;
    r := AuditSummary(passed, failed, ratio, Some(total));
  }

  /** Rounding to tenths stays within half a tenth of the exact value and
    * keeps a percentage within [0, 100]. */
  lemma RoundTenthsBounds(x: real)
    ensures x - 0.05 < RoundTenths(x) <= x + 0.05
    ensures 0.0 <= x <= 100.0 ==> 0.0 <= RoundTenths(x) <= 100.0
  {
    var f := (x * 10.0 + 0.5).Floor;
    assert f as real <= x * 10.0 + 0.5 < f as real + 1.0;
    if 0.0 <= x <= 100.0 {
      assert 0 <= f <= 1000;
    }
  }

  lemma PercentageBounds(p: nat, n: nat)
    requires 0 < n && p <= n
    ensures 0.0 <= p as real / n as real * 100.0 <= 100.0
  {
    var q := p as real / n as real;
    assert q * n as real == p as real;
    assert q <= 1.0;
  }

  /** Every audit is either passed or failed; `total` is present exactly when
    * there are audits, and the ratio is then the pass percentage to one
    * decimal, within [0, 100]. With no audit every field is zero and `total`
    * is absent. */
  lemma AuditSummaryFacts(audits: seq<Audit>)
    ensures var s := AuditSummaryOf(audits);
      && s.passed + s.failed == |audits|
      && s.passed == CountPassed(audits)
      && (s.total.Some? <==> |audits| > 0)
      && (s.total.Some? ==> s.total.value == s.passed + s.failed)
      && 0.0 <= s.ratio <= 100.0
      && (|audits| > 0 ==>
            var exact := s.passed as real / |audits| as real * 100.0;
            exact - 0.05 < s.ratio <= exact + 0.05)
      && (|audits| == 0 ==> s == AuditSummary(0, 0, 0.0, None))
  {
    if |audits| > 0 {
      var n, p := |audits|, CountPassed(audits);
      var exact := p as real / n as real * 100.0;
      assert AuditSummaryOf(audits) == AuditSummary(p, n - p, RoundTenths(exact), Some(n));
      PercentageBounds(p, n);
      RoundTenthsBounds(exact);
    }
  }

  /** The worked example: grades 1.0, 0.5 and 1.0 give two passes, one
    * failure and a 66.7 % ratio. */
  lemma AuditRatioExample()
    ensures AuditSummaryOf([Audit(1.0), Audit(0.5), Audit(1.0)]) == AuditSummary(2, 1, 66.7, Some(3))
  {
    var audits := [Audit(1.0), Audit(0.5), Audit(1.0)];
    assert audits[..2][..1] == [Audit(1.0)];
    assert CountPassed(audits) == 2;
    var x := 2.0 / 3.0 * 100.0 * 10.0 + 0.5;
    assert 667.0 <= x < 668.0;
    assert x.Floor == 667;
  }

  // ---------------------------------------------------------------------------
  // Pass/fail ratio
  // ---------------------------------------------------------------------------

  /** The three spellings of the piscine test in `shouldExcludeResult`. */
  const PiscineMarkers: seq<string> := ["piscine", "piscine-", "/piscine"]

  /** `shouldExcludeResult`: anything that is not a project, or whose path
    * mentions a piscine. */
  predicate ShouldExcludeResult(path: string, kind: string) {
    kind != "project" || ContainsAny(Lower(path), PiscineMarkers)
  }

  /** The results the pass/fail ratio counts. */
  predicate CountsForRatio(x: GradedResult) {
    !ShouldExcludeResult(x.path, x.obj.kind)
  }

  function CountCounted(results: seq<GradedResult>): (n: nat)
    ensures n <= |results|
  {
    if results == [] then 0
    else CountCounted(results[..|results| - 1]) + (if CountsForRatio(results[|results| - 1]) then 1 else 0)
  }

  function CountCountedPassed(results: seq<GradedResult>): (n: nat)
    ensures n <= CountCounted(results)
  {
    if results == [] then 0
    else
      var last := results[|results| - 1];
      CountCountedPassed(results[..|results| - 1]) + (if CountsForRatio(last) && last.grade >= PassGrade then 1 else 0)
  }

  /** The reference definition: among the counted results, the passes and
    * the rest. */
  function PassFailOf(results: seq<GradedResult>): PassFail {
    var passed := CountCountedPassed(results);
    PassFail(passed, CountCounted(results) - passed, CountCounted(results))
  }

  /** `getPassFailRatio`. */
  method PassFailRatio(results: seq<GradedResult>) returns (r: PassFail)
    ensures r == PassFailOf(results)
  {
    if |results| == 0 {
      return PassFail(0, 0, 0);
    }
    var passed: nat := 0;
    var failed: nat := 0;
    for i := 0 to |results|
      invariant passed == CountCountedPassed(results[..i])
      invariant passed + failed == CountCounted(results[..i])
    {
      assert results[..i + 1][..i] == results[..i];
      if !ShouldExcludeResult(results[i].path, results[i].obj.kind) {
        if results[i].grade >= PassGrade {
          passed := passed + 1;
        } else {
          failed := failed + 1;
        }
      }
    }
    assert results[..|results|] == results;
    r := PassFail(passed, failed, passed + failed);
  }

  /** Of the three piscine spellings only "piscine" matters: the other two
    * contain it. */
  lemma PiscineMarkersReduce(s: string)
    ensures ContainsAny(s, PiscineMarkers) <==> Contains(s, "piscine")
  {
    assert "piscine-"[0..] == "piscine-";
    assert StartsWith("piscine-"[0..], "piscine");
    ContainsAt("piscine-", "piscine", 0);
    assert StartsWith("/piscine"[1..], "piscine");
    ContainsAt("/piscine", "piscine", 1);
    if ContainsAny(s, PiscineMarkers) {
      var w :| w in PiscineMarkers && Contains(s, w);
      if w != "piscine" {
        ContainsTransitive(s, w, "piscine");
      }
    }
    if Contains(s, "piscine") {
      assert "piscine" in PiscineMarkers;
    }
  }

  /** A result is counted exactly when it is a project whose lower-cased path
    * does not mention "piscine"; passes and failures add up to the counted
    * results, never more than the results returned, and an empty list gives
    * all zeros. */
  lemma PassFailFacts(results: seq<GradedResult>)
    ensures forall x :: CountsForRatio(x) <==>
      x.obj.kind == "project" && !Contains(Lower(x.path), "piscine")
    ensures var s := PassFailOf(results);
      s.passed + s.failed == s.total && s.total <= |results|
    ensures |results| == 0 ==> PassFailOf(results) == PassFail(0, 0, 0)
  {
    forall x ensures CountsForRatio(x) <==> x.obj.kind == "project" && !Contains(Lower(x.path), "piscine") {
      PiscineMarkersReduce(Lower(x.path));
    }
  }
}
