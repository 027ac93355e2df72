/** The geometry helpers of the chart renderers: the linear scale, the extent
  * and maximum of a series, the Y and X tick loops, the bar layout and its
  * labels, and the pie slice angles.
  *
  * Coordinates are exact reals. Angles are fractions of a full turn, so the
  * starting angle −π/2 is −1/4 and a slice of `v/total` of the pie spans
  * `v/total` turns; the cosine and sine that turn an angle into a point are
  * not part of this model. */
module Scales {
  import opened Common
  import opened Text

  // ---------------------------------------------------------------------------
  // Scales
  // ---------------------------------------------------------------------------

  /** `linearScale([d0, d1], [r0, r1])(v)`: the affine map sending `d0` to
    * `r0` and `d1` to `r1`, applied to `v`. The source divides by `d1 - d0`
    * unguarded, so an empty domain is excluded here and handled by the
    * renderers. */
  function LinearScale(d0: real, d1: real, r0: real, r1: real, v: real): real
    requires d0 != d1
  {
    r0 + (v - d0) / (d1 - d0) * (r1 - r0)
  }

  /** The scale sends the ends of the domain to the ends of the range. */
  lemma ScaleEnds(d0: real, d1: real, r0: real, r1: real)
    requires d0 != d1
    ensures LinearScale(d0, d1, r0, r1, d0) == r0
    ensures LinearScale(d0, d1, r0, r1, d1) == r1
  {
    DivSelf(d1 - d0);
  }

  lemma DivSelf(w: real)
    requires w != 0.0
    ensures w / w == 1.0
    ensures 0.0 / w == 0.0
  {
    assert (w / w) * w == w;
    assert (w / w - 1.0) * w == 0.0;
  }

  /** The scale moves by a fixed slope: equal steps in the domain give equal
    * steps in the range. */
  lemma ScaleSlope(d0: real, d1: real, r0: real, r1: real, v: real)
    requires d0 != d1
    ensures LinearScale(d0, d1, r0, r1, v) == r0 + (v - d0) * ((r1 - r0) / (d1 - d0))
  {
    var q := (v - d0) / (d1 - d0);
    assert q * (d1 - d0) == v - d0;
    var k := (r1 - r0) / (d1 - d0);
    assert k * (d1 - d0) == r1 - r0;
    assert q * (r1 - r0) == q * (k * (d1 - d0));
  }

  /** The scale is affine: it maps the point a fraction `t` of the way from
    * `a` to `b` to the point the same fraction of the way from the image of `a`
    * to the image of `b`. */
  lemma ScaleAffine(d0: real, d1: real, r0: real, r1: real, a: real, b: real, t: real)
    requires d0 != d1
    ensures LinearScale(d0, d1, r0, r1, a + t * (b - a))
      == LinearScale(d0, d1, r0, r1, a) + t * (LinearScale(d0, d1, r0, r1, b) - LinearScale(d0, d1, r0, r1, a))
  {
    var k := (r1 - r0) / (d1 - d0);
    ScaleSlope(d0, d1, r0, r1, a);
    ScaleSlope(d0, d1, r0, r1, b);
    ScaleSlope(d0, d1, r0, r1, a + t * (b - a));
    assert (a + t * (b - a) - d0) * k == (a - d0) * k + t * ((b - a) * k);
  }

  /** With an increasing domain and range the scale is increasing. */
  lemma ScaleIncreasing(d0: real, d1: real, r0: real, r1: real, a: real, b: real)
    requires d0 < d1 && r0 < r1 && a < b
    ensures LinearScale(d0, d1, r0, r1, a) < LinearScale(d0, d1, r0, r1, b)
  {
    var k := (r1 - r0) / (d1 - d0);
    QuotientSign(r1 - r0, d1 - d0);
    ScaleStep(d0, d1, r0, r1, a, b);
    ProductSign(b - a, k);
  }

  /** With the inverted range of the Y axis (`[height, 0]`) the scale is
    * decreasing: larger values are drawn higher up. */
  lemma ScaleDecreasing(d0: real, d1: real, r0: real, r1: real, a: real, b: real)
    requires d0 < d1 && r0 > r1 && a < b
    ensures LinearScale(d0, d1, r0, r1, a) > LinearScale(d0, d1, r0, r1, b)
  {
    var k := (r1 - r0) / (d1 - d0);
    QuotientSign(r1 - r0, d1 - d0);
    ScaleStep(d0, d1, r0, r1, a, b);
    ProductSign(b - a, k);
  }

  /** The difference of two images is the difference of the values times the slope. */
  lemma ScaleStep(d0: real, d1: real, r0: real, r1: real, a: real, b: real)
    requires d0 != d1
    ensures LinearScale(d0, d1, r0, r1, b) - LinearScale(d0, d1, r0, r1, a)
      == (b - a) * ((r1 - r0) / (d1 - d0))
  {
    var k := (r1 - r0) / (d1 - d0);
    ScaleSlope(d0, d1, r0, r1, a);
    ScaleSlope(d0, d1, r0, r1, b);
    assert (b - d0) * k - (a - d0) * k == (b - a) * k;
  }

  lemma QuotientSign(x: real, y: real)
    requires y > 0.0
    ensures x > 0.0 ==> x / y > 0.0
    ensures x < 0.0 ==> x / y < 0.0
  {
    assert (x / y) * y == x;
  }

  lemma ProductSign(x: real, y: real)
    requires x > 0.0
    ensures y > 0.0 ==> x * y > 0.0
    ensures y < 0.0 ==> x * y < 0.0
  {
  }

  /** A value inside the domain is mapped inside the range. */
  lemma ScaleWithin(d0: real, d1: real, r0: real, r1: real, v: real)
    requires d0 < d1 && d0 <= v <= d1
    ensures MinReal(r0, r1) <= LinearScale(d0, d1, r0, r1, v) <= MaxReal(r0, r1)
  {
    var q := (v - d0) / (d1 - d0);
    assert LinearScale(d0, d1, r0, r1, v) == r0 + q * (r1 - r0);
    var c := r1 - r0;
    FractionBetween(v - d0, d1 - d0);
    ProductBetween(q, c);
    if r0 <= r1 {
      assert 0.0 <= q * c <= c;
      assert r0 <= r0 + q * c <= r1;
      assert MinReal(r0, r1) == r0 && MaxReal(r0, r1) == r1;
    } else {
      assert c <= q * c <= 0.0;
      assert r1 <= r0 + q * c <= r0;
      assert MinReal(r0, r1) == r1 && MaxReal(r0, r1) == r0;
    }
  }

  /** A part of a positive whole is a fraction between 0 and 1. */
  lemma FractionBetween(a: real, b: real)
    requires 0.0 <= a <= b && 0.0 < b
    ensures 0.0 <= a / b <= 1.0
  {
    assert a / b * b == a;
  }

  /** A fraction of `c` lies between 0 and `c`. */
  lemma ProductBetween(q: real, c: real)
    requires 0.0 <= q <= 1.0
    ensures c >= 0.0 ==> 0.0 <= q * c <= c
    ensures c < 0.0 ==> c <= q * c <= 0.0
  {
  }

  // ---------------------------------------------------------------------------
  // Extent and maximum
  // ---------------------------------------------------------------------------

  /** `extent(array, accessor)`: `[Math.min(...values), Math.max(...values)]`. */
  function Extent<T>(a: seq<T>, f: T -> real): (real, real)
    requires |a| > 0
  {
    if |a| == 1 then (f(a[0]), f(a[0]))
    else
      var e := Extent(a[1..], f);
      (MinReal(f(a[0]), e.0), MaxReal(f(a[0]), e.1))
  }

  /** The extent is the smallest and the largest accessor value: it bounds
    * every value and both ends are attained. */
  lemma {:induction false} ExtentBounds<T>(a: seq<T>, f: T -> real)
    requires |a| > 0
    ensures Extent(a, f).0 <= Extent(a, f).1
    ensures forall i :: 0 <= i < |a| ==> Extent(a, f).0 <= f(a[i]) <= Extent(a, f).1
    ensures exists i :: 0 <= i < |a| && f(a[i]) == Extent(a, f).0
    ensures exists i :: 0 <= i < |a| && f(a[i]) == Extent(a, f).1
  {
    if |a| > 1 {
      var e := Extent(a[1..], f);
      ExtentBounds(a[1..], f);
      var lo, hi := Extent(a, f).0, Extent(a, f).1;
      assert forall i :: 1 <= i < |a| ==> a[i] == a[1..][i - 1];
      if lo != f(a[0]) {
        var j :| 0 <= j < |a[1..]| && f(a[1..][j]) == e.0;
        assert f(a[j + 1]) == lo;
      }
      if hi != f(a[0]) {
        var j :| 0 <= j < |a[1..]| && f(a[1..][j]) == e.1;
        assert f(a[j + 1]) == hi;
      }
    }
  }

  /** `max(array, accessor)`: `Math.max(...values)`. */
  function Max<T>(a: seq<T>, f: T -> real): real
    requires |a| > 0
  {
    if |a| == 1 then f(a[0]) else MaxReal(f(a[0]), Max(a[1..], f))
  }

  /** The maximum bounds every accessor value and is attained. */
  lemma {:induction false} MaxBounds<T>(a: seq<T>, f: T -> real)
    requires |a| > 0
    ensures forall i :: 0 <= i < |a| ==> f(a[i]) <= Max(a, f)
    ensures exists i :: 0 <= i < |a| && f(a[i]) == Max(a, f)
  {
    if |a| == 1 {
      assert f(a[0]) == Max(a, f);
    } else {
      var rest := Max(a[1..], f);
      MaxBounds(a[1..], f);
      assert forall i :: 1 <= i < |a| ==> a[i] == a[1..][i - 1];
      if Max(a, f) != f(a[0]) {
        var j :| 0 <= j < |a[1..]| && f(a[1..][j]) == rest;
        assert f(a[j + 1]) == Max(a, f);
      } else {
        assert f(a[0]) == Max(a, f);
      }
    }
  }

  /** The upper end of the extent is the maximum. */
  lemma ExtentMax<T>(a: seq<T>, f: T -> real)
    requires |a| > 0
    ensures Extent(a, f).1 == Max(a, f)
  {
    var e := Extent(a, f);
    var m := Max(a, f);
    ExtentBounds(a, f);
    MaxBounds(a, f);
    var i :| 0 <= i < |a| && f(a[i]) == e.1;
    var j :| 0 <= j < |a| && f(a[j]) == m;
    assert f(a[i]) <= m && f(a[j]) <= e.1;
  }

  // ---------------------------------------------------------------------------
  // Ticks
  // ---------------------------------------------------------------------------

  /** A Y tick (also a horizontal grid line): its value and its height on the chart. */
  datatype Tick = Tick(value: real, y: real)

  const YTickCount: nat := 5

  /** The `k`th Y tick: the value `maxValue / 5 * k` at its scaled height. */
  function TickAt(maxValue: real, height: real, k: nat): Tick
    requires maxValue != 0.0
  {
    var value := maxValue / 5.0 * k as real;
    Tick(value, LinearScale(0.0, maxValue, height, 0.0, value))
  }

  /** The `k`th Y tick sits `k` fifths of the way up the chart. */
  lemma TickHeight(maxValue: real, height: real, k: nat)
    requires maxValue != 0.0
    ensures TickAt(maxValue, height, k).y == height - height / 5.0 * k as real
  {
    var value := maxValue / 5.0 * k as real;
    ScaleSlope(0.0, maxValue, height, 0.0, value);
    var s := (0.0 - height) / maxValue;
    assert s * maxValue == -height;
    assert value * s == (s * maxValue) / 5.0 * k as real;
  }

  /** Consecutive Y ticks are a fifth of the maximum apart in value and a
    * fifth of the chart height apart in height; the first is at the bottom
    * and the sixth at the top. */
  lemma TickSpacing(maxValue: real, height: real, k: nat)
    requires maxValue != 0.0
    ensures TickAt(maxValue, height, k + 1).value - TickAt(maxValue, height, k).value == maxValue / 5.0
    ensures TickAt(maxValue, height, k).y - TickAt(maxValue, height, k + 1).y == height / 5.0
    ensures TickAt(maxValue, height, 0) == Tick(0.0, height)
    ensures TickAt(maxValue, height, YTickCount) == Tick(maxValue, 0.0)
  {
    TickHeight(maxValue, height, k);
    TickHeight(maxValue, height, k + 1);
    TickHeight(maxValue, height, 0);
    TickHeight(maxValue, height, YTickCount);
  }

  /** The Y tick loop `for (i = 0; i <= yTicks; i++)`: six ticks from 0 to the
    * maximum in equal steps of value and of height, each at its scaled height. */
  method YTicks(maxValue: real, height: real) returns (ticks: seq<Tick>)
    requires maxValue != 0.0
    ensures |ticks| == YTickCount + 1
    ensures ticks[0] == Tick(0.0, height) && ticks[YTickCount] == Tick(maxValue, 0.0)
    ensures forall i :: 0 <= i < YTickCount ==>
      ticks[i + 1].value - ticks[i].value == maxValue / 5.0 && ticks[i].y - ticks[i + 1].y == height / 5.0
    ensures forall i :: 0 <= i < |ticks| ==> ticks[i].y == LinearScale(0.0, maxValue, height, 0.0, ticks[i].value)
    ensures forall i :: 0 <= i < |ticks| ==> ticks[i] == TickAt(maxValue, height, i)
  {
    ticks := [];
    for i := 0 to YTickCount + 1
      invariant |ticks| == i
      invariant forall k :: 0 <= k < i ==> ticks[k] == TickAt(maxValue, height, k)
    {
      var value := maxValue / 5.0 * i as real;
      ticks := ticks + [Tick(value, LinearScale(0.0, maxValue, height, 0.0, value))];
    }
    forall i | 0 <= i < YTickCount
      ensures ticks[i + 1].value - ticks[i].value == maxValue / 5.0 && ticks[i].y - ticks[i + 1].y == height / 5.0
    {
      TickSpacing(maxValue, height, i);
    }
    TickSpacing(maxValue, height, 0);
  }

  lemma MulMonotone(a: real, b: real, c: real)
    requires a <= b && 0.0 <= c
    ensures a * c <= b * c
  {
    assert b * c - a * c == (b - a) * c;
  }

  /** A quotient whose divisor is positive and at most the dividend is at
    * least one. */
  lemma QuotientAtLeastOne(a: real, b: real)
    requires 0.0 < b <= a
    ensures a / b >= 1.0
  {
    assert a / b * b == a;
  }

  /** `(x + s).Floor` exceeds `x.Floor` when the step is at least one. */
  lemma FloorStep(x: real, s: real)
    requires s >= 1.0
    ensures (x + s).Floor > x.Floor
  {
  }

  /** The position of the `i`th X tick among `n` points. */
  function XTickIndex(i: nat, n: nat): int
    requires 0 < n
  {
    (i as real * (n as real / Min(5, n) as real)).Floor
  }

  /** The X tick step `n / min(5, n)` is at least one, and the last tick
    * sits one step before `n`. */
  lemma TickStep(n: nat)
    requires 0 < n
    ensures var k := Min(5, n); var step := n as real / k as real;
      step >= 1.0 && (k - 1) as real * step == n as real - step
  {
    var k := Min(5, n);
    var step := n as real / k as real;
    assert step * k as real == n as real;
    QuotientAtLeastOne(n as real, k as real);
    assert (k - 1) as real * step == k as real * step - step;
  }

  /** The X tick positions are in range and strictly increasing. */
  lemma XTickIndexBounds(i: nat, n: nat)
    requires 0 < n && i < Min(5, n)
    ensures 0 <= XTickIndex(i, n) < n
    ensures i + 1 < Min(5, n) ==> XTickIndex(i, n) < XTickIndex(i + 1, n)
  {
    TickStep(n);
    TickFloors(i, Min(5, n), n as real / Min(5, n) as real, n);
  }

  /** Tick `i` of `k`, `step` apart with the last one step before `n`, has
    * its floor in `[0, n)`, and the next tick's floor is larger. */
  lemma TickFloors(i: nat, k: nat, step: real, n: nat)
    requires i < k && step >= 1.0 && (k - 1) as real * step == n as real - step
    ensures 0 <= (i as real * step).Floor < n
    ensures (i as real * step).Floor < ((i + 1) as real * step).Floor
  {
    MulMonotone(0.0, i as real, step);
    MulMonotone(i as real, (k - 1) as real, step);
    assert 0.0 <= i as real * step <= (k - 1) as real * step;
    FloorWithin(i as real * step, n);
    assert (i + 1) as real * step == i as real * step + step;
    FloorStep(i as real * step, step);
  }

  /** A value in `[0, n - 1]` has its floor in `[0, n)`. */
  lemma FloorWithin(x: real, n: int)
    requires 0.0 <= x <= n as real - 1.0
    ensures 0 <= x.Floor < n
  {
  }

  lemma {:induction false} XTickIndexIncreasing(i: nat, j: nat, n: nat)
    requires 0 < n && i < j < Min(5, n)
    ensures XTickIndex(i, n) < XTickIndex(j, n)
    decreases j - i
  {
    XTickIndexBounds(i, n);
    if i + 1 < j {
      XTickIndexIncreasing(i + 1, j, n);
    }
  }

  /** The X tick loop: `min(5, n)` ticks at `floor(i * n / min(5, n))`,
    * keeping those below `n` (which all are). */
  method XTickIndices(n: nat) returns (r: seq<nat>)
    ensures |r| == Min(5, n)
    ensures forall i :: 0 <= i < |r| ==> r[i] < n
    ensures |r| > 0 ==> r[0] == 0
    ensures forall i, j :: 0 <= i < j < |r| ==> r[i] < r[j]
    ensures forall i :: 0 <= i < |r| ==> r[i] == XTickIndex(i, n)
  {
    var xTicks := Min(5, n);
    // With no point the step is NaN in the source; the loop then does not run.
    var xStep := if xTicks > 0 then n as real / xTicks as real else 0.0;
    r := [];
    for i := 0 to xTicks
      invariant |r| == i
      invariant forall k :: 0 <= k < i ==> r[k] == XTickIndex(k, n)
    {
      var idx := (i as real * xStep).Floor;
      assert idx == XTickIndex(i, n);
      XTickIndexBounds(i, n);
      if idx < n {
        r := r + [idx as nat];
      }
    }
    forall i | 0 <= i < |r| ensures r[i] < n {
      XTickIndexBounds(i, n);
    }
    if |r| > 0 {
      assert r[0] == XTickIndex(0, n) == 0;
    }
    forall i, j | 0 <= i < j < |r| ensures r[i] < r[j] {
      XTickIndexIncreasing(i, j, n);
    }
  }

  // ---------------------------------------------------------------------------
  // Bars
  // ---------------------------------------------------------------------------

  /** A bar: left edge, top, width and height. */
  datatype Bar = Bar(x: real, y: real, width: real, height: real)

  /** Bar `i` of `n` across `width`: its slot is `width / n` wide, the bar
    * takes the middle 80% of the slot and rises from the axis (at `height`)
    * to its scaled value. */
  ghost predicate BarsLaidOut(bars: seq<Bar>, values: seq<real>, width: real, height: real, maxValue: real)
    requires |values| > 0 && maxValue != 0.0
  {
    && |bars| == |values|
    && forall i :: 0 <= i < |bars| ==>
      var slot := width / |values| as real;
      && bars[i].x == i as real * slot + 0.1 * slot
      && bars[i].width == 0.8 * slot
      && bars[i].y == LinearScale(0.0, maxValue, height, 0.0, values[i])
      && bars[i].y + bars[i].height == height
  }

  /** The bar loop: `barSpacing = width / n`, `barWidth = 0.8 * barSpacing`,
    * the left edge centres the bar in its slot and the height reaches down
    * to the axis. */
  method BarLayout(values: seq<real>, width: real, height: real, maxValue: real) returns (bars: seq<Bar>)
    requires |values| > 0 && maxValue != 0.0
    ensures BarsLaidOut(bars, values, width, height, maxValue)
  {
    var barWidth := width / |values| as real * 0.8;
    var barSpacing := width / |values| as real;
    assert barWidth == 0.8 * barSpacing;
    assert (barSpacing - barWidth) / 2.0 == 0.1 * barSpacing;
    bars := [];
    for i := 0 to |values|
      invariant |bars| == i
      invariant forall k :: 0 <= k < i ==>
        && bars[k].x == k as real * barSpacing + 0.1 * barSpacing
        && bars[k].width == 0.8 * barSpacing
        && bars[k].y == LinearScale(0.0, maxValue, height, 0.0, values[k])
        && bars[k].y + bars[k].height == height
    {
      var x := i as real * barSpacing + (barSpacing - barWidth) / 2.0;
      var y := LinearScale(0.0, maxValue, height, 0.0, values[i]);
      bars := bars + [Bar(x, y, barWidth, height - y)];
    }
  }

  /** The bars of a positive width lie inside it, in order and apart: each
    * ends before the next begins. */
  lemma BarsInside(n: nat, width: real, i: nat)
    requires i < n && width > 0.0
    ensures var slot := width / n as real;
      && 0.0 < i as real * slot + 0.1 * slot
      && i as real * slot + 0.1 * slot + 0.8 * slot < width
      && (i + 1 < n ==> i as real * slot + 0.1 * slot + 0.8 * slot < (i + 1) as real * slot + 0.1 * slot)
  {
    var slot := width / n as real;
    assert slot * n as real == width;
    assert slot > 0.0;
    var rest := (n - i - 1) as real;
    assert rest * slot >= 0.0;
    assert n as real * slot == i as real * slot + slot + rest * slot;
  }

  /** Bar `i` of a layout over a positive width ends before any later bar
    * `j` begins. */
  lemma BarsApart(bars: seq<Bar>, values: seq<real>, width: real, height: real, maxValue: real, i: nat, j: nat)
    requires |values| > 0 && maxValue != 0.0 && width > 0.0
    requires BarsLaidOut(bars, values, width, height, maxValue) && i < j < |values|
    ensures bars[i].x + bars[i].width < bars[j].x
  {
    var slot := width / |values| as real;
    assert slot > 0.0;
    SlotsApart(bars[i].x, bars[i].width, bars[j].x, slot, i, j);
  }

  /** A bar, which ends 0.9 of a slot into its own slot, ends before the bar
    * of any later slot begins. */
  lemma SlotsApart(x: real, barWidth: real, later: real, slot: real, i: nat, j: nat)
    requires slot > 0.0 && i < j
    requires x == i as real * slot + 0.1 * slot && barWidth == 0.8 * slot
    requires later == j as real * slot + 0.1 * slot
    ensures x + barWidth < later
  {
    assert (j - i - 1) as real * slot >= 0.0;
    assert j as real * slot == i as real * slot + slot + (j - i - 1) as real * slot;
  }

  /** A bar's height is its value's share of the maximum, so a value between 0
    * and the maximum gives a bar between 0 and the chart height. */
  lemma BarHeight(value: real, height: real, maxValue: real)
    requires maxValue != 0.0
    ensures height - LinearScale(0.0, maxValue, height, 0.0, value) == value / maxValue * height
    ensures 0.0 <= value <= maxValue && 0.0 <= height ==>
      0.0 <= height - LinearScale(0.0, maxValue, height, 0.0, value) <= height
  {
    var q := value / maxValue;
    assert q * maxValue == value;
    if 0.0 <= value <= maxValue {
      assert 0.0 <= q <= 1.0;
      if 0.0 <= height {
        assert 0.0 <= q * height <= height;
      }
    }
  }

  /** Laid out over a positive width, each bar lies inside it and ends before
    * every later bar begins, so no two bars overlap; a value between 0 and the maximum gives a bar whose
    * height is its share of the chart height. */
  lemma BarsLaidOutInside(bars: seq<Bar>, values: seq<real>, width: real, height: real, maxValue: real, i: nat)
    requires |values| > 0 && maxValue > 0.0 && 0.0 <= height
    requires BarsLaidOut(bars, values, width, height, maxValue)
    requires width > 0.0 && i < |values| && 0.0 <= values[i] <= maxValue
    ensures 0.0 < bars[i].x && bars[i].x + bars[i].width < width
    ensures forall j :: i < j < |values| ==> bars[i].x + bars[i].width < bars[j].x
    ensures 0.0 <= bars[i].height <= height
    ensures bars[i].height == values[i] / maxValue * height
  {
    BarsInside(|values|, width, i);
    BarHeight(values[i], height, maxValue);
    forall j | i < j < |values|
      ensures bars[i].x + bars[i].width < bars[j].x
    {
      BarsApart(bars, values, width, height, maxValue, i, j);
    }
  }

  /** Over a positive width, every bar of a layout lies inside it and no two
    * bars overlap. */
  lemma BarsApartInside(bars: seq<Bar>, values: seq<real>, width: real, height: real, maxValue: real)
    requires |values| > 0 && maxValue != 0.0 && width > 0.0
    requires BarsLaidOut(bars, values, width, height, maxValue)
    ensures forall i :: 0 <= i < |bars| ==> 0.0 < bars[i].x && bars[i].x + bars[i].width < width
    ensures forall i, j :: 0 <= i < j < |bars| ==> bars[i].x + bars[i].width < bars[j].x
  {
    forall i | 0 <= i < |bars|
      ensures 0.0 < bars[i].x && bars[i].x + bars[i].width < width
    {
      BarsInside(|values|, width, i);
    }
    forall i, j | 0 <= i < j < |bars|
      ensures bars[i].x + bars[i].width < bars[j].x
    {
      BarsApart(bars, values, width, height, maxValue, i, j);
    }
  }

  /** When no value is negative, every bar's height is its value's share of
    * the plot height, between 0 and that height. */
  lemma BarHeights(bars: seq<Bar>, values: seq<real>, width: real, height: real, maxValue: real)
    requires |values| > 0 && maxValue != 0.0 && 0.0 <= height
    requires BarsLaidOut(bars, values, width, height, maxValue)
    requires forall i :: 0 <= i < |values| ==> 0.0 <= values[i] <= maxValue
    ensures forall i :: 0 <= i < |bars| ==>
      0.0 <= bars[i].height <= height && bars[i].height == values[i] / maxValue * height
  {
    forall i | 0 <= i < |bars|
      ensures 0.0 <= bars[i].height <= height && bars[i].height == values[i] / maxValue * height
    {
      BarHeight(values[i], height, maxValue);
    }
  }

  const MaxLabelLength: nat := 15

  /** `path.split('/').pop() || 'Unknown'`. */
  function BarName(path: string): string {
    if LastSegment(path) == "" then "Unknown" else LastSegment(path)
  }

  /** `name.length > 15 ? name.substring(0, 15) + '...' : name`. */
  function Truncate(name: string): (r: string)
    ensures |name| <= MaxLabelLength ==> r == name
    ensures |name| > MaxLabelLength ==>
      && |r| == MaxLabelLength + 3
      && r[..MaxLabelLength] == name[..MaxLabelLength]
      && r[MaxLabelLength..] == "..."
  {
    if |name| > MaxLabelLength then name[..MaxLabelLength] + "..." else name
  }

  /** The rotated project label under a bar. */
  function BarLabel(path: string): string {
    Truncate(BarName(path))
  }

  /** A label is never empty, has at most 18 characters and no '/', keeps the
    * first 15 characters of the name, and truncating it again changes nothing. */
  lemma BarLabelFacts(path: string)
    ensures 0 < |BarLabel(path)| <= MaxLabelLength + 3
    ensures '/' !in BarLabel(path)
    ensures var n := |BarName(path)|;
      BarLabel(path)[..if n < MaxLabelLength then n else MaxLabelLength]
        == BarName(path)[..if n < MaxLabelLength then n else MaxLabelLength]
    ensures Truncate(BarLabel(path)) == BarLabel(path)
  {
    var name := BarName(path);
    NoSlashInLiterals();
    assert '/' !in name;
    if |name| > MaxLabelLength {
      var r := BarLabel(path);
      var kept := name[..MaxLabelLength];
      assert '/' !in kept by {
        forall c | c in kept ensures c in name {
          var k :| 0 <= k < |kept| && kept[k] == c;
          assert name[k] == c;
        }
      }
      assert r == kept + "...";
      assert r[..MaxLabelLength] == kept;
      assert Truncate(r) == r[..MaxLabelLength] + "...";
    }
  }

  /** Neither placeholder text contains a '/'. */
  lemma NoSlashInLiterals()
    ensures '/' !in "Unknown" && '/' !in "..."
  {
    assert "Unknown" == ['U', 'n', 'k', 'n', 'o', 'w', 'n'];
    assert "..." == ['.', '.', '.'];
  }

  // ---------------------------------------------------------------------------
  // Pie slices
  // ---------------------------------------------------------------------------

  /** −π/2 as a fraction of a turn: the first slice starts at the top. */
  const StartAngle: real := -0.25

  /** A pie slice: start and end angle in turns, the SVG large-arc flag, and
    * the polar position of its label. */
  datatype Slice = Slice(start: real, end: real, largeArc: bool, labelAngle: real, labelRadius: real)

  function SumReal(values: seq<real>): real {
    if values == [] then 0.0 else SumReal(values[..|values| - 1]) + values[|values| - 1]
  }

  /** The sum of the shares `values[i] / total`: the angle swept by the slices. */
  function SumShares(values: seq<real>, total: real): real
    requires total != 0.0
  {
    if values == [] then 0.0 else SumShares(values[..|values| - 1], total) + values[|values| - 1] / total
  }

  /** The swept angle is the sum of the values as a share of the total. */
  lemma {:induction false} SharesOfSum(values: seq<real>, total: real)
    requires total != 0.0
    ensures SumShares(values, total) == SumReal(values) / total
    decreases |values|
  {
    if values != [] {
      var init := values[..|values| - 1];
      var last := values[|values| - 1];
      SharesOfSum(init, total);
      assert (SumReal(init) + last) / total == SumReal(init) / total + last / total;
    }
  }

  /** The slices of a pie over `values`: the first starts at the top, each
    * starts where the previous one ended, each is shaped by its share of the
    * total, and the last ends the sum of the shares past the start. */
  ghost predicate PieLaidOut(slices: seq<Slice>, values: seq<real>, total: real, radius: real)
    requires total != 0.0
  {
    && |slices| == |values|
    && (|slices| > 0 ==> slices[0].start == StartAngle)
    && (forall i :: 0 <= i < |slices| - 1 ==> slices[i].end == slices[i + 1].start)
    && (forall i :: 0 <= i < |slices| ==> SliceShaped(slices[i], values[i] / total, radius))
    && (|slices| > 0 ==> slices[|slices| - 1].end == StartAngle + SumShares(values, total))
  }

  /** The slice loop: each slice spans `value / total` of a turn from
    * `currentAngle`, which then moves to the slice's end. */
  method PieSlices(values: seq<real>, total: real, radius: real) returns (slices: seq<Slice>)
    requires total != 0.0
    ensures PieLaidOut(slices, values, total, radius)
  {
    var currentAngle := StartAngle;
    slices := [];
    for i := 0 to |values|
      invariant |slices| == i
      invariant currentAngle == StartAngle + SumShares(values[..i], total)
      invariant i > 0 ==> slices[i - 1].end == currentAngle
      invariant i > 0 ==> slices[0].start == StartAngle
      invariant forall k :: 0 <= k < i - 1 ==> slices[k].end == slices[k + 1].start
      invariant forall k :: 0 <= k < i ==> SliceShaped(slices[k], values[k] / total, radius)
    {
      assert values[..i + 1][..i] == values[..i];
      var angle := values[i] / total;
      var startAngle := currentAngle;
      var endAngle := currentAngle + angle;
      var largeArc := angle > 0.5;
      slices := slices + [Slice(startAngle, endAngle, largeArc, (startAngle + endAngle) / 2.0, radius * 0.7)];
      currentAngle := endAngle;
    }
    assert values[..|values|] == values;
  }

  /** A slice spanning `share` of a turn: the large-arc flag says whether it
    * is more than half a turn, and its label sits on the middle angle at 70%
    * of the radius. */
  predicate SliceShaped(s: Slice, share: real, radius: real) {
    && s.end - s.start == share
    && (s.largeArc <==> share > 0.5)
    && s.labelAngle == (s.start + s.end) / 2.0
    && s.labelRadius == radius * 0.7
  }

  /** The large-arc flag is set exactly when the slice's value is more than
    * half of a positive total. */
  lemma LargeArcIff(value: real, total: real)
    requires total > 0.0
    ensures value / total > 0.5 <==> 2.0 * value > total
  {
    var q := value / total;
    assert q * total == value;
  }

  /** When the values add up to the total, the slices cover exactly one turn. */
  lemma SlicesCoverTurn(values: seq<real>, total: real)
    requires total != 0.0 && SumReal(values) == total
    ensures StartAngle + SumShares(values, total) == StartAngle + 1.0
  {
    SharesOfSum(values, total);
    assert total / total == 1.0;
  }

  /** The sum of two values. */
  lemma SumRealPair(a: real, b: real)
    ensures SumReal([a, b]) == a + b
  {
    assert [a, b][..1] == [a];
    assert [a][..0] == [];
    assert SumReal([a]) == a;
  }
}
