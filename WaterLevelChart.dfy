/** The zoomable water-level chart (`ZoomableWaterLevelChart`), against its
    declared `data` prop: the y-axis range with its padding, the danger
    bands that fall inside it, the hour ticks on the x-axis, whether dots are
    drawn, and the empty-data placeholder. */
module ZoomableWaterLevelChart {
  import opened Common

  datatype ChartData = ChartData(date: string, value: real)

  /** `Math.min(...data.map(d => d.value))`. */
  function MinValue(data: seq<ChartData>): (m: real)
    requires data != []
    ensures forall d :: d in data ==> m <= d.value
    ensures exists d :: d in data && d.value == m
  {
    if |data| == 1 then data[0].value
    else
      var rest := MinValue(data[1..]);
      if data[0].value <= rest then data[0].value else rest
  }

  /** `Math.max(...data.map(d => d.value))`. */
  function MaxValue(data: seq<ChartData>): (m: real)
    requires data != []
    ensures forall d :: d in data ==> d.value <= m
    ensures exists d :: d in data && d.value == m
  {
    if |data| == 1 then data[0].value
    else
      var rest := MaxValue(data[1..]);
      if data[0].value >= rest then data[0].value else rest
  }

  /** `((max - min) || 50) * 0.1`: a tenth of the spread, or 5 when every
      value is the same. */
  function Padding(min: real, max: real): (p: real)
    ensures min < max ==> p == (max - min) / 10.0
    ensures min == max ==> p == 5.0
    ensures min <= max ==> p > 0.0
  {
    (if max - min == 0.0 then 50.0 else max - min) * 0.1
  }

  /** The memoised `{ minValue, maxValue, yDomain }`. */
  datatype Axis = Axis(minValue: real, maxValue: real, low: real, high: real)

  function AxisOf(data: seq<ChartData>): (a: Axis)
    ensures data == [] ==> a == Axis(0.0, 100.0, 0.0, 100.0)
    ensures data != [] ==>
      && (forall d :: d in data ==> a.minValue <= d.value <= a.maxValue)
      && (exists d :: d in data && d.value == a.minValue)
      && (exists d :: d in data && d.value == a.maxValue)
      && a.high == a.maxValue + Padding(a.minValue, a.maxValue)
      && a.maxValue < a.high
      && (a.low == 0.0 || a.low == a.minValue - Padding(a.minValue, a.maxValue))
      && (a.minValue >= 0.0 ==> a.low <= a.minValue)
      && (a.minValue - Padding(a.minValue, a.maxValue) <= a.low)
    ensures 0.0 <= a.low
    ensures (data == [] || a.minValue >= 0.0) ==> a.low < a.high
  {
    if data == [] then Axis(0.0, 100.0, 0.0, 100.0)
    else
      var min := MinValue(data);
      var max := MaxValue(data);
      var padding := Padding(min, max);
      Axis(min, max, if 0.0 >= min - padding then 0.0 else min - padding, max + padding)
  }

  /** A shaded danger band: its threshold level, fill colour and caption. */
  datatype Zone = Zone(level: real, color: string, caption: string)

  const Zones: seq<Zone> := [
    Zone(100.0, "#FBBF24", "Waspada"),
    Zone(150.0, "#F97316", "Siaga"),
    Zone(200.0, "#EF4444", "Bahaya")
  ]

  predicate Ascending(zones: seq<Zone>) {
    forall i, j :: 0 <= i < j < |zones| ==> zones[i].level < zones[j].level
  }

  /** `zones.filter(zone => zone.level >= low && zone.level <= high)`. */
  function ZonesWithin(zones: seq<Zone>, low: real, high: real): (kept: seq<Zone>)
    ensures forall z :: z in kept <==> z in zones && low <= z.level <= high
    ensures IsSubsequence(kept, zones)
    decreases |zones|
  {
    if zones == [] then []
    else
      var rest := ZonesWithin(zones[1..], low, high);
      if low <= zones[0].level <= high then [zones[0]] + rest else rest
  }

  /** Every copy of a zone inside the range is kept, and no other zone. */
  lemma {:induction false} ZonesWithinKeepsEveryCopy(zones: seq<Zone>, low: real, high: real)
    ensures forall z :: multiset(ZonesWithin(zones, low, high))[z] == if low <= z.level <= high then multiset(zones)[z] else 0
    decreases |zones|
  {
    if zones != [] {
      ZonesWithinKeepsEveryCopy(zones[1..], low, high);
      assert zones == [zones[0]] + zones[1..];
    }
  }

  /** Filtering keeps the thresholds in ascending order. */
  lemma {:induction false} ZonesWithinAscending(zones: seq<Zone>, low: real, high: real)
    requires Ascending(zones)
    ensures Ascending(ZonesWithin(zones, low, high))
    decreases |zones|
  {
    if zones != [] {
      var rest := ZonesWithin(zones[1..], low, high);
      ZonesWithinAscending(zones[1..], low, high);
      forall z | z in rest ensures zones[0].level < z.level {
        var j :| 0 <= j < |zones[1..]| && zones[1..][j] == z;
        assert zones[j + 1] == z;
      }
    }
  }

  /** `dangerZones`: the thresholds inside the y-axis range, lowest first. */
  function DangerZones(a: Axis): (kept: seq<Zone>)
    ensures forall z :: z in kept <==> z in Zones && a.low <= z.level <= a.high
    ensures IsSubsequence(kept, Zones)
    ensures Ascending(kept)
  {
    ZonesWithinAscending(Zones, a.low, a.high);
    ZonesWithin(Zones, a.low, a.high)
  }

  /** One `ReferenceArea`: shaded from `bottom` up to `top`. */
  datatype Band = Band(bottom: real, top: real)

  /** The reference areas: each zone is shaded from the previous zone's
      level (the first from the bottom of the axis) up to its own level. */
  function Bands(zones: seq<Zone>, low: real): (bands: seq<Band>)
    requires Ascending(zones)
    requires forall z :: z in zones ==> low <= z.level
    ensures |bands| == |zones|
    ensures forall i :: 0 <= i < |bands| ==> bands[i].top == zones[i].level && bands[i].bottom <= bands[i].top
    ensures |bands| > 0 ==> bands[0].bottom == low
    ensures forall i :: 0 < i < |bands| ==> bands[i].bottom == bands[i - 1].top
  {
    seq(|zones|, i requires 0 <= i < |zones| =>
      Band(if i > 0 then zones[i - 1].level else low, zones[i].level))
  }

  /** `Array.from(new Set(dates))`: each date once, in the order of its
      first occurrence. */
  function Distinct(dates: seq<string>): (unique: seq<string>)
    ensures forall x :: x in unique <==> x in dates
    ensures NoDuplicates(unique)
    decreases |dates|
  {
    if dates == [] then []
    else
      var last := dates[|dates| - 1];
      var unique := Distinct(dates[..|dates| - 1]);
      assert forall x :: x in dates <==> x in dates[..|dates| - 1] || x == last;
      if last in unique then unique else unique + [last]
  }

  /** The index of the first occurrence of `x` in `xs`. */
  function FirstIndex(xs: seq<string>, x: string): (k: nat)
    requires x in xs
    ensures k < |xs| && xs[k] == x && x !in xs[..k]
  {
    if xs[0] == x then 0
    else
      assert xs[1..][..FirstIndex(xs[1..], x)] == xs[1..FirstIndex(xs[1..], x) + 1];
      1 + FirstIndex(xs[1..], x)
  }

  /** `unique` lists values of `xs` in the order they first appear there. */
  predicate InFirstOccurrenceOrder(unique: seq<string>, xs: seq<string>) {
    && (forall x :: x in unique ==> x in xs)
    && (forall i, j :: 0 <= i < j < |unique| ==> FirstIndex(xs, unique[i]) < FirstIndex(xs, unique[j]))
  }

  lemma FirstIndexInPrefix(xs: seq<string>, m: nat, x: string)
    requires m <= |xs| && x in xs[..m]
    ensures FirstIndex(xs[..m], x) == FirstIndex(xs, x)
  {
  }

  lemma {:induction false} DistinctInFirstOccurrenceOrder(dates: seq<string>)
    ensures InFirstOccurrenceOrder(Distinct(dates), dates)
    decreases |dates|
  {
    if dates != [] {
      var n := |dates| - 1;
      var prefix := dates[..n];
      var last := dates[n];
      var unique := Distinct(prefix);
      DistinctInFirstOccurrenceOrder(prefix);
      assert dates[..n] == prefix;
      forall x | x in unique
        ensures FirstIndex(dates, x) == FirstIndex(prefix, x) < n
      {
        FirstIndexInPrefix(dates, n, x);
      }
      if last !in unique {
        assert FirstIndex(dates, last) == n;
      }
    }
  }

  /** `.filter(v => v.endsWith(':00'))`. */
  function HourMarks(xs: seq<string>): (marks: seq<string>)
    ensures forall x :: x in marks <==> x in xs && EndsWith(x, ":00")
    ensures IsSubsequence(marks, xs)
    decreases |xs|
  {
    if xs == [] then []
    else
      var rest := HourMarks(xs[1..]);
      if EndsWith(xs[0], ":00") then [xs[0]] + rest else rest
  }

  /** Every copy of a whole-hour label is kept, and no other label. */
  lemma {:induction false} HourMarksKeepsEveryCopy(xs: seq<string>)
    ensures forall x :: multiset(HourMarks(xs))[x] == if EndsWith(x, ":00") then multiset(xs)[x] else 0
    decreases |xs|
  {
    if xs != [] {
      HourMarksKeepsEveryCopy(xs[1..]);
      assert xs == [xs[0]] + xs[1..];
    }
  }

  /** Order and distinctness carry over to a subsequence. */
  lemma {:induction false} SubsequenceKeepsOrder(sub: seq<string>, unique: seq<string>, xs: seq<string>)
    requires IsSubsequence(sub, unique)
    requires NoDuplicates(unique) && InFirstOccurrenceOrder(unique, xs)
    ensures NoDuplicates(sub) && InFirstOccurrenceOrder(sub, xs)
    decreases |unique|
  {
    if sub != [] {
      assert unique != [];
      assert NoDuplicates(unique[1..]) && InFirstOccurrenceOrder(unique[1..], xs) by {
        forall i, j | 0 <= i < j < |unique[1..]|
          ensures unique[1..][i] != unique[1..][j]
          ensures FirstIndex(xs, unique[1..][i]) < FirstIndex(xs, unique[1..][j])
        {
          assert unique[1..][i] == unique[i + 1] && unique[1..][j] == unique[j + 1];
        }
      }
      if sub[0] == unique[0] {
        SubsequenceKeepsOrder(sub[1..], unique[1..], xs);
        SubsequenceMembers(sub[1..], unique[1..]);
        forall j | 0 < j < |sub|
          ensures sub[0] != sub[j] && FirstIndex(xs, sub[0]) < FirstIndex(xs, sub[j])
        {
          assert sub[j] == sub[1..][j - 1];
          var k :| 0 <= k < |unique[1..]| && unique[1..][k] == sub[j];
          assert unique[k + 1] == sub[j];
        }
        forall i, j | 0 <= i < j < |sub|
          ensures sub[i] != sub[j] && FirstIndex(xs, sub[i]) < FirstIndex(xs, sub[j])
        {
          if i > 0 {
            assert sub[i] == sub[1..][i - 1] && sub[j] == sub[1..][j - 1];
          }
        }
      } else {
        SubsequenceKeepsOrder(sub, unique[1..], xs);
      }
    }
  }

  lemma {:induction false} SubsequenceMembers(sub: seq<string>, xs: seq<string>)
    requires IsSubsequence(sub, xs)
    ensures forall i :: 0 <= i < |sub| ==> exists k :: 0 <= k < |xs| && xs[k] == sub[i]
    decreases |xs|
  {
    if sub != [] {
      if sub[0] == xs[0] {
        SubsequenceMembers(sub[1..], xs[1..]);
        forall i | 0 < i < |sub|
          ensures exists k :: 0 <= k < |xs| && xs[k] == sub[i]
        {
          assert sub[i] == sub[1..][i - 1];
          var k :| 0 <= k < |xs[1..]| && xs[1..][k] == sub[1..][i - 1];
          assert xs[k + 1] == sub[i];
        }
        assert xs[0] == sub[0];
      } else {
        SubsequenceMembers(sub, xs[1..]);
        forall i | 0 <= i < |sub|
          ensures exists k :: 0 <= k < |xs| && xs[k] == sub[i]
        {
          var k :| 0 <= k < |xs[1..]| && xs[1..][k] == sub[i];
          assert xs[k + 1] == sub[i];
        }
      }
    }
  }

  function Dates(data: seq<ChartData>): (dates: seq<string>)
    ensures |dates| == |data|
    ensures forall i :: 0 <= i < |data| ==> dates[i] == data[i].date
  {
    seq(|data|, i requires 0 <= i < |data| => data[i].date)
  }

  /** The x-axis `ticks`. */
  function Ticks(data: seq<ChartData>): (ticks: seq<string>)
    ensures NoDuplicates(ticks)
    ensures forall t :: t in ticks ==> EndsWith(t, ":00")
    ensures forall d :: d in data && EndsWith(d.date, ":00") ==> d.date in ticks
    ensures forall t :: t in ticks ==> exists d :: d in data && d.date == t
  {
    var dates := Dates(data);
    var ticks := HourMarks(Distinct(dates));
    assert forall d :: d in data ==> d.date in dates by {
      forall d | d in data ensures d.date in dates {
        var i :| 0 <= i < |data| && data[i] == d;
        assert dates[i] == d.date;
      }
    }
    assert forall t :: t in ticks ==> exists d :: d in data && d.date == t by {
      forall t | t in ticks ensures exists d :: d in data && d.date == t {
        var i :| 0 <= i < |dates| && dates[i] == t;
        assert data[i] in data;
      }
    }
    DistinctInFirstOccurrenceOrder(dates);
    SubsequenceKeepsOrder(ticks, Distinct(dates), dates);
    ticks
  }

  /** The ticks keep the order in which their hours first appear in the data. */
  lemma TicksInFirstOccurrenceOrder(data: seq<ChartData>)
    ensures InFirstOccurrenceOrder(Ticks(data), Dates(data))
  {
    var dates := Dates(data);
    DistinctInFirstOccurrenceOrder(dates);
    SubsequenceKeepsOrder(Ticks(data), Distinct(dates), dates);
  }

  /** `dot={data.length < 30}`. */
  function ShowDots(data: seq<ChartData>): (dots: bool)
    ensures dots <==> |data| < 30
  {
    |data| < 30
  }

  /** What the component renders: the placeholder text, or a line chart
      with its axis, shaded bands, ticks and dot setting. */
  datatype View =
    | NoData
    | LineChart(axis: Axis, zones: seq<Zone>, bands: seq<Band>, ticks: seq<string>, dots: bool)

  function Render(data: seq<ChartData>): (view: View)
    ensures view.NoData? <==> data == []
    ensures view.LineChart? ==>
      && view.axis == AxisOf(data)
      && view.zones == DangerZones(view.axis)
      && view.bands == Bands(view.zones, view.axis.low)
      && view.ticks == Ticks(data)
      && (view.dots <==> |data| < 30)
  {
    if data == [] then NoData
    else
      var axis := AxisOf(data);
      var zones := DangerZones(axis);
      LineChart(axis, zones, Bands(zones, axis.low), Ticks(data), ShowDots(data))
  }

  /** Every shaded band lies inside the y-axis range and the bands stack
      without gaps from the bottom of the axis. */
  lemma RenderedBandsInsideAxis(data: seq<ChartData>)
    requires data != []
    ensures var view := Render(data);
      && |view.bands| == |view.zones|
      && (forall i :: 0 <= i < |view.bands| ==> view.axis.low <= view.bands[i].bottom <= view.bands[i].top <= view.axis.high)
  {
    var view := Render(data);
    var zones, bands := view.zones, view.bands;
    forall i | 0 <= i < |bands|
      ensures view.axis.low <= bands[i].bottom <= bands[i].top <= view.axis.high
    {
      assert zones[i] in zones;
      if i > 0 {
        assert zones[i - 1] in zones;
      }
    }
  }

  /** With no data the axis is the fixed 0..100 range and only the
      placeholder is drawn. */
  lemma EmptyDataShowsPlaceholder()
    ensures AxisOf([]) == Axis(0.0, 100.0, 0.0, 100.0)
    ensures Render([]) == NoData
  {
  }

  /** A single level below 100 cm is padded by 5 cm on each side, so no
      danger band is shown; one at 100 cm shows the "Waspada" band. */
  lemma SinglePointAxis(date: string, value: real)
    requires 5.0 <= value
    ensures AxisOf([ChartData(date, value)]) == Axis(value, value, value - 5.0, value + 5.0)
    ensures value + 5.0 < 100.0 ==> DangerZones(AxisOf([ChartData(date, value)])) == []
    ensures value == 100.0 ==> DangerZones(AxisOf([ChartData(date, value)])) == [Zones[0]]
  {
    var a := AxisOf([ChartData(date, value)]);
    if value + 5.0 < 100.0 {
      assert forall z :: z in Zones ==> z.level > a.high;
    }
    if value == 100.0 {
      var kept := DangerZones(a);
      assert Zones[0] in kept;
      assert forall z :: z in kept ==> z == Zones[0];
      assert |kept| == 1;
    }
  }
}
