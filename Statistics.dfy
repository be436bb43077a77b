/** The statistics page (`Statistics`): the history table with its
    date / location / status filter and its reset, the calendar handler that
    regenerates the day's mock series, and the two deterministic mock
    generators behind those series. */
module Statistics {
  import opened Common

  /** One row of the history table. */
  datatype HistoryEntry = HistoryEntry(
    id: string,
    sensorName: string,
    status: string,
    location: string,
    date: string,
    time: string,
    waterLevel: int)

  const Barat: string := "Sungai Ciliwung, Jakarta Barat"
  const Timur: string := "Sungai Ciliwung, Jakarta Timur"

  /** `initialHistoryData`. */
  const InitialHistoryData: seq<HistoryEntry> := [
    HistoryEntry("1", "Sensor Jembatan Merah", "normal", Barat, "2023-05-06", "08:30:15", 35),
    HistoryEntry("2", "Sensor Kampung Pulo", "normal", Timur, "2023-05-06", "08:30:20", 42),
    HistoryEntry("3", "Sensor Jembatan Merah", "normal", Barat, "2023-05-06", "09:30:15", 38),
    HistoryEntry("4", "Sensor Kampung Pulo", "warning", Timur, "2023-05-06", "09:30:20", 50),
    HistoryEntry("5", "Sensor Jembatan Merah", "normal", Barat, "2023-05-06", "10:30:15", 36),
    HistoryEntry("6", "Sensor Kampung Pulo", "siaga", Timur, "2023-05-06", "10:30:20", 53),
    HistoryEntry("7", "Sensor Jembatan Merah", "danger", Barat, "2023-05-05", "22:15:10", 32),
    HistoryEntry("8", "Sensor Kampung Pulo", "normal", Timur, "2023-05-05", "22:15:05", 45)
  ]

  /** The day of the month, as `getDate()` returns it. */
  type DayOfMonth = d: int | 1 <= d <= 31 witness 1

  /** What the page reads of a JavaScript `Date`: its day of the month and
      its `yyyy-MM-dd` rendering. */
  datatype Date = Date(dayOfMonth: DayOfMonth, isoDate: string)

  // ---------------------------------------------------------------------
  // The history-table filter

  /** One `.filter` stage of `handleFilter`. */
  datatype Criterion = OnDate(isoDate: string) | InLocation(fragment: string) | WithStatus(status: string)

  predicate Holds(c: Criterion, e: HistoryEntry) {
    match c
    case OnDate(d) => e.date == d
    case InLocation(f) => Includes(e.location, f)
    case WithStatus(s) => e.status == s
  }

  predicate HoldsAll(cs: seq<Criterion>, e: HistoryEntry) {
    forall c :: c in cs ==> Holds(c, e)
  }

  /** `entries.filter(item => ...)` for one criterion. */
  function Where(entries: seq<HistoryEntry>, c: Criterion): (kept: seq<HistoryEntry>)
    ensures forall e :: e in kept <==> e in entries && Holds(c, e)
    ensures IsSubsequence(kept, entries)
    decreases |entries|
  {
    if entries == [] then []
    else
      var rest := Where(entries[1..], c);
      if Holds(c, entries[0]) then [entries[0]] + rest else rest
  }

  /** One filter by the conjunction of all the criteria. */
  function WhereAll(entries: seq<HistoryEntry>, cs: seq<Criterion>): (kept: seq<HistoryEntry>)
    ensures forall e :: e in kept <==> e in entries && HoldsAll(cs, e)
    ensures IsSubsequence(kept, entries)
    decreases |entries|
  {
    if entries == [] then []
    else
      var rest := WhereAll(entries[1..], cs);
      if HoldsAll(cs, entries[0]) then [entries[0]] + rest else rest
  }

  /** `.filter` drops no copy of a matching entry: each entry occurs in the
      result exactly as often as in the input when it matches, else never. */
  lemma {:induction false} WhereKeepsEveryCopy(entries: seq<HistoryEntry>, c: Criterion)
    ensures forall e :: multiset(Where(entries, c))[e] == if Holds(c, e) then multiset(entries)[e] else 0
    decreases |entries|
  {
    if entries != [] {
      WhereKeepsEveryCopy(entries[1..], c);
      assert entries == [entries[0]] + entries[1..];
    }
  }

  /** The same count for the filter by a conjunction. */
  lemma {:induction false} WhereAllKeepsEveryCopy(entries: seq<HistoryEntry>, cs: seq<Criterion>)
    ensures forall e :: multiset(WhereAll(entries, cs))[e] == if HoldsAll(cs, e) then multiset(entries)[e] else 0
    decreases |entries|
  {
    if entries != [] {
      WhereAllKeepsEveryCopy(entries[1..], cs);
      assert entries == [entries[0]] + entries[1..];
    }
  }

  /** With no criterion every entry is kept, in place. */
  lemma {:induction false} WhereAllNothing(entries: seq<HistoryEntry>)
    ensures WhereAll(entries, []) == entries
    decreases |entries|
  {
    if entries != [] {
      WhereAllNothing(entries[1..]);
    }
  }

  /** Filtering stage by stage is filtering once by the conjunction. */
  lemma {:induction false} WhereAfterWhereAll(entries: seq<HistoryEntry>, cs: seq<Criterion>, c: Criterion)
    ensures Where(WhereAll(entries, cs), c) == WhereAll(entries, cs + [c])
    decreases |entries|
  {
    if entries != [] {
      WhereAfterWhereAll(entries[1..], cs, c);
      assert HoldsAll(cs + [c], entries[0]) <==> HoldsAll(cs, entries[0]) && Holds(c, entries[0]);
    }
  }

  /** Only which criteria are applied matters, not their order. */
  lemma {:induction false} WhereAllOrderFree(entries: seq<HistoryEntry>, cs: seq<Criterion>, ds: seq<Criterion>)
    requires forall c :: c in cs <==> c in ds
    ensures WhereAll(entries, cs) == WhereAll(entries, ds)
    decreases |entries|
  {
    if entries != [] {
      WhereAllOrderFree(entries[1..], cs, ds);
      assert HoldsAll(cs, entries[0]) == HoldsAll(ds, entries[0]);
    }
  }

  /** Two `.filter` stages give the same rows in either order. */
  lemma StagesCommute(entries: seq<HistoryEntry>, c: Criterion, d: Criterion)
    ensures Where(Where(entries, c), d) == Where(Where(entries, d), c)
  {
    WhereAllNothing(entries);
    WhereAfterWhereAll(entries, [], c);
    WhereAfterWhereAll(entries, [], d);
    WhereAfterWhereAll(entries, [c], d);
    WhereAfterWhereAll(entries, [d], c);
    WhereAllOrderFree(entries, [c, d], [d, c]);
  }

  /** The stages `handleFilter` applies: the date when one is picked (a
      `Date` is always truthy), the location and the status when they are
      not the empty string. */
  function ActiveCriteria(date: Option<Date>, location: string, status: string): (cs: seq<Criterion>)
    ensures forall c :: c in cs <==>
      || (date.Some? && c == OnDate(date.value.isoDate))
      || (location != "" && c == InLocation(location))
      || (status != "" && c == WithStatus(status))
  {
    (if date.Some? then [OnDate(date.value.isoDate)] else [])
    + (if location != "" then [InLocation(location)] else [])
    + (if status != "" then [WithStatus(status)] else [])
  }

  /** A row passes the table filter: it is on the picked date, if any; its
      location contains the location text, if non-empty; its status is the
      chosen status, if non-empty. */
  predicate Selected(e: HistoryEntry, date: Option<Date>, location: string, status: string) {
    && (date.Some? ==> e.date == date.value.isoDate)
    && (location != "" ==> Includes(e.location, location))
    && (status != "" ==> e.status == status)
  }

  /** The rows `handleFilter` shows: every selected row, each as often as
      it occurs, in the original order. */
  function FilterHistory(entries: seq<HistoryEntry>, date: Option<Date>, location: string, status: string): (shown: seq<HistoryEntry>)
    ensures IsSubsequence(shown, entries)
    ensures forall e :: e in shown <==> e in entries && Selected(e, date, location, status)
  {
    ActiveCriteriaMeanSelected(date, location, status);
    WhereAll(entries, ActiveCriteria(date, location, status))
  }

  /** The active stages together accept exactly the selected rows. */
  lemma ActiveCriteriaMeanSelected(date: Option<Date>, location: string, status: string)
    ensures forall e :: HoldsAll(ActiveCriteria(date, location, status), e) <==> Selected(e, date, location, status)
  {
    var cs := ActiveCriteria(date, location, status);
    forall e ensures HoldsAll(cs, e) <==> Selected(e, date, location, status) {
      if date.Some? { assert OnDate(date.value.isoDate) in cs; }
      if location != "" { assert InLocation(location) in cs; }
      if status != "" { assert WithStatus(status) in cs; }
    }
  }

  /** The table shows every copy of a selected row and no other row. */
  lemma FilterHistoryKeepsEveryCopy(entries: seq<HistoryEntry>, date: Option<Date>, location: string, status: string)
    ensures forall e :: multiset(FilterHistory(entries, date, location, status))[e] == if Selected(e, date, location, status) then multiset(entries)[e] else 0
  {
    ActiveCriteriaMeanSelected(date, location, status);
    WhereAllKeepsEveryCopy(entries, ActiveCriteria(date, location, status));
  }

  /** With nothing selected the table is the full list, unchanged. */
  lemma NoFilterKeepsEverything(entries: seq<HistoryEntry>)
    ensures FilterHistory(entries, None, "", "") == entries
  {
    assert ActiveCriteria(None, "", "") == [];
    WhereAllNothing(entries);
  }

  /** A location keeps exactly the rows whose location contains it. */
  lemma LocationFilterExact(entries: seq<HistoryEntry>, location: string, e: HistoryEntry)
    requires location != ""
    ensures e in FilterHistory(entries, None, location, "") <==>
      e in entries && exists i :: OccursAt(e.location, location, i)
  {
    IncludesIffOccurs(e.location, location);
  }

  /** A status no row carries empties the table. */
  lemma UnusedStatusEmptiesTable(entries: seq<HistoryEntry>, date: Option<Date>, location: string, status: string)
    requires status != ""
    requires forall e :: e in entries ==> e.status != status
    ensures FilterHistory(entries, date, location, status) == []
  {
    var shown := FilterHistory(entries, date, location, status);
    assert forall i :: 0 <= i < |shown| ==> shown[i] in shown;
  }

  /** A location fragment no row contains empties the table. */
  lemma UnusedLocationEmptiesTable(entries: seq<HistoryEntry>, date: Option<Date>, location: string, status: string)
    requires location != ""
    requires forall i :: 0 <= i < |entries| ==> !Includes(entries[i].location, location)
    ensures FilterHistory(entries, date, location, status) == []
  {
    var shown := FilterHistory(entries, date, location, status);
    assert forall i :: 0 <= i < |shown| ==> shown[i] in shown;
  }

  /** The value "all" that the status list offers as "Semua Status" is an
      ordinary status to the filter: no row has it, so the table empties. */
  lemma StatusAllEmptiesTable(date: Option<Date>, location: string)
    ensures FilterHistory(InitialHistoryData, date, location, "all") == []
  {
    assert forall e :: e in InitialHistoryData ==> e.status in {"normal", "warning", "siaga", "danger"};
    UnusedStatusEmptiesTable(InitialHistoryData, date, location, "all");
  }

  /** The value "all" that the location list offers as "Semua Lokasi" is an
      ordinary substring to the filter: no location contains it. */
  lemma LocationAllEmptiesTable(date: Option<Date>, status: string)
    ensures FilterHistory(InitialHistoryData, date, "all", status) == []
  {
    MockLocations();
    DistrictsWithoutDoubleL();
    forall i | 0 <= i < |InitialHistoryData|
      ensures NoDoubleL(InitialHistoryData[i].location)
    {
      assert InitialHistoryData[i].location in {Barat, Timur};
    }
    AllNeedsDoubleL(InitialHistoryData, date, status);
  }

  /** Neither district name has two consecutive `l`s. */
  lemma DistrictsWithoutDoubleL()
    ensures NoDoubleL(Barat) && NoDoubleL(Timur)
  {
  }

  /** Every mock row lies in one of the two districts. */
  lemma MockLocations()
    ensures forall i :: 0 <= i < |InitialHistoryData| ==> InitialHistoryData[i].location in {Barat, Timur}
  {
  }

  predicate NoDoubleL(s: string) {
    forall i :: 0 <= i < |s| - 1 ==> !(s[i] == 'l' && s[i + 1] == 'l')
  }

  /** Only a location with a double `l` can include "all". */
  lemma AllNeedsDoubleL(entries: seq<HistoryEntry>, date: Option<Date>, status: string)
    requires forall i :: 0 <= i < |entries| ==> NoDoubleL(entries[i].location)
    ensures FilterHistory(entries, date, "all", status) == []
  {
    forall i | 0 <= i < |entries|
      ensures !Includes(entries[i].location, "all")
    {
      var s := entries[i].location;
      IncludesIffOccurs(s, "all");
      forall k | 0 <= k && k + 3 <= |s|
        ensures !OccursAt(s, "all", k)
      {
        assert s[k + 1] == s[k..k + 3][1] && s[k + 2] == s[k..k + 3][2];
      }
    }
    UnusedLocationEmptiesTable(entries, date, "all", status);
  }

  /** A row passes the filter as the select lists mean it: "all", like the
      empty string, places no restriction on its list. */
  predicate IntendedSelected(e: HistoryEntry, date: Option<Date>, location: string, status: string) {
    && (date.Some? ==> e.date == date.value.isoDate)
    && (location !in {"", "all"} ==> Includes(e.location, location))
    && (status !in {"", "all"} ==> e.status == status)
  }

  /** The filter as the select lists mean it: "all" selects no restriction. */
  function IntendedFilterHistory(entries: seq<HistoryEntry>, date: Option<Date>, location: string, status: string): (shown: seq<HistoryEntry>)
    ensures location != "all" && status != "all" ==> shown == FilterHistory(entries, date, location, status)
    ensures IsSubsequence(shown, entries)
    ensures forall e :: e in shown <==> e in entries && IntendedSelected(e, date, location, status)
  {
    FilterHistory(entries, date, if location == "all" then "" else location, if status == "all" then "" else status)
  }

  /** The intended filter also shows every copy of a selected row. */
  lemma IntendedKeepsEveryCopy(entries: seq<HistoryEntry>, date: Option<Date>, location: string, status: string)
    ensures forall e :: multiset(IntendedFilterHistory(entries, date, location, status))[e] == if IntendedSelected(e, date, location, status) then multiset(entries)[e] else 0
  {
    FilterHistoryKeepsEveryCopy(entries, date, if location == "all" then "" else location, if status == "all" then "" else status);
  }

  /** "all" on one list next to a real choice on the other filters by that
      choice alone, on any date: the same rows as leaving the list empty. */
  lemma IntendedAllBesideChoice(entries: seq<HistoryEntry>, date: Option<Date>, location: string, status: string)
    ensures status != "all" ==> IntendedFilterHistory(entries, date, "all", status) == FilterHistory(entries, date, "", status)
    ensures location != "all" ==> IntendedFilterHistory(entries, date, location, "all") == FilterHistory(entries, date, location, "")
  {
  }

  /** Choosing "all" for both lists shows every row again. */
  lemma IntendedAllKeepsEverything(entries: seq<HistoryEntry>)
    ensures IntendedFilterHistory(entries, None, "all", "all") == entries
    ensures IntendedFilterHistory(entries, None, "all", "") == entries
    ensures IntendedFilterHistory(entries, None, "", "all") == entries
  {
    NoFilterKeepsEverything(entries);
  }

  // ---------------------------------------------------------------------
  // Deterministic mock series

  datatype DailyPoint = DailyPoint(time: string, level: int)
  datatype HourlyPoint = HourlyPoint(time: string, sensor1: int, sensor2: int)

  /** Rise above the base level for each hour of `generateDailyData`. */
  const DailyOffsets: seq<int> := [0, 2, 4, 6, 5, 3, 2, 5, 8, 10, 13, 15, 14, 12, 10, 12, 14, 16, 15, 13, 10, 8, 5, 3]
  /** Per-hour offsets of the two sensors in `generateHourlyWaterData`. */
  const Sensor1Offsets: seq<int> := [0, 3, 2, -1, -2, 0, 3, 6, 8, 10, 11, 12, 13, 12, 11, 10, 9, 8, 7, 6, 5, 4, 3, 2]
  const Sensor2Offsets: seq<int> := [0, 2, 1, -1, -2, 0, 2, 4, 7, 9, 10, 11, 12, 11, 10, 9, 8, 7, 6, 5, 4, 3, 2, 1]

  function DailyBase(day: DayOfMonth): (base: int)
    ensures 30 <= base <= 39
  {
    30 + day % 10
  }

  /** `generateDailyData`: one reading per hour of the day. */
  function GenerateDailyData(day: DayOfMonth): (points: seq<DailyPoint>)
    ensures |points| == 24
    ensures forall h :: 0 <= h < 24 ==>
      points[h].time == HourLabel(h) && points[h].level == DailyBase(day) + DailyOffsets[h]
  {
    seq(24, h requires 0 <= h < 24 => DailyPoint(HourLabel(h), DailyBase(day) + DailyOffsets[h]))
  }

  /** The daily series is labelled 00:00 to 23:00, one point per hour. */
  lemma DailyDataLabels(day: DayOfMonth)
    ensures GenerateDailyData(day)[0].time == "00:00" && GenerateDailyData(day)[23].time == "23:00"
    ensures forall h, k :: 0 <= h < k < 24 ==> GenerateDailyData(day)[h].time != GenerateDailyData(day)[k].time
  {
    var points := GenerateDailyData(day);
    forall h, k | 0 <= h < k < 24
      ensures points[h].time != points[k].time
    {
      HourLabelInjective(h, k);
    }
  }

  /** Every offset of the daily series lies in 0..16. */
  lemma DailyOffsetsBounded()
    ensures forall h :: 0 <= h < 24 ==> 0 <= DailyOffsets[h] <= 16
  {
  }

  /** The daily series stays between the base level and 16 cm above it,
      starting at the base and peaking at 17:00. */
  lemma DailyDataLevels(day: DayOfMonth)
    ensures forall h :: 0 <= h < 24 ==> 30 <= DailyBase(day) <= GenerateDailyData(day)[h].level <= DailyBase(day) + 16 <= 55
    ensures GenerateDailyData(day)[0].level == DailyBase(day)
    ensures GenerateDailyData(day)[17].level == DailyBase(day) + 16
  {
    var points := GenerateDailyData(day);
    DailyOffsetsBounded();
    forall h | 0 <= h < 24
      ensures DailyBase(day) <= points[h].level <= DailyBase(day) + 16
    {
      assert points[h].level == DailyBase(day) + DailyOffsets[h];
    }
    assert DailyOffsets[0] == 0 && DailyOffsets[17] == 16;
    assert points[0].level == DailyBase(day) + DailyOffsets[0];
    assert points[17].level == DailyBase(day) + DailyOffsets[17];
  }

  function HourlyBase1(day: DayOfMonth): (base: int)
    ensures 30 <= base <= 37
  {
    30 + day % 8
  }

  function HourlyBase2(day: DayOfMonth): (base: int)
    ensures 36 <= base <= 45
  {
    36 + day % 10
  }

  /** `generateHourlyWaterData`: one reading per hour for each sensor. */
  function GenerateHourlyWaterData(day: DayOfMonth): (points: seq<HourlyPoint>)
    ensures |points| == 24
    ensures forall h :: 0 <= h < 24 ==>
      && points[h].time == HourLabel(h)
      && points[h].sensor1 == HourlyBase1(day) + Sensor1Offsets[h]
      && points[h].sensor2 == HourlyBase2(day) + Sensor2Offsets[h]
  {
    seq(24, h requires 0 <= h < 24 =>
      HourlyPoint(HourLabel(h), HourlyBase1(day) + Sensor1Offsets[h], HourlyBase2(day) + Sensor2Offsets[h]))
  }

  /** Both hourly series dip 2 cm below their base at 04:00, peak at 12:00,
      and so stay within 28..50 and 34..57 cm. */
  lemma HourlyDataShape(day: DayOfMonth)
    ensures forall h :: 0 <= h < 24 ==>
      && GenerateHourlyWaterData(day)[4].sensor1 <= GenerateHourlyWaterData(day)[h].sensor1 <= GenerateHourlyWaterData(day)[12].sensor1
      && GenerateHourlyWaterData(day)[4].sensor2 <= GenerateHourlyWaterData(day)[h].sensor2 <= GenerateHourlyWaterData(day)[12].sensor2
    ensures forall h :: 0 <= h < 24 ==>
      && 28 <= GenerateHourlyWaterData(day)[h].sensor1 <= 50
      && 34 <= GenerateHourlyWaterData(day)[h].sensor2 <= 57
  {
    assert forall h :: 0 <= h < 24 ==> -2 <= Sensor1Offsets[h] <= 13 && -2 <= Sensor2Offsets[h] <= 12;
  }

  /** The body of `handleFilter`: copy the list, then narrow it stage by
      stage, each stage a `.filter` call. */
  method ApplyFilters(entries: seq<HistoryEntry>, date: Option<Date>, location: string, status: string)
    returns (filteredData: seq<HistoryEntry>)
    ensures filteredData == FilterHistory(entries, date, location, status)
    ensures IsSubsequence(filteredData, entries)
  {
    // The criteria applied so far, in the order of the stages.
    ghost var byDate: seq<Criterion> := if date.Some? then [OnDate(date.value.isoDate)] else [];
    ghost var byLocation: seq<Criterion> := if location != "" then [InLocation(location)] else [];
    ghost var byStatus: seq<Criterion> := if status != "" then [WithStatus(status)] else [];

    filteredData := entries;
    WhereAllNothing(entries);

    if date.Some? {
      WhereAfterWhereAll(entries, [], OnDate(date.value.isoDate));
      assert [] + [OnDate(date.value.isoDate)] == byDate;
      filteredData := Where(filteredData, OnDate(date.value.isoDate));
    }
    assert filteredData == WhereAll(entries, byDate);

    if location != "" {
      WhereAfterWhereAll(entries, byDate, InLocation(location));
      filteredData := Where(filteredData, InLocation(location));
    }
    assert byDate + byLocation == if location != "" then byDate + [InLocation(location)] else byDate;
    assert filteredData == WhereAll(entries, byDate + byLocation);

    if status != "" {
      WhereAfterWhereAll(entries, byDate + byLocation, WithStatus(status));
      filteredData := Where(filteredData, WithStatus(status));
    }
    assert byDate + byLocation + byStatus == if status != "" then byDate + byLocation + [WithStatus(status)] else byDate + byLocation;
    assert ActiveCriteria(date, location, status) == byDate + byLocation + byStatus;
  }

  // ---------------------------------------------------------------------
  // The page state

  class StatisticsPage {
    /** The calendar date of the charts, and the series generated for it. */
    var selectedDate: Date
    var dailyData: seq<DailyPoint>
    var hourlyWaterData: seq<HourlyPoint>
    /** The table filter: picked date, location and status. */
    var date: Option<Date>
    var location: string
    var status: string
    /** The rows the table shows. */
    var historyData: seq<HistoryEntry>

    /** The series always belong to the selected date, and the table always
        shows rows of the mock history, in their original order. */
    ghost predicate Valid()
      reads this
    {
      && dailyData == GenerateDailyData(selectedDate.dayOfMonth)
      && hourlyWaterData == GenerateHourlyWaterData(selectedDate.dayOfMonth)
      && IsSubsequence(historyData, InitialHistoryData)
    }

    /** The page as it mounts, with `today` standing for `new Date()`. */
    constructor (today: Date)
      ensures Valid()
      ensures selectedDate == today && date == Some(today)
      ensures location == "" && status == "" && historyData == InitialHistoryData
    {
      selectedDate := today;
      dailyData := GenerateDailyData(today.dayOfMonth);
      hourlyWaterData := GenerateHourlyWaterData(today.dayOfMonth);
      date := Some(today);
      location := "";
      status := "";
      historyData := InitialHistoryData;
      SubsequenceOfItself(InitialHistoryData);
    }

    /** `handleDateChange`: the calendar regenerates the day's series;
        clearing the calendar changes nothing. */
    method HandleDateChange(d: Option<Date>)
      requires Valid()
      modifies this
      ensures Valid()
      ensures d.None? ==> selectedDate == old(selectedDate) && dailyData == old(dailyData) && hourlyWaterData == old(hourlyWaterData)
      ensures d.Some? ==> selectedDate == d.value
      ensures date == old(date) && location == old(location) && status == old(status) && historyData == old(historyData)
    {
      if d.Some? {
        selectedDate := d.value;
        dailyData := GenerateDailyData(d.value.dayOfMonth);
        hourlyWaterData := GenerateHourlyWaterData(d.value.dayOfMonth);
      }
    }

    /** The table's calendar (`onSelect={setDate}`). */
    method SetDate(d: Option<Date>)
      modifies this`date
      ensures date == d
    {
      date := d;
    }

    /** The location list (`onValueChange={setLocation}`). */
    method SetLocation(value: string)
      modifies this`location
      ensures location == value
    {
      location := value;
    }

    /** The status list (`onValueChange={setStatus}`). */
    method SetStatus(value: string)
      modifies this`status
      ensures status == value
    {
      status := value;
    }

    /** `handleFilter`: narrow a fresh copy of the mock history stage by
        stage, then show it. */
    method HandleFilter()
      requires Valid()
      modifies this`historyData
      ensures Valid()
      ensures historyData == FilterHistory(InitialHistoryData, date, location, status)
    {
      historyData := ApplyFilters(InitialHistoryData, date, location, status);
    }

    /** `handleResetFilters`, with `today` standing for `new Date()`. */
    method HandleResetFilters(today: Date)
      requires Valid()
      modifies this`date, this`location, this`status, this`historyData
      ensures Valid()
      ensures date == Some(today) && location == "" && status == ""
      ensures historyData == InitialHistoryData
    {
      date := Some(today);
      location := "";
      status := "";
      historyData := InitialHistoryData;
      SubsequenceOfItself(InitialHistoryData);
    }
  }
}
