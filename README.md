# ews-web early-warning dashboard, modelled in Dafny

This project models the client-side logic of the ews-web flood early-warning
dashboard, a React application that shows river water-level sensors. The
pages read fixed mock tables: there is no fetching, subscription or
live-update code in them. The modelled parts are:

- **Statistics page** (`Statistics`). The history table's filter
  (`handleFilter`) has three stages: the picked date, a substring match on
  the location, and the status. `handleResetFilters` resets the filter.
  `handleDateChange` regenerates the day's series. `generateDailyData` and
  `generateHourlyWaterData` build the mock series. The page state is the
  class `StatisticsPage`.
- **Zoomable water-level chart** (`ZoomableWaterLevelChart`):
  - the y-axis domain with 10 % padding and a floor at 0;
  - the danger zones at 100/150/200 cm that fall inside the domain, and the
    shaded bands they produce;
  - the whole-hour x-axis ticks;
  - the dot threshold of 30 points;
  - the "no data" placeholder.
- **Status indicator** (`StatusIndicator`): the status colour, the status
  caption and the optional pulse class.
- **Sensor card** (`SensorCard`): the battery bar band (50 % / 20 %) and
  the detail link.
- **Sensor detail page** (`SensorDetail`):
  - the lookup of the route id in the two-sensor table, with its not-found
    branch;
  - the page's own status caption;
  - its battery band (60 % / 20 %);
  - the hourly mock series.
- **Dashboard user counter** (`Dashboard`): a timer raises the count by one
  per tick until it reaches 215, then stops. The state is the class
  `UserCounter`.

Numbers are `real` (or `int` where the source only uses whole numbers).
JavaScript truthiness is written out: an empty string is false, and a
`Date` is always true. Formatting a date with date-fns is not modelled. A
`Date` carries its day of the month and its already-formatted
`yyyy-MM-dd` string.

## Model

| member | source | states |
|---|---|---|
| Common.IncludesIffOccurs | src/pages/Statistics.tsx:259 | `String.prototype.includes` as modelled holds exactly when the substring occurs at some position |
| StatusIndicator.StatusColor | src/components/dashboard/StatusIndicator.tsx:10-22 | The colour is the one paired with the status's severity: green, yellow, orange-500 or red. Any unknown status falls to the danger colour |
| StatusIndicator.StatusText | src/components/dashboard/StatusIndicator.tsx:24-36 | The caption is the one paired with the status's severity (Normal, Waspada, Siaga, Bahaya). An unknown status reads Bahaya |
| StatusIndicator.Render | src/components/dashboard/StatusIndicator.tsx:9-47 | The caption is the status text. The dot's classes are the fixed dot classes, then the status colour, then optionally the pulse class, and nothing else. The pulse class is present iff `pulseAnimation` is not explicitly false (it defaults to true) |
| StatusIndicator.MappingsInjective | src/components/dashboard/StatusIndicator.tsx:10-36 | The four statuses get four different colours and four different captions |
| StatusIndicator.UnknownStatusShownAsDanger | src/components/dashboard/StatusIndicator.tsx:18-34 | Any string outside the four statuses is shown exactly as "danger" (red, Bahaya) |
| StatusIndicator.CaptionDeterminesColor | src/components/dashboard/StatusIndicator.tsx:10-36 | Two statuses show the same caption iff they show the same colour |
| SensorCard.BandClass | src/components/sensors/SensorCard.tsx:44-47 | Every bar class is a `bg-ews-` colour: `bg-ews-green` iff the band is green, `bg-ews-yellow` iff yellow, `bg-ews-red` iff red |
| SensorCard.CardBarClass | src/components/sensors/SensorCard.tsx:44-47 | The card's bar renders `bg-ews-green` iff the level is above 50, `bg-ews-yellow` iff it is in (20, 50], `bg-ews-red` iff it is at most 20 |
| SensorCard.BatteryBand | src/components/sensors/SensorCard.tsx:44-47 | Green iff the level is above 50, yellow iff it is in (20, 50], red iff it is at most 20 |
| SensorCard.BatteryBandMonotone | src/components/sensors/SensorCard.tsx:44-47 | A higher battery level never shows a worse band on the card |
| SensorCard.BandClassInjective | src/components/sensors/SensorCard.tsx:44-47 | Different bands get different classes |
| SensorCard.DetailLink | src/components/sensors/SensorCard.tsx:56 | The link is `/sensor/` followed by exactly the sensor id |
| SensorCard.DetailLinkInjective | src/components/sensors/SensorCard.tsx:56 | Different ids link to different paths |
| SensorDetail.Lookup | src/pages/SensorDetail.tsx:61-75 | Intended lookup: a detail page iff the id is present and is a key of the table. The record shown carries that id. Otherwise the page is "Sensor tidak ditemukan" |
| SensorDetail.OnlyMockIdsFound | src/pages/SensorDetail.tsx:11-64 | Only `sensor1` and `sensor2` reach a detail page |
| SensorDetail.LookupAsWritten | src/pages/SensorDetail.tsx:62-64 | The lookup as written: not-found iff the id is missing, or is neither a table key nor a name inherited from `Object.prototype`. A table key shows its own record. An inherited name shows the inherited member under that name. Any sensor it shows is the one the intended lookup shows |
| SensorDetail.InheritedNameEscapesNotFound | src/pages/SensorDetail.tsx:62-64 | `/sensor/constructor` renders the detail layout as written, and the not-found page as intended |
| SensorDetail.StatusText | src/pages/SensorDetail.tsx:78-90 | The page's own caption function agrees with the status indicator's caption for every status |
| SensorDetail.BatteryBand | src/pages/SensorDetail.tsx:132-135 | Green iff the level is above 60, yellow iff it is in (20, 60], red iff it is at most 20 |
| SensorDetail.DetailBarClass | src/pages/SensorDetail.tsx:132-135 | The detail page's bar renders `bg-ews-green` iff the level is above 60, `bg-ews-yellow` iff it is in (20, 60], `bg-ews-red` iff it is at most 20 |
| SensorDetail.BatteryBandMonotone | src/pages/SensorDetail.tsx:132-135 | A higher battery level never shows a worse band on the detail page |
| SensorDetail.DetailBandVersusCardBand | src/pages/SensorDetail.tsx:133-134 | The detail page is never healthier than the card. The two differ exactly for levels in (50, 60] |
| SensorDetail.MockBatteriesGreenOnBoth | src/pages/SensorDetail.tsx:18-41 | Both mock sensors (85 % and 62 %) show green on the card and on the detail page |
| SensorDetail.ChartSeriesHourly | src/pages/SensorDetail.tsx:20-56 | Each mock series has 12 points at distinct hourly labels, 06:00 through 17:00, in order |
| ZoomableWaterLevelChart.MinValue | src/components/dashboard/ZoomableWaterLevelChart.tsx:43 | `Math.min` over the values: a lower bound of every value, attained by some point |
| ZoomableWaterLevelChart.MaxValue | src/components/dashboard/ZoomableWaterLevelChart.tsx:44 | `Math.max` over the values: an upper bound of every value, attained by some point |
| ZoomableWaterLevelChart.Padding | src/components/dashboard/ZoomableWaterLevelChart.tsx:45 | Padding is a tenth of the range. A flat series gets 5 (a tenth of the default range of 50). Padding is positive whenever min <= max |
| ZoomableWaterLevelChart.AxisOf | src/components/dashboard/ZoomableWaterLevelChart.tsx:35-51 | Empty data gives min 0, max 100 and domain [0, 100]. Otherwise the min and max are attained; the top is max + padding, above every value; the bottom is `max(0, min - padding)`, never negative and below every value when min >= 0; and the domain is non-empty when min >= 0 |
| ZoomableWaterLevelChart.ZonesWithin | src/components/dashboard/ZoomableWaterLevelChart.tsx:60 | `zones.filter(...)`: keeps exactly the zones whose level lies in the domain, in their original order |
| ZoomableWaterLevelChart.ZonesWithinKeepsEveryCopy | src/components/dashboard/ZoomableWaterLevelChart.tsx:60 | Each zone inside the domain is kept as often as it occurs, and every other zone is dropped |
| ZoomableWaterLevelChart.ZonesWithinAscending | src/components/dashboard/ZoomableWaterLevelChart.tsx:54-61 | Filtering ascending zones leaves them ascending |
| ZoomableWaterLevelChart.DangerZones | src/components/dashboard/ZoomableWaterLevelChart.tsx:54-61 | The shown zones are exactly the 100/150/200 zones inside the domain, ascending, in source order |
| ZoomableWaterLevelChart.Bands | src/components/dashboard/ZoomableWaterLevelChart.tsx:98-107 | One band per zone, ending at the zone's level. The first band starts at the domain bottom and each later one at the previous zone's level, so the bands tile without gaps |
| ZoomableWaterLevelChart.RenderedBandsInsideAxis | src/components/dashboard/ZoomableWaterLevelChart.tsx:98-107 | Every rendered band lies within the y-axis domain |
| ZoomableWaterLevelChart.Distinct | src/components/dashboard/ZoomableWaterLevelChart.tsx:83 | `Array.from(new Set(...))`: the same members as the input, with no duplicates |
| ZoomableWaterLevelChart.DistinctInFirstOccurrenceOrder | src/components/dashboard/ZoomableWaterLevelChart.tsx:83 | The set keeps the order of first occurrence, as a JavaScript `Set` iterates |
| ZoomableWaterLevelChart.HourMarks | src/components/dashboard/ZoomableWaterLevelChart.tsx:83-85 | Keeps exactly the labels ending in `:00`, in order |
| ZoomableWaterLevelChart.HourMarksKeepsEveryCopy | src/components/dashboard/ZoomableWaterLevelChart.tsx:83-85 | Each whole-hour label is kept as often as it occurs, and every other label is dropped |
| ZoomableWaterLevelChart.Dates | src/components/dashboard/ZoomableWaterLevelChart.tsx:83 | `chartData.map(d => d.date)`, position by position |
| ZoomableWaterLevelChart.Ticks | src/components/dashboard/ZoomableWaterLevelChart.tsx:83-85 | Ticks are distinct and all end in `:00`. Every whole-hour date in the data is a tick, and every tick is a date of the data |
| ZoomableWaterLevelChart.TicksInFirstOccurrenceOrder | src/components/dashboard/ZoomableWaterLevelChart.tsx:83-85 | Ticks appear in the order their dates first occur in the data |
| ZoomableWaterLevelChart.ShowDots | src/components/dashboard/ZoomableWaterLevelChart.tsx:114 | Dots are drawn iff there are fewer than 30 points |
| ZoomableWaterLevelChart.Render | src/components/dashboard/ZoomableWaterLevelChart.tsx:63-114 | The placeholder is shown iff the data is empty. Otherwise the chart carries the axis, the zones, the bands, the ticks and the dot flag defined above |
| ZoomableWaterLevelChart.EmptyDataShowsPlaceholder | src/components/dashboard/ZoomableWaterLevelChart.tsx:36-69 | Empty data gives the [0, 100] domain and the "Tidak ada data" placeholder |
| ZoomableWaterLevelChart.SinglePointAxis | src/components/dashboard/ZoomableWaterLevelChart.tsx:43-60 | A single point v >= 5 gets the domain [v-5, v+5]. No zone is shown below 95, and exactly the 100 cm zone is shown at 100 |
| Statistics.Where | src/pages/Statistics.tsx:255 | One `.filter` stage keeps exactly the entries meeting its criterion, in order |
| Statistics.WhereAll | src/pages/Statistics.tsx:251-265 | Filtering by a conjunction keeps exactly the entries meeting every criterion, in order |
| Statistics.WhereKeepsEveryCopy | src/pages/Statistics.tsx:255 | A `.filter` stage keeps each matching entry as often as it occurs, and drops every other entry |
| Statistics.WhereAllKeepsEveryCopy | src/pages/Statistics.tsx:251-265 | The conjunction filter keeps each matching entry as often as it occurs, and drops every other entry |
| Statistics.WhereAllNothing | src/pages/Statistics.tsx:251 | With no stage the copy of the list is unchanged |
| Statistics.WhereAfterWhereAll | src/pages/Statistics.tsx:251-265 | One more `.filter` stage is the same as filtering once by the extended conjunction |
| Statistics.WhereAllOrderFree | src/pages/Statistics.tsx:251-265 | Only the set of criteria matters, not their order |
| Statistics.StagesCommute | src/pages/Statistics.tsx:253-264 | Two filter stages give the same rows in either order |
| Statistics.ActiveCriteria | src/pages/Statistics.tsx:253-264 | A date stage iff a date is picked, a location stage iff the location is non-empty, a status stage iff the status is non-empty |
| Statistics.ActiveCriteriaMeanSelected | src/pages/Statistics.tsx:253-264 | Together, the active stages accept exactly the rows on the picked date whose location contains the location text and whose status equals the status, each test applying only when its field is set |
| Statistics.FilterHistory | src/pages/Statistics.tsx:250-267 | The table shows, in original order, exactly the entries on the picked date (if any) whose location contains the location text (if non-empty) and whose status equals the status (if non-empty) |
| Statistics.FilterHistoryKeepsEveryCopy | src/pages/Statistics.tsx:250-267 | The table shows each selected row as often as it occurs in the list, and no other row |
| Statistics.NoFilterKeepsEverything | src/pages/Statistics.tsx:250-267 | With no date, location or status the table is the full list, unchanged |
| Statistics.LocationFilterExact | src/pages/Statistics.tsx:258-260 | With only a location, an entry is shown iff its location contains that text |
| Statistics.UnusedStatusEmptiesTable | src/pages/Statistics.tsx:262-264 | A non-empty status that no entry has empties the table |
| Statistics.UnusedLocationEmptiesTable | src/pages/Statistics.tsx:258-260 | A non-empty location text that no entry's location contains empties the table |
| Statistics.StatusAllEmptiesTable | src/pages/Statistics.tsx:553 | As written, choosing "Semua Status" (value `all`) and filtering shows no rows |
| Statistics.LocationAllEmptiesTable | src/pages/Statistics.tsx:539 | As written, choosing "Semua Lokasi" (value `all`) and filtering shows no rows |
| Statistics.MockLocations | src/pages/Statistics.tsx:17-90 | Every mock history row is in Jakarta Barat or Jakarta Timur |
| Statistics.IntendedFilterHistory | src/pages/Statistics.tsx:534-559 | The filter with `all` meaning "no restriction", on any date: in original order, exactly the rows on the picked date (if any), containing the location text unless it is empty or `all`, with the status unless it is empty or `all`. It agrees with the as-written filter on every other selection |
| Statistics.IntendedKeepsEveryCopy | src/pages/Statistics.tsx:534-559 | The intended filter shows each selected row as often as it occurs, and no other row |
| Statistics.IntendedAllBesideChoice | src/pages/Statistics.tsx:534-559 | With the intended reading, `all` on one list beside a real choice on the other, on any date, shows the same rows as leaving that list empty |
| Statistics.IntendedAllKeepsEverything | src/pages/Statistics.tsx:539-553 | With the intended reading, "all" on either or both lists (and no date) shows every row |
| Statistics.DailyBase | src/pages/Statistics.tsx:96 | The daily base level `30 + day % 10` lies in 30..39 |
| Statistics.GenerateDailyData | src/pages/Statistics.tsx:93-124 | 24 points; point h is labelled `hh:00` and sits at the base plus the source's fixed offset for that hour |
| Statistics.DailyDataLabels | src/pages/Statistics.tsx:98-123 | The labels run from 00:00 to 23:00, one per hour, with no repeat |
| Statistics.DailyDataLevels | src/pages/Statistics.tsx:98-123 | Every level lies between the base and base+16 (at most 55). The series starts at the base and peaks at 17:00 |
| Statistics.HourlyBase1 | src/pages/Statistics.tsx:162 | Sensor 1's base `30 + day % 8` lies in 30..37 |
| Statistics.HourlyBase2 | src/pages/Statistics.tsx:163 | Sensor 2's base `36 + day % 10` lies in 36..45 |
| Statistics.GenerateHourlyWaterData | src/pages/Statistics.tsx:160-191 | 24 points; point h is labelled `hh:00` and carries each sensor's base plus the source's offset for that hour |
| Statistics.HourlyDataShape | src/pages/Statistics.tsx:165-190 | Both series are lowest at 04:00 and highest at 12:00. They stay within 28..50 and 34..57 cm |
| Statistics.ApplyFilters | src/pages/Statistics.tsx:250-265 | Copying the list and narrowing it stage by stage gives exactly `FilterHistory` |
| Statistics.StatisticsPage.constructor | src/pages/Statistics.tsx:230-239 | On mount the series belong to today, the filter date is today, location and status are empty, and the table is the full history |
| Statistics.StatisticsPage.HandleDateChange | src/pages/Statistics.tsx:241-248 | A picked date becomes the selected date and both series are regenerated for it (the page invariant). A cleared calendar changes nothing. The table filter is untouched |
| Statistics.StatisticsPage.SetDate | src/pages/Statistics.tsx:525 | The table calendar sets only the filter date |
| Statistics.StatisticsPage.SetLocation | src/pages/Statistics.tsx:534 | The location list sets only the location |
| Statistics.StatisticsPage.SetStatus | src/pages/Statistics.tsx:548 | The status list sets only the status |
| Statistics.StatisticsPage.HandleFilter | src/pages/Statistics.tsx:250-267 | The table becomes `FilterHistory` of the mock history under the current filter. It stays an in-order sub-list of the history |
| Statistics.StatisticsPage.HandleResetFilters | src/pages/Statistics.tsx:269-274 | The filter is back to today with empty location and status, and the table shows the full history |
| Dashboard.Next | src/pages/Dashboard.tsx:50-56 | Below 215 the tick adds one, at or above 215 it keeps the count, and a count in 0..215 stays in 0..215 |
| Dashboard.AfterBounded | src/pages/Dashboard.tsx:48-57 | From a count in 0..215, any number of ticks keeps it in range and never lowers it |
| Dashboard.AfterMonotone | src/pages/Dashboard.tsx:48-57 | One more tick never lowers the count |
| Dashboard.AfterClosedForm | src/pages/Dashboard.tsx:48-57 | After n ticks the count is `min(count + n, 215)` |
| Dashboard.FromZero | src/pages/Dashboard.tsx:45-57 | From 0 the count reads n after n ticks up to 215, and 215 forever after |
| Dashboard.UserCounter.constructor | src/pages/Dashboard.tsx:45-49 | The count starts at 0 with the timer running |
| Dashboard.UserCounter.Step | src/pages/Dashboard.tsx:49-56 | A tick applies `Next`. Below 215 it adds one and the timer keeps running. At 215 it keeps the count and clears the interval. The count stays in 0..215 |

## Left out

- `generateMonthlyData` (Statistics.tsx:127) uses `Math.random`, and both it and `generateTenMinuteWaterData` (Statistics.tsx:194) build their series with floating-point trigonometry and rounding. They are not modelled, and neither is the `tenMinuteWaterData` state that `handleDateChange` also sets.
- The pie-chart percentage labels, tooltip and tick formatters, and all JSX, recharts and Tailwind layout are presentation only.
- Formatting a date with date-fns `format(date, "yyyy-MM-dd")`: the formatted string is part of the model's `Date`. `new Date()` is a parameter (`today`).
- The `setInterval`/`clearInterval` lifecycle and its 50 ms period are not modelled. Timer ticks are calls of `Step`, and unmount is not modelled.
- Dashboard.UserCounter.Step: requires the timer to be running, because the cleared interval never fires again.
- IEEE-754 doubles, `NaN` and `Infinity` are not modelled. Values are exact `real`s, so `(max - min) \|\| 50` is modelled as a test for a zero range.
- `ZoomableWaterLevelChart` is modelled against its declared `data: ChartData[]` prop. Some callers pass other props (`hourlyData`, series with `time`/`sensor1` keys); that mismatch is not modelled.
- `cn` (class merging with tailwind-merge) is modelled as a plain list of classes.
- StatusIndicator.Render: the prop type admits only the four statuses; the model accepts any string and follows the `default` branch for the rest.
- SensorDetail.LookupAsWritten: an inherited property is represented by its name only. What the detail layout then renders over a function or object is not modelled.
- Statistics.StatisticsPage.HandleFilter: uses the filter as written, including the `all` behaviour (see Findings). `IntendedFilterHistory` is the corrected reading, and it agrees with it on every other selection.
- The constant tables `statusData` and `locationData` only feed charts and are not modelled.

## Findings

| source | as written | input that shows it | evidently intended | confidence | as-written member | corrected member |
|---|---|---|---|---|---|---|
| src/pages/Statistics.tsx:262-264 | the status list offers `all` ("Semua Status", line 553), and `handleFilter` compares it literally with each row's status | status `all`, then "Filter" | `all` means no status restriction | not executed | Statistics.StatusAllEmptiesTable | Statistics.IntendedAllKeepsEverything |
| src/pages/Statistics.tsx:258-260 | the location list offers `all` ("Semua Lokasi", line 539), and `handleFilter` keeps rows whose location contains the text `all` | location `all`, then "Filter" | `all` means no location restriction | not executed | Statistics.LocationAllEmptiesTable | Statistics.IntendedAllKeepsEverything |
| src/pages/SensorDetail.tsx:62 | `sensorsData[id]` reads a plain object, so inherited members such as `constructor` are truthy | route `/sensor/constructor` | ids that are not table keys show "Sensor tidak ditemukan" | not executed | SensorDetail.InheritedNameEscapesNotFound | SensorDetail.OnlyMockIdsFound |
