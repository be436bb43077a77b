/** The sensor detail page (`SensorDetail`): the route's `id` is looked up
    in a fixed table of two mock sensors; an unknown id shows the
    "Sensor tidak ditemukan" page, a known one shows its readings, a battery
    bar with its own thresholds, and a status caption. */
module SensorDetail {
  import opened Common
  import StatusIndicator
  import SensorCard

  /** One point of a sensor's chart series (its value sits under the key `sensor1`). */
  datatype ChartPoint = ChartPoint(time: string, level: int)

  datatype Sensor = Sensor(
    id: string,
    name: string,
    location: string,
    status: string,
    waterLevel: int,
    batteryLevel: real,
    lastUpdate: string,
    chartData: seq<ChartPoint>)

  function Series(levels: seq<int>): seq<ChartPoint>
    requires |levels| == 12
  {
    seq(12, i requires 0 <= i < 12 => ChartPoint(HourLabel(6 + i), levels[i]))
  }

  const Sensor1: Sensor := Sensor(
    "sensor1", "Sensor Jembatan Merah", "Sungai Ciliwung, Jakarta Barat", "normal",
    36, 85.0, "2023-05-06 10:30:15",
    Series([32, 34, 35, 36, 36, 35, 38, 40, 38, 37, 36, 36]))

  const Sensor2: Sensor := Sensor(
    "sensor2", "Sensor Kampung Pulo", "Sungai Ciliwung, Jakarta Timur", "warning",
    53, 62.0, "2023-05-06 10:30:20",
    Series([40, 42, 45, 48, 50, 52, 53, 53, 54, 53, 52, 53]))

  /** `sensorsData`: the mock table, keyed by sensor id. */
  const SensorsData: map<string, Sensor> := map["sensor1" := Sensor1, "sensor2" := Sensor2]

  /** What the page shows. `InheritedDetail` is the detail layout rendered
      over a value that is not a sensor record (see `LookupAsWritten`). */
  datatype Page = NotFound | Detail(sensor: Sensor) | InheritedDetail(member: string)

  /** The lookup of the route parameter, as the page means it: no id, or an
      id that is not a key of the table, gives the not-found page. */
  function Lookup(id: Option<string>): (page: Page)
    ensures page.Detail? <==> id.Some? && id.value in SensorsData
    ensures page.Detail? ==> page.sensor == SensorsData[id.value] && page.sensor.id == id.value
    ensures !page.InheritedDetail?
  {
    if id.None? || id.value == "" then NotFound
    else if id.value in SensorsData then Detail(SensorsData[id.value])
    else NotFound
  }

  /** Only the two mock ids reach a detail page. */
  lemma OnlyMockIdsFound(id: Option<string>)
    ensures Lookup(id).Detail? <==> id == Some("sensor1") || id == Some("sensor2")
  {
  }

  /** Names every plain JavaScript object inherits from `Object.prototype`;
      reading one of them off `sensorsData` yields a function or an object,
      which is truthy. */
  const InheritedNames: set<string> := {
    "constructor", "hasOwnProperty", "isPrototypeOf", "propertyIsEnumerable",
    "toLocaleString", "toString", "valueOf", "__proto__",
    "__defineGetter__", "__defineSetter__", "__lookupGetter__", "__lookupSetter__"
  }

  /** The lookup as the page writes it, `id && sensorsData[id]`: a property
      read on a plain object, which also finds inherited members. */
  function LookupAsWritten(id: Option<string>): (page: Page)
    ensures page.NotFound? <==> id.None? || (id.value !in SensorsData && id.value !in InheritedNames)
    ensures id.Some? && id.value in SensorsData ==> page == Detail(SensorsData[id.value])
    ensures page.InheritedDetail? ==> id.Some? && page.member == id.value && id.value in InheritedNames && id.value !in SensorsData
    ensures page.Detail? ==> page == Lookup(id)
  {
    if id.None? || id.value == "" then NotFound
    else if id.value in SensorsData then Detail(SensorsData[id.value])
    else if id.value in InheritedNames then InheritedDetail(id.value)
    else NotFound
  }

  /** The route `/sensor/constructor` escapes the not-found branch: the
      detail layout is rendered over `Object`, not over a sensor. */
  lemma InheritedNameEscapesNotFound()
    ensures LookupAsWritten(Some("constructor")) == InheritedDetail("constructor")
    ensures Lookup(Some("constructor")) == NotFound
  {
  }

  /** The page's own `getStatusText`; it agrees with the status indicator's
      caption for every status. */
  function StatusText(status: string): (caption: string)
    ensures caption == StatusIndicator.StatusText(status)
    ensures caption in StatusIndicator.Captions
  {
    match status
    case "normal" => "Normal"
    case "warning" => "Waspada"
    case "siaga" => "Siaga"
    case _ => "Bahaya"
  }

  /** The page's battery bar: green above 60 %, yellow above 20 %, red otherwise. */
  function BatteryBand(batteryLevel: real): (b: SensorCard.Band)
    ensures b == SensorCard.Green <==> batteryLevel > 60.0
    ensures b == SensorCard.Yellow <==> 20.0 < batteryLevel <= 60.0
    ensures b == SensorCard.Red <==> batteryLevel <= 20.0
  {
    if batteryLevel > 60.0 then SensorCard.Green
    else if batteryLevel > 20.0 then SensorCard.Yellow
    else SensorCard.Red
  }

  /** The class the detail page's battery bar renders for a battery level. */
  lemma DetailBarClass(batteryLevel: real)
    ensures SensorCard.BandClass(BatteryBand(batteryLevel)) == "bg-ews-green" <==> batteryLevel > 60.0
    ensures SensorCard.BandClass(BatteryBand(batteryLevel)) == "bg-ews-yellow" <==> 20.0 < batteryLevel <= 60.0
    ensures SensorCard.BandClass(BatteryBand(batteryLevel)) == "bg-ews-red" <==> batteryLevel <= 20.0
  {
  }

  /** More charge never shows a worse band on the detail page either. */
  lemma BatteryBandMonotone(lower: real, higher: real)
    requires lower <= higher
    ensures SensorCard.Health(BatteryBand(lower)) <= SensorCard.Health(BatteryBand(higher))
  {
  }

  /** The detail page is never more optimistic than the card, and the two
      disagree exactly on levels in (50, 60]. */
  lemma DetailBandVersusCardBand(batteryLevel: real)
    ensures SensorCard.Health(BatteryBand(batteryLevel)) <= SensorCard.Health(SensorCard.BatteryBand(batteryLevel))
    ensures BatteryBand(batteryLevel) != SensorCard.BatteryBand(batteryLevel) <==> 50.0 < batteryLevel <= 60.0
  {
  }

  /** Sensor 2 (62 %) is green on both; a 55 % battery would be green on
      the card and yellow on the detail page. */
  lemma MockBatteriesGreenOnBoth(id: string)
    requires id in SensorsData
    ensures BatteryBand(SensorsData[id].batteryLevel) == SensorCard.BatteryBand(SensorsData[id].batteryLevel) == SensorCard.Green
  {
  }

  /** Each mock series holds twelve hourly points, 06:00 to 17:00, in
      increasing hour order. */
  lemma ChartSeriesHourly(id: string)
    requires id in SensorsData
    ensures |SensorsData[id].chartData| == 12
    ensures forall i :: 0 <= i < 12 ==> SensorsData[id].chartData[i].time == HourLabel(6 + i)
    ensures SensorsData[id].chartData[0].time == "06:00" && SensorsData[id].chartData[11].time == "17:00"
    ensures NoDuplicates(SensorsData[id].chartData)
  {
    var data := SensorsData[id].chartData;
    forall i, j | 0 <= i < j < 12
      ensures data[i] != data[j]
    {
      HourLabelInjective(6 + i, 6 + j);
    }
  }
}
