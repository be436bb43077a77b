/** The per-sensor summary card (`SensorCard`): a battery bar coloured by
    level band and a link to the sensor's detail page. */
module SensorCard {
  import opened Common

  /** Battery bar colours, from healthy to critical. */
  datatype Band = Green | Yellow | Red

  /** How healthy a band is: a larger rank is a better band. */
  function Health(b: Band): nat {
    match b
    case Green => 2
    case Yellow => 1
    case Red => 0
  }

  /** The bar's colour class for a band. */
  function BandClass(b: Band): (cls: string)
    ensures StartsWith(cls, "bg-ews-")
    ensures cls == "bg-ews-green" <==> b == Green
    ensures cls == "bg-ews-yellow" <==> b == Yellow
    ensures cls == "bg-ews-red" <==> b == Red
  {
    match b
    case Green => "bg-ews-green"
    case Yellow => "bg-ews-yellow"
    case Red => "bg-ews-red"
  }

  /** The card's battery bar: green above 50 %, yellow above 20 %, red otherwise. */
  function BatteryBand(batteryLevel: real): (b: Band)
    ensures b == Green <==> batteryLevel > 50.0
    ensures b == Yellow <==> 20.0 < batteryLevel <= 50.0
    ensures b == Red <==> batteryLevel <= 20.0
  {
    if batteryLevel > 50.0 then Green
    else if batteryLevel > 20.0 then Yellow
    else Red
  }

  /** More charge never shows a worse band. */
  lemma BatteryBandMonotone(lower: real, higher: real)
    requires lower <= higher
    ensures Health(BatteryBand(lower)) <= Health(BatteryBand(higher))
  {
  }

  /** The three band classes are distinct. */
  lemma BandClassInjective(a: Band, b: Band)
    ensures BandClass(a) == BandClass(b) <==> a == b
  {
    if a != b {
      assert BandClass(a)[7] != BandClass(b)[7] || |BandClass(a)| != |BandClass(b)|;
    }
  }

  /** The class the card's battery bar renders for a battery level. */
  lemma CardBarClass(batteryLevel: real)
    ensures BandClass(BatteryBand(batteryLevel)) == "bg-ews-green" <==> batteryLevel > 50.0
    ensures BandClass(BatteryBand(batteryLevel)) == "bg-ews-yellow" <==> 20.0 < batteryLevel <= 50.0
    ensures BandClass(BatteryBand(batteryLevel)) == "bg-ews-red" <==> batteryLevel <= 20.0
  {
  }

  const DetailPrefix: string := "/sensor/"

  /** The target of the card's "Detail" link. */
  function DetailLink(id: string): (path: string)
    ensures StartsWith(path, DetailPrefix)
    ensures path[|DetailPrefix|..] == id
  {
    DetailPrefix + id
  }

  /** Different sensors link to different pages. */
  lemma DetailLinkInjective(a: string, b: string)
    ensures DetailLink(a) == DetailLink(b) <==> a == b
  {
    if DetailLink(a) == DetailLink(b) {
      assert a == DetailLink(a)[|DetailPrefix|..];
    }
  }
}
