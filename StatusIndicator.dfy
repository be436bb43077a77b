/** The coloured status dot with its caption (`StatusIndicator`): a status
    key is mapped to a background colour class and to an Indonesian caption,
    and the dot pulses unless the caller switches the animation off. */
module StatusIndicator {
  import opened Common

  /** The four status keys, from mildest to most severe. */
  const Statuses: seq<string> := ["normal", "warning", "siaga", "danger"]
  /** Dot colour per severity rank. */
  const Colors: seq<string> := ["bg-ews-green", "bg-ews-yellow", "bg-orange-500", "bg-ews-red"]
  /** Caption per severity rank. */
  const Captions: seq<string> := ["Normal", "Waspada", "Siaga", "Bahaya"]

  const PulseClass: string := "animate-pulse-slow"
  const DotClasses: string := "w-3 h-3 rounded-full mr-2"

  /** Position of a status on the severity scale; every key the switch does
      not list is read as the most severe one, as its `default` arm does. */
  function SeverityOf(status: string): (rank: nat)
    ensures rank < |Statuses|
    ensures status in Statuses ==> Statuses[rank] == status
    ensures status !in Statuses ==> rank == |Statuses| - 1
  {
    if status == "normal" then 0
    else if status == "warning" then 1
    else if status == "siaga" then 2
    else 3
  }

  /** `getStatusColor`. */
  function StatusColor(status: string): (color: string)
    ensures color == Colors[SeverityOf(status)]
  {
    match status
    case "normal" => "bg-ews-green"
    case "warning" => "bg-ews-yellow"
    case "siaga" => "bg-orange-500"
    case _ => "bg-ews-red"
  }

  /** `getStatusText`. */
  function StatusText(status: string): (caption: string)
    ensures caption == Captions[SeverityOf(status)]
  {
    match status
    case "normal" => "Normal"
    case "warning" => "Waspada"
    case "siaga" => "Siaga"
    case _ => "Bahaya"
  }

  /** What the component renders: the class list handed to `cn` (which
      drops the `false` that a disabled pulse leaves) and the caption. */
  datatype Indicator = Indicator(classes: seq<string>, caption: string)

  /** The component; `pulseAnimation` is an optional prop defaulting to true. */
  function Render(status: string, pulseAnimation: Option<bool>): (view: Indicator)
    ensures view.caption == StatusText(status)
    ensures |view.classes| >= 2 && view.classes[0] == DotClasses && view.classes[1] == StatusColor(status)
    ensures forall c :: c in view.classes ==> c == DotClasses || c == StatusColor(status) || c == PulseClass
    ensures PulseClass in view.classes <==> pulseAnimation != Some(false)
  {
    var pulse := match pulseAnimation case None => true case Some(b) => b;
    Indicator([DotClasses, StatusColor(status)] + (if pulse then [PulseClass] else []), StatusText(status))
  }

  /** Each of the four statuses gets a colour and a caption of its own. */
  lemma MappingsInjective(a: string, b: string)
    requires a in Statuses && b in Statuses && a != b
    ensures StatusColor(a) != StatusColor(b)
    ensures StatusText(a) != StatusText(b)
  {
  }

  /** Anything outside the four statuses is shown as danger. */
  lemma UnknownStatusShownAsDanger(status: string)
    requires status !in Statuses
    ensures StatusColor(status) == StatusColor("danger") == "bg-ews-red"
    ensures StatusText(status) == StatusText("danger") == "Bahaya"
  {
  }

  /** Colour and caption always name the same status: the caption
      determines the colour. */
  lemma CaptionDeterminesColor(a: string, b: string)
    ensures StatusText(a) == StatusText(b) <==> StatusColor(a) == StatusColor(b)
  {
  }
}
