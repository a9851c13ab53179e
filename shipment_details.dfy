/**
 * The public tracking view of one shipment: its display helpers (placeholder
 * formatting, the progress estimate from the current position, the arrival
 * time, the status label and colour) and the polling loop that refreshes the
 * shipment while it can still move.
 */
module ShipmentDetails {

  import opened Wrappers
  import opened JsValues
  import opened Simulation

  /** `fmt`: the dash placeholder for a missing or empty value. */
  function Fmt(v: Value): (r: Value)
    ensures (v.Null? || v.Undefined? || v == Str("")) ==> r == Str("—")
    ensures !(v.Null? || v.Undefined? || v == Str("")) ==> r == v
  {
    if v.Null? || v.Undefined? || v == Str("") then Str("—") else v
  }

  function Clamp01(x: real): (r: real)
    ensures 0.0 <= r <= 1.0
    ensures 0.0 <= x <= 1.0 ==> r == x
    ensures x < 0.0 ==> r == 0.0
    ensures x > 1.0 ==> r == 1.0
  {
    if x < 0.0 then 0.0 else if x > 1.0 then 1.0 else x
  }

  /** The great-circle distance between two points given as coordinate values;
      its trigonometry is not modelled, only that it is a function. */
  type Distance = (Value, Value, Value, Value) -> real

  /** The origin used by the estimate: the shipment's own, else the first known position. */
  function OriginLat(shipment: Value, initial: Value): Value {
    Coalesce(OptProp(shipment, "origin_lat"), OptProp(initial, "current_lat"))
  }

  function OriginLng(shipment: Value, initial: Value): Value {
    Coalesce(OptProp(shipment, "origin_lng"), OptProp(initial, "current_lng"))
  }

  /** Whether every coordinate the estimate needs is truthy. */
  predicate Measurable(shipment: Value, initial: Value, lat: Value, lng: Value) {
    && Truthy(OriginLat(shipment, initial)) && Truthy(OriginLng(shipment, initial))
    && Truthy(OptProp(shipment, "dest_lat")) && Truthy(OptProp(shipment, "dest_lng"))
    && Truthy(lat) && Truthy(lng)
  }

  function TotalDistance(shipment: Value, initial: Value, distance: Distance): real {
    distance(OriginLat(shipment, initial), OriginLng(shipment, initial),
             OptProp(shipment, "dest_lat"), OptProp(shipment, "dest_lng"))
  }

  /** `calculatedProgress`: the share of the origin-to-destination distance
      already covered by the displayed location `(lat, lng)`, clamped to
      [0, 1]; the stored progress (or 0) when a coordinate is missing. */
  function CalculatedProgress(shipment: Value, initial: Value, lat: Value, lng: Value, distance: Distance): (r: Value)
    ensures !Measurable(shipment, initial, lat, lng) ==> r == Coalesce(OptProp(shipment, "progress"), Num(0.0))
    ensures Measurable(shipment, initial, lat, lng) ==> r.Num? && 0.0 <= r.n <= 1.0
    ensures Measurable(shipment, initial, lat, lng) && TotalDistance(shipment, initial, distance) <= 0.0 ==>
              r == Num(0.0)
  {
    if !Measurable(shipment, initial, lat, lng) then
      Coalesce(OptProp(shipment, "progress"), Num(0.0))
    else
      var oLat := OriginLat(shipment, initial);
      var oLng := OriginLng(shipment, initial);
      var total := distance(oLat, oLng, OptProp(shipment, "dest_lat"), OptProp(shipment, "dest_lng"));
      var travelled := distance(oLat, oLng, lat, lng);
      var share := if total > 0.0 then travelled / total else 0.0;
      Num(Clamp01(share))
  }

  /** Standing at the destination, or as far from the origin as it is or
      farther, reads as complete. */
  lemma AtDestinationIsComplete(shipment: Value, initial: Value, lat: Value, lng: Value, distance: Distance)
    requires Measurable(shipment, initial, lat, lng)
    requires TotalDistance(shipment, initial, distance) > 0.0
    requires distance(OriginLat(shipment, initial), OriginLng(shipment, initial), lat, lng)
             >= TotalDistance(shipment, initial, distance)
    ensures CalculatedProgress(shipment, initial, lat, lng, distance) == Num(1.0)
  {
    var oLat := OriginLat(shipment, initial);
    var oLng := OriginLng(shipment, initial);
    var total := distance(oLat, oLng, OptProp(shipment, "dest_lat"), OptProp(shipment, "dest_lng"));
    var travelled := distance(oLat, oLng, lat, lng);
    Interpolation.DivAtLeastOne(travelled, total);
  }

  /** With no coordinates at all and no shipment loaded, the estimate is 0. */
  lemma NoShipmentNoProgress(initial: Value, lat: Value, lng: Value, distance: Distance)
    ensures CalculatedProgress(Null, initial, lat, lng, distance) == Num(0.0)
  {
  }

  /** The arrival estimate: unavailable without a creation time or hours,
      otherwise the creation instant plus the hours; an hours value that is not
      a number gives an invalid date (`None`). */
  datatype Eta = NotAvailable | Arrival(atMs: Option<real>, hours: Value)

  /** `eta`, with `startMs` the parsed `created_at` instant in milliseconds. */
  function EtaOf(shipment: Value, startMs: real): (r: Eta)
    ensures (!Truthy(OptProp(shipment, "created_at")) || !Truthy(OptProp(shipment, "estimated_hours"))) ==> r == NotAvailable
    ensures Truthy(OptProp(shipment, "created_at")) && OptProp(shipment, "estimated_hours").Num? &&
            OptProp(shipment, "estimated_hours").n != 0.0 ==>
              r == Arrival(Some(startMs + OptProp(shipment, "estimated_hours").n * MsPerHour),
                           OptProp(shipment, "estimated_hours"))
  {
    var created := OptProp(shipment, "created_at");
    var hours := OptProp(shipment, "estimated_hours");
    if !Truthy(created) || !Truthy(hours) then NotAvailable
    else if hours.Num? then Arrival(Some(startMs + hours.n * 60.0 * 60.0 * 1000.0), hours)
    else Arrival(None, hours)
  }

  /** A positive duration puts the arrival after the start. */
  lemma EtaAfterStart(shipment: Value, startMs: real)
    requires Truthy(OptProp(shipment, "created_at"))
    requires OptProp(shipment, "estimated_hours").Num? && OptProp(shipment, "estimated_hours").n > 0.0
    ensures EtaOf(shipment, startMs).Arrival? && EtaOf(shipment, startMs).atMs.Some?
    ensures EtaOf(shipment, startMs).atMs.value > startMs
  {
  }

  /** `displayStatus`: a shipment on hold is shown as stopped. */
  function DisplayStatus(status: Value): (r: Value)
    ensures status == Str("On Hold") ==> r == Str("Stopped")
    ensures status != Str("On Hold") ==> r == status
  {
    if status == Str("On Hold") then Str("Stopped") else status
  }

  /** `Math.round`: the nearest integer, halves rounded up. */
  function Round(x: real): (r: int)
    ensures r as real - 0.5 <= x < r as real + 0.5
  {
    (x + 0.5).Floor
  }

  /** `progressPct`: the progress as a whole percentage, never above 100. */
  function ProgressPct(p: real): (r: int)
    ensures r <= 100
    ensures 0.0 <= p ==> 0 <= r
    ensures p >= 1.0 ==> r == 100
  {
    var rounded := Round(p * 100.0);
    if rounded < 100 then rounded else 100
  }

  /** A higher progress never shows a lower percentage. */
  lemma ProgressPctMonotone(p: real, q: real)
    requires p <= q
    ensures ProgressPct(p) <= ProgressPct(q)
  {
    assert p * 100.0 + 0.5 <= q * 100.0 + 0.5;
  }

  /** The colour family a status badge is drawn in. */
  datatype Tone = Green | Yellow | Red | Blue | Gray

  datatype StatusStyle = StatusStyle(bg: string, text: string, border: string, gradient: string)

  /** `getStatusConfig`'s choice of colour: one per known status, grey otherwise. */
  function StatusTone(status: Value): (t: Tone)
    ensures status == Str("Delivered") <==> t == Green
    ensures status == Str("On Hold") <==> t == Yellow
    ensures status == Str("Cancelled") <==> t == Red
    ensures status == Str("In Transit") <==> t == Blue
  {
    match status
    case Str(s) =>
      if s == "Delivered" then Green
      else if s == "On Hold" then Yellow
      else if s == "Cancelled" then Red
      else if s == "In Transit" then Blue
      else Gray
    case _ => Gray
  }

  /** The badge classes of each colour. */
  function ToneStyle(t: Tone): StatusStyle {
    match t
    case Green => StatusStyle("bg-green-500", "text-green-700", "border-green-200", "from-green-50 to-green-100")
    case Yellow => StatusStyle("bg-yellow-500", "text-yellow-700", "border-yellow-200", "from-yellow-50 to-yellow-100")
    case Red => StatusStyle("bg-red-500", "text-red-700", "border-red-200", "from-red-50 to-red-100")
    case Blue => StatusStyle("bg-blue-500", "text-blue-700", "border-blue-200", "from-blue-50 to-blue-100")
    case Gray => StatusStyle("bg-gray-500", "text-gray-700", "border-gray-200", "from-gray-50 to-gray-100")
  }

  /** `getStatusConfig`: the badge classes of the status's colour. */
  function GetStatusConfig(status: Value): StatusStyle {
    ToneStyle(StatusTone(status))
  }

  /** Any status outside the four known ones, including those other screens
      offer such as `Arrived`, is drawn grey. */
  lemma UnknownStatusIsGray(status: Value)
    requires status !in {Str("Delivered"), Str("On Hold"), Str("Cancelled"), Str("In Transit")}
    ensures GetStatusConfig(status) == StatusStyle("bg-gray-500", "text-gray-700", "border-gray-200", "from-gray-50 to-gray-100")
  {
    assert StatusTone(status) == Gray;
  }

  // ------------------------------------------------------------ polling

  /** Statuses after which the shipment no longer moves. */
  predicate StopsMovement(status: Value) {
    status in {Str("On Hold"), Str("Cancelled"), Str("Delivered")}
  }

  /** A request the view sends: the movement step, or the tracking read. */
  datatype Request = SimulatePost(path: string, code: Value) | TrackingGet(code: Value)

  /** The path the view posts the movement step to, as written; the route
      itself is served under `/api/shipments/simulate-movement`. */
  const SimulatePath := "/api/simulate-movement"

  class Tracker {
    /** The shipment the page was rendered with. */
    const initial: Value
    var shipment: Value
    var lat: Value
    var lng: Value
    var polling: bool
    var mounted: bool
    var requests: seq<Request>

    constructor (initialShipment: Value)
      ensures initial == initialShipment
      ensures shipment == Coalesce(initialShipment, Null)
      ensures lat == Coalesce(OptProp(initialShipment, "current_lat"), Null)
      ensures lng == Coalesce(OptProp(initialShipment, "current_lng"), Null)
      ensures polling && !mounted && requests == []
    {
      initial := initialShipment;
      shipment := Coalesce(initialShipment, Null);
      lat := Coalesce(OptProp(initialShipment, "current_lat"), Null);
      lng := Coalesce(OptProp(initialShipment, "current_lng"), Null);
      polling := true;
      mounted := false;
      requests := [];
    }

    /** The requests one `fetchShipment` issues before its response arrives:
        the movement step only while the page's shipment was in transit. */
    function FetchRequests(): (r: seq<Request>)
      reads this
      ensures |r| >= 1 && r[|r| - 1] == TrackingGet(OptProp(initial, "code"))
      ensures |r| == 2 <==> OptProp(initial, "status") == Str("In Transit")
      ensures |r| == 2 ==> r[0] == SimulatePost(SimulatePath, OptProp(initial, "code"))
    {
      var code := OptProp(initial, "code");
      (if OptProp(initial, "status") == Str("In Transit") then [SimulatePost(SimulatePath, code)] else [])
        + [TrackingGet(code)]
    }

    /** The effect body: nothing without a code; otherwise mark mounted and fetch. */
    method Start()
      modifies this
      ensures !Truthy(OptProp(initial, "code")) ==> mounted == old(mounted) && requests == old(requests)
      ensures Truthy(OptProp(initial, "code")) ==> mounted && requests == old(requests) + FetchRequests()
      ensures shipment == old(shipment) && lat == old(lat) && lng == old(lng) && polling == old(polling)
    {
      if !Truthy(OptProp(initial, "code")) {
        return;
      }
      mounted := true;
      requests := requests + FetchRequests();
    }

    /** One tick of the three-second interval. */
    method Tick()
      requires mounted
      modifies this
      ensures polling ==> requests == old(requests) + FetchRequests()
      ensures !polling ==> requests == old(requests)
      ensures shipment == old(shipment) && lat == old(lat) && lng == old(lng)
      ensures polling == old(polling) && mounted == old(mounted)
    {
      if polling {
        requests := requests + FetchRequests();
      }
    }

    /** The effect cleanup, on unmount or before the effect re-runs. */
    method Stop()
      modifies this
      ensures !mounted
      ensures shipment == old(shipment) && lat == old(lat) && lng == old(lng)
      ensures polling == old(polling) && requests == old(requests)
    {
      mounted := false;
    }

    /** A tracking response `data` arrives. */
    method Receive(data: Value)
      modifies this
      ensures !old(mounted) ==>
        shipment == old(shipment) && lat == old(lat) && lng == old(lng) && polling == old(polling)
      ensures old(mounted) ==> shipment == data
      ensures old(mounted) && !Nullish(data) && !StopsMovement(Prop(data, "status")) ==>
        lat == Coalesce(Prop(data, "current_lat"), Null) && lng == Coalesce(Prop(data, "current_lng"), Null) &&
        polling == old(polling)
      ensures old(mounted) && !Nullish(data) && StopsMovement(Prop(data, "status")) ==>
        lat == old(lat) && lng == old(lng) && !polling
      ensures old(mounted) && Nullish(data) ==> lat == old(lat) && lng == old(lng) && polling == old(polling)
      ensures mounted == old(mounted) && requests == old(requests)
    {
      if !mounted {
        return;
      }
      shipment := data;
      if Nullish(data) {
        // reading `data.status` throws; the error is logged and nothing else changes
        return;
      }
      var status := Prop(data, "status");
      if !StopsMovement(status) {
        lat := Coalesce(Prop(data, "current_lat"), Null);
        lng := Coalesce(Prop(data, "current_lng"), Null);
      }
      if status in {Str("Cancelled"), Str("Delivered"), Str("On Hold")} {
        polling := false;
      }
    }
  }
}
