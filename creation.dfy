/**
 * `POST /api/shipments`: the total normalisation of an untyped request body
 * into a fully defaulted shipment record, with the generated tracking code and
 * carrier reference. Also `generateCarrierRef` of the creation form, which
 * builds the reference the same way.
 */
module Creation {

  import opened Wrappers
  import opened JsValues
  import opened JsText

  const ProductKeys: set<string> :=
    {"piece_type", "description", "qty", "length_cm", "width_cm", "height_cm", "weight_kg"}

  /** One cargo line as the route stores it: the two texts default to `''` when
      falsy, `qty` to 1 and the measures to 0 when null or undefined. */
  function NormalizeProduct(p: Value): (r: Fields)
    requires !Nullish(p)
    ensures r.Keys == ProductKeys
  {
    map[
      "piece_type" := Or(Prop(p, "piece_type"), Str("")),
      "description" := Or(Prop(p, "description"), Str("")),
      "qty" := Coalesce(Prop(p, "qty"), Num(1.0)),
      "length_cm" := Coalesce(Prop(p, "length_cm"), Num(0.0)),
      "width_cm" := Coalesce(Prop(p, "width_cm"), Num(0.0)),
      "height_cm" := Coalesce(Prop(p, "height_cm"), Num(0.0)),
      "weight_kg" := Coalesce(Prop(p, "weight_kg"), Num(0.0))
    ]
  }

  /** The error every failure of the route is reported with (HTTP 500). */
  const CreateFailed: string := "Failed to create shipment"

  /** `Array.isArray(products) ? products.map(...) : []`. A null element makes
      `p.piece_type` throw, which the route reports as a failure. */
  function NormalizeProducts(v: Value): (r: Result<seq<Fields>, string>)
    ensures !v.Arr? ==> r == Ok([])
    ensures v.Arr? && (exists i :: 0 <= i < |v.items| && Nullish(v.items[i])) ==> r == Err(CreateFailed)
    ensures v.Arr? && (forall i :: 0 <= i < |v.items| ==> !Nullish(v.items[i])) ==>
              r.Ok? && |r.value| == |v.items|
              && forall i :: 0 <= i < |v.items| ==> r.value[i] == NormalizeProduct(v.items[i])
  {
    if !v.Arr? then Ok([])
    else MapProducts(v.items)
  }

  function MapProducts(items: seq<Value>): (r: Result<seq<Fields>, string>)
    ensures r.Err? ==> r == Err(CreateFailed)
    ensures (exists i :: 0 <= i < |items| && Nullish(items[i])) ==> r == Err(CreateFailed)
    ensures (forall i :: 0 <= i < |items| ==> !Nullish(items[i])) ==>
              r.Ok? && |r.value| == |items|
              && forall i :: 0 <= i < |items| ==> r.value[i] == NormalizeProduct(items[i])
  {
    if items == [] then Ok([])
    else if Nullish(items[0]) then Err(CreateFailed)
    else
      var tail := items[1..];
      assert forall i :: 1 <= i < |items| ==> items[i] == tail[i - 1];
      match MapProducts(tail)
      case Err(_) => Err(CreateFailed)
      case Ok(rest) => Ok([NormalizeProduct(items[0])] + rest)
  }

  /** `x ? parseFloat(x) : null` as the inserted row and the response carry
      it: NULL when falsy, otherwise the parsed number. An unparsable value
      gives NaN, which the JSON body of the insert and of the response spells
      `null`, so it is stored as NULL too. */
  function ParsedCoordinate(v: Value): (r: Value)
    ensures r.Null? || r.Num?
    ensures r.Num? <==> Truthy(v) && ParseFloat(v).Some?
    ensures r.Num? ==> r.n == ParseFloat(v).value
  {
    if !Truthy(v) then Null
    else match ParseFloat(v)
      case Some(x) => Num(x)
      case None => Null
  }

  /** `x ? parseInt(x, 10) : null` as stored: NULL when falsy or unparsable
      (NaN is serialised as `null`), otherwise the parsed integer. */
  function ParsedHours(v: Value): (r: Value)
    ensures r.Null? || r.Num?
    ensures r.Num? <==> Truthy(v) && ParseInt(v).Some?
    ensures r.Num? ==> r.n == ParseInt(v).value as real
  {
    if !Truthy(v) then Null
    else match ParseInt(v)
      case Some(n) => Num(n as real)
      case None => Null
  }

  /** `'SHP' + Math.random().toString(36).substring(2, 8).toUpperCase()`, for a random
      number whose base-36 digits after the point are `digits`. */
  function TrackingCode(digits: seq<Base36Digit>): string {
    "SHP" + ToUpper(Substring(FractionToString36(digits), 2, 8))
  }

  predicate IsUpperAlnum(c: char) { IsDigit(c) || 'A' <= c <= 'Z' }

  /** The code is 'SHP' and then the first (at most six) base-36 digits of the
      random number, upper-cased. */
  lemma TrackingCodeFormat(digits: seq<Base36Digit>)
    ensures var c := TrackingCode(digits);
            && c[..3] == "SHP"
            && 3 <= |c| <= 9
            && |c| - 3 == (if |digits| < 6 then |digits| else 6)
            && (forall i :: 3 <= i < |c| ==> IsUpperAlnum(c[i]))
            && (forall i :: 3 <= i < |c| ==> c[i] == UpperChar(Base36Char(digits[i - 3])))
  {
    var s := FractionToString36(digits);
    var sub := Substring(s, 2, 8);
    if digits == [] {
      assert sub == [];
    } else {
      var n := if |digits| < 6 then |digits| else 6;
      assert sub == s[2..2 + n];
      forall i | 0 <= i < n ensures UpperChar(sub[i]) == UpperChar(Base36Char(digits[i])) {
        assert sub[i] == s[2 + i];
      }
    }
  }

  const CarrierLow: nat := 100000000000
  const CarrierSpan: real := 900000000000.0

  /** `Math.floor(100000000000 + Math.random() * 900000000000)`. */
  function CarrierNumber(r: RandomFraction): (n: nat)
    ensures CarrierLow <= n < CarrierLow * 10
  {
    ((CarrierLow as real) + r * CarrierSpan).Floor
  }

  /** `'LOG' + CarrierNumber(r)`: `generateCarrierRef` of the creation form and
      the default `carrier_ref` of the route. */
  function CarrierRef(r: RandomFraction): string {
    "LOG" + NatToDecimal(CarrierNumber(r))
  }

  /** The reference is 'LOG' and exactly twelve decimal digits, which spell
      the number between 100000000000 and 999999999999 that was drawn. */
  lemma CarrierRefFormat(r: RandomFraction)
    ensures var c := CarrierRef(r);
            && |c| == 15 && c[..3] == "LOG"
            && AllDigits(c[3..])
            && DigitsValue(c[3..]) == CarrierNumber(r)
            && CarrierLow <= CarrierNumber(r) <= 999999999999
  {
    var n := CarrierNumber(r);
    assert Pow10(11) == CarrierLow;
    assert Pow10(12) == CarrierLow * 10;
    DecimalLength(n, 12);
    DecimalRoundTrip(n);
    assert CarrierRef(r)[3..] == NatToDecimal(n);
  }

  /** The record inserted into the store. */
  datatype NewShipment = NewShipment(
    code: string,
    name: Value, agency: Value,
    products: seq<Fields>,
    shipperName: Value, shipperAddress: Value, shipperPhone: Value,
    receiverName: Value, receiverAddress: Value, receiverPhone: Value, receiverEmail: Value,
    originLat: Value, originLng: Value,
    currentLat: Value, currentLng: Value,
    destLat: Value, destLng: Value,
    estimatedHours: Value,
    progress: real,
    status: Value,
    shipmentType: Value, shipmentMode: Value, paymentMode: Value,
    carrierRef: Value,
    location: Value,
    adminComment: Value,
    createdAt: real, updatedAt: real)

  /** A `{lat, lng}` pair of the response. */
  datatype LatLngValue = LatLngValue(lat: Value, lng: Value)

  /** The success response `{code, message, coordinates}` together with the inserted record. */
  datatype Created = Created(record: NewShipment, code: string,
                             origin: LatLngValue, current: LatLngValue, destination: LatLngValue)

  /** The random numbers the route draws: the base-36 digits of the one behind
      the code, and the one behind the default carrier reference. */
  datatype Randomness = Randomness(codeDigits: seq<Base36Digit>, carrier: RandomFraction)

  /** The route for a parsed JSON body `data`, at clock `now`. A null body makes
      the first property read throw. */
  function CreateShipment(data: Value, rnd: Randomness, now: real): (r: Result<Created, string>)
    ensures r.Err? ==> r.error == CreateFailed
    ensures r.Ok? ==> r.value.code == TrackingCode(rnd.codeDigits) && r.value.record.code == r.value.code
  {
    if Nullish(data) then Err(CreateFailed)
    else
      match NormalizeProducts(Prop(data, "products"))
      case Err(e) => Err(e)
      case Ok(products) =>
        var code := TrackingCode(rnd.codeDigits);
        var rec := NewShipment(
          code,
          Or(Prop(data, "name"), Str("")), Or(Prop(data, "agency"), Str("")),
          products,
          Or(Prop(data, "shipper_name"), Str("")), Or(Prop(data, "shipper_address"), Str("")),
          Or(Prop(data, "shipper_phone"), Null),
          Or(Prop(data, "receiver_name"), Str("")), Or(Prop(data, "receiver_address"), Str("")),
          Or(Prop(data, "receiver_phone"), Null), Or(Prop(data, "receiver_email"), Null),
          ParsedCoordinate(Prop(data, "origin_lat")), ParsedCoordinate(Prop(data, "origin_lng")),
          ParsedCoordinate(Prop(data, "current_lat")), ParsedCoordinate(Prop(data, "current_lng")),
          ParsedCoordinate(Prop(data, "dest_lat")), ParsedCoordinate(Prop(data, "dest_lng")),
          ParsedHours(Prop(data, "estimated_hours")),
          0.0,
          Or(Prop(data, "status"), Str("In Transit")),
          Or(Prop(data, "shipment_type"), Str("Truckload")),
          Or(Prop(data, "shipment_mode"), Str("Land Shipping")),
          Or(Prop(data, "payment_mode"), Str("CASH")),
          Or(Prop(data, "carrier_ref"), Str(CarrierRef(rnd.carrier))),
          Or(Prop(data, "location"), Str("")),
          Or(Prop(data, "admin_comment"), Null),
          now, now);
        Ok(Created(rec, code,
                   LatLngValue(rec.originLat, rec.originLng),
                   LatLngValue(rec.currentLat, rec.currentLng),
                   LatLngValue(rec.destLat, rec.destLng)))
  }

  // ------------------------------------------------------------ properties

  /** The route fails (500) exactly on a null body or on a null product line. */
  lemma CreateFailsExactly(data: Value, rnd: Randomness, now: real)
    ensures CreateShipment(data, rnd, now).Err? <==>
            (Nullish(data) || (Prop(data, "products").Arr? &&
              exists i :: 0 <= i < |Prop(data, "products").items| && Nullish(Prop(data, "products").items[i])))
  {
  }

  /** Per-line defaults: texts fall back to `''` only when falsy, `qty` to 1 and
      the measures to 0 only when null or undefined (so an explicit 0 quantity is kept). */
  lemma ProductDefaults(p: Value)
    requires !Nullish(p)
    ensures var r := NormalizeProduct(p);
            && (Truthy(Prop(p, "piece_type")) ==> r["piece_type"] == Prop(p, "piece_type"))
            && (!Truthy(Prop(p, "piece_type")) ==> r["piece_type"] == Str(""))
            && (Truthy(Prop(p, "description")) ==> r["description"] == Prop(p, "description"))
            && (!Truthy(Prop(p, "description")) ==> r["description"] == Str(""))
            && (Nullish(Prop(p, "qty")) ==> r["qty"] == Num(1.0))
            && (!Nullish(Prop(p, "qty")) ==> r["qty"] == Prop(p, "qty"))
            && (forall k :: k in {"length_cm", "width_cm", "height_cm", "weight_kg"} ==>
                  r[k] == if Nullish(Prop(p, k)) then Num(0.0) else Prop(p, k))
  {
  }

  /** Every created record starts at progress 0 with the given status or
      'In Transit', the documented transaction defaults, and the clock as both times. */
  lemma NewRecordDefaults(data: Value, rnd: Randomness, now: real)
    requires CreateShipment(data, rnd, now).Ok?
    ensures var rec := CreateShipment(data, rnd, now).value.record;
            && rec.progress == 0.0
            && (Truthy(Prop(data, "status")) ==> rec.status == Prop(data, "status"))
            && (!Truthy(Prop(data, "status")) ==> rec.status == Str("In Transit"))
            && (!Truthy(Prop(data, "shipment_type")) ==> rec.shipmentType == Str("Truckload"))
            && (!Truthy(Prop(data, "shipment_mode")) ==> rec.shipmentMode == Str("Land Shipping"))
            && (!Truthy(Prop(data, "payment_mode")) ==> rec.paymentMode == Str("CASH"))
            && (!Truthy(Prop(data, "carrier_ref")) ==> rec.carrierRef == Str(CarrierRef(rnd.carrier)))
            && rec.createdAt == now && rec.updatedAt == now
            && rec.code == TrackingCode(rnd.codeDigits)
  {
  }

  /** A body without an array `products` gets an empty cargo list; an array is
      mapped one line to one line, in order. */
  lemma CargoListShape(data: Value, rnd: Randomness, now: real)
    requires !Nullish(data)
    ensures !Prop(data, "products").Arr? ==>
              CreateShipment(data, rnd, now).Ok? && CreateShipment(data, rnd, now).value.record.products == []
    ensures var v := Prop(data, "products");
            v.Arr? && (forall i :: 0 <= i < |v.items| ==> !Nullish(v.items[i])) ==>
              var ps := CreateShipment(data, rnd, now).value.record.products;
              |ps| == |v.items| && forall i :: 0 <= i < |ps| ==> ps[i] == NormalizeProduct(v.items[i])
  {
  }

  /** The response repeats exactly the coordinates stored in the record, and
      each coordinate is NULL when the body's value is falsy. */
  lemma ResponseEchoesCoordinates(data: Value, rnd: Randomness, now: real)
    requires CreateShipment(data, rnd, now).Ok?
    ensures var c := CreateShipment(data, rnd, now).value;
            && c.code == c.record.code
            && c.origin == LatLngValue(c.record.originLat, c.record.originLng)
            && c.current == LatLngValue(c.record.currentLat, c.record.currentLng)
            && c.destination == LatLngValue(c.record.destLat, c.record.destLng)
            && (!Truthy(Prop(data, "origin_lat")) ==> c.record.originLat == Null)
            && (Prop(data, "dest_lat").Num? && Truthy(Prop(data, "dest_lat")) ==> c.record.destLat == Prop(data, "dest_lat"))
  {
  }
}
