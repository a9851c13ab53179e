/**
 * The shipment creation form: its text fields, its editable cargo list (never
 * empty), the city lookup that turns the chosen cities into coordinates, and
 * the submit handler that posts the payload and resets the form on success.
 */
module AdminForm {

  import opened Wrappers
  import opened JsValues
  import opened JsText
  import opened Cargo
  import opened Creation

  /** An entry of the city list the form offers; the list itself is a parameter. */
  datatype City = City(name: string, lat: real, lng: real)

  const FormFields: set<string> :=
    {"name", "agency", "originCity", "destCity", "estimated_hours",
     "shipper_name", "shipper_phone", "shipper_address",
     "receiver_name", "receiver_phone", "receiver_email", "receiver_address",
     "shipment_type", "shipment_mode", "carrier_ref", "payment_mode", "admin_comment"}

  /** The value a field takes when the form is first shown and after each
      successful submit: the three selects start on their first option, the
      carrier reference is a fresh draw, every other field is empty. */
  function InitialValue(field: string, carrierRef: string): string {
    if field == "carrier_ref" then carrierRef
    else if field == "shipment_type" then "Truckload"
    else if field == "shipment_mode" then "Land Shipping"
    else if field == "payment_mode" then "CASH"
    else ""
  }

  function InitialForm(carrierRef: string): (r: map<string, string>)
    ensures r.Keys == FormFields
    ensures r["carrier_ref"] == carrierRef
    ensures r["shipment_type"] == "Truckload" && r["shipment_mode"] == "Land Shipping" && r["payment_mode"] == "CASH"
    ensures forall k :: k in FormFields - {"carrier_ref", "shipment_type", "shipment_mode", "payment_mode"} ==> r[k] == ""
  {
    map k | k in FormFields :: InitialValue(k, carrierRef)
  }

  function CityIndex(cities: seq<City>, name: string): Option<nat> {
    FindIndex(cities, (c: City) => c.name == name)
  }

  /** `getCityCoords`: the first city of that name, `{lat: null, lng: null}` if none. */
  function CityCoords(cities: seq<City>, name: string): (r: LatLngValue)
    ensures forall i :: 0 <= i < |cities| && cities[i].name == name &&
                        (forall j :: 0 <= j < i ==> cities[j].name != name) ==>
                        r == LatLngValue(Num(cities[i].lat), Num(cities[i].lng))
    ensures (forall i :: 0 <= i < |cities| ==> cities[i].name != name) ==> r == LatLngValue(Null, Null)
  {
    match CityIndex(cities, name)
    case Some(i) => LatLngValue(Num(cities[i].lat), Num(cities[i].lng))
    case None => LatLngValue(Null, Null)
  }

  function ChosenCity(cities: seq<City>, form: map<string, string>, key: string): LatLngValue {
    if key in form then CityCoords(cities, form[key]) else LatLngValue(Null, Null)
  }

  const PayloadExtras: set<string> := {"products", "origin_lat", "origin_lng", "dest_lat", "dest_lng"}

  function PayloadValue(form: map<string, string>, products: seq<Value>, cities: seq<City>, k: string): Value
    requires k in form || k in PayloadExtras
  {
    if k == "products" then Arr(products)
    else if k == "origin_lat" then ChosenCity(cities, form, "originCity").lat
    else if k == "origin_lng" then ChosenCity(cities, form, "originCity").lng
    else if k == "dest_lat" then ChosenCity(cities, form, "destCity").lat
    else if k == "dest_lng" then ChosenCity(cities, form, "destCity").lng
    else Str(form[k])
  }

  /** The POST body `{...form, products, origin_lat, origin_lng, dest_lat,
      dest_lng}`: every form field as a string, then the cargo list and the
      coordinates of the chosen origin and destination cities. */
  function Payload(form: map<string, string>, products: seq<Value>, cities: seq<City>): (r: Fields)
    ensures r.Keys == form.Keys + PayloadExtras
    ensures forall k :: k in form && k !in PayloadExtras ==> r[k] == Str(form[k])
    ensures r["products"] == Arr(products)
    ensures LatLngValue(r["origin_lat"], r["origin_lng"]) == ChosenCity(cities, form, "originCity")
    ensures LatLngValue(r["dest_lat"], r["dest_lng"]) == ChosenCity(cities, form, "destCity")
  {
    map k | k in form.Keys + PayloadExtras :: PayloadValue(form, products, cities, k)
  }

  class CreationForm {
    const cities: seq<City>
    var form: map<string, string>
    var products: seq<Value>
    /** POST bodies sent so far. */
    var requests: seq<Fields>
    var alerts: seq<string>

    /** The list always has a line (Remove is offered only while there are two
        or more), and every line is an object. */
    predicate Valid()
      reads this
    {
      |products| >= 1 && forall i :: 0 <= i < |products| ==> products[i].Obj?
    }

    constructor (cityList: seq<City>, draw: RandomFraction)
      ensures Valid()
      ensures cities == cityList
      ensures form == InitialForm(CarrierRef(draw)) && products == [Obj(FormBlankProduct)]
      ensures requests == [] && alerts == []
    {
      cities := cityList;
      form := InitialForm(CarrierRef(draw));
      products := [Obj(FormBlankProduct)];
      requests := [];
      alerts := [];
    }

    /** `handleChange` for the input called `name`. */
    method HandleChange(name: string, value: string)
      requires Valid()
      modifies this
      ensures Valid()
      ensures form == old(form)[name := value]
      ensures products == old(products) && requests == old(requests) && alerts == old(alerts)
    {
      form := form[name := value];
    }

    /** `handleProductChange`: assigns the field on the element the shallow copy shares. */
    method HandleProductChange(index: nat, field: string, value: Value)
      requires Valid() && index < |products|
      modifies this
      ensures Valid()
      ensures products == SetFieldAt(old(products), index, field, value)
      ensures form == old(form) && requests == old(requests) && alerts == old(alerts)
    {
      var updated := products;
      updated := updated[index := Obj(updated[index].fields[field := value])];
      products := updated;
    }

    method AddProduct()
      requires Valid()
      modifies this
      ensures Valid()
      ensures products == old(products) + [Obj(FormBlankProduct)]
      ensures form == old(form) && requests == old(requests) && alerts == old(alerts)
    {
      products := products + [Obj(FormBlankProduct)];
    }

    /** `removeProduct`, reachable only from a Remove button, which is shown
        only while the list has more than one line. */
    method RemoveProduct(index: int)
      requires Valid() && |products| > 1
      modifies this
      ensures Valid()
      ensures products == WithoutIndex(old(products), index)
      ensures form == old(form) && requests == old(requests) && alerts == old(alerts)
    {
      WithoutIndexIsRemoveAt(products, index);
      products := WithoutIndex(products, index);
    }

    /** `handleSubmit`: `ok` is whether the response was 2xx, `draw` the random
        number behind the fresh carrier reference. */
    method HandleSubmit(ok: bool, draw: RandomFraction)
      requires Valid()
      modifies this
      ensures Valid()
      ensures requests == old(requests) + [Payload(old(form), old(products), cities)]
      ensures ok ==> form == InitialForm(CarrierRef(draw)) && products == [Obj(FormBlankProduct)] && alerts == old(alerts)
      ensures !ok ==> form == old(form) && products == old(products) && alerts == old(alerts) + [CreateFailed]
    {
      requests := requests + [Payload(form, products, cities)];
      if !ok {
        alerts := alerts + [CreateFailed];
        return;
      }
      form := InitialForm(CarrierRef(draw));
      products := [Obj(FormBlankProduct)];
    }
  }

  /** A freshly drawn carrier reference is `LOG` and twelve digits. */
  lemma FormCarrierRefFormat(draw: RandomFraction)
    ensures var c := InitialForm(CarrierRef(draw))["carrier_ref"];
      |c| == 15 && c[..3] == "LOG" && AllDigits(c[3..])
  {
    CarrierRefFormat(draw);
  }

  /** The creation route accepts every payload the form sends and keeps each
      of its cargo lines. */
  lemma SubmittedPayloadIsAccepted(form: map<string, string>, products: seq<Value>, cities: seq<City>,
                                   rnd: Randomness, now: real)
    requires forall i :: 0 <= i < |products| ==> products[i].Obj?
    ensures CreateShipment(Obj(Payload(form, products, cities)), rnd, now).Ok?
    ensures |CreateShipment(Obj(Payload(form, products, cities)), rnd, now).value.record.products| == |products|
  {
    var p := Payload(form, products, cities);
    assert forall i :: 0 <= i < |products| ==> !Nullish(products[i]);
    assert Prop(Obj(p), "products") == Arr(products);
  }

  lemma GivenCarrierRefKept(data: Value, rnd: Randomness, now: real)
    requires CreateShipment(data, rnd, now).Ok? && Truthy(Prop(data, "carrier_ref"))
    ensures CreateShipment(data, rnd, now).value.record.carrierRef == Prop(data, "carrier_ref")
  {
  }

  /** The form has no status input, so a new shipment starts `In Transit`. */
  lemma SubmittedStatus(form: map<string, string>, products: seq<Value>, cities: seq<City>,
                        rnd: Randomness, now: real)
    requires CreateShipment(Obj(Payload(form, products, cities)), rnd, now).Ok?
    requires "status" !in form
    ensures CreateShipment(Obj(Payload(form, products, cities)), rnd, now).value.record.status == Str("In Transit")
  {
    PayloadStatus(form, products, cities);
    NewRecordDefaults(Obj(Payload(form, products, cities)), rnd, now);
  }

  /** The body has a status only when the form does (a step of the proof above). */
  lemma PayloadStatus(form: map<string, string>, products: seq<Value>, cities: seq<City>)
    requires "status" !in form
    ensures Prop(Obj(Payload(form, products, cities)), "status") == Undefined
  {
    assert "status" !in PayloadExtras;
  }

  /** The chosen origin's coordinates reach the record as numbers (a 0 is
      stored as null, the route treating it as missing), and an origin city
      absent from the list is stored as null. */
  lemma SubmittedOriginCoordinates(form: map<string, string>, products: seq<Value>, cities: seq<City>,
                                   rnd: Randomness, now: real)
    requires CreateShipment(Obj(Payload(form, products, cities)), rnd, now).Ok?
    requires "originCity" in form
    ensures var rec := CreateShipment(Obj(Payload(form, products, cities)), rnd, now).value.record;
      && (CityIndex(cities, form["originCity"]).Some? ==>
            var c := cities[CityIndex(cities, form["originCity"]).value];
            && rec.originLat == (if c.lat != 0.0 then Num(c.lat) else Null)
            && rec.originLng == (if c.lng != 0.0 then Num(c.lng) else Null))
      && (CityIndex(cities, form["originCity"]).None? ==> rec.originLat == Null && rec.originLng == Null)
  {
    var p := Payload(form, products, cities);
    var o := ChosenCity(cities, form, "originCity");
    assert Prop(Obj(p), "origin_lat") == o.lat && Prop(Obj(p), "origin_lng") == o.lng;
    var rec := CreateShipment(Obj(p), rnd, now).value.record;
    assert rec.originLat == ParsedCoordinate(o.lat) && rec.originLng == ParsedCoordinate(o.lng);
  }
}
