/**
 * The admin dashboard's client-side state: the loaded shipment list, the
 * comment drafts, and the PATCH requests its handlers send. The network is
 * not modelled; each handler's request is appended to `outbox`, and each
 * browser alert to `alerts`.
 */
module Dashboard {

  import opened Wrappers
  import opened JsValues
  import opened JsText
  import opened Cargo

  /** A PATCH request: the endpoint it goes to and its JSON body. */
  datatype Patch = Patch(endpoint: string, body: Fields)

  /** Admin comments go to the tracking endpoint (which mails the customer);
      every other field goes to the shipment endpoint. */
  function Endpoint(code: string, field: string): (r: string)
    ensures field == "admin_comment" ==> r == "/api/tracking/" + code
    ensures field != "admin_comment" ==> r == "/api/shipments/" + code
  {
    if field == "admin_comment" then "/api/tracking/" + code else "/api/shipments/" + code
  }

  /** A fetched shipment with its `products` replaced by `[]` unless it is an array. */
  function NormalizedShipment(s: Fields): (r: Fields)
    ensures r.Keys == s.Keys + {"products"}
    ensures r["products"].Arr?
    ensures Get(s, "products").Arr? ==> r["products"] == s["products"]
    ensures !Get(s, "products").Arr? ==> r["products"] == Arr([])
    ensures forall k :: k in s && k != "products" ==> r[k] == s[k]
  {
    s["products" := if Get(s, "products").Arr? then s["products"] else Arr([])]
  }

  function NormalizeLoaded(data: seq<Fields>): (r: seq<Fields>)
    ensures |r| == |data|
    ensures forall i :: 0 <= i < |r| ==> r[i] == NormalizedShipment(data[i])
    ensures forall i :: 0 <= i < |r| ==> Get(r[i], "products").Arr?
  {
    seq(|data|, i requires 0 <= i < |data| => NormalizedShipment(data[i]))
  }

  /** Normalising an already normalised list changes nothing. */
  lemma NormalizeLoadedIdempotent(data: seq<Fields>)
    ensures NormalizeLoaded(NormalizeLoaded(data)) == NormalizeLoaded(data)
  {
    var once := NormalizeLoaded(data);
    assert forall i :: 0 <= i < |once| ==> NormalizedShipment(once[i]) == once[i];
  }

  /** `shipments.find((s) => s.code === code)`, as a position. */
  function ShipmentIndex(shipments: seq<Fields>, code: string): (r: Option<nat>)
    ensures r.Some? ==> r.value < |shipments| && Get(shipments[r.value], "code") == Str(code)
    ensures r.None? ==> forall i :: 0 <= i < |shipments| ==> Get(shipments[i], "code") != Str(code)
  {
    FindIndex(shipments, (s: Fields) => Get(s, "code") == Str(code))
  }

  function ProductsOf(s: Fields): seq<Value> {
    if Get(s, "products").Arr? then s["products"].items else []
  }

  const ValidCoordinatesAlert := "Enter valid coordinates"

  class AdminDashboard {
    var shipments: seq<Fields>
    var commentInputs: map<string, string>
    var outbox: seq<Patch>
    var alerts: seq<string>

    /** Every loaded shipment carries an array of products. */
    predicate Valid()
      reads this
    {
      forall i :: 0 <= i < |shipments| ==> Get(shipments[i], "products").Arr?
    }

    constructor ()
      ensures Valid()
      ensures shipments == [] && commentInputs == map[] && outbox == [] && alerts == []
    {
      shipments := [];
      commentInputs := map[];
      outbox := [];
      alerts := [];
    }

    /** `loadShipments` once the fetched list `data` has arrived. */
    method LoadShipments(data: seq<Fields>)
      modifies this
      ensures Valid()
      ensures shipments == NormalizeLoaded(data)
      ensures commentInputs == old(commentInputs) && outbox == old(outbox) && alerts == old(alerts)
    {
      shipments := NormalizeLoaded(data);
    }

    /** `updateShipmentField`: send `{[field]: value}` to the field's endpoint. */
    method UpdateShipmentField(code: string, field: string, value: Value)
      modifies this
      ensures outbox == old(outbox) + [Patch(Endpoint(code, field), map[field := value])]
      ensures shipments == old(shipments) && commentInputs == old(commentInputs) && alerts == old(alerts)
    {
      outbox := outbox + [Patch(Endpoint(code, field), map[field := value])];
    }

    /** `handleProductChange`: the rendered rows only offer positions of the list. */
    method HandleProductChange(code: string, index: nat, field: string, value: Value)
      requires Valid()
      requires ShipmentIndex(shipments, code).Some? ==>
        index < |ProductsOf(shipments[ShipmentIndex(shipments, code).value])|
      modifies this
      ensures Valid() && shipments == old(shipments)
      ensures ShipmentIndex(shipments, code).None? ==> outbox == old(outbox)
      ensures ShipmentIndex(shipments, code).Some? ==>
        var list := ProductsOf(shipments[ShipmentIndex(shipments, code).value]);
        outbox == old(outbox) + [Patch("/api/shipments/" + code,
                                       map["products" := Arr(SpreadSetFieldAt(list, index, field, value))])]
      ensures commentInputs == old(commentInputs) && alerts == old(alerts)
    {
      var found := ShipmentIndex(shipments, code);
      if found.None? {
        return;
      }
      var updated := ProductsOf(shipments[found.value]);
      updated := updated[index := Obj(SpreadFields(updated[index])[field := value])];
      UpdateShipmentField(code, "products", Arr(updated));
    }

    /** `addProduct`: append the seven-field blank line. */
    method AddProduct(code: string)
      requires Valid()
      modifies this
      ensures Valid() && shipments == old(shipments)
      ensures ShipmentIndex(shipments, code).None? ==> outbox == old(outbox)
      ensures ShipmentIndex(shipments, code).Some? ==>
        var list := ProductsOf(shipments[ShipmentIndex(shipments, code).value]);
        outbox == old(outbox) + [Patch("/api/shipments/" + code,
                                       map["products" := Arr(list + [Obj(FormBlankProduct)])])]
      ensures commentInputs == old(commentInputs) && alerts == old(alerts)
    {
      var found := ShipmentIndex(shipments, code);
      if found.None? {
        return;
      }
      var updated := ProductsOf(shipments[found.value]) + [Obj(FormBlankProduct)];
      UpdateShipmentField(code, "products", Arr(updated));
    }

    /** `removeProduct`: keep every position other than `index`. */
    method RemoveProduct(code: string, index: int)
      requires Valid()
      modifies this
      ensures Valid() && shipments == old(shipments)
      ensures ShipmentIndex(shipments, code).None? ==> outbox == old(outbox)
      ensures ShipmentIndex(shipments, code).Some? ==>
        var list := ProductsOf(shipments[ShipmentIndex(shipments, code).value]);
        outbox == old(outbox) + [Patch("/api/shipments/" + code,
                                       map["products" := Arr(WithoutIndex(list, index))])]
      ensures commentInputs == old(commentInputs) && alerts == old(alerts)
    {
      var found := ShipmentIndex(shipments, code);
      if found.None? {
        return;
      }
      var updated := WithoutIndex(ProductsOf(shipments[found.value]), index);
      UpdateShipmentField(code, "products", Arr(updated));
    }

    /** Typing in a shipment's comment box. */
    method SetCommentInput(code: string, text: string)
      modifies this
      ensures commentInputs == old(commentInputs)[code := text]
      ensures shipments == old(shipments) && outbox == old(outbox) && alerts == old(alerts)
    {
      commentInputs := commentInputs[code := text];
    }

    /** "Save Comment": the trimmed draft is sent unless absent or blank. */
    method SaveComment(code: string)
      modifies this
      ensures code in old(commentInputs) && !Blank(old(commentInputs)[code]) ==>
        outbox == old(outbox) + [Patch("/api/tracking/" + code,
                                       map["admin_comment" := Str(Trim(old(commentInputs)[code]))])]
      ensures !(code in old(commentInputs) && !Blank(old(commentInputs)[code])) ==> outbox == old(outbox)
      ensures shipments == old(shipments) && commentInputs == old(commentInputs) && alerts == old(alerts)
    {
      if code !in commentInputs {
        return;
      }
      var comment := Trim(commentInputs[code]);
      if comment == [] {
        return;
      }
      UpdateShipmentField(code, "admin_comment", Str(comment));
    }

    /** "Update Location" with the text of the two number inputs. */
    method UpdateLocation(code: string, latText: string, lngText: string)
      modifies this
      ensures ParseFloatString(latText).Some? && ParseFloatString(lngText).Some? ==>
        && outbox == old(outbox) + [Patch("/api/shipments/" + code, map["current_lat" := Num(ParseFloatString(latText).value)]),
                                    Patch("/api/shipments/" + code, map["current_lng" := Num(ParseFloatString(lngText).value)])]
        && alerts == old(alerts)
      ensures !(ParseFloatString(latText).Some? && ParseFloatString(lngText).Some?) ==>
        outbox == old(outbox) && alerts == old(alerts) + [ValidCoordinatesAlert]
      ensures shipments == old(shipments) && commentInputs == old(commentInputs)
    {
      var lat := ParseFloatString(latText);
      var lng := ParseFloatString(lngText);
      if lat.Some? && lng.Some? {
        UpdateShipmentField(code, "current_lat", Num(lat.value));
        UpdateShipmentField(code, "current_lng", Num(lng.value));
      } else {
        alerts := alerts + [ValidCoordinatesAlert];
      }
    }
  }

  /** Removing a position the list does not have sends the list unchanged. */
  lemma RemoveOutOfRangeKeepsList(list: seq<Value>, index: int)
    requires index < 0 || index >= |list|
    ensures WithoutIndex(list, index) == list
  {
    WithoutIndexIsRemoveAt(list, index);
  }
}
