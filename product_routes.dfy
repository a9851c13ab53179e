/**
 * The three routes that edit a stored cargo list in place:
 * `POST /api/shipments/add-product`, `/update-product` and `/remove-product`.
 * Each looks the shipment up by the upper-cased code, changes the fetched
 * array, and writes it back with a fresh `updated_at`.
 */
module ProductRoutes {

  import opened Wrappers
  import opened JsValues
  import opened JsText
  import opened Store
  import opened Cargo

  /** HTTP outcome of a route: 200 `{success: true}`, 400 or 500 with its message. */
  datatype Reply = Success | BadRequest(message: string) | ServerError(message: string)

  /** `shipment.products || []` as an array; a truthy non-array makes the array
      operations throw. */
  function StoredList(v: Value): (r: Option<seq<Value>>)
    ensures !Truthy(v) ==> r == Some([])
    ensures v.Arr? ==> r == Some(v.items)
    ensures Truthy(v) && !v.Arr? ==> r == None
  {
    if !Truthy(v) then Some([]) else if v.Arr? then Some(v.items) else None
  }

  /** The array position `list[index]` reads in a list of `n` elements: the
      one whose decimal is the index's property key, so the number 2, the
      string "2" and the list [2] all name position 2. */
  function SlotOf(index: Value, n: nat): (r: Option<nat>)
    ensures r.Some? ==> r.value < n && PropertyKey(index) == Some(NatToDecimal(r.value))
    ensures forall k: nat :: k < n && PropertyKey(index) == Some(NatToDecimal(k)) ==> r == Some(k)
  {
    match PropertyKey(index)
    case Some(k) => ArrayIndex(k, n)
    case None => None
  }

  /** `!products[index]` on the stored cargo value: the read finds nothing, or
      a falsy value. */
  predicate NoProductAt(products: Value, index: Value)
    requires !Nullish(products)
  {
    !FoundTruthy(ReadKey(products, PropertyKey(index)))
  }

  /** `n` array holes, written as `null` when the list is serialised. */
  function Holes(n: nat): (r: seq<Value>)
    ensures |r| == n && forall i :: 0 <= i < n ==> r[i] == Null
  {
    seq(n, _ => Null)
  }

  /** Position `k` names when used as a key of any list: a canonical decimal below 2^32 - 1. */
  function IndexKey(k: string): Option<nat> {
    ArrayIndex(k, 0xFFFF_FFFF)
  }

  /** `target[field] = value` on the element the index found. An object gets
      the field. A list gets the position the key names, padded with holes
      past its end; a `length` that is a valid array length truncates or pads
      it; any other key lands on the list without reaching its JSON. A
      primitive throws (the route is strict-mode module code). `None` is a
      throw, or a key or length the model does not spell. */
  function SetOn(target: Value, fieldKey: Option<string>, value: Value): (r: Option<Value>)
    ensures target.Obj? && fieldKey.Some? ==> r == Some(Obj(target.fields[fieldKey.value := value]))
    ensures target.Arr? && fieldKey.Some? && IndexKey(fieldKey.value).Some? ==>
              var j := IndexKey(fieldKey.value).value;
              var items := target.items;
              r.Some? && r.value.Arr? && |r.value.items| == (if j < |items| then |items| else j + 1)
              && r.value.items[j] == value
              && (forall m :: 0 <= m < |items| && m != j ==> r.value.items[m] == items[m])
              && (forall m :: |items| <= m < j ==> r.value.items[m] == Null)
    ensures target.Arr? && fieldKey.Some? && IndexKey(fieldKey.value).None? && fieldKey.value != "length" ==>
              r == Some(target)
    ensures !target.Obj? && !target.Arr? ==> r == None
  {
    match target
    case Obj(fields) =>
      if fieldKey.None? then None else Some(Obj(fields[fieldKey.value := value]))
    case Arr(items) =>
      if fieldKey.None? then None
      else if IndexKey(fieldKey.value).Some? then
        var j := IndexKey(fieldKey.value).value;
        Some(Arr(if j < |items| then items[j := value] else items + Holes(j - |items|) + [value]))
      else if fieldKey.value == "length" then
        if value.Num? && value.n == value.n.Floor as real && 0.0 <= value.n < 4294967296.0 then
          var n := value.n.Floor;
          Some(Arr(if n <= |items| then items[..n] else items + Holes(n - |items|)))
        else None
      else Some(target)
    case _ => None
  }

  /** `products[index][field] = value` on the stored cargo value, after the
      bounds check passed: the value written back, `None` when the assignment
      throws. An element found in a list or under an object key is updated in
      place; `length` of a list or a string, or a character of a string, is a
      primitive and throws; an inherited method takes the property without
      changing what is written back. */
  function UpdatedProducts(products: Value, indexKey: Option<string>, fieldKey: Option<string>,
                           value: Value): (r: Option<Value>)
    requires !Nullish(products) && FoundTruthy(ReadKey(products, indexKey))
    ensures products.Arr? && indexKey.Some? && ArrayIndex(indexKey.value, |products.items|).Some? ==>
              var i := ArrayIndex(indexKey.value, |products.items|).value;
              var e := SetOn(products.items[i], fieldKey, value);
              (e.None? ==> r.None?) && (e.Some? ==> r == Some(Arr(products.items[i := e.value])))
    ensures products.Obj? && indexKey.Some? && indexKey.value in products.fields ==>
              var e := SetOn(products.fields[indexKey.value], fieldKey, value);
              (e.None? ==> r.None?) && (e.Some? ==> r == Some(Obj(products.fields[indexKey.value := e.value])))
    ensures ReadKey(products, indexKey).Inherited? ==> r == Some(products)
    ensures ReadKey(products, indexKey).Own? && !products.Arr? && !products.Obj? ==> r == None
  {
    var k := indexKey.value;
    match products
    case Arr(items) =>
      if ArrayIndex(k, |items|).Some? then
        var i := ArrayIndex(k, |items|).value;
        match SetOn(items[i], fieldKey, value)
        case Some(e) => Some(Arr(items[i := e]))
        case None => None
      else if k == "length" then None
      else Some(products)
    case Obj(fields) =>
      if k in fields then
        match SetOn(fields[k], fieldKey, value)
        case Some(e) => Some(Obj(fields[k := e]))
        case None => None
      else Some(products)
    case Str(s) =>
      if ArrayIndex(k, |s|).Some? || k == "length" then None else Some(products)
    case _ => Some(products)
  }

  /** `products.splice(index, 1)` after the bounds check passed: only a list
      has `splice`. Its start is the index as a number: the position the
      index names, or 0 when the index read `length` or a method (a name
      converts to NaN, then to 0). */
  function RemovedProducts(products: Value, index: Value): (r: Option<Value>)
    requires !Nullish(products) && FoundTruthy(ReadKey(products, PropertyKey(index)))
    ensures products.Arr? && SlotOf(index, |products.items|).Some? ==>
              r == Some(Arr(RemoveAt(products.items, SlotOf(index, |products.items|).value)))
    ensures products.Arr? && SlotOf(index, |products.items|).None? ==>
              r == Some(Arr(if products.items == [] then [] else products.items[1..]))
    ensures !products.Arr? ==> r == None
  {
    match products
    case Arr(items) =>
      var start := match SlotOf(index, |items|) case Some(i) => i case None => 0;
      if start < |items| then
        assert start == 0 ==> RemoveAt(items, 0) == items[1..];
        Some(Arr(RemoveAt(items, start)))
      else Some(products)
    case _ => None
  }

  /** The row after writing `products` back with a fresh `updated_at`; nothing else changes. */
  function WithProducts(r: Row, products: Value, now: real): (r': Row)
    ensures r'.products == products && r'.updatedAt == now
    ensures r'.(products := r.products, updatedAt := r.updatedAt) == r
  {
    r.(products := products, updatedAt := now)
  }

  // ------------------------------------------------------------ add-product

  method AddProduct(t: ShipmentTable, shipmentCode: Value, now: real) returns (reply: Reply)
    modifies t
    ensures !Truthy(shipmentCode) ==> reply == BadRequest("Shipment code required")
    ensures reply.Success? <==>
      && Truthy(shipmentCode) && shipmentCode.Str?
      && ToUpper(shipmentCode.s) in old(t.rows)
      && StoredList(old(t.rows)[ToUpper(shipmentCode.s)].products).Some?
    ensures reply.Success? ==>
      var key := ToUpper(shipmentCode.s);
      var before := StoredList(old(t.rows)[key].products).value;
      t.rows == old(t.rows)[key := WithProducts(old(t.rows)[key], Arr(before + [Obj(ServerBlankProduct)]), now)]
    ensures !reply.Success? ==> t.rows == old(t.rows)
    ensures !reply.Success? && Truthy(shipmentCode) ==> reply == ServerError("Failed to add product")
  {
    if !Truthy(shipmentCode) {
      return BadRequest("Shipment code required");
    }
    if !shipmentCode.Str? {
      return ServerError("Failed to add product");
    }
    var key := ToUpper(shipmentCode.s);
    var found := t.Find(key);
    if found.None? {
      return ServerError("Failed to add product");
    }
    var stored := StoredList(found.value.products);
    if stored.None? {
      return ServerError("Failed to add product");
    }
    var products := stored.value;
    products := products + [Obj(ServerBlankProduct)];
    t.rows := t.rows[key := WithProducts(found.value, Arr(products), now)];
    reply := Success;
  }

  // --------------------------------------------------------- update-product

  method UpdateProduct(t: ShipmentTable, shipmentCode: Value, index: Value, field: Value,
                       value: Value, now: real) returns (reply: Reply)
    modifies t
    ensures (!Truthy(shipmentCode) || index.Undefined? || !Truthy(field)) <==>
            reply == BadRequest("Invalid request")
    ensures reply == BadRequest("Product index out of bounds") <==>
      && Truthy(shipmentCode) && !index.Undefined? && Truthy(field)
      && shipmentCode.Str? && ToUpper(shipmentCode.s) in old(t.rows)
      && NoProductAt(Or(old(t.rows)[ToUpper(shipmentCode.s)].products, Arr([])), index)
    ensures reply.Success? <==>
      && Truthy(shipmentCode) && !index.Undefined? && Truthy(field)
      && shipmentCode.Str? && ToUpper(shipmentCode.s) in old(t.rows)
      && var products := Or(old(t.rows)[ToUpper(shipmentCode.s)].products, Arr([]));
      && !NoProductAt(products, index)
      && UpdatedProducts(products, PropertyKey(index), PropertyKey(field), value).Some?
    ensures reply.Success? ==>
      var key := ToUpper(shipmentCode.s);
      var products := Or(old(t.rows)[key].products, Arr([]));
      t.rows == old(t.rows)[key := WithProducts(old(t.rows)[key],
                  UpdatedProducts(products, PropertyKey(index), PropertyKey(field), value).value, now)]
    ensures !reply.Success? ==> t.rows == old(t.rows)
    ensures reply.Success? || reply.BadRequest? || reply == ServerError("Failed to update product")
  {
    if !Truthy(shipmentCode) || index.Undefined? || !Truthy(field) {
      return BadRequest("Invalid request");
    }
    if !shipmentCode.Str? {
      return ServerError("Failed to update product");
    }
    var key := ToUpper(shipmentCode.s);
    var found := t.Find(key);
    if found.None? {
      return ServerError("Failed to update product");
    }
    var products := Or(found.value.products, Arr([]));
    if NoProductAt(products, index) {
      return BadRequest("Product index out of bounds");
    }
    var updated := UpdatedProducts(products, PropertyKey(index), PropertyKey(field), value);
    if updated.None? {
      return ServerError("Failed to update product");
    }
    t.rows := t.rows[key := WithProducts(found.value, updated.value, now)];
    reply := Success;
  }

  // --------------------------------------------------------- remove-product

  method RemoveProduct(t: ShipmentTable, shipmentCode: Value, index: Value, now: real)
    returns (reply: Reply)
    modifies t
    ensures (!Truthy(shipmentCode) || index.Undefined?) <==> reply == BadRequest("Invalid request")
    ensures reply == BadRequest("Product index out of bounds") <==>
      && Truthy(shipmentCode) && !index.Undefined?
      && shipmentCode.Str? && ToUpper(shipmentCode.s) in old(t.rows)
      && NoProductAt(Or(old(t.rows)[ToUpper(shipmentCode.s)].products, Arr([])), index)
    ensures reply.Success? <==>
      && Truthy(shipmentCode) && !index.Undefined?
      && shipmentCode.Str? && ToUpper(shipmentCode.s) in old(t.rows)
      && var products := Or(old(t.rows)[ToUpper(shipmentCode.s)].products, Arr([]));
      && !NoProductAt(products, index)
      && products.Arr?
    ensures reply.Success? ==>
      var key := ToUpper(shipmentCode.s);
      var products := Or(old(t.rows)[key].products, Arr([]));
      t.rows == old(t.rows)[key := WithProducts(old(t.rows)[key], RemovedProducts(products, index).value, now)]
    ensures !reply.Success? ==> t.rows == old(t.rows)
    ensures reply.Success? || reply.BadRequest? || reply == ServerError("Failed to remove product")
  {
    if !Truthy(shipmentCode) || index.Undefined? {
      return BadRequest("Invalid request");
    }
    if !shipmentCode.Str? {
      return ServerError("Failed to remove product");
    }
    var key := ToUpper(shipmentCode.s);
    var found := t.Find(key);
    if found.None? {
      return ServerError("Failed to remove product");
    }
    var products := Or(found.value.products, Arr([]));
    if NoProductAt(products, index) {
      return BadRequest("Product index out of bounds");
    }
    if !products.Arr? {
      return ServerError("Failed to remove product");
    }
    t.rows := t.rows[key := WithProducts(found.value, RemovedProducts(products, index).value, now)];
    reply := Success;
  }

  // ------------------------------------------------------------ properties

  /** The number 2, the string "2" and the one-element list [2] name the same
      position: the index is read through its property key. */
  lemma IndexKeyCoercion(k: nat, n: nat)
    requires k < n && (k as real) < 1000000000000000000000.0
    ensures SlotOf(Num(k as real), n) == Some(k)
    ensures SlotOf(Str(NatToDecimal(k)), n) == Some(k)
    ensures SlotOf(Arr([Num(k as real)]), n) == Some(k)
  {
    assert (k as real).Floor == k;
    assert PropertyKey(Arr([Num(k as real)])) == PropertyKey(Num(k as real));
  }

  /** Index 0 is a valid position of any non-empty list, whether sent as the
      number 0 or the string "0" (the route tests `index === undefined`, not falsiness). */
  lemma IndexZeroAccepted(list: seq<Value>)
    requires |list| > 0
    ensures SlotOf(Num(0.0), |list|) == Some(0)
    ensures SlotOf(Str("0"), |list|) == Some(0)
  {
    assert NatToDecimal(0) == "0";
  }

  /** A position at or past the end, a negative or a fractional index has no slot. */
  lemma OutOfRangeIndexHasNoSlot(n: nat, x: real)
    requires x < 0.0 || x >= n as real || x != x.Floor as real
    ensures SlotOf(Num(x), n).None?
  {
    if x == x.Floor as real && -1000000000000000000000.0 < x < 1000000000000000000000.0 {
      var key := IntegerKey(x.Floor);
      if x < 0.0 {
        assert !IsDigit(key[0]);
      } else if ArrayIndex(key, n).Some? {
        DecimalRoundTrip(x.Floor);
        DecimalRoundTrip(ArrayIndex(key, n).value);
      }
    }
  }

  /** In a list, a product that is an object and a field given by name: the
      update changes that one field of that one line and nothing else. */
  lemma ObjectLineUpdate(items: seq<Value>, index: Value, field: string, value: Value)
    requires SlotOf(index, |items|).Some? && items[SlotOf(index, |items|).value].Obj?
    ensures !NoProductAt(Arr(items), index)
    ensures UpdatedProducts(Arr(items), PropertyKey(index), PropertyKey(Str(field)), value)
            == Some(Arr(SetFieldAt(items, SlotOf(index, |items|).value, field, value)))
  {
    var i := SlotOf(index, |items|).value;
    assert ArrayIndex(PropertyKey(index).value, |items|) == Some(i);
  }

  /** A position read from a list removes exactly that line. */
  lemma LineRemoval(items: seq<Value>, index: Value)
    requires SlotOf(index, |items|).Some? && Truthy(items[SlotOf(index, |items|).value])
    ensures !NoProductAt(Arr(items), index)
    ensures RemovedProducts(Arr(items), index) == Some(Arr(RemoveAt(items, SlotOf(index, |items|).value)))
  {
    assert ArrayIndex(PropertyKey(index).value, |items|) == SlotOf(index, |items|);
  }

  /** An index naming `length` or an array method passes the bounds check of
      a non-empty list, and the splice then removes the first line. */
  lemma NamedIndexRemovesFirstLine(items: seq<Value>, name: string)
    requires items != [] && (name == "length" || ArrayMethod(name))
    requires name != [] && !IsDigit(name[0])
    ensures !NoProductAt(Arr(items), Str(name))
    ensures RemovedProducts(Arr(items), Str(name)) == Some(Arr(items[1..]))
  {
    assert !AllDigits(name);
  }

  /** With no stored list only an inherited method name passes the bounds check. */
  lemma EmptyListReadsOnlyMethods(column: Value, index: Value)
    requires !Truthy(column) && !NoProductAt(Or(column, Arr([])), index)
    ensures PropertyKey(index).Some? && ArrayMethod(PropertyKey(index).value)
  {
    assert Or(column, Arr([])) == Arr([]);
    EmptyListReads(PropertyKey(index));
  }

  lemma EmptyListReads(key: Option<string>)
    requires FoundTruthy(ReadKey(Arr([]), key))
    ensures key.Some? && ArrayMethod(key.value)
  {
    if key.Some? {
      assert ArrayIndex(key.value, 0).None?;
    }
  }

  /** Neither `length` nor a name a string inherits starts with a digit. */
  lemma DigitKeyIsNoStringName(key: string)
    requires key != [] && IsDigit(key[0])
    ensures key != "length" && !StringMethod(key)
  {
    ObjectNamesLetterLed();
    DigitLedNotListed(key, ObjectProtoNames);
    StringNamesLetterLed();
    DigitLedNotListed(key, StringProtoNames);
    DigitLedNotListed(key, StringLegacyNames);
  }

  /** Every name is non-empty and starts with something other than a digit. */
  predicate LetterLed(names: seq<string>)
  {
    forall i :: 0 <= i < |names| ==> names[i] != [] && !IsDigit(names[i][0])
  }

  lemma ObjectNamesLetterLed()
    ensures LetterLed(ObjectProtoNames)
  {
  }

  lemma StringNamesLetterLed()
    ensures LetterLed(StringProtoNames) && LetterLed(StringLegacyNames)
  {
  }

  /** A key starting with a digit is not among names that all start otherwise. */
  lemma DigitLedNotListed(key: string, names: seq<string>)
    requires key != [] && IsDigit(key[0])
    requires LetterLed(names)
    ensures !Listed(key, names)
  {
  }

  /** A list stored as a string: a numeric index at or past its length is out of bounds. */
  lemma StringListPastEnd(s: string, k: nat)
    requires k >= |s| && (k as real) < 1000000000000000000000.0
    ensures NoProductAt(Str(s), Num(k as real))
  {
    assert (k as real).Floor == k;
    var key := NatToDecimal(k);
    assert PropertyKey(Num(k as real)) == Some(key);
    DecimalInjective();
    assert ArrayIndex(key, |s|).None?;
    DigitKeyIsNoStringName(key);
    assert ReadKey(Str(s), Some(key)) == Own(Undefined);
  }

  /** A list stored as a string is never changed: an index that passes the
      bounds check either throws or leaves the string as it is, and removal
      always throws. */
  lemma StringListUnchanged(s: string, index: Value, field: Value, value: Value)
    requires !NoProductAt(Str(s), index)
    ensures var u := UpdatedProducts(Str(s), PropertyKey(index), PropertyKey(field), value);
            u.None? || u == Some(Str(s))
    ensures RemovedProducts(Str(s), index).None?
  {
  }

  /** A list stored as an object with a key such as "0" is updated under that key. */
  lemma ObjectListUpdate(fields: Fields, index: Value, field: string, value: Value)
    requires PropertyKey(index).Some? && PropertyKey(index).value in fields
    requires fields[PropertyKey(index).value].Obj?
    ensures !NoProductAt(Obj(fields), index)
    ensures var k := PropertyKey(index).value;
            UpdatedProducts(Obj(fields), PropertyKey(index), Some(field), value)
            == Some(Obj(fields[k := Obj(fields[k].fields[field := value])]))
  {
  }
}
