/**
 * Operations on a shipment's cargo list (its `products`), shared by the
 * server routes that edit the stored list and the admin screens that edit a
 * copy before sending it.
 */
module Cargo {

  import opened JsValues
  import opened JsText

  /** The line the add-product route appends. */
  const ServerBlankProduct: Fields :=
    map["piece_type" := Str(""), "description" := Str(""), "qty" := Num(1.0), "weight_kg" := Num(0.0)]

  /** The line the admin screens append (and start the creation form with). */
  const FormBlankProduct: Fields :=
    map["piece_type" := Str(""), "description" := Str(""), "qty" := Num(1.0),
        "length_cm" := Num(0.0), "width_cm" := Num(0.0), "height_cm" := Num(0.0), "weight_kg" := Num(0.0)]

  /** `list.splice(i, 1)`: element `i` goes, the rest close up. */
  function RemoveAt<T>(s: seq<T>, i: nat): (r: seq<T>)
    requires i < |s|
    ensures |r| == |s| - 1
    ensures forall k :: 0 <= k < i ==> r[k] == s[k]
    ensures forall k :: i <= k < |r| ==> r[k] == s[k + 1]
    ensures multiset(r) + multiset{s[i]} == multiset(s)
  {
    assert s == s[..i] + [s[i]] + s[i + 1..];
    s[..i] + s[i + 1..]
  }

  /** `list.filter((_, j) => j !== i)`, walking the list from position `start`. */
  function FilterOutIndex<T>(s: seq<T>, i: int, start: int): (r: seq<T>)
    decreases |s|
  {
    if s == [] then []
    else (if start == i then [] else [s[0]]) + FilterOutIndex(s[1..], i, start + 1)
  }

  /** `list.filter((_, j) => j !== i)`. */
  function WithoutIndex<T>(s: seq<T>, i: int): seq<T> {
    FilterOutIndex(s, i, 0)
  }

  lemma {:induction false} FilterSkipsNothing<T>(s: seq<T>, i: int, start: int)
    requires i < start || i >= start + |s|
    ensures FilterOutIndex(s, i, start) == s
    decreases |s|
  {
    if s != [] {
      FilterSkipsNothing(s[1..], i, start + 1);
    }
  }

  lemma {:induction false} FilterSkipsOne<T>(s: seq<T>, i: int, start: int)
    requires start <= i < start + |s|
    ensures FilterOutIndex(s, i, start) == s[..i - start] + s[i - start + 1..]
    decreases |s|
  {
    var j := i - start;
    var tail := s[1..];
    if j == 0 {
      FilterSkipsNothing(tail, i, start + 1);
      assert s[..0] + s[1..] == tail;
    } else {
      FilterSkipsOne(tail, i, start + 1);
      var rest := FilterOutIndex(tail, i, start + 1);
      assert rest == tail[..j - 1] + tail[j..];
      assert FilterOutIndex(s, i, start) == [s[0]] + rest;
      assert tail[..j - 1] == s[1..j];
      assert tail[j..] == s[j + 1..];
      assert [s[0]] + s[1..j] == s[..j];
    }
  }

  /** Filtering out position `i` is the same as splicing it out when `i` is a
      position of the list, and changes nothing otherwise. */
  lemma WithoutIndexIsRemoveAt<T>(s: seq<T>, i: int)
    ensures 0 <= i < |s| ==> WithoutIndex(s, i) == RemoveAt(s, i)
    ensures !(0 <= i < |s|) ==> WithoutIndex(s, i) == s
  {
    if 0 <= i < |s| {
      FilterSkipsOne(s, i, 0);
    } else {
      FilterSkipsNothing(s, i, 0);
    }
  }

  /** The own properties a spread `{...v}` copies: an object's fields, a
      list's elements and a string's characters under their index keys, and
      nothing from `null`, `undefined`, booleans and numbers. */
  function SpreadFields(v: Value): (r: Fields)
    ensures v.Obj? ==> r == v.fields
    ensures (Nullish(v) || v.Bool? || v.Num? || v.NaN?) ==> r == map[]
  {
    match v
    case Obj(fields) => fields
    case Arr(items) => IndexFields(items)
    case Str(s) => IndexFields(Characters(s))
    case _ => map[]
  }

  /** `{...list}` has exactly the keys `"0"` to `"n-1"`, each holding that element. */
  lemma SpreadOfList(items: seq<Value>)
    ensures forall k :: k in SpreadFields(Arr(items)) <==> ArrayIndex(k, |items|).Some?
    ensures forall i :: 0 <= i < |items| ==> SpreadFields(Arr(items))[NatToDecimal(i)] == items[i]
  {
  }

  /** `{..."ab"}` is `{"0": "a", "1": "b"}`: one key per character. */
  lemma SpreadOfString(s: string)
    ensures forall k :: k in SpreadFields(Str(s)) <==> ArrayIndex(k, |s|).Some?
    ensures forall i :: 0 <= i < |s| ==> SpreadFields(Str(s))[NatToDecimal(i)] == Str([s[i]])
  {
  }

  /** A string's characters as one-character strings, the elements it spreads. */
  function Characters(s: string): (r: seq<Value>)
  {
    seq(|s|, i requires 0 <= i < |s| => Str([s[i]]))
  }

  /** The list after `products[i][field] = value` on an element that is an object. */
  function SetFieldAt(list: seq<Value>, i: nat, field: string, value: Value): (r: seq<Value>)
    requires i < |list| && list[i].Obj?
    ensures |r| == |list|
    ensures forall j :: 0 <= j < |list| && j != i ==> r[j] == list[j]
    ensures r[i].Obj? && r[i].fields.Keys == list[i].fields.Keys + {field}
    ensures r[i].fields[field] == value
    ensures forall k :: k in list[i].fields && k != field ==> r[i].fields[k] == list[i].fields[k]
  {
    list[i := Obj(list[i].fields[field := value])]
  }

  /** Applying the same field update twice leaves the list as applying it once. */
  lemma SetFieldIdempotent(list: seq<Value>, i: nat, field: string, value: Value)
    requires i < |list| && list[i].Obj?
    ensures SetFieldAt(SetFieldAt(list, i, field, value), i, field, value) == SetFieldAt(list, i, field, value)
  {
    var once := SetFieldAt(list, i, field, value);
    assert once[i].fields[field := value] == once[i].fields;
  }

  /** The list after `list[i] = {...list[i], [field]: value}`: element `i` is
      replaced by a fresh object holding its own properties and the new field. */
  function SpreadSetFieldAt(list: seq<Value>, i: nat, field: string, value: Value): (r: seq<Value>)
    requires i < |list|
    ensures |r| == |list|
    ensures forall j :: 0 <= j < |list| && j != i ==> r[j] == list[j]
    ensures r[i].Obj? && r[i].fields.Keys == SpreadFields(list[i]).Keys + {field}
    ensures r[i].fields[field] == value
    ensures forall k :: k in SpreadFields(list[i]) && k != field ==> r[i].fields[k] == SpreadFields(list[i])[k]
  {
    list[i := Obj(SpreadFields(list[i])[field := value])]
  }

  /** On an object element, editing a copy by spread gives the same list as
      assigning the field in place. */
  lemma SpreadEditAgreesWithInPlaceEdit(list: seq<Value>, i: nat, field: string, value: Value)
    requires i < |list| && list[i].Obj?
    ensures SpreadSetFieldAt(list, i, field, value) == SetFieldAt(list, i, field, value)
  {
  }
}
