/**
 * The JavaScript values that flow through the application (JSON request
 * bodies, JSONB columns, React state) and the three JavaScript operators the
 * source relies on for defaulting: truthiness, `a || b` and `a ?? b`.
 */
module JsValues {

  import opened Wrappers
  import opened JsText

  /** A JavaScript value as it appears in a parsed JSON body or a JSONB column.
      Numbers are exact reals; NaN has its own constructor. */
  datatype Value =
    | Undefined
    | Null
    | Bool(b: bool)
    | Num(n: real)
    | NaN
    | Str(s: string)
    | Arr(items: seq<Value>)
    | Obj(fields: map<string, Value>)

  /** An object as a map from property name to value; a missing key reads as `undefined`. */
  type Fields = map<string, Value>

  /** JavaScript truthiness: `undefined`, `null`, `false`, `0`, `NaN` and `''` are falsy. */
  predicate Truthy(v: Value) {
    match v
    case Undefined => false
    case Null => false
    case Bool(b) => b
    case Num(n) => n != 0.0
    case NaN => false
    case Str(s) => s != ""
    case Arr(_) => true
    case Obj(_) => true
  }

  /** `v === null || v === undefined`, the test behind `??` and `?.`. */
  predicate Nullish(v: Value) {
    v.Undefined? || v.Null?
  }

  /** JavaScript `a || b`. */
  function Or(a: Value, b: Value): (r: Value)
    ensures Truthy(a) ==> r == a
    ensures !Truthy(a) ==> r == b
  {
    if Truthy(a) then a else b
  }

  /** JavaScript `a ?? b`. */
  function Coalesce(a: Value, b: Value): (r: Value)
    ensures !Nullish(a) ==> r == a
    ensures Nullish(a) ==> r == b
  {
    if Nullish(a) then b else a
  }

  /** Reading property `key` of an object: a missing property is `undefined`. */
  function Get(o: Fields, key: string): (r: Value)
    ensures key in o ==> r == o[key]
    ensures key !in o ==> r == Undefined
  {
    if key in o then o[key] else Undefined
  }

  /** Reading a named (non-index) property of any non-nullish value: only an
      object can carry one; on other primitives and arrays it reads `undefined`. */
  function Prop(v: Value, key: string): (r: Value)
    requires !Nullish(v)
    ensures v.Obj? ==> r == Get(v.fields, key)
    ensures !v.Obj? ==> r == Undefined
  {
    if v.Obj? then Get(v.fields, key) else Undefined
  }

  /** A possibly-null number column: `None` stands for SQL NULL. */
  predicate TruthyNum(x: Option<real>) {
    x.Some? && x.value != 0.0
  }

  /** The value a possibly-null number column takes in a JSON body. */
  function OfNum(x: Option<real>): (r: Value)
    ensures x.None? ==> r == Null
    ensures x.Some? ==> r == Num(x.value)
    ensures Truthy(r) <==> TruthyNum(x)
  {
    match x
    case None => Null
    case Some(n) => Num(n)
  }

  /** The integer part of `x`, rounding toward zero. */
  function Trunc(x: real): (r: int)
    ensures x >= 0.0 ==> r as real <= x < r as real + 1.0
    ensures x < 0.0 ==> r as real - 1.0 < x <= r as real
  {
    if x >= 0.0 then x.Floor else -((-x).Floor)
  }

  /** `parseFloat(v)`; `None` is NaN. A number parses to itself (JavaScript's
      number-to-string conversion round-trips), a string is parsed as a decimal
      literal prefix, and a list is parsed through its string `String(v)`. Every
      other value spells a word (`true`, `null`, `[object Object]`, ...) and so
      is NaN. */
  function ParseFloat(v: Value): (r: Option<real>)
    ensures v.Num? ==> r == Some(v.n)
    ensures v.Str? ==> r == ParseFloatString(v.s)
    ensures v.Arr? && PropertyKey(v).Some? ==> r == ParseFloatString(PropertyKey(v).value)
    ensures !v.Num? && !v.Str? && !v.Arr? ==> r == None
  {
    match v
    case Num(n) => Some(n)
    case Str(s) => ParseFloatString(s)
    case Arr(_) => if PropertyKey(v).Some? then ParseFloatString(PropertyKey(v).value) else None
    case _ => None
  }

  /** `parseInt(v, 10)`; `None` is NaN. A number is first spelled as a
      string: from 10^-6 up to 10^21 in magnitude that spelling is plain
      decimal, so it is truncated toward zero; beyond either end it uses an
      exponent (`1e+21`, `5e-7`), so only its first significant digit is read.
      A list is parsed through its string, and every other value is NaN, as
      for `ParseFloat`. */
  function ParseInt(v: Value): (r: Option<int>)
    ensures v.Num? && (v.n == 0.0 || 0.000001 <= Abs(v.n) < 1000000000000000000000.0) ==>
              r == Some(Trunc(v.n))
    ensures v.Num? && v.n != 0.0 && !(0.000001 <= Abs(v.n) < 1000000000000000000000.0) ==>
              r.Some? && 1.0 <= Abs(r.value as real) <= 9.0 && (r.value < 0 <==> v.n < 0.0)
    ensures v.Num? && v.n != 0.0 && !(0.000001 <= Abs(v.n) < 1000000000000000000000.0) ==>
              r == Some(if v.n > 0.0 then LeadingDigit(v.n) else -(LeadingDigit(-v.n) as int))
    ensures v.Str? ==> r == ParseIntString(v.s)
    ensures v.Arr? && PropertyKey(v).Some? ==> r == ParseIntString(PropertyKey(v).value)
    ensures !v.Num? && !v.Str? && !v.Arr? ==> r == None
  {
    match v
    case Num(n) =>
      if n == 0.0 || 0.000001 <= Abs(n) < 1000000000000000000000.0 then Some(Trunc(n))
      else if n > 0.0 then Some(LeadingDigit(n))
      else Some(-(LeadingDigit(-n) as int))
    case Str(s) => ParseIntString(s)
    case Arr(_) => if PropertyKey(v).Some? then ParseIntString(PropertyKey(v).value) else None
    case _ => None
  }

  /** A one-element list of a whole number parses as that number:
      `parseInt([5], 10)` and `parseFloat([5])` are both 5. */
  lemma SingletonListParses(n: nat)
    requires (n as real) < 1000000000000000000000.0
    ensures ParseInt(Arr([Num(n as real)])) == Some(n)
    ensures ParseFloat(Arr([Num(n as real)])) == Some(n as real)
  {
    assert (n as real).Floor == n;
    assert PropertyKey(Arr([Num(n as real)])) == Some(NatToDecimal(n));
    ParseIntOfDecimal(n);
    ParseFloatOfDecimal(n);
  }

  function Abs(x: real): (r: real)
    ensures r >= 0.0 && (r == x || r == -x)
  {
    if x < 0.0 then -x else x
  }

  /** The first significant digit of a positive number. */
  function LeadingDigit(x: real): (d: nat)
    requires x > 0.0
    ensures 1 <= d <= 9
  {
    if x >= 1.0 then LeadingDigitAbove(x) else LeadingDigitBelow(x)
  }

  function LeadingDigitAbove(x: real): (d: nat)
    requires x >= 1.0
    ensures 1 <= d <= 9
    decreases x.Floor
  {
    if x < 10.0 then x.Floor else LeadingDigitAbove(x / 10.0)
  }

  function LeadingDigitBelow(x: real): (d: nat)
    requires 0.0 < x < 1.0
    ensures 1 <= d <= 9
    decreases (1.0 / x).Floor
  {
    if x * 10.0 >= 1.0 then LeadingDigitAbove(x * 10.0)
    else
      assert 1.0 / (x * 10.0) == (1.0 / x) / 10.0;
      LeadingDigitBelow(x * 10.0)
  }

  /** `parseInt(1e21)` and `parseInt(1e-7)` are both 1. */
  lemma ExponentSpelling()
    ensures ParseInt(Num(1000000000000000000000.0)) == Some(1)
    ensures ParseInt(Num(0.0000001)) == Some(1)
  {
    assert Pow10(3) == 1000;
    assert Pow10(6) == 1000000;
    assert Pow10(9) == 1000000000;
    assert Pow10(12) == 1000000000000;
    assert Pow10(15) == 1000000000000000;
    assert Pow10(18) == 1000000000000000000;
    assert Pow10(21) == 1000000000000000000000;
    TenPowerLeadsWithOne(21);
    assert 0.0000001 * 10.0 == 0.000001;
    assert 0.000001 * 10.0 == 0.00001;
    assert 0.00001 * 10.0 == 0.0001;
    assert 0.0001 * 10.0 == 0.001;
    assert 0.001 * 10.0 == 0.01;
    assert 0.01 * 10.0 == 0.1;
  }

  lemma {:induction false} TenPowerLeadsWithOne(k: nat)
    ensures LeadingDigitAbove(Pow10(k) as real) == 1
  {
    if k > 0 {
      Pow10Grows(k);
      assert (Pow10(k) as real) / 10.0 == Pow10(k - 1) as real;
      TenPowerLeadsWithOne(k - 1);
    }
  }

  /** `Array.prototype.findIndex`: the first position whose element satisfies
      `p`, `None` (-1) when there is none. */
  function FindIndex<T>(s: seq<T>, p: T -> bool): (r: Option<nat>)
    ensures r.Some? ==> r.value < |s| && p(s[r.value])
    ensures r.Some? ==> forall j :: 0 <= j < r.value ==> !p(s[j])
    ensures r.None? ==> forall j :: 0 <= j < |s| ==> !p(s[j])
  {
    if s == [] then None
    else if p(s[0]) then Some(0)
    else match FindIndex(s[1..], p)
      case None => None
      case Some(k) => Some(k + 1)
  }

  /** Optional chaining `v?.key`: `undefined` on a nullish value. */
  function OptProp(v: Value, key: string): (r: Value)
    ensures Nullish(v) ==> r == Undefined
    ensures !Nullish(v) ==> r == Prop(v, key)
  {
    if Nullish(v) then Undefined else Prop(v, key)
  }

  // ------------------------------------------------------- property keys

  /** The position an array-index key such as `"2"` names in a list of `n`
      elements: the key must be the canonical decimal of a position below `n`. */
  function ArrayIndex(k: string, n: nat): (r: Option<nat>)
    ensures r.Some? ==> r.value < n && k == NatToDecimal(r.value)
    ensures forall i: nat :: i < n && k == NatToDecimal(i) ==> r == Some(i)
  {
    if k != [] && AllDigits(k) && (|k| == 1 || k[0] != '0') && DigitsValue(k) < n then
      CanonicalDecimal(k);
      assert forall i: nat :: k == NatToDecimal(i) ==> i == DigitsValue(k) by {
        forall i: nat | k == NatToDecimal(i) ensures i == DigitsValue(k) {
          DecimalRoundTrip(i);
        }
      }
      Some(DigitsValue(k))
    else
      assert forall i: nat :: k != NatToDecimal(i) || i >= n by {
        forall i: nat | k == NatToDecimal(i) ensures i >= n {
          DecimalRoundTrip(i);
        }
      }
      None
  }

  /** `String(x)` for an integer: an optional minus sign and its decimal digits. */
  function IntegerKey(x: int): (r: string)
    ensures x >= 0 ==> r == NatToDecimal(x)
    ensures x < 0 ==> r == "-" + NatToDecimal(-x)
  {
    if x < 0 then "-" + NatToDecimal(-x) else NatToDecimal(x)
  }

  /** `parts.join(",")`, or `None` when some part is unknown. */
  function JoinKeys(parts: seq<Option<string>>): (r: Option<string>)
    ensures r.Some? <==> forall i :: 0 <= i < |parts| ==> parts[i].Some?
    ensures |parts| == 1 ==> r == parts[0]
  {
    if parts == [] then Some("")
    else if |parts| == 1 then parts[0]
    else match (parts[0], JoinKeys(parts[1..]))
      case (Some(a), Some(b)) => Some(a + "," + b)
      case _ => None
  }

  /** The property key `o[v]` uses for a JSON value `v`, that is `String(v)`:
      an array joins its elements with commas (null and undefined giving the
      empty string), any object is `[object Object]`. `None` marks a number
      whose JavaScript spelling is not its plain integer digits (one with a
      fractional part, or of magnitude 10^21 or more). */
  function PropertyKey(v: Value): (r: Option<string>)
    ensures v.Str? ==> r == Some(v.s)
    ensures v.Num? && v.n == v.n.Floor as real && 0.0 <= v.n < 1000000000000000000000.0 ==> r == Some(NatToDecimal(v.n.Floor))
    decreases v
  {
    match v
    case Undefined => Some("undefined")
    case Null => Some("null")
    case Bool(b) => Some(if b then "true" else "false")
    case NaN => Some("NaN")
    case Num(x) =>
      if x == x.Floor as real && -1000000000000000000000.0 < x < 1000000000000000000000.0
      then Some(IntegerKey(x.Floor)) else None
    case Str(s) => Some(s)
    case Arr(items) =>
      JoinKeys(seq(|items|, i requires 0 <= i < |items| =>
                             if Nullish(items[i]) then Some("") else PropertyKey(items[i])))
    case Obj(_) => Some("[object Object]")
  }

  /** Whether `k` is one of `names`. */
  predicate Listed(k: string, names: seq<string>)
  {
    exists i :: 0 <= i < |names| && names[i] == k
  }

  /** Names every object inherits from `Object.prototype` (ECMAScript 2024). */
  const ObjectProtoNames: seq<string> :=
    ["constructor", "hasOwnProperty", "isPrototypeOf", "propertyIsEnumerable", "toLocaleString",
     "toString", "valueOf", "__proto__", "__defineGetter__", "__defineSetter__",
     "__lookupGetter__", "__lookupSetter__"]

  /** Names `Array.prototype` adds. */
  const ArrayProtoNames: seq<string> :=
    ["at", "concat", "copyWithin", "entries", "every", "fill", "filter", "find", "findIndex",
     "findLast", "findLastIndex", "flat", "flatMap", "forEach", "includes", "indexOf", "join",
     "keys", "lastIndexOf", "map", "pop", "push", "reduce", "reduceRight", "reverse", "shift",
     "slice", "some", "sort", "splice", "toReversed", "toSorted", "toSpliced", "unshift",
     "values", "with"]

  /** Names `String.prototype` adds. */
  const StringProtoNames: seq<string> :=
    ["at", "charAt", "charCodeAt", "codePointAt", "concat", "endsWith", "includes", "indexOf",
     "isWellFormed", "lastIndexOf", "localeCompare", "match", "matchAll", "normalize", "padEnd",
     "padStart", "repeat", "replace", "replaceAll", "search", "slice", "split", "startsWith",
     "substring", "toLocaleLowerCase", "toLocaleUpperCase", "toLowerCase",
     "toUpperCase", "toWellFormed", "trim", "trimEnd", "trimStart"]

  /** Names `String.prototype` keeps for web compatibility (Annex B). */
  const StringLegacyNames: seq<string> :=
    ["substr", "trimLeft", "trimRight", "anchor", "big", "blink", "bold", "fixed", "fontcolor",
     "fontsize", "italics", "link", "small", "strike", "sub", "sup"]

  /** Names `Number.prototype` adds. */
  const NumberProtoNames: seq<string> := ["toExponential", "toFixed", "toPrecision"]

  predicate ObjectMethod(k: string) { Listed(k, ObjectProtoNames) }
  predicate ArrayMethod(k: string) { Listed(k, ObjectProtoNames) || Listed(k, ArrayProtoNames) }
  predicate StringMethod(k: string) {
    Listed(k, ObjectProtoNames) || Listed(k, StringProtoNames) || Listed(k, StringLegacyNames)
  }
  predicate NumberMethod(k: string) { Listed(k, ObjectProtoNames) || Listed(k, NumberProtoNames) }

  /** What reading `c[key]` finds: the value of an own property (`undefined`
      when there is none), or an inherited method, which is always truthy. */
  datatype Found = Own(v: Value) | Inherited

  predicate FoundTruthy(f: Found) {
    f.Inherited? || Truthy(f.v)
  }

  /** `c[key]` on a non-nullish value: a list's positions and `length`, a
      string's characters and `length`, an object's own fields, and the
      methods each kind of value inherits. A key the model cannot spell
      (see `PropertyKey`) reads `undefined`. */
  function ReadKey(c: Value, key: Option<string>): (r: Found)
    requires !Nullish(c)
    ensures key.Some? && c.Arr? && ArrayIndex(key.value, |c.items|).Some? ==>
              r == Own(c.items[ArrayIndex(key.value, |c.items|).value])
    ensures key.Some? && c.Str? && ArrayIndex(key.value, |c.s|).Some? ==>
              r == Own(Str([c.s[ArrayIndex(key.value, |c.s|).value]]))
    ensures key.Some? && c.Obj? && key.value in c.fields ==> r == Own(c.fields[key.value])
    ensures r.Inherited? ==> key.Some? && (ArrayMethod(key.value) || StringMethod(key.value) || NumberMethod(key.value))
    ensures r.Own? && r.v != Undefined ==> key.Some? && (c.Arr? || c.Str? || c.Obj?)
  {
    if key.None? then Own(Undefined)
    else
      var k := key.value;
      match c
      case Arr(items) =>
        if ArrayIndex(k, |items|).Some? then Own(items[ArrayIndex(k, |items|).value])
        else if k == "length" then Own(Num(|items| as real))
        else if ArrayMethod(k) then Inherited
        else Own(Undefined)
      case Str(s) =>
        if ArrayIndex(k, |s|).Some? then Own(Str([s[ArrayIndex(k, |s|).value]]))
        else if k == "length" then Own(Num(|s| as real))
        else if StringMethod(k) then Inherited
        else Own(Undefined)
      case Obj(fields) =>
        if k in fields then Own(fields[k])
        else if ObjectMethod(k) then Inherited
        else Own(Undefined)
      case Bool(_) => if ObjectMethod(k) then Inherited else Own(Undefined)
      case Num(_) => if NumberMethod(k) then Inherited else Own(Undefined)
      case NaN => if NumberMethod(k) then Inherited else Own(Undefined)
  }

  /** The own index properties of a list or a string as an object's fields:
      position `i` under the key `"i"`. */
  function IndexFields(elems: seq<Value>): (r: Fields)
    ensures forall k :: k in r <==> ArrayIndex(k, |elems|).Some?
    ensures forall i :: 0 <= i < |elems| ==> NatToDecimal(i) in r && r[NatToDecimal(i)] == elems[i]
  {
    DecimalInjective();
    var r := map i | 0 <= i < |elems| :: NatToDecimal(i) := elems[i];
    forall k ensures k in r <==> ArrayIndex(k, |elems|).Some? {
      if ArrayIndex(k, |elems|).Some? {
        assert k == NatToDecimal(ArrayIndex(k, |elems|).value);
      }
    }
    r
  }
}
