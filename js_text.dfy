/**
 * The string built-ins the application uses: `toUpperCase`, `trim`,
 * `substring`, `substr`, the decimal and base-36 renderings of numbers, and
 * `parseFloat` / `parseInt(_, 10)` applied to strings.
 */
module JsText {

  import opened Wrappers

  // ---------------------------------------------------------------- case

  predicate IsAsciiLower(c: char) { 'a' <= c <= 'z' }

  function UpperChar(c: char): (u: char)
    ensures IsAsciiLower(c) ==> u as int == c as int - 32
    ensures !IsAsciiLower(c) ==> u == c
    ensures !IsAsciiLower(u)
  {
    if IsAsciiLower(c) then (c as int - 32) as char else c
  }

  /** `s.toUpperCase()` restricted to the ASCII letters. */
  function ToUpper(s: string): (r: string)
    ensures |r| == |s|
    ensures forall i :: 0 <= i < |s| ==> r[i] == UpperChar(s[i])
  {
    if s == [] then [] else [UpperChar(s[0])] + ToUpper(s[1..])
  }

  lemma {:induction false} ToUpperIdempotent(s: string)
    ensures ToUpper(ToUpper(s)) == ToUpper(s)
  {
    if s != [] {
      ToUpperIdempotent(s[1..]);
      assert ToUpper(s)[1..] == ToUpper(s[1..]);
    }
  }

  // ---------------------------------------------------------- whitespace

  /** ECMAScript WhiteSpace and LineTerminator code points, the set `trim`,
      `parseFloat` and `parseInt` skip. */
  predicate IsSpace(c: char) {
    c == '\t' || c == '\U{B}' || c == '\U{C}' || c == ' ' || c == '\U{A0}' || c == '\U{FEFF}'
    || c == '\n' || c == '\r' || c == '\U{2028}' || c == '\U{2029}'
    || c == '\U{1680}' || ('\U{2000}' <= c <= '\U{200A}') || c == '\U{202F}' || c == '\U{205F}' || c == '\U{3000}'
  }

  /** Number of leading whitespace characters. */
  function LeadingSpace(s: string): (n: nat)
    ensures n <= |s|
    ensures forall i :: 0 <= i < n ==> IsSpace(s[i])
    ensures n < |s| ==> !IsSpace(s[n])
  {
    if s == [] || !IsSpace(s[0]) then 0 else 1 + LeadingSpace(s[1..])
  }

  /** Number of trailing whitespace characters. */
  function TrailingSpace(s: string): (n: nat)
    ensures n <= |s|
    ensures forall i :: |s| - n <= i < |s| ==> IsSpace(s[i])
    ensures n < |s| ==> !IsSpace(s[|s| - n - 1])
  {
    if s == [] || !IsSpace(s[|s| - 1]) then 0 else 1 + TrailingSpace(s[..|s| - 1])
  }

  function TrimStart(s: string): string {
    s[LeadingSpace(s)..]
  }

  /** `s.trim()`: the longest slice of `s` that neither starts nor ends with whitespace. */
  function Trim(s: string): (r: string)
    ensures |r| <= |s|
    ensures r == [] || (!IsSpace(r[0]) && !IsSpace(r[|r| - 1]))
    ensures LeadingSpace(s) + |r| <= |s|
    ensures r == s[LeadingSpace(s)..LeadingSpace(s) + |r|]
    ensures forall i :: LeadingSpace(s) + |r| <= i < |s| ==> IsSpace(s[i])
    ensures r == [] <==> forall i :: 0 <= i < |s| ==> IsSpace(s[i])
  {
    var t := TrimStart(s);
    var r := t[..|t| - TrailingSpace(t)];
    assert forall i :: LeadingSpace(s) + |r| <= i < |s| ==> s[i] == t[i - LeadingSpace(s)];
    assert r == [] ==> LeadingSpace(s) == |s| by {
      if LeadingSpace(s) < |s| {
        assert !IsSpace(t[0]);
      }
    }
    r
  }

  /** A string is blank when `s.trim()` is empty, so `!s.trim()` holds. */
  predicate Blank(s: string) { Trim(s) == [] }

  // ----------------------------------------------------------- slicing

  function Clamp(x: int, len: nat): (r: nat)
    ensures r <= len
    ensures 0 <= x <= len ==> r == x
  {
    if x < 0 then 0 else if x > len then len else x
  }

  /** `s.substring(start, end)`: both ends clamped to the string, swapped when reversed. */
  function Substring(s: string, start: int, end: int): (r: string)
    ensures |r| <= |s|
    ensures 0 <= start <= end <= |s| ==> r == s[start..end]
  {
    var a := Clamp(start, |s|);
    var b := Clamp(end, |s|);
    if a <= b then s[a..b] else s[b..a]
  }

  /** `s.substr(start, length)` for a non-negative start and length. */
  function Substr(s: string, start: nat, length: nat): (r: string)
    ensures |r| <= length
    ensures start + length <= |s| ==> r == s[start..start + length]
  {
    var a := Clamp(start, |s|);
    var b := Clamp(start + length, |s|);
    s[a..b]
  }

  // ------------------------------------------------------------ digits

  predicate IsDigit(c: char) { '0' <= c <= '9' }

  function DigitChar(d: nat): (c: char)
    requires d < 10
    ensures IsDigit(c)
  {
    ('0' as int + d) as char
  }

  function DigitOf(c: char): (d: nat)
    requires IsDigit(c)
    ensures d < 10
    ensures DigitChar(d) == c
  {
    c as int - '0' as int
  }

  predicate AllDigits(s: string) {
    forall i :: 0 <= i < |s| ==> IsDigit(s[i])
  }

  function Pow10(k: nat): (p: nat)
    ensures p >= 1
  {
    if k == 0 then 1 else 10 * Pow10(k - 1)
  }

  /** `String(n)` for a non-negative integer: its decimal digits without leading zeros. */
  function NatToDecimal(n: nat): (r: string)
    ensures |r| >= 1
    ensures AllDigits(r)
    ensures |r| > 1 ==> r[0] != '0'
    decreases n
  {
    if n < 10 then [DigitChar(n)] else NatToDecimal(n / 10) + [DigitChar(n % 10)]
  }

  /** The number a string of decimal digits denotes, most significant digit first. */
  function DigitsValue(s: string): (v: nat)
    requires AllDigits(s)
    ensures v < Pow10(|s|)
  {
    if s == [] then 0 else DigitsValue(s[..|s| - 1]) * 10 + DigitOf(s[|s| - 1])
  }

  lemma {:induction false} DecimalRoundTrip(n: nat)
    ensures DigitsValue(NatToDecimal(n)) == n
    decreases n
  {
    if n >= 10 {
      var r := NatToDecimal(n);
      assert r[..|r| - 1] == NatToDecimal(n / 10);
      DecimalRoundTrip(n / 10);
    }
  }

  /** Different numbers have different decimal renderings. */
  lemma DecimalInjective()
    ensures forall i: nat, j: nat :: NatToDecimal(i) == NatToDecimal(j) ==> i == j
  {
    forall i: nat, j: nat | NatToDecimal(i) == NatToDecimal(j) ensures i == j {
      DecimalRoundTrip(i);
      DecimalRoundTrip(j);
    }
  }

  /** The decimal rendering has exactly `k` digits exactly when `10^(k-1) <= n < 10^k`. */
  lemma {:induction false} DecimalLength(n: nat, k: nat)
    requires k >= 1
    ensures |NatToDecimal(n)| == k <==> (k == 1 || Pow10(k - 1) <= n) && n < Pow10(k)
    decreases n
  {
    if n >= 10 {
      if k >= 2 {
        DecimalLength(n / 10, k - 1);
      } else {
        assert |NatToDecimal(n)| >= 2 by { assert |NatToDecimal(n / 10)| >= 1; }
      }
    }
    else if k >= 2 {
      assert Pow10(k - 1) >= 10 by { Pow10Grows(k - 1); }
    }
  }

  /** A digit string without a leading zero is the decimal rendering of its value. */
  lemma {:induction false} CanonicalDecimal(s: string)
    requires s != [] && AllDigits(s) && (|s| == 1 || s[0] != '0')
    ensures NatToDecimal(DigitsValue(s)) == s
    decreases |s|
  {
    var v := DigitsValue(s);
    if |s| == 1 {
      assert v == DigitOf(s[0]);
    } else {
      var init := s[..|s| - 1];
      assert init[0] == s[0];
      CanonicalDecimal(init);
      var w := DigitsValue(init);
      assert NatToDecimal(0) == "0";
      assert w >= 1;
      assert v / 10 == w && v % 10 == DigitOf(s[|s| - 1]);
      assert NatToDecimal(v) == NatToDecimal(w) + [DigitChar(v % 10)];
      assert s == init + [s[|s| - 1]];
    }
  }

  lemma {:induction false} Pow10Grows(k: nat)
    requires k >= 1
    ensures Pow10(k) >= 10
  {
    if k > 1 { Pow10Grows(k - 1); }
  }

  /** A base-36 digit, as produced by `Number.prototype.toString(36)`. */
  type Base36Digit = d: int | 0 <= d < 36

  function Base36Char(d: Base36Digit): (c: char)
    ensures d < 10 ==> IsDigit(c)
    ensures d >= 10 ==> IsAsciiLower(c)
  {
    if d < 10 then DigitChar(d) else ('a' as int + d - 10) as char
  }

  /** `x.toString(36)` for a number `0 <= x < 1` whose base-36 expansion has the
      digits `digits` after the point; `0` renders as `"0"`. */
  function FractionToString36(digits: seq<Base36Digit>): (r: string)
    ensures digits == [] ==> r == "0"
    ensures digits != [] ==> |r| == |digits| + 2 && r[..2] == "0."
    ensures forall i :: 2 <= i < |r| ==> r[i] == Base36Char(digits[i - 2])
  {
    if digits == [] then "0" else "0." + seq(|digits|, i requires 0 <= i < |digits| => Base36Char(digits[i]))
  }

  /** A value of `Math.random()`. */
  type RandomFraction = r: real | 0.0 <= r < 1.0

  // ------------------------------------------------- parseFloat / parseInt

  /** Number of leading decimal digits. */
  function LeadingDigits(s: string): (n: nat)
    ensures n <= |s|
    ensures AllDigits(s[..n])
    ensures n < |s| ==> !IsDigit(s[n])
  {
    if s == [] || !IsDigit(s[0]) then 0 else 1 + LeadingDigits(s[1..])
  }

  function Pow10Real(e: int): (p: real)
    ensures p > 0.0
  {
    if e >= 0 then Pow10(e) as real else 1.0 / (Pow10(-e) as real)
  }

  /** The exponent part `e[+-]digits` at the start of `s`, if there is a complete one. */
  function ExponentPrefix(s: string): Option<int> {
    if |s| >= 2 && (s[0] == 'e' || s[0] == 'E') then
      var signed := s[1] == '+' || s[1] == '-';
      var body := if signed then s[2..] else s[1..];
      var n := LeadingDigits(body);
      if n == 0 then None
      else
        var e: int := DigitsValue(body[..n]);
        Some(if s[1] == '-' then -e else e)
    else None
  }

  /** The longest prefix of `s` that is an unsigned decimal literal
      (`digits[.digits][e[+-]digits]` or `.digits[...]`), as a number. */
  function UnsignedDecimalPrefix(s: string): Option<real> {
    var i := LeadingDigits(s);
    var whole := DigitsValue(s[..i]) as real;
    var (mantissa, digitCount, rest) :=
      if i < |s| && s[i] == '.' then
        var tail := s[i + 1..];
        var f := LeadingDigits(tail);
        (whole + DigitsValue(tail[..f]) as real / Pow10(f) as real, i + f, tail[f..])
      else (whole, i, s[i..]);
    if digitCount == 0 then None
    else
      match ExponentPrefix(rest)
      case None => Some(mantissa)
      case Some(e) => Some(mantissa * Pow10Real(e))
  }

  /** `parseFloat(s)` for a string: `None` is NaN. */
  function ParseFloatString(s: string): Option<real> {
    var t := TrimStart(s);
    if t != [] && (t[0] == '-' || t[0] == '+') then
      match UnsignedDecimalPrefix(t[1..])
      case None => None
      case Some(x) => Some(if t[0] == '-' then -x else x)
    else UnsignedDecimalPrefix(t)
  }

  /** `parseInt(s, 10)` for a string: `None` is NaN. */
  function ParseIntString(s: string): (r: Option<int>)
    ensures r.Some? ==> exists i :: 0 <= i < |s| && IsDigit(s[i])
  {
    var t := TrimStart(s);
    var negative := t != [] && t[0] == '-';
    var body := if t != [] && (t[0] == '-' || t[0] == '+') then t[1..] else t;
    var n := LeadingDigits(body);
    if n == 0 then None
    else
      assert IsDigit(body[0]) by { assert body[..n][0] == body[0]; }
      assert exists i :: 0 <= i < |s| && IsDigit(s[i]) by {
        var off := LeadingSpace(s) + (|t| - |body|);
        assert s[off] == body[0];
      }
      var v: int := DigitsValue(body[..n]);
      Some(if negative then -v else v)
  }

  lemma {:induction false} LeadingDigitsOfDigits(s: string)
    requires AllDigits(s)
    ensures LeadingDigits(s) == |s|
  {
    if s != [] {
      LeadingDigitsOfDigits(s[1..]);
    }
  }

  /** A plain run of digits is read as the integer it spells. */
  lemma UnsignedOfDigits(s: string)
    requires s != [] && AllDigits(s)
    ensures UnsignedDecimalPrefix(s) == Some(DigitsValue(s) as real)
  {
    LeadingDigitsOfDigits(s);
    assert s[..|s|] == s;
    assert s[|s|..] == [];
    assert ExponentPrefix([]) == None;
  }

  /** A string starting with a digit has no leading space and no sign. */
  lemma NoSpaceNoSign(s: string)
    requires s != [] && IsDigit(s[0])
    ensures TrimStart(s) == s && s[0] != '-' && s[0] != '+'
  {
    assert LeadingSpace(s) == 0;
  }

  /** `parseFloat(String(n)) === n` for every non-negative integer. */
  lemma ParseFloatOfDecimal(n: nat)
    ensures ParseFloatString(NatToDecimal(n)) == Some(n as real)
  {
    var s := NatToDecimal(n);
    NoSpaceNoSign(s);
    UnsignedOfDigits(s);
    DecimalRoundTrip(n);
  }

  /** `parseInt(String(n), 10) === n` for every non-negative integer. */
  lemma ParseIntOfDecimal(n: nat)
    ensures ParseIntString(NatToDecimal(n)) == Some(n)
  {
    var s := NatToDecimal(n);
    assert LeadingSpace(s) == 0;
    assert TrimStart(s) == s;
    LeadingDigitsOfDigits(s);
    assert s[..|s|] == s;
    DecimalRoundTrip(n);
  }
}
