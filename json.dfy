/**
 * Parsed JSON values as the front end sees them after `JSON.parse` or from an HTTP response body, with the three
 * JavaScript conversions the code applies to them: truthiness (`if (x)`, `!x`, `x || y`), `String(x)` (template
 * literals, `+` on strings, `Array.prototype.join`) and `Number(x)` (arithmetic such as `x * 1000`).
 * Numbers are integers here: fractions, exponents and floating-point rounding are not part of the model.
 */
module JsonValues {
  import opened Base
  import opened Strings

  datatype Json =
    | JNull
    | JBool(b: bool)
    | JNum(n: int)
    | JStr(s: string)
    | JArr(items: seq<Json>)
    | JObj(fields: map<string, Json>)

  /** JavaScript truthiness: `null`, `false`, `0` and `""` are falsy; every array and object is truthy. */
  predicate Truthy(j: Json) {
    match j
    case JNull => false
    case JBool(b) => b
    case JNum(n) => n != 0
    case JStr(s) => s != ""
    case JArr(_) => true
    case JObj(_) => true
  }

  /** Truthiness of a possibly missing value: `undefined` is falsy. */
  predicate TruthyOpt(o: Option<Json>) {
    o.Some? && Truthy(o.value)
  }

  /**
   * `value.key` for the keys this front end reads (`response`, `exp`, `detail`, ...): an object's own field;
   * arrays, strings, numbers and booleans have none of them, so the result is `undefined`. On `null` the access
   * throws in JavaScript; every caller either already excluded `null` or treats the throw like `undefined`.
   */
  function Get(j: Json, key: string): (r: Option<Json>)
    ensures r.Some? <==> j.JObj? && key in j.fields
    ensures r.Some? ==> r.value == j.fields[key]
  {
    match j
    case JObj(fields) => if key in fields then Some(fields[key]) else None
    case _ => None
  }

  /** `a ?? b`: the first operand unless it is `null` or `undefined`. */
  function Nullish(a: Option<Json>, b: Option<Json>): (r: Option<Json>)
    ensures a.Some? && a.value != JNull ==> r == a
    ensures (a.None? || a.value == JNull) ==> r == b
  {
    if a.Some? && a.value != JNull then a else b
  }

  /** `String(value)` of a parsed JSON value. */
  function JsString(j: Json): string
    decreases j
  {
    match j
    case JNull => "null"
    case JBool(b) => if b then "true" else "false"
    case JNum(n) => IntToString(n)
    case JStr(s) => s
    case JArr(items) => ElementsString(items)
    case JObj(_) => "[object Object]"
  }

  /** `Array.prototype.join(",")` as `String(array)` uses it: `null` elements print as the empty string. */
  function ElementsString(items: seq<Json>): string
    decreases items
  {
    if |items| == 0 then ""
    else
      var first := if items[0] == JNull then "" else JsString(items[0]);
      if |items| == 1 then first else first + "," + ElementsString(items[1..])
  }

  /** `String(x)` of a possibly missing value: `undefined` prints as "undefined". */
  function JsStringOpt(o: Option<Json>): string {
    match o
    case None => "undefined"
    case Some(j) => JsString(j)
  }

  // ---------------------------------------------------------------- numbers

  /** A JavaScript number: an integer value or NaN. */
  datatype JsNumber = Finite(v: int) | NaN {
    function Times(k: int): JsNumber {
      match this
      case Finite(v) => Finite(v * k)
      case NaN => NaN
    }
  }

  /** `x >= y` on numbers: every comparison with NaN is false. */
  predicate AtLeast(x: JsNumber, y: JsNumber) {
    x.Finite? && y.Finite? && x.v >= y.v
  }

  /**
   * `Number(s)` for strings: surrounding whitespace is ignored, the empty string is 0, an optionally signed run of
   * decimal digits is its value, anything else is NaN (hexadecimal, fractions, exponents and `Infinity` are
   * not modelled).
   */
  function StringToNumber(s: string): (r: JsNumber)
    ensures Trim(s) == "" ==> r == Finite(0)
    ensures r.Finite? <==>
      Trim(s) == "" || AllDigits(Trim(s)) ||
      (|Trim(s)| > 1 && (Trim(s)[0] == '-' || Trim(s)[0] == '+') && AllDigits(Trim(s)[1..]))
    ensures r.Finite? && Trim(s) != "" && Trim(s)[0] != '-' ==> r.v >= 0
  {
    var t := Trim(s);
    if t == "" then Finite(0)
    else if AllDigits(t) then Finite(DigitsValue(t))
    else if |t| > 1 && t[0] == '-' && AllDigits(t[1..]) then Finite(0 - DigitsValue(t[1..]))
    else if |t| > 1 && t[0] == '+' && AllDigits(t[1..]) then Finite(DigitsValue(t[1..]))
    else NaN
  }

  /** `Number(j)`: `null` is 0, booleans 0 or 1, strings as above, arrays through their `String()` form, objects NaN. */
  function ToNumber(j: Json): (r: JsNumber)
    ensures j.JNull? ==> r == Finite(0)
    ensures j.JNum? ==> r == Finite(j.n)
    ensures j.JStr? ==> r == StringToNumber(j.s)
    ensures j.JObj? ==> r == NaN
  {
    match j
    case JNull => Finite(0)
    case JBool(b) => Finite(if b then 1 else 0)
    case JNum(n) => Finite(n)
    case JStr(s) => StringToNumber(s)
    case JArr(_) => StringToNumber(JsString(j))
    case JObj(_) =>
      var t := "[object Object]";
      TrimUntouched(t);
      assert !IsDigit(t[0]);
      StringToNumber(JsString(j))
  }

  /** `Number(String(n)) == n`: the decimal rendering of an integer reads back as that integer. */
  lemma NumberOfString(n: int)
    ensures StringToNumber(IntToString(n)) == Finite(n)
  {
    if n < 0 {
      var m: nat := -n;
      NegativeRoundTrip(m);
      assert IntToString(n) == "-" + NatToString(m);
    } else {
      NaturalRoundTrip(n);
      assert IntToString(n) == NatToString(n);
    }
  }

  lemma NaturalRoundTrip(m: nat)
    ensures StringToNumber(NatToString(m)) == Finite(m)
  {
    var d := NatToString(m);
    DigitsValueOfNat(m);
    TrimUntouched(d);
  }

  lemma NegativeRoundTrip(m: nat)
    requires m > 0
    ensures StringToNumber("-" + NatToString(m)) == Finite(0 - m)
  {
    var d := NatToString(m);
    DigitsValueOfNat(m);
    var t := "-" + d;
    assert t[1..] == d;
    assert t[|t| - 1] == d[|d| - 1];
    TrimUntouched(t);
    assert !IsDigit(t[0]);
  }

  /** A string that is not a number once trimmed, such as "abc" or "[object Object]", converts to NaN. */
  lemma ObjectIsNaN(fields: map<string, Json>)
    ensures ToNumber(JObj(fields)) == NaN
  {
    var t := "[object Object]";
    TrimUntouched(t);
    assert !IsDigit(t[0]);
  }
}
