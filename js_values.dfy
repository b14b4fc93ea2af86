/** The JavaScript values the client handles: parsed JSON, the values a `throw`
    can carry, and the browser's `File`. Only the parts of the language the
    client relies on are modelled: truthiness (`if (x)`, `a || b`), property
    lookup on a parsed body, and `String(x)`, which `new Error(x)` and
    `localStorage.setItem` apply to their argument. */
module JsValues {
  import opened Wrappers

  /** A value produced by `JSON.parse`. Numbers are integers, held exactly:
      fractions, exponents and rounding to a double are not modelled. An object is a map, so a key given twice
      keeps its last value, as `JSON.parse` does. */
  datatype Json =
    | JNull
    | JBool(b: bool)
    | JNum(n: int)
    | JStr(s: string)
    | JArr(items: seq<Json>)
    | JObj(fields: map<string, Json>)

  /** What `JSON.parse(text)` does: return a value, or throw a `SyntaxError`
      whose message the engine chooses. */
  datatype ParseResult = Parsed(value: Json) | SyntaxError(message: string)

  /** A value caught by a `catch` clause. */
  datatype Thrown =
    | ErrorObject(message: string)            // anything that is `instanceof Error`
    | StringValue(s: string)                  // `throw "text"`
    | OtherValue(stringified: Stringification) // any other value, known by what JSON.stringify makes of it

  /** The outcome of `JSON.stringify(v)` for a thrown value that is neither an
      Error nor a string: a text, `undefined` (for `undefined` or a function),
      or an exception (a cycle, a BigInt). */
  datatype Stringification = Text(s: string) | NoText | Throws

  /** A browser `File`: its name, its MIME type (`file.type`) and its size in bytes. */
  datatype File = File(name: string, mimeType: string, size: nat)

  /** JavaScript truthiness of a JSON value: `null`, `false`, `0` and `""` are falsy. */
  predicate Truthy(v: Json) {
    match v
    case JNull => false
    case JBool(b) => b
    case JNum(n) => n != 0
    case JStr(s) => s != ""
    case JArr(_) => true
    case JObj(_) => true
  }

  /** Truthiness of a value that may be `undefined` (`None`). */
  predicate TruthyValue(o: Option<Json>) {
    o.Some? && Truthy(o.value)
  }

  /** `v.key` for a parsed value that is not `null` (on `null` the lookup throws,
      and every caller models that case before looking up). Only objects have
      own properties; the keys the client reads (`message`, `error`,
      `accessToken`, `url`) are not inherited by any JSON value, so on a
      string, number, boolean or array the lookup gives `undefined`. */
  function Property(v: Json, key: string): Option<Json> {
    if v.JObj? && key in v.fields then Some(v.fields[key]) else None
  }

  /** What `String(v)` does: give a text, or throw a `TypeError` because no
      conversion method of the value is callable. */
  datatype Conversion = Converted(text: string) | ConversionThrows

  /** `String(v)` throws for a parsed value exactly when it is an object with
      its own `toString` key (a parsed value is never callable, so the
      inherited method is shadowed and `valueOf` gives the object back), or an
      array with such an element somewhere inside: `join` converts every
      element that is not `null`. */
  predicate Unconvertible(v: Json) {
    match v
    case JObj(fields) => "toString" in fields
    case JArr(items) => exists i :: 0 <= i < |items| && Unconvertible(items[i])
    case _ => false
  }

  /** `String(v)` for a parsed value. An array converts to its elements
      joined by commas, with `null` elements as empty text; an object to
      `"[object Object]"`. It throws exactly on the values `Unconvertible`
      names. */
  function ToJsString(v: Json): (r: Conversion)
    decreases v, 1
    ensures r.ConversionThrows? <==> Unconvertible(v)
  {
    match v
    case JNull => Converted("null")
    case JBool(b) => Converted(if b then "true" else "false")
    case JNum(n) => Converted(IntToString(n))
    case JStr(s) => Converted(s)
    case JArr(_) => JoinItems(v, 0)
    case JObj(fields) => if "toString" in fields then ConversionThrows else Converted("[object Object]")
  }

  /** `Array.prototype.join(",")` over the items of `arr` from index `from`
      on: it throws as soon as one converted item throws. */
  function JoinItems(arr: Json, from: nat): (r: Conversion)
    requires arr.JArr? && from <= |arr.items|
    decreases arr, 0, |arr.items| - from
    ensures r.ConversionThrows? <==> exists i :: from <= i < |arr.items| && Unconvertible(arr.items[i])
  {
    if from == |arr.items| then Converted("")
    else
      var item := arr.items[from];
      var head := if item.JNull? then Converted("") else ToJsString(item);
      var tail := JoinItems(arr, from + 1);
      if head.ConversionThrows? || tail.ConversionThrows? then ConversionThrows
      else Converted((if from == 0 then "" else ",") + head.text + tail.text)
  }

  /** `String(v)` for a value that may be `undefined`: `String(undefined)` is `"undefined"`. */
  function ToJsStringOrUndefined(o: Option<Json>): Conversion {
    match o
    case None => Converted("undefined")
    case Some(v) => ToJsString(v)
  }

  predicate IsDigit(c: char) {
    '0' <= c <= '9'
  }

  /** The decimal digit for `d`. */
  function DigitChar(d: nat): (c: char)
    requires d < 10
    ensures IsDigit(c) && c as int - '0' as int == d
  {
    "0123456789"[d]
  }

  /** The numeric value of a string of decimal digits. */
  function DecimalValue(s: string): nat
    requires forall i :: 0 <= i < |s| ==> IsDigit(s[i])
  {
    if s == [] then 0
    else
      var last := s[|s| - 1];
      assert IsDigit(last);
      10 * DecimalValue(s[..|s| - 1]) + (last as int - '0' as int)
  }

  /** The decimal form JavaScript prints for a non-negative integer: digits
      only, no leading zero, and denoting `n`. */
  function NatToString(n: nat): (r: string)
    ensures |r| >= 1
    ensures forall i :: 0 <= i < |r| ==> IsDigit(r[i])
    ensures r[0] == '0' ==> n == 0
    ensures DecimalValue(r) == n
  {
    if n < 10 then [DigitChar(n)]
    else
      var prefix := NatToString(n / 10);
      var r := prefix + [DigitChar(n % 10)];
      assert r[..|r| - 1] == prefix;
      r
  }

  /** The decimal form of an integer, with a leading `-` when negative. */
  function IntToString(n: int): string {
    if n < 0 then "-" + NatToString(-n) else NatToString(n)
  }
}
