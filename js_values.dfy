/** JavaScript values as the route handlers and pages see them once a body
    has been decoded: the JSON data model, `undefined` (written `None` where a
    property may be missing), truthiness, property reads, string conversion,
    object spread and thrown errors. */
module JsValues {

  datatype Option<+T> = None | Some(value: T)

  /** The outcome of evaluating something that may throw: a normal value, or
      an `Error` carrying its `message`. */
  datatype Completion<+T> = Normal(value: T) | Throw(message: string)

  /** The text of a `TypeError` raised by the JavaScript engine itself
      (destructuring `null`, reading a property of `undefined`, calling a
      method the value does not have). Its exact wording is the engine's. */
  const TypeErrorText: string := "TypeError"

  /** A decoded JSON value (RFC 8259). Numbers are integers: the modelled
      code only counts with them and tests them for truthiness. Objects map
      keys to values; their key order is not modelled. */
  datatype Json =
    | JNull
    | JBool(b: bool)
    | JNum(n: int)
    | JStr(s: string)
    | JArr(items: seq<Json>)
    | JObj(fields: map<string, Json>)

  /** JavaScript truthiness of a value that may be `undefined`. */
  predicate Truthy(v: Option<Json>) {
    match v
    case None => false
    case Some(JNull) => false
    case Some(JBool(b)) => b
    case Some(JNum(n)) => n != 0
    case Some(JStr(s)) => s != ""
    case Some(_) => true   // every array and object, even an empty one
  }

  /** `v.key` on a value that is neither `null` nor `undefined`, and `v?.key`
      on any value: only objects carry the properties the code reads. */
  function Prop(v: Json, key: string): Option<Json> {
    if v.JObj? && key in v.fields then Some(v.fields[key]) else None
  }

  /** `a || b`: the first operand when it is truthy, otherwise the second. */
  function Or(a: Option<Json>, b: Option<Json>): Option<Json> {
    if Truthy(a) then a else b
  }

  /** Adds `key: v` to an object literal under construction; a property
      whose value is `undefined` is not serialised, so it is left out. */
  function PutDefined(m: map<string, Json>, key: string, v: Option<Json>): map<string, Json> {
    match v
    case None => m
    case Some(x) => m[key := x]
  }

  // ---------------------------------------------------------------------
  // Decimal text of numbers

  function DigitChar(d: nat): (c: char)
    requires d < 10
    ensures '0' <= c <= '9' && DigitValue(c) == d
  {
    ('0' as int + d) as char
  }

  function DigitValue(c: char): nat {
    if '0' <= c <= '9' then (c as int - '0' as int) as nat else 0
  }

  /** `String(n)` for a non-negative integer: its decimal digits, most
      significant first, without leading zeros. */
  function NatToDecimal(n: nat): (s: string)
    ensures |s| >= 1
    ensures forall i :: 0 <= i < |s| ==> '0' <= s[i] <= '9'
    ensures |s| > 1 ==> s[0] != '0'
  {
    if n < 10 then [DigitChar(n)] else NatToDecimal(n / 10) + [DigitChar(n % 10)]
  }

  /** The value of a string of decimal digits: the inverse of NatToDecimal. */
  function DecimalValue(s: string): nat {
    if s == [] then 0 else DecimalValue(s[..|s| - 1]) * 10 + DigitValue(s[|s| - 1])
  }

  lemma {:induction false} DecimalRoundTrip(n: nat)
    ensures DecimalValue(NatToDecimal(n)) == n
  {
    var s := NatToDecimal(n);
    if n >= 10 {
      var q, d := n / 10, n % 10;
      DecimalRoundTrip(q);
      assert s == NatToDecimal(q) + [DigitChar(d)];
      assert s[..|s| - 1] == NatToDecimal(q);
      assert DecimalValue(s) == q * 10 + d;
    } else {
      assert s[..|s| - 1] == [];
    }
  }

  /** Distinct numbers have distinct decimal texts, so array indices spread
      into distinct keys. */
  lemma DecimalInjective(m: nat, n: nat)
    requires NatToDecimal(m) == NatToDecimal(n)
    ensures m == n
  {
    DecimalRoundTrip(m);
    DecimalRoundTrip(n);
  }

  /** `String(n)` for any integer. */
  function IntToDecimal(n: int): string {
    if n >= 0 then NatToDecimal(n) else "-" + NatToDecimal(-n)
  }

  /** The integer an optionally signed decimal text stands for. */
  function SignedDecimalValue(s: string): int {
    if s != [] && s[0] == '-' then -(DecimalValue(s[1..]) as int) else DecimalValue(s)
  }

  /** Reading `String(n)` back gives n, for negative numbers too; so
      distinct integers print differently. */
  lemma IntDecimalRoundTrip(n: int)
    ensures SignedDecimalValue(IntToDecimal(n)) == n
  {
    if n >= 0 {
      DecimalRoundTrip(n);
      assert NatToDecimal(n)[0] != '-';
    } else {
      DecimalRoundTrip(-n);
      assert IntToDecimal(n)[1..] == NatToDecimal(-n);
    }
  }

  // ---------------------------------------------------------------------
  // String conversion, as in template literals and `new Error(v)`

  /** Whether `String(v)` throws a `TypeError`. An object's own `toString`
      property hides the inherited method, and a JSON value is never
      callable, so the conversion falls through to `valueOf`, which returns
      the object itself. An array converts by converting its elements, so
      it throws when one of them does. */
  predicate StringThrows(v: Json) {
    match v
    case JObj(fields) => "toString" in fields
    case JArr(items) => exists i :: 0 <= i < |items| && StringThrows(items[i])
    case _ => false
  }

  /** `String(v)`, as in template literals and `new Error(v)`: arrays join
      their elements with commas, writing `null` elements as the empty
      string; an object without its own `toString` is "[object Object]". */
  function ToJsString(v: Json): (r: Completion<string>)
    ensures r.Throw? <==> StringThrows(v)
    ensures r.Throw? ==> r.message == TypeErrorText
  {
    match v
    case JNull => Normal("null")
    case JBool(b) => Normal(if b then "true" else "false")
    case JNum(n) => Normal(IntToDecimal(n))
    case JStr(s) => Normal(s)
    case JArr(items) =>
      if exists i :: 0 <= i < |items| && StringThrows(items[i]) then Throw(TypeErrorText)
      else Normal(JoinWithCommas(seq(|items|, i requires 0 <= i < |items| =>
        if items[i] == JNull then "" else ToJsString(items[i]).value)))
    case JObj(fields) => if "toString" in fields then Throw(TypeErrorText) else Normal("[object Object]")
  }

  /** The message of the error `throw new Error(v)` ends up throwing: the
      text of `v`, or the engine's `TypeError` when converting `v` throws
      first. */
  function ErrorMessageOf(v: Json): (m: string)
    ensures StringThrows(v) ==> m == TypeErrorText
    ensures !StringThrows(v) ==> m == ToJsString(v).value
  {
    match ToJsString(v)
    case Normal(text) => text
    case Throw(message) => message
  }

  function JoinWithCommas(parts: seq<string>): string {
    if parts == [] then ""
    else if |parts| == 1 then parts[0]
    else parts[0] + "," + JoinWithCommas(parts[1..])
  }

  // ---------------------------------------------------------------------
  // Object spread

  /** The properties `{...v}` copies: an object's own entries, an array's or
      a string's elements under their decimal indices, nothing for `null`,
      booleans and numbers. */
  function Spread(v: Json): map<string, Json> {
    match v
    case JObj(m) => m
    case JArr(items) => IndexMap(items)
    case JStr(s) => IndexMap(seq(|s|, i requires 0 <= i < |s| => JStr([s[i]])))
    case _ => map[]
  }

  function IndexMap(items: seq<Json>): map<string, Json> {
    if items == [] then map[]
    else IndexMap(items[..|items| - 1])[NatToDecimal(|items| - 1) := items[|items| - 1]]
  }

  /** Spreading an array puts element i under the key `String(i)`. */
  lemma {:induction false} IndexMapAt(items: seq<Json>, i: nat)
    requires i < |items|
    ensures NatToDecimal(i) in IndexMap(items)
    ensures IndexMap(items)[NatToDecimal(i)] == items[i]
  {
    var last := |items| - 1;
    if i < last {
      IndexMapAt(items[..last], i);
      if NatToDecimal(i) == NatToDecimal(last) {
        DecimalInjective(i, last);
      }
    }
  }
}
