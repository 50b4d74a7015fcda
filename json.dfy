/**
 * Parsed JSON payloads and the few JavaScript operations the client applies
 * to them: property lookup, truthiness and the coercion of a value to a
 * property key (what `payload.id in table` and `table[payload.id]` do).
 */
module Json {
  import opened Wrappers
  import Text

  /** A value produced by `JSON.parse`. Numbers are restricted to integers. */
  datatype Json =
    | JNull
    | JBool(b: bool)
    | JNum(n: int)
    | JStr(s: string)
    | JArr(items: seq<Json>)
    | JObj(fields: map<string, Json>)

  /** JavaScript truthiness: exactly `null`, `false`, `0` and `""` are falsy. */
  predicate Truthy(j: Json)
    ensures !Truthy(j) <==> j == JNull || j == JBool(false) || j == JNum(0) || j == JStr("")
  {
    match j
    case JNull => false
    case JBool(b) => b
    case JNum(n) => n != 0
    case JStr(s) => s != ""
    case JArr(_) => true
    case JObj(_) => true
  }

  /**
   * `key in j` for the keys the message handler tests (`jsonrpc`, `method`,
   * `id`, `result`, `error`, `params`, `timestamp`): the key is an own
   * property of an object. Inherited properties, such as the keys of
   * `Object.prototype` or a string's `length`, are not seen here; none of
   * those names is one of these keys.
   */
  predicate Has(j: Json, key: string) {
    j.JObj? && key in j.fields
  }

  /**
   * `j.key` on a value that is not `null`, for the same keys as `Has`: the
   * own property of an object, and `undefined` (None) for every other value
   * and every missing key. Inherited properties are not modelled; none of
   * the keys the handler reads is inherited.
   */
  function Get(j: Json, key: string): (r: Option<Json>)
    ensures r.Some? <==> Has(j, key)
    ensures r.Some? ==> r.value == j.fields[key]
  {
    if Has(j, key) then Some(j.fields[key]) else None
  }

  /**
   * The properties every plain object `{}` inherits from `Object.prototype`;
   * the `in` operator sees them although no entry was ever stored under them.
   */
  const ObjectPrototypeKeys: set<string> := {
    "constructor", "hasOwnProperty", "isPrototypeOf", "propertyIsEnumerable",
    "toLocaleString", "toString", "valueOf", "__proto__",
    "__defineGetter__", "__defineSetter__", "__lookupGetter__", "__lookupSetter__"
  }

  /** The value of a decimal digit. */
  function DigitValue(c: char): int {
    c as int - '0' as int
  }

  /** The number a text of decimal digits denotes. */
  function DecimalValue(s: string): int {
    if s == [] then 0 else 10 * DecimalValue(s[..|s| - 1]) + DigitValue(s[|s| - 1])
  }

  /**
   * Decimal text of a natural number: the digits that denote `n`, without
   * leading zeros.
   */
  function NatText(n: nat): (r: string)
    ensures |r| >= 1
    ensures forall i :: 0 <= i < |r| ==> '0' <= r[i] <= '9'
    ensures DecimalValue(r) == n
    ensures r[0] == '0' ==> r == "0"
  {
    if n < 10 then [('0' as int + n) as char]
    else
      var r := NatText(n / 10) + [('0' as int + n % 10) as char];
      assert r[..|r| - 1] == NatText(n / 10);
      r
  }

  /** `String(n)` for an integer `n`. */
  function IntText(n: int): string {
    if n < 0 then "-" + NatText(-n) else NatText(n)
  }

  /**
   * Coercing the value to a property key throws a TypeError: it is, or an
   * array inside it holds, an object with an own `toString` property. Such a
   * property is never callable in parsed JSON, and the inherited `valueOf`
   * returns the object itself, so no primitive is found.
   */
  predicate CoercionThrows(id: Json) {
    match id
    case JObj(fields) => "toString" in fields
    case JArr(items) => exists i :: 0 <= i < |items| && CoercionThrows(items[i])
    case _ => false
  }

  /**
   * The text a value coerces to when coercion does not throw: `String(...)`,
   * where an array joins its elements with commas, writing `null` as nothing.
   */
  function KeyText(id: Json): string
    requires !CoercionThrows(id)
  {
    match id
    case JNull => "null"
    case JBool(b) => if b then "true" else "false"
    case JNum(n) => IntText(n)
    case JStr(s) => s
    case JObj(_) => "[object Object]"
    case JArr(items) =>
      if |items| == 0 then ""
      else
        Text.Join(seq(|items|, i requires 0 <= i < |items| =>
                    if items[i] == JNull then "" else KeyText(items[i])), ',')
  }

  /**
   * The property key a value is coerced to when it indexes an object, as
   * `payload.id in table` does; None when the coercion throws.
   */
  function KeyOf(id: Json): (r: Option<string>)
    ensures r.None? <==> CoercionThrows(id)
    ensures id.JStr? ==> r == Some(id.s)
    ensures id.JNum? ==> r == Some(if id.n < 0 then "-" + NatText(-id.n) else NatText(id.n))
    ensures id == JNull ==> r == Some("null")
    ensures id.JBool? ==> r == Some(if id.b then "true" else "false")
    ensures id.JObj? ==> r == if "toString" in id.fields then None else Some("[object Object]")
    ensures id == JArr([]) ==> r == Some("")
    ensures id.JArr? && |id.items| == 1 ==>
              r == if id.items[0] == JNull then Some("") else KeyOf(id.items[0])
  {
    if CoercionThrows(id) then None
    else
      var r := KeyText(id);
      assert id.JArr? && |id.items| == 1 ==> !CoercionThrows(id.items[0]);
      Some(r)
  }
}
