/**
 * JavaScript values as the exporter sees them: configuration entries, query
 * and body parameters, decoded response bodies and cursor files.
 * Numbers are modelled as integers; floating point is not part of this model.
 */
module Js {

  datatype Option<+T> = None | Some(value: T)

  /** The outcome of an operation that can throw: a value, or the message of what was thrown. */
  datatype Result<+T> = Ok(value: T) | Thrown(message: string)

  datatype Value =
    | Undefined
    | Null
    | Bool(b: bool)
    | Num(n: int)
    | Str(s: string)
    | Arr(items: seq<Value>)
    | Obj(fields: map<string, Value>)

  /** A plain object's own enumerable properties. */
  type Fields = map<string, Value>

  /** lodash `_.isNil`. */
  predicate IsNil(v: Value) {
    v.Undefined? || v.Null?
  }

  /** JavaScript truthiness, as used by `a || b`. */
  predicate Truthy(v: Value) {
    match v
    case Undefined => false
    case Null => false
    case Bool(b) => b
    case Num(n) => n != 0
    case Str(s) => s != ""
    case Arr(_) => true
    case Obj(_) => true
  }

  /** `a || b`. */
  function Or(a: Value, b: Value): (r: Value)
    ensures Truthy(a) ==> r == a
    ensures !Truthy(a) ==> r == b
  {
    if Truthy(a) then a else b
  }

  /** Reading `v[key]`: throws on null and undefined, gives undefined for a missing property. */
  function Member(v: Value, key: string): (r: Result<Value>)
    ensures r.Thrown? <==> IsNil(v)
    ensures v.Obj? ==> r == Ok(if key in v.fields then v.fields[key] else Undefined)
  {
    match v
    case Undefined => Thrown("Cannot read properties of undefined")
    case Null => Thrown("Cannot read properties of null")
    case Str(s) => Ok(if key == "length" then Num(|s|) else Undefined)
    case Arr(items) => Ok(if key == "length" then Num(|items|) else Undefined)
    case Obj(m) => Ok(if key in m then m[key] else Undefined)
    case _ => Ok(Undefined)
  }

  /** Reading a property of a property: `v[k1][k2]`. */
  function Path2(v: Value, k1: string, k2: string): Result<Value> {
    match Member(v, k1)
    case Thrown(m) => Thrown(m)
    case Ok(w) => Member(w, k2)
  }

  /**
   * `accessSafe(getter, fallback)`: the getter's value, or the fallback when the
   * getter throws or yields undefined.
   */
  function AccessSafe(got: Result<Value>, fallback: Value): (r: Value)
    ensures got.Ok? && !got.value.Undefined? ==> r == got.value
    ensures got.Thrown? || got.value.Undefined? ==> r == fallback
  {
    if got.Thrown? || got.value.Undefined? then fallback else got.value
  }

  /** lodash `_.omitBy(m, _.isNil)`: the entries whose value is neither null nor undefined. */
  function OmitNil(m: Fields): (r: Fields)
    ensures forall k :: k in r <==> k in m && !IsNil(m[k])
    ensures forall k :: k in r ==> r[k] == m[k]
  {
    map k | k in m && !IsNil(m[k]) :: m[k]
  }

  function DigitChar(d: nat): char
    requires d < 10
  {
    "0123456789"[d]
  }

  /** Decimal notation of a natural number. */
  function NatToString(n: nat): (r: string)
    ensures |r| >= 1
    ensures forall i :: 0 <= i < |r| ==> '0' <= r[i] <= '9'
    decreases n
  {
    if n < 10 then [DigitChar(n)] else NatToString(n / 10) + [DigitChar(n % 10)]
  }

  function IntToString(i: int): string {
    if i < 0 then "-" + NatToString(-i) else NatToString(i)
  }

  /** `parts.join(sep)`. */
  function Join(parts: seq<string>, sep: string): (r: string)
    ensures parts == [] ==> r == ""
    ensures |parts| == 1 ==> r == parts[0]
    decreases |parts|
  {
    if parts == [] then ""
    else if |parts| == 1 then parts[0]
    else parts[0] + sep + Join(parts[1..], sep)
  }

  /**
   * `String(v)`, as a template literal `${v}` renders it. An array renders its
   * elements joined by commas, with null and undefined elements as empty text.
   */
  function ToText(v: Value): string
    decreases v
  {
    match v
    case Undefined => "undefined"
    case Null => "null"
    case Bool(b) => if b then "true" else "false"
    case Num(n) => IntToString(n)
    case Str(s) => s
    case Arr(items) =>
      Join(seq(|items|, i requires 0 <= i < |items| =>
                          if IsNil(items[i]) then "" else ToText(items[i])), ",")
    case Obj(_) => "[object Object]"
  }
}
