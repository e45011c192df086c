/**
 * The JavaScript values the store handles, and the language built-ins it
 * relies on: `String(v)` (used when a key is built by `'prefix' + id` and when
 * `localStorage.setItem` coerces a value), truthiness, `=== null || === undefined`
 * tests and property reads on plain objects.
 */
module JsValues {

  newtype byte = x: int | 0 <= x < 256

  /**
   * A JavaScript value. Numbers are integers (registration and key ids);
   * an ArrayBuffer is its bytes; a plain object is its own enumerable
   * properties in the order `Object.keys` yields them. `Object.keys` lists
   * the array-index names (`IsArrayIndexName`) first, in ascending order, so
   * a `Record` that lists such a name after another name, or two of them out
   * of order, denotes no object.
   */
  datatype JsValue =
    | Undefined
    | Null
    | Bool(b: bool)
    | Num(n: int)
    | Str(s: string)
    | Buffer(bytes: seq<byte>)
    | Record(fields: seq<Field>)

  datatype Field = Field(name: string, value: JsValue)

  /** `v === null || v === undefined` */
  predicate IsNullish(v: JsValue) {
    v.Undefined? || v.Null?
  }

  /** JavaScript truthiness (`if (v)`), for the value kinds above. */
  predicate Truthy(v: JsValue) {
    match v
    case Undefined => false
    case Null => false
    case Bool(b) => b
    case Num(n) => n != 0
    case Str(s) => s != ""
    case _ => true
  }

  function DigitChar(d: nat): char
    requires d < 10
  {
    "0123456789"[d]
  }

  /** Decimal text of a natural number, as `String(n)` writes it for `n < 10^21`. */
  function NatText(n: nat): string
    decreases n
  {
    if n < 10 then [DigitChar(n)] else NatText(n / 10) + [DigitChar(n % 10)]
  }

  function NumberText(n: int): string {
    if n < 0 then "-" + NatText(-n) else NatText(n)
  }

  /** `String(v)`: the conversion `+` applies to a string and a value, and `setItem` applies to keys and values. */
  function JsString(v: JsValue): string {
    match v
    case Undefined => "undefined"
    case Null => "null"
    case Bool(b) => if b then "true" else "false"
    case Num(n) => NumberText(n)
    case Str(s) => s
    case Buffer(_) => "[object ArrayBuffer]"
    case Record(_) => "[object Object]"
  }

  /** The value of the first field called `name`, or `undefined` when there is none. */
  function FieldValue(fs: seq<Field>, name: string): JsValue
    decreases |fs|
  {
    if fs == [] then Undefined
    else if fs[0].name == name then fs[0].value
    else FieldValue(fs[1..], name)
  }

  /**
   * `v.name` for a property name that no primitive, ArrayBuffer or built-in
   * prototype defines (such as `pubKey`). Reading a property of null or
   * undefined throws a TypeError, which callers check first.
   */
  function Prop(v: JsValue, name: string): JsValue
    requires !IsNullish(v)
  {
    if v.Record? then FieldValue(v.fields, name) else Undefined
  }

  /** A plain object has each property once. */
  ghost predicate DistinctNames(fs: seq<Field>) {
    forall i, j :: 0 <= i < j < |fs| ==> fs[i].name != fs[j].name
  }

  /** The value of a run of decimal digits; a character that is not a digit counts as 0. */
  function DigitsValue(s: string): nat
    decreases |s|
  {
    if s == [] then 0
    else
      var c := s[|s| - 1];
      DigitsValue(s[..|s| - 1]) * 10 + (if '0' <= c <= '9' then (c as int - '0' as int) else 0)
  }

  /** A canonical array index: the decimal text, without leading zeros, of an integer below 2^32 - 1. */
  predicate IsArrayIndexName(name: string) {
    && |name| > 0
    && (forall i :: 0 <= i < |name| ==> '0' <= name[i] <= '9')
    && (name[0] != '0' || |name| == 1)
    && DigitsValue(name) < 0xFFFF_FFFF
  }

  /** No property name is an array index, so `Object.keys` keeps the order the properties were created in. */
  ghost predicate NoIndexNames(fs: seq<Field>) {
    forall i :: 0 <= i < |fs| ==> !IsArrayIndexName(fs[i].name)
  }

  ghost predicate AllBuffers(fs: seq<Field>) {
    forall i :: 0 <= i < |fs| ==> fs[i].value.Buffer?
  }

  ghost predicate AllText(fs: seq<Field>) {
    forall i :: 0 <= i < |fs| ==> fs[i].value.Str?
  }
}
