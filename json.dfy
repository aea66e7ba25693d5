/** Loosely shaped JSON values as the client reads them, with the JavaScript
    operators the normalisation code applies to them: truthiness, `??`,
    `||`, property access with and without `?.`, Number() and String(). */
module Json {
  import opened Common

  /** A value as it reaches the client: parsed JSON, or `undefined` for a
      property that is not there. Numbers are integers in this model. */
  datatype Json =
    | Undefined
    | Null
    | Bool(b: bool)
    | Num(n: int)
    | Str(s: string)
    | Arr(items: seq<Json>)
    | Obj(fields: map<string, Json>)

  /** `null` or `undefined`: the values `??` and `?.` test for. */
  predicate Nullish(v: Json) {
    v.Undefined? || v.Null?
  }

  /** JavaScript truthiness: `false`, 0, "", null and undefined are falsy. */
  predicate Truthy(v: Json) {
    match v
    case Undefined => false
    case Null => false
    case Bool(b) => b
    case Num(n) => n != 0
    case Str(s) => s != ""
    case Arr(_) => true
    case Obj(_) => true
  }

  lemma NullishIsFalsy(v: Json)
    ensures Nullish(v) ==> !Truthy(v)
  {
  }

  /** a ?? b */
  function Coalesce(a: Json, b: Json): (r: Json)
    ensures Nullish(a) ==> r == b
    ensures !Nullish(a) ==> r == a
  {
    if Nullish(a) then b else a
  }

  /** a || b */
  function Or(a: Json, b: Json): (r: Json)
    ensures Truthy(a) ==> r == a
    ensures !Truthy(a) ==> r == b
  {
    if Truthy(a) then a else b
  }

  /** The property k of a value that is not nullish: an object's field, or
      undefined (primitives and arrays carry none of the fields read here). */
  function Prop(v: Json, k: string): Json
    requires !Nullish(v)
  {
    match v
    case Obj(m) => if k in m then m[k] else Undefined
    case _ => Undefined
  }

  /** v?.k: undefined when v is nullish, otherwise the property. */
  function OptGet(v: Json, k: string): (r: Json)
    ensures Nullish(v) ==> r == Undefined
    ensures v.Obj? && k in v.fields ==> r == v.fields[k]
    ensures v.Obj? && k !in v.fields ==> r == Undefined
  {
    if Nullish(v) then Undefined else Prop(v, k)
  }

  /** v.k: reading a property of null or undefined throws a TypeError,
      modelled as None. */
  function Get(v: Json, k: string): (r: Option<Json>)
    ensures r.None? <==> Nullish(v)
    ensures r.Some? ==> r.value == OptGet(v, k)
  {
    if Nullish(v) then None else Some(Prop(v, k))
  }

  /** String(v) */
  function ToJsString(v: Json): string
    decreases v
  {
    match v
    case Undefined => "undefined"
    case Null => "null"
    case Bool(b) => if b then "true" else "false"
    case Num(n) => IntToString(n)
    case Str(s) => s
    case Arr(items) => ItemsString(items)
    case Obj(_) => "[object Object]"
  }

  /** Array.prototype.join(","), which writes null and undefined as "". */
  function ItemsString(items: seq<Json>): string
    decreases items
  {
    if |items| == 0 then ""
    else
      (if Nullish(items[0]) then "" else ToJsString(items[0]))
      + (if |items| == 1 then "" else "," + ItemsString(items[1..]))
  }

  /** Number(v) */
  function ToNumber(v: Json): JsNumber {
    match v
    case Undefined => NaN
    case Null => Finite(0)
    case Bool(b) => Finite(if b then 1 else 0)
    case Num(n) => Finite(n)
    case Str(s) => NumberOf(s)
    case Arr(items) => NumberOf(ItemsString(items))
    case Obj(_) => NaN
  }

  /** A number and its string form convert to the same Number. */
  lemma ToNumberOfNumericString(n: int)
    ensures ToNumber(Str(IntToString(n))) == ToNumber(Num(n)) == Finite(n)
  {
    IntStringRoundTrip(n);
  }
}
