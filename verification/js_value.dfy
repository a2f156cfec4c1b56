/**
 * Untyped JSON values as a JavaScript program sees them after decoding,
 * together with the one operation the model performs on them: reading a
 * named property, as in `json.assetIndex` or `downloads.client.url`.
 */
module JsValue {
  import opened Wrappers

  /**
   * A decoded JSON value. `Undefined` is the value JavaScript yields for a
   * property that an object does not have. Numbers are only ever copied,
   * never computed with, so an integer stands in for the IEEE double.
   */
  datatype Value =
    | Undefined
    | Null
    | Bool(b: bool)
    | Num(n: int)
    | Str(s: string)
    | Arr(elems: seq<Value>)
    | Obj(fields: map<string, Value>)
  {
    /** Reading any property of these two throws a `TypeError`. */
    predicate IsNullish() {
      Undefined? || Null?
    }
  }

  /** The error JavaScript throws when a property of `undefined` or `null` is read. */
  datatype JsError = TypeError(reading: string)

  /** `fields[key]` on a plain object: the stored value, or `undefined` when the key is absent. */
  function Get(fields: map<string, Value>, key: string): (v: Value)
    ensures key in fields ==> v == fields[key]
    ensures key !in fields ==> v.Undefined?
  {
    if key in fields then fields[key] else Undefined
  }

  /**
   * The property `key` of a value that is not nullish. Only the own
   * properties of decoded objects are modelled: primitives and arrays have no
   * property among the names this program reads.
   */
  function Prop(v: Value, key: string): Value
  {
    if v.Obj? then Get(v.fields, key) else Undefined
  }

  /** `v.key` in JavaScript: a `TypeError` when `v` is nullish, the property otherwise. */
  function Member(v: Value, key: string): (r: Result<Value, JsError>)
    ensures r.Failure? <==> v.IsNullish()
    ensures r.Failure? ==> r.error == TypeError(key)
    ensures r.Success? && v.Obj? && key in v.fields ==> r.value == v.fields[key]
    ensures r.Success? && !(v.Obj? && key in v.fields) ==> r.value.Undefined?
  {
    if v.IsNullish() then Failure(TypeError(key)) else Success(Prop(v, key))
  }
}
