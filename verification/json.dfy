/** Parsed JSON values as the Faraday JSON middleware hands them to the SDK,
    and the two Ruby lookups the SDK applies to them: `Hash#[]` and `Hash#dig`. */
module Json {

  /** JSON `null` and a missing key both read as Ruby `nil`, so `JNull` is `nil`.
      Numbers are integers only. */
  datatype Json =
    | JNull
    | JBool(b: bool)
    | JNum(n: int)
    | JStr(s: string)
    | JArr(items: seq<Json>)
    | JObj(fields: map<string, Json>)

  /** A parsed JSON object, i.e. a Ruby Hash with string keys. */
  type Object = map<string, Json>

  /** Ruby truthiness: everything except `nil` and `false`. */
  predicate Truthy(v: Json) {
    !v.JNull? && v != JBool(false)
  }

  /** `hash[key]`: the stored value, or `nil` when the key is absent. */
  function Lookup(o: Object, key: string): (v: Json)
    ensures key !in o ==> v == JNull
    ensures key in o ==> v == o[key]
  {
    if key in o then o[key] else JNull
  }

  /** Ruby's `a || b` on JSON values. */
  function Or(a: Json, b: Json): (r: Json)
    ensures Truthy(a) ==> r == a
    ensures !Truthy(a) ==> r == b
  {
    if Truthy(a) then a else b
  }

  /** Outcome of a two-key `Hash#dig`: a value, or the `TypeError` Ruby raises
      when the intermediate value is neither `nil` nor a Hash. */
  datatype Dug = Found(value: Json) | DigTypeError

  /** `o.dig(outer, inner)`: `nil` when `o[outer]` is `nil`, `o[outer][inner]`
      when it is a Hash, and a `TypeError` for any other intermediate value
      (a String, Integer, true/false has no `dig`; `Array#dig` rejects a
      String index). */
  function Dig(o: Object, outer: string, inner: string): (r: Dug)
    ensures r.DigTypeError? <==> !(Lookup(o, outer).JNull? || Lookup(o, outer).JObj?)
    ensures Lookup(o, outer).JNull? ==> r == Found(JNull)
    ensures Lookup(o, outer).JObj? ==> r == Found(Lookup(Lookup(o, outer).fields, inner))
  {
    match Lookup(o, outer)
    case JNull => Found(JNull)
    case JObj(fields) => Found(Lookup(fields, inner))
    case _ => DigTypeError
  }

  /** The total variant of `Dig`: a non-Hash intermediate value reads as `nil`. */
  function DigOrNil(o: Object, outer: string, inner: string): (v: Json)
    ensures Dig(o, outer, inner).Found? ==> v == Dig(o, outer, inner).value
    ensures Dig(o, outer, inner).DigTypeError? ==> v == JNull
  {
    match Lookup(o, outer)
    case JObj(fields) => Lookup(fields, inner)
    case _ => JNull
  }
}
