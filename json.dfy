/**
 * JSON-like documents as the back end and the editor see them: the Lottie
 * animation document, the stored animation record and the request and
 * response bodies. Python's `datetime` objects appear as `DateTime`.
 */
module JsonModel {

  /** An instant, as a Python `datetime` holds it; only equality matters here. */
  datatype Timestamp = Timestamp(epochMicros: int)

  /** A JSON value, with integers in place of JSON's floating-point numbers. Objects keep their key order. */
  datatype Json =
    | Null
    | Bool(b: bool)
    | Int(n: int)
    | Str(s: string)
    | Arr(items: seq<Json>)
    | Obj(fields: seq<Field>)
    | DateTime(t: Timestamp)

  /** One key/value entry of an object. */
  datatype Field = Field(key: string, value: Json)

  /** The keys of an object, in order. */
  function Keys(fs: seq<Field>): (ks: seq<string>)
    ensures |ks| == |fs|
    ensures forall i :: 0 <= i < |fs| ==> ks[i] == fs[i].key
  {
    seq(|fs|, i requires 0 <= i < |fs| => fs[i].key)
  }

  /** JavaScript truthiness of a decoded JSON value: `null`, `false`, `0` and `""` are falsy, every object and array is truthy. */
  predicate Truthy(j: Json) {
    match j
    case Null => false
    case Bool(b) => b
    case Int(n) => n != 0
    case Str(s) => s != ""
    case _ => true
  }
}
