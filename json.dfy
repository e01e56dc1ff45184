/** The JSON document model of serde_json: `Value` and `Number`. */
module Json {
  import opened Primitives

  /** The floats a JSON number can hold: serde_json has no representation
      for NaN or the infinities. */
  type FiniteF64 = f: F64 | IsFinite(f) witness 0

  /** serde_json::Number: an integer, or a finite float. */
  datatype Number = Int(i: int) | Float(bits: FiniteF64)

  /** serde_json::Value. An object is a map from key to value: `insert` on an
      existing key replaces its value. */
  datatype Value =
    | Null
    | Bool(b: bool)
    | Number(n: Number)
    | String(s: string)
    | Array(items: seq<Value>)
    | Object(fields: map<string, Value>)

  /** Number::from_f64: None exactly for the non-finite values. */
  function NumberFromF64(f: F64): (r: Option<Number>)
    ensures r.Some? <==> IsFinite(f)
    ensures r.Some? ==> r.value == Float(f)
  {
    if IsFinite(f) then Some(Float(f)) else None
  }
}
