/** A JSON value as section 3 of RFC 8259 describes it, in the shape Python's
    `json.loads` hands it over: objects become dictionaries (here maps), arrays lists. */
module JsonValue {

  /** A number is kept as the exact decimal `mantissa * 10^exponent` it is written as;
      the rounding of non-integers to floating point is not modelled. */
  datatype Json =
    | Null
    | Bool(b: bool)
    | Number(mantissa: int, exponent: int)
    | String(str: string)
    | Array(items: seq<Json>)
    | Object(fields: map<string, Json>)

  /** Python's truth value of the decoded value (`if value:`): `None`, `False`, zero,
      the empty string, the empty list and the empty dictionary are false. */
  predicate Truthy(j: Json)
  {
    match j
    case Null => false
    case Bool(b) => b
    case Number(m, _) => m != 0
    case String(s) => s != []
    case Array(items) => items != []
    case Object(fields) => fields != map[]
  }
}
