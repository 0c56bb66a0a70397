/**
 * The JSON values a request body can carry, with the two Python operations the API
 * applies to them: truthiness (as in `if not all([...])`) and `float(...)`.
 */
module Json {
  import opened Wrappers

  datatype Value =
    | Null
    | Bool(b: bool)
    | Number(n: real)
    | Str(s: string)
    | Array(items: seq<Value>)
    | Object(fields: map<string, Value>)

  /** A parsed request body: `request.data`. */
  type Body = map<string, Value>

  /** `body.get(key, default)`. */
  function GetOr(body: Body, key: string, default: Value): (v: Value)
    ensures key in body ==> v == body[key]
    ensures key !in body ==> v == default
  {
    if key in body then body[key] else default
  }

  /** Python truthiness of a decoded JSON value. */
  predicate Truthy(v: Value)
  {
    match v
    case Null => false
    case Bool(b) => b
    case Number(n) => n != 0.0
    case Str(s) => |s| > 0
    case Array(items) => |items| > 0
    case Object(fields) => |fields| > 0
  }

  /** The exceptions `float(v)` can raise. */
  datatype ConversionError = TypeError | ValueError(text: string)

  /**
   * `float(v)`: numbers convert to themselves, booleans to 1.0 and 0.0, strings through
   * `parse` (Python's float syntax, a parameter here), everything else is a TypeError.
   */
  function ToFloat(v: Value, parse: string -> Option<real>): (r: Result<real, ConversionError>)
    ensures r.Failure? && r.error == TypeError <==> v.Null? || v.Array? || v.Object?
    ensures r.Failure? && r.error.ValueError? <==> v.Str? && parse(v.s).None?
    ensures v.Number? ==> r == Success(v.n)
    ensures v.Bool? ==> r == Success(if v.b then 1.0 else 0.0)
    ensures v.Str? && parse(v.s).Some? ==> r == Success(parse(v.s).value)
  {
    match v
    case Number(n) => Success(n)
    case Bool(b) => Success(if b then 1.0 else 0.0)
    case Str(s) => if parse(s).Some? then Success(parse(s).value) else Failure(ValueError(s))
    case _ => Failure(TypeError)
  }
}
