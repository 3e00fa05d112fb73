/** JavaScript values as the TypeScript sources see them after JSON.parse:
    `undefined` is the absence of a value (Option.None), `null` is JsNull.
    Truthiness and the `||` operator follow the JavaScript rules for these
    value kinds. */
module JsValues {

  datatype Option<+T> = None | Some(value: T)

  datatype Result<+T, +E> = Ok(value: T) | Err(error: E)

  /** A JSON value; nested objects and arrays are not looked into, so they
      are one opaque, always-truthy kind. */
  datatype JsVal =
    | JsNull
    | JsBool(b: bool)
    | JsNum(n: real)
    | JsStr(s: string)
    | JsCompound

  /** What JSON.parse can return: an object (an array is an object whose
      keys are indices) or a bare scalar. */
  datatype Payload = Object(fields: map<string, JsVal>) | Scalar(v: JsVal)

  /** Reading a property of `null` throws a TypeError. */
  datatype FieldError = ReadOfNull

  /** JavaScript truthiness of a possibly undefined value (NaN is not modelled). */
  predicate Truthy(v: Option<JsVal>)
  {
    match v
    case None => false
    case Some(JsNull) => false
    case Some(JsBool(b)) => b
    case Some(JsNum(n)) => n != 0.0
    case Some(JsStr(s)) => s != ""
    case Some(JsCompound) => true
  }

  /** `a || b`: the left operand when it is truthy, otherwise the right one. */
  function Or(a: Option<JsVal>, b: Option<JsVal>): (r: Option<JsVal>)
    ensures Truthy(a) ==> r == a
    ensures !Truthy(a) ==> r == b
    ensures Truthy(r) <==> Truthy(a) || Truthy(b)
  {
    if Truthy(a) then a else b
  }

  /** `v` is what `p.key` evaluates to when `p` is not null: the property
      when the object has it, undefined otherwise. */
  predicate PropertyIs(p: Payload, key: string, v: Option<JsVal>)
  {
    v == if p.Object? && key in p.fields then Some(p.fields[key]) else None
  }

  /** `data.key` on a parsed payload: a missing key is undefined, a property
      of a non-null scalar is undefined, a property of null throws. */
  function Field(p: Payload, key: string): (r: Result<Option<JsVal>, FieldError>)
    ensures r.Err? <==> p == Scalar(JsNull)
    ensures r.Ok? ==> PropertyIs(p, key, r.value)
    ensures r.Ok? && r.value.Some? ==> p.Object? && key in p.fields && r.value.value == p.fields[key]
    ensures p.Object? && key in p.fields ==> r == Ok(Some(p.fields[key]))
  {
    match p
    case Object(fields) => if key in fields then Ok(Some(fields[key])) else Ok(None)
    case Scalar(JsNull) => Err(ReadOfNull)
    case Scalar(_) => Ok(None)
  }

  /** An optional string or number as a JavaScript value. */
  function StrVal(s: Option<string>): Option<JsVal>
  {
    if s.Some? then Some(JsStr(s.value)) else None
  }

  function NumVal(n: Option<real>): Option<JsVal>
  {
    if n.Some? then Some(JsNum(n.value)) else None
  }

  /** Truthiness of an optional string field (TypeScript `string | undefined`). */
  predicate TruthyStr(s: Option<string>)
  {
    s.Some? && s.value != ""
  }

  /** Truthiness of an optional number field (TypeScript `number | undefined`). */
  predicate TruthyNum(n: Option<real>)
  {
    n.Some? && n.value != 0.0
  }

  /** `s || d` for an optional string with a string default: the general
      `||` on the same values, specialised to strings. */
  function OrStr(s: Option<string>, d: string): (r: string)
    ensures TruthyStr(s) ==> r == s.value
    ensures !TruthyStr(s) ==> r == d
    ensures Or(StrVal(s), Some(JsStr(d))) == Some(JsStr(r))
  {
    if TruthyStr(s) then s.value else d
  }

  /** `n || d` for an optional number with a number default: the general
      `||` on the same values, specialised to numbers. */
  function OrNum(n: Option<real>, d: real): (r: real)
    ensures TruthyNum(n) ==> r == n.value
    ensures !TruthyNum(n) ==> r == d
    ensures Or(NumVal(n), Some(JsNum(d))) == Some(JsNum(r))
  {
    if TruthyNum(n) then n.value else d
  }
}
