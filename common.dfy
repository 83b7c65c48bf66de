/** Shared vocabulary of the TrainFood backend and frontend model: optional
    values, JavaScript values as they arrive in request bodies, and the HTTP
    status codes the controllers answer with. */
module Common {

  datatype Option<T> = None | Some(value: T)

  type UserId = string
  type ProductId = string
  type OrderId = string

  // HTTP status codes used by the controllers and the middleware.
  const OK: int := 200
  const CREATED: int := 201
  const BAD_REQUEST: int := 400
  const UNAUTHORIZED: int := 401
  const FORBIDDEN: int := 403
  const NOT_FOUND: int := 404
  const SERVER_ERROR: int := 500

  /** A JavaScript number: a finite value, NaN or one of the two infinities. */
  datatype Num = Finite(r: real) | NaN | PosInf | NegInf

  /** A value of a parsed JSON request body or query.  Objects and arrays are
      collapsed into `Obj`, which keeps what `String(v)` gives for them: the
      joined elements for an array (`[250]` is "250"), "[object Object]" for a
      plain object.  `Number(v)` of an object goes through that string. */
  datatype JsValue = Undefined | Null | Bool(b: bool) | Number(n: Num) | Str(s: string) | Obj(asString: string)

  /** JavaScript truthiness (`!v` is true exactly when this is false): the
      falsy values are undefined, null, false, NaN, 0 and the empty string. */
  function Truthy(v: JsValue): (b: bool)
    ensures b <==> v !in {Undefined, Null, Bool(false), Number(NaN), Number(Finite(0.0)), Str("")}
  {
    match v
    case Undefined => false
    case Null => false
    case Bool(b) => b
    case Number(n) => !n.NaN? && n != Finite(0.0)
    case Str(s) => s != ""
    case Obj(_) => true
  }

  /** JavaScript `Number(v)`.  How a string is parsed is left to the
      `toNum` oracle; an object or array is parsed from its string form. */
  function ToNumber(v: JsValue, toNum: string -> Num): (r: Num)
    ensures v.Number? ==> r == v.n
    ensures v.Str? ==> r == toNum(v.s)
    ensures v.Obj? ==> r == toNum(v.asString)
    ensures v == Undefined ==> r == NaN
    ensures v in {Null, Bool(false)} ==> r == Finite(0.0)
    ensures v == Bool(true) ==> r == Finite(1.0)
    ensures !v.Str? && !v.Obj? && v != Undefined ==> (Truthy(v) <==> r !in {NaN, Finite(0.0)})
  {
    match v
    case Undefined => NaN
    case Null => Finite(0.0)
    case Bool(b) => if b then Finite(1.0) else Finite(0.0)
    case Number(n) => n
    case Str(s) => toNum(s)
    case Obj(t) => toNum(t)
  }

  /** JavaScript `Math.round` on a finite value: halves round up. */
  function Round(x: real): (r: int)
    ensures x - 1.0 / 2.0 < r as real <= x + 1.0 / 2.0
  {
    (x + 1.0 / 2.0).Floor
  }

  /** A string that JavaScript treats as true: `!s` is false. */
  predicate Present(s: Option<string>)
  {
    s.Some? && s.value != ""
  }
}
