/** What the Express layer hands to the controllers and middlewares: JSON values of a request
    body, the `(status, message)` pair that `sendError` turns into a response, the decoded
    JWT payload, and the request object whose fields the middlewares write. */
module Http {
  import opened Wrappers

  /** A JSON value of a request body as the controllers see it. A string carries the value
      `Number()` converts it to (None for NaN), since that conversion is the runtime's own. */
  datatype Raw = Null | Num(x: real) | Str(text: string, asNumber: Option<real>) | Bool(b: bool) | Obj

  /** JavaScript truthiness of a JSON value. */
  predicate Truthy(v: Raw) {
    match v
    case Null => false
    case Num(x) => x != 0.0
    case Str(t, _) => t != ""
    case Bool(b) => b
    case Obj => true
  }

  /** `Number(v)`; None stands for NaN. */
  function ToNumber(v: Raw): Option<real> {
    match v
    case Null => Some(0.0)
    case Num(x) => Some(x)
    case Str(_, n) => n
    case Bool(b) => Some(if b then 1.0 else 0.0)
    case Obj => None
  }

  /** A string-valued request field is given when it is present and not the empty string
      (`!value` is false). */
  predicate Given(v: Option<string>) {
    v.Some? && v.value != ""
  }

  /** The response `sendError(res, message, status)` produces. */
  datatype ErrorResponse = ErrorResponse(status: int, message: string)

  /** What a middleware does: pass control on with `next()`, or answer with an error. */
  datatype MiddlewareOutcome = Next | Respond(error: ErrorResponse)

  /** The fields of a decoded JWT payload the middlewares read. */
  datatype Claims = Claims(userId: Option<int>, id: Option<int>, role: Option<string>)

  /** The parts of an Express request the modelled code reads or writes. */
  class Request {
    var authorization: Option<string>
    var body: map<string, Raw>
    var user: Option<Claims>
    var userId: Option<int>
    var userRole: Option<string>
  }
}
