/**
 * The pieces of Express and JavaScript the middleware and controllers share:
 * thrown errors, the three ways a handler can finish, and request-body values.
 */
module Http {
  import opened Wrappers

  /** Milliseconds since the epoch, as `Date.now()` returns. */
  type Time = int

  /** A store-assigned document id (a Mongo ObjectId in its string form). */
  type Id = string

  /** A thrown error as the error middleware reads it: `err.statusCode` and
      `err.message`, either of which may be missing. */
  datatype Error = Error(statusCode: Option<int>, message: Option<string>)

  /** How a handler finishes: it writes a response (`res.status(s).json(b)`),
      calls `next()`, or calls `next(err)`. Each path does exactly one. */
  datatype Outcome<+B> = Respond(status: int, body: B) | Next | NextError(err: Error)

  /** A value in a parsed JSON request body; `DateVal` is a JavaScript `Date`
      that a handler stores into the body itself. */
  datatype Value = Str(s: string) | Num(n: int) | Bool(b: bool) | Arr(items: seq<Value>) | DateVal(t: Time) | Null

  /** `req.body`: a field is in the map exactly when it is defined. */
  type Body = map<string, Value>

  /** JavaScript truthiness of a possibly missing string: defined and not `''`. */
  predicate Truthy(o: Option<string>)
  {
    o.Some? && o.value != ""
  }
}
