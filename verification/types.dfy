/** Shared vocabulary of the HTTP retry decorator: optional values, results,
    bytes, request and response values, and the request context. */
module Types {

  /** Go's nil-able references: `None` plays the part of nil. */
  datatype Option<+T> = None | Some(value: T)

  /** A value or an error, for Go's `(value, error)` returns. */
  datatype Result<+R, +E> = Success(value: R) | Failure(error: E)

  newtype byte = x: int | 0 <= x < 256

  /** The cancellation state a request's context reaches. */
  datatype CtxErr = Canceled | DeadlineExceeded

  /** A request-scoped context. `DoneAt(round, err)` says that the context is
      first seen done during retry round `round`: either when the backoff is
      asked for its next delay after attempt `round`, or while waiting that
      delay. Both moments end the retry loop the same way. */
  datatype Context = Background | DoneAt(round: nat, err: CtxErr)

  /** The context error visible at retry round `k`, if any. */
  function CtxErrAt(ctx: Context, k: nat): (r: Option<CtxErr>)
    ensures r.Some? <==> ctx.DoneAt? && ctx.round <= k
    ensures r.Some? ==> r.value == ctx.err
  {
    match ctx
    case Background => None
    case DoneAt(round, err) => if round <= k then Some(err) else None
  }

  /** A request body as the caller hands it over: absent (nil), the explicit
      empty body `http.NoBody`, or a stream whose reading and closing may fail. */
  datatype RequestBody =
    | NilBody
    | NoBody
    | Stream(data: seq<byte>, readFailure: Option<string>, closeFailure: Option<string>)

  /** An outgoing request: method name, target, body and context. */
  datatype Request = Request(methodName: string, url: string, body: RequestBody, ctx: Context)

  /** A response received from the inner transport. */
  datatype Response = Response(status: int, body: seq<byte>)

  /** A transport-level failure: its message, and whether it is (or wraps)
      `context.DeadlineExceeded` in the sense of `errors.Is`. */
  datatype TransportError = TransportError(msg: string, wrapsDeadline: bool)
}
