/** The retry decorator's round trip: snapshot the request body once, then
    run the backoff loop over a closure that replays the body, drains the
    response it supersedes, sends, and classifies the outcome; finally map
    the loop's error back to the `(response, error)` pair the caller sees.

    The inner transport is a scripted server: the outcome of the n-th send
    (counting from 0). The backoff is the answers of a fresh backoff for
    this one call. Everything observable about the call is recorded in a
    trace of sends and drains. */
module Retry {
  import opened Types
  import opened Policy
  import opened Backoff
  import opened RetryConfig

  /** Why the request body could not be snapshotted. */
  datatype BodyError = Reading(msg: string) | Closing(msg: string)

  /** What a `permanent error encountered` error wraps. */
  datatype Cause =
    | TransportCause(failure: TransportError)
    | ContextCause(ctxErr: CtxErr)
    | TemporaryCause

  /** The errors a round trip returns to its caller. */
  datatype Error =
    | CopyingBody(bodyError: BodyError)
    | PermanentEncountered(cause: Cause)

  /** What the inner transport does with one send. */
  datatype Outcome = Responded(response: Response) | Failed(failure: TransportError)

  /** The inner transport: the outcome of the n-th send. */
  type Server = nat -> Outcome

  /** Observable events of one round trip: a send carrying the body the
      transport reads, and the drain-and-close of an earlier send's response. */
  datatype Event = Send(attempt: nat, body: RequestBody) | Drain(attempt: nat)

  /** The response of send `attempt` that has not been drained yet. */
  datatype Live = Live(attempt: nat, response: Response)

  /** The state the closure keeps between calls: the live response (Go's
      `res`), the trace so far and the number of sends. */
  datatype Attempts = Attempts(live: Option<Live>, trace: seq<Event>, sent: nat)

  /** The result of a round trip: the caller's `(res, err)` pair plus the
      trace and the number of sends. */
  datatype Reply = Reply(res: Option<Response>, err: Option<Error>, trace: seq<Event>, attempts: nat)

  /** The closure's error values: `errTemporary`, or a non-retryable
      transport failure wrapped as permanent. */
  datatype LoopFailure = Temporary | Transport(failure: TransportError)

  /** `copyRequestBody`: no snapshot for a nil or `NoBody` body; otherwise
      read the body fully and close it, either step failing the copy. */
  function CopyRequestBody(body: RequestBody): (r: Result<Option<seq<byte>>, BodyError>)
    ensures (body.NilBody? || body.NoBody?) <==> r == Success(None)
    ensures r.Success? && r.value.Some? ==> body.Stream? && r.value.value == body.data
    ensures r.Failure? <==> body.Stream? && (body.readFailure.Some? || body.closeFailure.Some?)
    ensures body.Stream? && body.readFailure.Some? ==> r == Failure(Reading(body.readFailure.value))
    ensures body.Stream? && body.readFailure.None? && body.closeFailure.Some? ==>
      r == Failure(Closing(body.closeFailure.value))
  {
    match body
    case NilBody => Success(None)
    case NoBody => Success(None)
    case Stream(data, readFailure, closeFailure) =>
      if readFailure.Some? then Failure(Reading(readFailure.value))
      else if closeFailure.Some? then Failure(Closing(closeFailure.value))
      else Success(Some(data))
  }

  /** The body each send carries: a fresh, unconsumed reader over the
      snapshot when there is one, the caller's body untouched otherwise. */
  function AttemptBody(original: RequestBody, snapshot: Option<seq<byte>>): RequestBody {
    if snapshot.Some? then Stream(snapshot.value, None, None) else original
  }

  /** How the closure classifies one outcome for a request with method `m`. */
  function Classify(m: string, o: Outcome): Signal<LoopFailure> {
    match o
    case Failed(t) => if !IsErrorRetryable(Some(t)) then Permanent(Transport(t)) else Retryable(Temporary)
    case Responded(resp) => if !IsStatusRetryableForMethod(m, resp.status) then Done else Retryable(Temporary)
  }

  /** One call of the closure: drain the live response if any, send the
      replayed body, record the new response as live (none after a
      failure) and classify the outcome. */
  function Step(m: string, body: RequestBody, server: Server, st: Attempts): (Attempts, Signal<LoopFailure>) {
    var drained := if st.live.Some? then [Drain(st.live.value.attempt)] else [];
    var trace := st.trace + drained + [Send(st.sent, body)];
    var outcome := server(st.sent);
    var live := if outcome.Responded? then Some(Live(st.sent, outcome.response)) else None;
    (Attempts(live, trace, st.sent + 1), Classify(m, outcome))
  }

  /** The closure handed to the backoff loop. */
  function Op(m: string, body: RequestBody, server: Server): Attempts -> (Attempts, Signal<LoopFailure>) {
    (st: Attempts) => Step(m, body, server, st)
  }

  /** `errors.Is(err, errTemporary)`. */
  predicate IsTemporary(e: LoopError<LoopFailure>) {
    e.OpError? && e.err.Temporary?
  }

  /** `errors.Is(err, context.DeadlineExceeded)`. */
  predicate IsDeadline(e: LoopError<LoopFailure>) {
    match e
    case ContextError(c) => c == DeadlineExceeded
    case OpError(f) => f.Transport? && f.failure.wrapsDeadline
  }

  /** What a loop error wraps once it is reported. */
  function CauseOf(e: LoopError<LoopFailure>): Cause {
    match e
    case ContextError(c) => ContextCause(c)
    case OpError(Temporary) => TemporaryCause
    case OpError(Transport(t)) => TransportCause(t)
  }

  /** The caller's view of the loop's end: an error that is neither
      `errTemporary` nor a deadline becomes `(nil, permanent error)`;
      otherwise the last send's response (nil after a failure) with no error. */
  function Report(st: Attempts, err: Option<LoopError<LoopFailure>>): (Option<Response>, Option<Error>) {
    if err.Some? && !IsTemporary(err.value) && !IsDeadline(err.value) then
      (None, Some(PermanentEncountered(CauseOf(err.value))))
    else
      (if st.live.Some? then Some(st.live.value.response) else None, None)
  }

  /** `RetryWrapper.RoundTrip` for request `req`, inner transport `server` and
      `answers`, the answers of the backoff this call's generator produces. */
  function RoundTrip(w: RetryWrapper, req: Request, server: Server, answers: Stream): (r: Reply)
    ensures CopyRequestBody(req.body).Failure? ==>
      r == Reply(None, Some(CopyingBody(CopyRequestBody(req.body).error)), [], 0)
    ensures CopyRequestBody(req.body).Success? ==> r.attempts >= 1
    ensures r.err.Some? ==> r.res.None?
    ensures r.err.Some? && r.err.value.PermanentEncountered? ==>
      && r.err.value.cause != TemporaryCause
      && r.err.value.cause != ContextCause(DeadlineExceeded)
      && !(r.err.value.cause.TransportCause? && r.err.value.cause.failure.wrapsDeadline)
  {
    match CopyRequestBody(req.body)
    case Failure(e) => Reply(None, Some(CopyingBody(e)), [], 0)
    case Success(snapshot) =>
      var body := AttemptBody(req.body, snapshot);
      var bo := Generate(w.generateBackoff, answers);
      var (st, err) := Retry(Op(req.methodName, body, server), Attempts(None, [], 0), bo, req.ctx);
      SendsCounted(req.methodName, body, server, bo, req.ctx, 0, Attempts(None, [], 0));
      var (res, e) := Report(st, err);
      Reply(res, e, st.trace, st.sent)
  }

  /** Each closure call sends exactly once, so the loop's final state has
      sent at least once more than it started with. */
  lemma {:induction false} SendsCounted(m: string, body: RequestBody, server: Server, bo: Stream, ctx: Context,
                                         k: nat, st: Attempts)
    ensures RetryFrom(Op(m, body, server), st, bo, ctx, k).0.sent > st.sent
    decreases |bo| - k
  {
    var (st', signal) := Op(m, body, server)(st);
    if signal.Retryable? && CtxErrAt(ctx, k).None? && DecisionAt(bo, k) == Next {
      SendsCounted(m, body, server, bo, ctx, k + 1, st');
    }
  }
}
