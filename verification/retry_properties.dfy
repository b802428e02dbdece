/** What a round trip does, stated without the loop: how many sends it
    makes, what it sends and drains, and what it hands back, in terms of
    the server's outcomes, the backoff's answers and the context. */
module RetryProperties {
  import opened Types
  import opened Policy
  import opened Backoff
  import opened RetryConfig
  import opened Retry

  /** After send `j` the loop goes on to send `j + 1`: the outcome was
      temporary, the context was not done and the backoff answered `Next`. */
  predicate Continues(m: string, server: Server, bo: Stream, ctx: Context, j: nat) {
    Classify(m, server(j)).Retryable? && Proceeds(bo, ctx, j)
  }

  /** The events of send `j`: the drain of send `j - 1`'s response when it
      produced one, then the send itself. */
  function AttemptEvents(server: Server, body: RequestBody, j: nat): seq<Event> {
    (if j > 0 && server(j - 1).Responded? then [Drain(j - 1)] else []) + [Send(j, body)]
  }

  /** The events of the first `n` sends, in order. */
  function ExpectedTrace(server: Server, body: RequestBody, n: nat): seq<Event> {
    if n == 0 then [] else ExpectedTrace(server, body, n - 1) + AttemptEvents(server, body, n - 1)
  }

  /** The closure's state after `k` sends. */
  function StateAfter(server: Server, body: RequestBody, k: nat): Attempts {
    var live := if k > 0 && server(k - 1).Responded? then Some(Live(k - 1, server(k - 1).response)) else None;
    Attempts(live, ExpectedTrace(server, body, k), k)
  }

  /** The first round from `k` on at which the loop does not continue. */
  function StopRound(m: string, server: Server, bo: Stream, ctx: Context, k: nat): (n: nat)
    ensures k <= n
    ensures forall j :: k <= j < n ==> Continues(m, server, bo, ctx, j)
    ensures !Continues(m, server, bo, ctx, n)
    decreases |bo| - k
  {
    if Continues(m, server, bo, ctx, k) then StopRound(m, server, bo, ctx, k + 1) else k
  }

  /** The error the loop ends with when send `n` is the last one. */
  function LoopEnd(m: string, server: Server, ctx: Context, n: nat): Option<LoopError<LoopFailure>> {
    match Classify(m, server(n))
    case Done => None
    case Permanent(e) => Some(OpError(e))
    case Retryable(e) =>
      if CtxErrAt(ctx, n).Some? then Some(ContextError(CtxErrAt(ctx, n).value)) else Some(OpError(e))
  }

  /** The caller's `(res, err)` when `last` is the outcome of the last send
      and `ctxErr` the context's error at that round:
      - a response whose status is not retryable is returned as it is;
      - a non-retryable failure is reported as a permanent error, unless it
        wraps a deadline, which yields neither a response nor an error;
      - after a temporary outcome, a cancelled context is reported as a
        permanent error; a deadline or an exhausted backoff yields the last
        response (none after a failure) and no error. */
  function Settle(m: string, last: Outcome, ctxErr: Option<CtxErr>): (Option<Response>, Option<Error>) {
    match last
    case Responded(resp) =>
      if IsStatusRetryableForMethod(m, resp.status) && ctxErr == Some(Canceled) then
        (None, Some(PermanentEncountered(ContextCause(Canceled))))
      else
        (Some(resp), None)
    case Failed(t) =>
      if !IsErrorRetryable(Some(t)) then
        (None, if t.wrapsDeadline then None else Some(PermanentEncountered(TransportCause(t))))
      else if ctxErr == Some(Canceled) then
        (None, Some(PermanentEncountered(ContextCause(Canceled))))
      else
        (None, None)
  }

  /** One closure call moves the state from `k` sends to `k + 1`. */
  lemma StepAdvances(m: string, body: RequestBody, server: Server, k: nat)
    ensures Step(m, body, server, StateAfter(server, body, k)) ==
      (StateAfter(server, body, k + 1), Classify(m, server(k)))
  {
    var st := StateAfter(server, body, k);
    var drained := if st.live.Some? then [Drain(st.live.value.attempt)] else [];
    assert drained + [Send(k, body)] == AttemptEvents(server, body, k);
    assert st.trace + drained + [Send(k, body)] == ExpectedTrace(server, body, k + 1);
  }

  /** From `k` sends on, the loop ends after send `StopRound(k)` with the
      state of `StopRound(k) + 1` sends. */
  lemma {:induction false} LoopSettles(m: string, body: RequestBody, server: Server, bo: Stream, ctx: Context, k: nat)
    ensures var n := StopRound(m, server, bo, ctx, k);
      RetryFrom(Op(m, body, server), StateAfter(server, body, k), bo, ctx, k) ==
        (StateAfter(server, body, n + 1), LoopEnd(m, server, ctx, n))
    decreases |bo| - k
  {
    StepAdvances(m, body, server, k);
    if Continues(m, server, bo, ctx, k) {
      LoopSettles(m, body, server, bo, ctx, k + 1);
    }
  }

  /** The round trip, characterised: every send but the last was followed
      by a retry, the last was not, the trace is the sends with the drains
      between them, and the caller's pair is settled by the last outcome. */
  lemma RoundTripCharacterised(w: RetryWrapper, req: Request, server: Server, answers: Stream)
    requires CopyRequestBody(req.body).Success?
    ensures var r := RoundTrip(w, req, server, answers);
      var bo := Generate(w.generateBackoff, answers);
      var body := AttemptBody(req.body, CopyRequestBody(req.body).value);
      && r.attempts >= 1
      && (forall j :: 0 <= j < r.attempts - 1 ==> Continues(req.methodName, server, bo, req.ctx, j))
      && !Continues(req.methodName, server, bo, req.ctx, r.attempts - 1)
      && r.trace == ExpectedTrace(server, body, r.attempts)
      && (r.res, r.err) == Settle(req.methodName, server(r.attempts - 1), CtxErrAt(req.ctx, r.attempts - 1))
  {
    var bo := Generate(w.generateBackoff, answers);
    var body := AttemptBody(req.body, CopyRequestBody(req.body).value);
    LoopSettles(req.methodName, body, server, bo, req.ctx, 0);
  }

  /** Every send in the first `n` carries `body`, and sends 0 to n-1 all occur. */
  lemma {:induction false} TraceSends(server: Server, body: RequestBody, n: nat)
    ensures forall e :: e in ExpectedTrace(server, body, n) && e.Send? ==> e.body == body && e.attempt < n
    ensures forall j :: 0 <= j < n ==> Send(j, body) in ExpectedTrace(server, body, n)
  {
    if n > 0 {
      TraceSends(server, body, n - 1);
    }
  }

  /** A response is drained exactly when it came from a send other than the last. */
  lemma {:induction false} TraceDrains(server: Server, body: RequestBody, n: nat)
    ensures forall j: nat :: Drain(j) in ExpectedTrace(server, body, n) <==> j + 1 < n && server(j).Responded?
    ensures forall j: nat ::
      multiset(ExpectedTrace(server, body, n))[Drain(j)] == (if j + 1 < n && server(j).Responded? then 1 else 0)
  {
    if n > 0 {
      TraceDrains(server, body, n - 1);
      var t := ExpectedTrace(server, body, n - 1);
      var a := AttemptEvents(server, body, n - 1);
      assert multiset(t + a) == multiset(t) + multiset(a);
      forall j: nat ensures multiset(a)[Drain(j)] == (if j + 2 == n && server(j).Responded? then 1 else 0) {
        if n > 1 && server(n - 2).Responded? {
          assert a == [Drain(n - 2), Send(n - 1, body)];
        } else {
          assert a == [Send(n - 1, body)];
        }
      }
    }
  }

  /** Each drain is immediately followed by the next send, and the trace
      ends with the last send. */
  lemma {:induction false} DrainThenSend(server: Server, body: RequestBody, n: nat)
    ensures var t := ExpectedTrace(server, body, n);
      forall i :: 0 <= i < |t| && t[i].Drain? ==> i + 1 < |t| && t[i + 1] == Send(t[i].attempt + 1, body)
    ensures var t := ExpectedTrace(server, body, n);
      n > 0 ==> |t| > 0 && t[|t| - 1] == Send(n - 1, body)
  {
    if n > 0 {
      DrainThenSend(server, body, n - 1);
      var t := ExpectedTrace(server, body, n - 1);
      var a := AttemptEvents(server, body, n - 1);
      var u := t + a;
      assert u == ExpectedTrace(server, body, n);
      forall i | 0 <= i < |u| && u[i].Drain?
        ensures i + 1 < |u| && u[i + 1] == Send(u[i].attempt + 1, body)
      {
        if i < |t| {
          assert t[i] == u[i];
          assert u[i + 1] == t[i + 1];
        } else {
          assert a[i - |t|] == u[i];
          assert a == [Drain(n - 2), Send(n - 1, body)];
        }
      }
    }
  }

  /** Every send, the first included, carries a fresh reader over the same
      snapshot bytes; a nil or `NoBody` body is passed on unchanged. */
  lemma BodyReplayed(w: RetryWrapper, req: Request, server: Server, answers: Stream)
    requires CopyRequestBody(req.body).Success?
    ensures var r := RoundTrip(w, req, server, answers);
      var sent := if req.body.Stream? then Stream(req.body.data, None, None) else req.body;
      && (forall e :: e in r.trace && e.Send? ==> e.body == sent && e.attempt < r.attempts)
      && (forall j :: 0 <= j < r.attempts ==> Send(j, sent) in r.trace)
  {
    var r := RoundTrip(w, req, server, answers);
    RoundTripCharacterised(w, req, server, answers);
    TraceSends(server, AttemptBody(req.body, CopyRequestBody(req.body).value), r.attempts);
  }

  /** Each response superseded by a later send is drained once, right
      before that send; the response handed back is never drained. */
  lemma DrainDiscipline(w: RetryWrapper, req: Request, server: Server, answers: Stream)
    requires CopyRequestBody(req.body).Success?
    ensures var r := RoundTrip(w, req, server, answers);
      && (forall j: nat :: Drain(j) in r.trace <==> j + 1 < r.attempts && server(j).Responded?)
      && (forall j: nat :: multiset(r.trace)[Drain(j)] <= 1)
      && (forall i :: 0 <= i < |r.trace| && r.trace[i].Drain? ==>
            i + 1 < |r.trace| && r.trace[i + 1].Send? && r.trace[i + 1].attempt == r.trace[i].attempt + 1)
      && (r.res.Some? ==> server(r.attempts - 1) == Responded(r.res.value) && Drain(r.attempts - 1) !in r.trace)
  {
    var r := RoundTrip(w, req, server, answers);
    var body := AttemptBody(req.body, CopyRequestBody(req.body).value);
    RoundTripCharacterised(w, req, server, answers);
    TraceDrains(server, body, r.attempts);
    DrainThenSend(server, body, r.attempts);
  }

  /** A first response whose status does not permit a retry ends the round
      trip: it is returned as it is, with no error, after one send. */
  lemma NonRetryableStatusReturned(w: RetryWrapper, req: Request, server: Server, answers: Stream)
    requires CopyRequestBody(req.body).Success?
    requires server(0).Responded? && !IsStatusRetryableForMethod(req.methodName, server(0).response.status)
    ensures var r := RoundTrip(w, req, server, answers);
      r == Reply(Some(server(0).response), None,
                 [Send(0, AttemptBody(req.body, CopyRequestBody(req.body).value))], 1)
  {
    RoundTripCharacterised(w, req, server, answers);
  }

  /** A first failure that is not retryable ends the round trip after one
      send: no response, and a permanent error wrapping the failure unless
      the failure wraps a deadline, in which case no error either. */
  lemma NonRetryableFailureEnds(w: RetryWrapper, req: Request, server: Server, answers: Stream)
    requires CopyRequestBody(req.body).Success?
    requires server(0).Failed? && !IsErrorRetryable(Some(server(0).failure))
    ensures var r := RoundTrip(w, req, server, answers);
      && r.attempts == 1
      && r.res == None
      && r.err == (if server(0).failure.wrapsDeadline then None
                   else Some(PermanentEncountered(TransportCause(server(0).failure))))
  {
    RoundTripCharacterised(w, req, server, answers);
  }

  /** How the loop's end reaches the caller after a temporary last outcome:
      only a cancelled context becomes an error; a deadline or an exhausted
      backoff hands back the last send's response (none after a failure)
      with no error. */
  lemma TemporaryEndReported(w: RetryWrapper, req: Request, server: Server, answers: Stream)
    requires CopyRequestBody(req.body).Success?
    ensures var r := RoundTrip(w, req, server, answers);
      var last := server(r.attempts - 1);
      Classify(req.methodName, last).Retryable? ==>
        if CtxErrAt(req.ctx, r.attempts - 1) == Some(Canceled) then
          r.res == None && r.err == Some(PermanentEncountered(ContextCause(Canceled)))
        else
          r.err == None && r.res == (if last.Responded? then Some(last.response) else None)
  {
    RoundTripCharacterised(w, req, server, answers);
  }

  /** With a positive maximum, a round trip sends at most `maxRetries + 1` times. */
  lemma AttemptsBounded(opts: seq<RetryWrapperOption>, req: Request, server: Server, answers: Stream)
    requires NewRetryWrapper(opts).maxRetries > 0
    ensures RoundTrip(NewRetryWrapper(opts), req, server, answers).attempts <= NewRetryWrapper(opts).maxRetries + 1
  {
    var w := NewRetryWrapper(opts);
    var r := RoundTrip(w, req, server, answers);
    if CopyRequestBody(req.body).Success? {
      RoundTripCharacterised(w, req, server, answers);
      var bo := Generate(w.generateBackoff, answers);
      assert |bo| <= w.maxRetries;
      if r.attempts >= 2 {
        assert Continues(req.methodName, server, bo, req.ctx, r.attempts - 2);
      }
    }
  }

  /** With no delay between attempts and a cap of `n` retries, a server that
      keeps answering `status` sees `n + 1` sends when the status is
      retryable for the method and one send otherwise; either way the last
      response comes back with no error. */
  lemma ExactAttemptsUnderCap(n: nat, req: Request, status: int, payload: seq<byte>, answers: Stream)
    requires n > 0
    requires req.ctx == Background
    requires CopyRequestBody(req.body).Success?
    requires |answers| >= n && forall k :: 0 <= k < |answers| ==> answers[k] == Next
    ensures var w := NewRetryWrapper([WithBackoffGenerator(Some(NoBackoff)), RetryConfig.WithMaxRetries(n)]);
      var r := RoundTrip(w, req, (k: nat) => Responded(Response(status, payload)), answers);
      && r.attempts == (if IsStatusRetryableForMethod(req.methodName, status) then n + 1 else 1)
      && r.res == Some(Response(status, payload))
      && r.err == None
  {
    var opts := [WithBackoffGenerator(Some(NoBackoff)), RetryConfig.WithMaxRetries(n)];
    LastOptionWins(EmptyConfig, opts);
    assert LastWriter(opts, GeneratorField, 0);
    assert LastWriter(opts, MaxRetriesField, 1);
    var w := NewRetryWrapper(opts);
    assert w.generateBackoff == Capped(NoBackoff, n);
    var server: Server := (k: nat) => Responded(Response(status, payload));
    var r := RoundTrip(w, req, server, answers);
    var bo := Generate(w.generateBackoff, answers);
    RoundTripCharacterised(w, req, server, answers);
    // Round n is the first that does not continue: the cap answers Stop there.
    assert !Continues(req.methodName, server, bo, req.ctx, n);
  }

  /** A deadline that expires while a constant backoff keeps retrying 429
      responses ends the loop at that round and hands back the last 429
      response with no error. */
  lemma DeadlineReturnsLastResponse(k: nat, req: Request, answers: Stream)
    requires req.ctx == DoneAt(k, DeadlineExceeded)
    requires CopyRequestBody(req.body).Success?
    requires |answers| > k && forall j :: 0 <= j < |answers| ==> answers[j] == Next
    ensures var w := NewRetryWrapper([WithBackoffGenerator(Some(Constant))]);
      var r := RoundTrip(w, req, (j: nat) => Responded(Response(StatusTooManyRequests, [])), answers);
      && r.attempts == k + 1
      && r.res == Some(Response(StatusTooManyRequests, []))
      && r.err == None
  {
    var opts := [WithBackoffGenerator(Some(Constant))];
    LastOptionWins(EmptyConfig, opts);
    assert LastWriter(opts, GeneratorField, 0);
    assert NoWriter(opts, MaxRetriesField);
    var w := NewRetryWrapper(opts);
    assert w.generateBackoff == Constant;
    var server: Server := (j: nat) => Responded(Response(StatusTooManyRequests, []));
    var r := RoundTrip(w, req, server, answers);
    var bo := Generate(w.generateBackoff, answers);
    RoundTripCharacterised(w, req, server, answers);
    // Round k is the first that does not continue: the context is done there.
    assert !Continues(req.methodName, server, bo, req.ctx, k);
  }
}
