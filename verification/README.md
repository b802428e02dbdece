# HTTP retry decorator — a Dafny model

This project models the core of a Go HTTP client library. The library wraps an
`http.RoundTripper` with retry-with-backoff behaviour. The model covers:

- **The default retry policy** (`Policy`). It decides which transport failures
  are transient: a case-sensitive substring match against five fixed patterns.
  It also decides which status/method pairs may be retried. 408, 429 and 503
  are always retryable. 500, 502 and 504 are retryable for every method except
  POST and PATCH. Nothing else is retryable.
- **The backoff loop the decorator relies on** (`Backoff`). `backoff.Retry`,
  `backoff.WithContext` and `backoff.WithMaxRetries` belong to a third-party
  library whose code is not part of this model. Their behaviour is written as
  definitions, and the module comment states it as an explicit assumption:
  - the operation is called, and success ends the loop;
  - a permanent error ends the loop with the error it wraps;
  - any other error asks the backoff for its next answer;
  - on `Stop`, the loop returns the context's error if the context is done,
    and the operation's last error otherwise;
  - a context that becomes done while waiting ends the loop with its error.

  A backoff is modelled as the finite sequence of answers it gives. Once the
  sequence runs out, it answers `Stop`.
- **The round trip** (`Retry`, with the loop-free statements in
  `RetryProperties`). First the request body is snapshotted once. Then the
  backoff loop runs a closure. On each call, the closure:
  - replays the snapshot as a fresh body;
  - drains the response it supersedes;
  - sends the request and classifies the outcome as done, permanent or
    temporary.

  At the end, the loop's error is mapped to the caller's `(response, error)`
  pair. The inner transport is a scripted server: a function from the send
  number to its outcome. Each call takes the answers of its own fresh backoff.
  A context is either never done, or first seen done at a given retry round.
  A round trip returns the caller's pair together with a trace of `Send` and
  `Drain` events.
- **Configuration** (`RetryConfig`, `Client`). Options are applied left to
  right and defaults then fill only the nil fields. `NewRetryWrapper` also
  wraps the configured generator in a retry cap when `maxRetries > 0`. For the
  client, this covers transport/wrapper options, `Default`, `Wrap`,
  `NewClient` and the verb helpers.

The model follows the code as written, including these behaviours:

- `ClientConfig.Wrap` calls every wrapper's `Wrap` on the base transport and
  drops each result. The client therefore keeps the bare base transport, and
  wrappers are never chained (`Client.WrapperResultsDropped`).
- `Post`, `Put`, `Patch` and `Connect` always send a nil body
  (`Client.BodyIgnored`).
- Suppose backoff stops, or the deadline passes, after a *retryable transport
  failure*. The round trip then returns no response and no error.
- A cancelled context is reported as no response and a `permanent error
  encountered`. An expired deadline is never reported: the most recent
  response comes back with no error, as retry_test.go:101-140 expects.
- A non-retryable transport failure that wraps `context.DeadlineExceeded`
  also yields no response and no error.

The policy is a stateless empty struct. Both of its queries are therefore
plain functions of their arguments.

## Model

| member | source | states |
|---|---|---|
| `Policy.IsErrorRetryable` | policy.go:33-44 | A nil error counts as retryable. A failure is retryable exactly when some retry pattern occurs in its message. |
| `Policy.MsgInRetryPatterns` | policy.go:61-79 | True exactly when one of "connection refused", "connection reset", "EOF", "PROTOCOL_ERROR" or "REFUSED_STREAM" occurs, case-sensitively, in the message. |
| `Policy.Contains` | policy.go:71 | `strings.Contains`: true exactly when the pattern occurs as a contiguous piece of the message. |
| `Policy.AnyPatternIn` | policy.go:70-78 | The loop over the patterns: true exactly when some pattern in the list occurs in the message. |
| `Policy.RetryPatternExamples` | retry_test.go:213-276 | "connection refused" is recognised and "unknown error" is not. A nil failure is retryable. |
| `Policy.IsMethodIdempotent` | policy.go:81-88 | Every method name except exactly POST and PATCH is idempotent; the match is case-sensitive, so "post" counts as idempotent. |
| `Policy.IsStatusRetryableForMethod` | policy.go:46-59 | Retryable exactly when the status is 408, 429 or 503, or when it is 500, 502 or 504 and the method is neither POST nor PATCH. |
| `Policy.NonIdempotentRetriesAreSubset` | policy.go:46-59 | Whatever POST or PATCH retries, every method retries. For POST and PATCH, exactly the always-retryable statuses are retried. |
| `Policy.MethodMattersOnlyForServerErrors` | policy.go:47-58 | The method changes nothing outside 500/502/504. 408/429/503 are retried for any string, and every other status for none. |
| `Policy.PolicyTable` | policy_test.go:37-99 | Agrees with the test table for the idempotent and non-idempotent method lists × the non-retryable, always-retryable and idempotent-only status lists. |
| `Backoff.WithMaxRetries` | retry.go:24-30 | The capped backoff answers like the wrapped one for the first `max` questions and `Stop` from then on. |
| `RetryConfig.Generate` | retry.go:27-29 | A capped generator's backoff gives at most `max` answers before `Stop`. |
| `RetryConfig.ApplyOptions` | retry.go:152-156 | Applying options never changes the policy field. |
| `RetryConfig.ApplyOneMore` | retry.go:176-192 | Each option writes its own field and leaves the other fields alone. |
| `RetryConfig.LastOptionWins` | retry.go:152-156 | For the logger, the generator and the maximum retries, the last option that writes the field wins. A field no option writes keeps its value. |
| `RetryConfig.Default` | retry.go:158-170 | Only nil fields are filled, with the discard logger, the exponential generator and the default policy. Set fields and the maximum are kept. |
| `RetryConfig.NewRetryWrapper` | retry.go:17-35 | Options come before defaults. A positive maximum wraps the configured generator in a cap of that size, and a maximum of 0 leaves it uncapped. |
| `RetryConfig.CappedBackoff` | retry.go:24-30 | Each call's backoff answers `Stop` from round `maxRetries` on. Otherwise it agrees with the configured generator's backoff for that call. |
| `Retry.CopyRequestBody` | retry.go:118-133 | A nil or `NoBody` body gives no snapshot. Otherwise the snapshot is the body's bytes. A read failure gives a `reading request body` error; a close failure after a good read gives a `closing request body` error. |
| `Retry.RoundTrip` | retry.go:48-116 | A copy failure returns no response, a `copying request body` error, and no send. Otherwise at least one send is made. An error never comes with a response, and it never wraps `errTemporary` or a deadline. |
| `RetryProperties.StopRound` | retry.go:107-109 | The first round from `k` on at which the loop does not go on: every earlier round goes on and this one does not. |
| `RetryProperties.LoopSettles` | retry.go:107-109 | From any send count, the loop ends right after the first round that does not go on, in the state of that many sends. |
| `RetryProperties.RoundTripCharacterised` | retry.go:48-116 | Every send but the last was temporary and followed by a `Next` with a live context; the last was not. The trace is the sends with drains between them. The caller's pair is decided by the last outcome and the context. |
| `RetryProperties.TraceSends` | retry.go:72-74 | Every send in the trace carries the same body, and sends 0 to n-1 all occur. |
| `RetryProperties.TraceDrains` | retry.go:76-79 | A send's response is drained, exactly once, when a later send follows it. |
| `RetryProperties.DrainThenSend` | retry.go:76-82 | Each drain is immediately followed by the next send, and the trace ends with the last send. |
| `RetryProperties.BodyReplayed` | retry.go:72-74 | Every send, the first included, carries a fresh reader over the snapshot bytes. A nil or `NoBody` body is passed on unchanged. |
| `RetryProperties.DrainDiscipline` | retry.go:76-79 | Superseded responses are drained once each, right before the next send. The response handed back comes from the last send and is never drained. |
| `RetryProperties.NonRetryableStatusReturned` | retry.go:96-99 | A first response with a non-retryable status is returned as it is, with no error, after exactly one send. |
| `RetryProperties.NonRetryableFailureEnds` | retry.go:83-87 | A non-retryable first failure ends the loop after one send. The result is a permanent error wrapping it, or no error when it wraps a deadline, and never a response. |
| `RetryProperties.TemporaryEndReported` | retry.go:109-115 | After a temporary last outcome, only a cancelled context becomes an error. Otherwise the last response (none after a failure) is returned with no error. |
| `RetryProperties.AttemptsBounded` | retry.go:24-30 | With a positive maximum, at most `maxRetries + 1` sends are made. |
| `RetryProperties.ExactAttemptsUnderCap` | policy_test.go:101-141 | With no delay and a cap of `n`, a server that keeps answering one status gets `n + 1` sends if the status is retryable and one send otherwise. The response comes back with no error. |
| `RetryProperties.DeadlineReturnsLastResponse` | retry_test.go:101-140 | If the deadline expires at round `k` while 429s keep coming, there are `k + 1` sends. The last 429 is returned with no error. |
| `Client.OptionsFold` | client.go:101-105 | Wrappers keep the order of their options. The last `WithTransport` wins, and without one the transport is untouched. |
| `Client.WrappersOfAppend` | client.go:141-143 | One more option adds its wrapper at the end, if it has one. |
| `Client.Default` | client.go:107-111 | The default transport replaces only a nil transport. A configured transport and the wrappers are kept. |
| `Client.WrapCalls` | client.go:116-118 | One `Wrap` call per wrapper, in list order, each with the base transport. |
| `Client.Wrap` | client.go:113-121 | The client's transport is the configured transport, and the wrap calls are those of `WrapCalls`. |
| `Client.WrapperResultsDropped` | client.go:113-121 | With at least one wrapper and a set base transport (any base, itself a wrapped one included), the installed transport is the base one, never the chain the wrappers would build. |
| `Client.NewClient` | client.go:17-31 | Options, then defaults, then wrapping. The transport is set, and the wrappers are the `WithWrapper` options in order. |
| `Client.MethodsDistinct` | client.go:38-81 | Each verb helper sends its own method name. |
| `Client.RequestWithBody` | client.go:87-94 | A construction error is returned and nothing is dispatched. Otherwise the request with the given method, URL, body and context goes to the client. |
| `Client.Issue` | client.go:38-85 | A construction error is returned as it is and nothing is dispatched. Otherwise the helper hands the client's `http.Client` a request with its verb's method, the given URL, the caller's context and a nil body. |
| `Client.BodyIgnored` | client.go:48-71 | What Post, Put, Patch or Connect sends does not depend on the body argument. |

## Left out

- Delays are not modelled. The generators' arithmetic (initial interval, float multiplier, jitter, maximum elapsed time, clock, reset) lives in the backoff library and in backoff.go. A backoff is only the sequence of its `Next`/`Stop` answers, and each round trip takes its own.
- Runs that never end are not modelled, because backoff answers are finite. An example is a zero-delay backoff with no cap against a server that always answers 503.
- The bodies of `backoff.Retry`, `backoff.WithContext` and `backoff.WithMaxRetries` are not verified. Their behaviour is stated as the definitions in `Backoff`.
- Logging (`logr`) is observability only. This includes the `retries` counter, which only feeds a log line.
- A failure while draining a response is only logged by the code. The model records a drain as an event and nothing more.
- `RetryWrapper.Wrap` (storing the inner transport) is not modelled. The inner transport is the `server` parameter of `Retry.RoundTrip`.
- An inner transport that returns both a response and an error is not modelled; Go's transport contract rules it out.
- `http.NewRequestWithContext` and `http.Client.Do` are not modelled. A construction error is a parameter, and a dispatched request is where the model stops.
- auth.go passes through to the OAuth2 transport and has no logic of its own. internal/testutils/testutils.go holds mocks and a test server.
- Concurrency is not modelled. Per-call backoff freshness appears as each round trip taking its own backoff answers.
- `RetryConfig.NewRetryWrapper`: `maxRetries` is a Go `uint64` but is modelled as `nat`. The code does no arithmetic on it, so no wrap-around is lost.
- `Retry.RoundTrip`: the `RetryPolicy` interface is not modelled. Only the default policy is, since no option installs another one.
- The caller's request is not mutated in the model. `RoundTrip` overwrites `req.Body` before every send (retry.go:72-74) and `copyRequestBody` closes the original body (retry.go:128); `Types.Request` is an immutable value, so neither effect is visible. The body each send carries is recorded in its `Send` event instead.
- Client.WrapperResultsDropped: requires a set base transport. The Go wrappers return themselves even around a nil transport, while the reference `Chain` gives none; after `Default` the transport is always set, so every client `NewClient` builds is covered.
