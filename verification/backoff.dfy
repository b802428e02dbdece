/** The retry loop and backoff combinators the decorator borrows from the
    backoff library (`backoff.Retry`, `backoff.WithContext`,
    `backoff.WithMaxRetries`). Their code is not part of this model; what is
    written here is the behaviour the decorator relies on, stated as
    definitions:

    - `Retry` calls the operation; success ends the loop with no error; a
      permanent error ends it with the wrapped error; any other error asks
      the backoff for its next delay. On `Stop` it returns the context's error
      when the context is done, otherwise the operation's last error. While
      waiting, a context that becomes done ends the loop with its error.
    - `WithContext` answers `Stop` once the context is done, before asking the
      backoff it wraps.
    - `WithMaxRetries(b, n)` answers `Stop` from its (n+1)-th question on and
      passes the first n questions to `b`.

    Delays themselves are not modelled: a backoff is the sequence of its
    answers, one per question, and once the sequence is exhausted it answers
    `Stop`. */
module Backoff {
  import opened Types

  /** One answer of `NextBackOff`: wait and retry, or give up. */
  datatype Decision = Next | Stop

  /** A fresh backoff's answers, in the order they are asked for. */
  type Stream = seq<Decision>

  /** The answer to the (k+1)-th question. */
  function DecisionAt(bo: Stream, k: nat): (d: Decision)
    ensures k >= |bo| ==> d == Stop
  {
    if k < |bo| then bo[k] else Stop
  }

  /** `backoff.WithMaxRetries(bo, max)`: the first `max` answers come from
      `bo`, every later one is `Stop`. */
  function WithMaxRetries(bo: Stream, max: nat): (r: Stream)
    ensures |r| <= max
    ensures forall k: nat :: DecisionAt(r, k) == (if k < max then DecisionAt(bo, k) else Stop)
  {
    if max < |bo| then bo[..max] else bo
  }

  /** What an operation tells the loop after one call. */
  datatype Signal<+E> = Done | Permanent(err: E) | Retryable(err: E)

  /** The error the loop ends with: the operation's or the context's. */
  datatype LoopError<+E> = OpError(err: E) | ContextError(ctx: CtxErr)

  /** Whether round `k` (the question after the (k+1)-th call) lets the loop
      call the operation again: the context is not done and the backoff
      answers `Next`. */
  predicate Proceeds(bo: Stream, ctx: Context, k: nat) {
    CtxErrAt(ctx, k).None? && DecisionAt(bo, k) == Next
  }

  /** `backoff.Retry(op, backoff.WithContext(bo, ctx))`, from round `k` on,
      with the operation's private state `s` threaded through. */
  function RetryFrom<S, E>(op: S -> (S, Signal<E>), s: S, bo: Stream, ctx: Context, k: nat): (S, Option<LoopError<E>>)
    decreases |bo| - k
  {
    var (s', signal) := op(s);
    match signal
    case Done => (s', None)
    case Permanent(e) => (s', Some(OpError(e)))
    case Retryable(e) =>
      if CtxErrAt(ctx, k).Some? then (s', Some(ContextError(CtxErrAt(ctx, k).value)))
      else if DecisionAt(bo, k) == Stop then (s', Some(OpError(e)))
      else RetryFrom(op, s', bo, ctx, k + 1)
  }

  /** The whole loop, from the first call. */
  function Retry<S, E>(op: S -> (S, Signal<E>), s: S, bo: Stream, ctx: Context): (S, Option<LoopError<E>>) {
    RetryFrom(op, s, bo, ctx, 0)
  }
}
