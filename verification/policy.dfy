/** The default retry policy: which transport failures and which
    status/method pairs the retry decorator treats as transient.
    The policy carries no state, so both queries are plain functions of
    their arguments. */
module Policy {
  import opened Types

  const StatusRequestTimeout := 408
  const StatusTooManyRequests := 429
  const StatusInternalServerError := 500
  const StatusBadGateway := 502
  const StatusServiceUnavailable := 503
  const StatusGatewayTimeout := 504

  const MethodPost := "POST"
  const MethodPatch := "PATCH"

  /** Statuses retried whatever the method. */
  const AlwaysRetryable: set<int> := {StatusRequestTimeout, StatusTooManyRequests, StatusServiceUnavailable}

  /** Statuses retried only for idempotent methods. */
  const IdempotentOnly: set<int> := {StatusInternalServerError, StatusBadGateway, StatusGatewayTimeout}

  /** The only method names the policy treats as non-idempotent. */
  const NonIdempotentMethods: set<string> := {MethodPost, MethodPatch}

  /** Failure-message fragments that mark a transient transport fault. */
  const RetryPatterns: seq<string> :=
    ["connection refused", "connection reset", "EOF", "PROTOCOL_ERROR", "REFUSED_STREAM"]

  /** `p` occurs in `s` at offset `j`, case-sensitively. */
  predicate OccursAt(p: string, s: string, j: nat) {
    j + |p| <= |s| && s[j..j + |p|] == p
  }

  /** `p` occurs in `s` as a contiguous piece. */
  ghost predicate IsSubstring(p: string, s: string) {
    exists j: nat :: OccursAt(p, s, j)
  }

  /** Scans `s` for `p` starting at offset `i`. */
  function ContainsFrom(s: string, p: string, i: nat): (r: bool)
    ensures r <==> exists j: nat :: i <= j && OccursAt(p, s, j)
    decreases |s| - i
  {
    if |s| - i < |p| then false
    else if OccursAt(p, s, i) then true
    else ContainsFrom(s, p, i + 1)
  }

  /** Go's `strings.Contains(s, p)`. */
  function Contains(s: string, p: string): (r: bool)
    ensures r <==> IsSubstring(p, s)
  {
    ContainsFrom(s, p, 0)
  }

  /** Whether `msg` contains any of `pats`, tried in order. */
  function AnyPatternIn(msg: string, pats: seq<string>): (r: bool)
    ensures r <==> exists k :: 0 <= k < |pats| && IsSubstring(pats[k], msg)
  {
    if |pats| == 0 then false
    else if Contains(msg, pats[0]) then true
    else AnyPatternIn(msg, pats[1..])
  }

  /** `msgInRetryPatterns`: the message contains one of the five retry patterns. */
  function MsgInRetryPatterns(msg: string): (r: bool)
    ensures r <==> exists p :: p in RetryPatterns && IsSubstring(p, msg)
  {
    AnyPatternIn(msg, RetryPatterns)
  }

  /** `DefaultRetryPolicy.IsErrorRetryable`: the absence of a failure is
      retryable; a failure is retryable exactly when its message holds a
      retry pattern. */
  function IsErrorRetryable(err: Option<TransportError>): (r: bool)
    ensures err.None? ==> r
    ensures err.Some? ==> (r <==> exists p :: p in RetryPatterns && IsSubstring(p, err.value.msg))
  {
    match err
    case None => true
    case Some(e) => MsgInRetryPatterns(e.msg)
  }

  /** `isMethodIdempotent`: every method name other than POST and PATCH,
      unknown names included, counts as idempotent; the comparison is exact,
      so a lower-case "post" is idempotent too. */
  function IsMethodIdempotent(methodName: string): (r: bool)
    ensures r <==> methodName !in NonIdempotentMethods
    ensures methodName == "post" ==> r
  {
    methodName != MethodPost && methodName != MethodPatch
  }

  /** `DefaultRetryPolicy.IsStatusRetryableForMethod`. */
  function IsStatusRetryableForMethod(methodName: string, code: int): (r: bool)
    ensures r <==> code in AlwaysRetryable || (code in IdempotentOnly && methodName !in NonIdempotentMethods)
  {
    if code == StatusRequestTimeout || code == StatusTooManyRequests || code == StatusServiceUnavailable then
      true
    else if code == StatusInternalServerError || code == StatusBadGateway || code == StatusGatewayTimeout then
      IsMethodIdempotent(methodName)
    else
      false
  }

  /** A pattern whose first character never occurs in `s` does not occur in `s`. */
  lemma AbsentFirstChar(p: string, s: string)
    requires |p| > 0 && p[0] !in s
    ensures !IsSubstring(p, s)
  {
  }

  /** The two messages the test suite probes: "connection refused" is
      recognised, "unknown error" is not. */
  lemma RetryPatternExamples()
    ensures MsgInRetryPatterns("connection refused")
    ensures !MsgInRetryPatterns("unknown error")
    ensures IsErrorRetryable(None)
    ensures IsErrorRetryable(Some(TransportError("connection refused", false)))
    ensures !IsErrorRetryable(Some(TransportError("unknown error", false)))
  {
    var hit := "connection refused";
    assert OccursAt(RetryPatterns[0], hit, 0);
    var miss := "unknown error";
    forall p | p in RetryPatterns
      ensures !IsSubstring(p, miss)
    {
      assert p[0] in {'c', 'E', 'P', 'R'};
      AbsentFirstChar(p, miss);
    }
  }

  /** Retrying a status for POST or PATCH implies retrying it for every
      method: the non-idempotent retry set is a subset of the idempotent one. */
  lemma NonIdempotentRetriesAreSubset(code: int, nonIdempotent: string, methodName: string)
    requires nonIdempotent in NonIdempotentMethods
    ensures IsStatusRetryableForMethod(nonIdempotent, code) ==> IsStatusRetryableForMethod(methodName, code)
    ensures IsStatusRetryableForMethod(nonIdempotent, code) <==> code in AlwaysRetryable
  {
  }

  /** The method matters only for 500, 502 and 504; 408, 429 and 503 are
      retried for any method string and every other status for none. */
  lemma MethodMattersOnlyForServerErrors(code: int, m1: string, m2: string)
    ensures code !in IdempotentOnly ==>
      IsStatusRetryableForMethod(m1, code) == IsStatusRetryableForMethod(m2, code)
    ensures code in AlwaysRetryable ==> IsStatusRetryableForMethod(m1, code)
    ensures code !in AlwaysRetryable && code !in IdempotentOnly ==> !IsStatusRetryableForMethod(m1, code)
  {
  }

  /** The status table exercised by the policy tests: method lists and
      status lists as the tests enumerate them. */
  const IdempotentMethods: seq<string> := ["CONNECT", "DELETE", "GET", "HEAD", "OPTIONS", "PUT", "TRACE"]
  const NonIdempotentMethodList: seq<string> := ["PATCH", "POST"]
  const NonRetryableCodes: seq<int> :=
    [100, 101, 200, 201, 202, 300, 307, 308, 400, 401, 403, 404, 405, 415, 501, 505, 506, 507, 508, 510, 511]

  lemma PolicyTable()
    ensures forall m, c :: m in IdempotentMethods && c in NonRetryableCodes ==> !IsStatusRetryableForMethod(m, c)
    ensures forall m, c :: m in NonIdempotentMethodList && c in NonRetryableCodes ==> !IsStatusRetryableForMethod(m, c)
    ensures forall m, c :: m in IdempotentMethods && c in AlwaysRetryable ==> IsStatusRetryableForMethod(m, c)
    ensures forall m, c :: m in NonIdempotentMethodList && c in AlwaysRetryable ==> IsStatusRetryableForMethod(m, c)
    ensures forall m, c :: m in IdempotentMethods && c in IdempotentOnly ==> IsStatusRetryableForMethod(m, c)
    ensures forall m, c :: m in NonIdempotentMethodList && c in IdempotentOnly ==> !IsStatusRetryableForMethod(m, c)
  {
  }
}
