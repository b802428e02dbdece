/** Construction of a retry decorator: the configuration record, the
    options that write into it, default filling, and the maximum-retries
    cap wrapped around the backoff generator. */
module RetryConfig {
  import opened Types
  import Backoff

  /** A logging sink; logging is observable only, so the sink is an identity. */
  datatype Logger = Discard | Sink(name: string)

  /** A backoff generator. The three library-backed generators produce a
      fresh backoff on every call; their delay arithmetic is not modelled,
      so the answers a fresh backoff gives are a parameter of `Generate`.
      `Capped` is the generator `NewRetryWrapper` builds around a configured
      one when a maximum number of retries is set. */
  datatype Generator =
    | Exponential
    | Constant
    | NoBackoff
    | Capped(inner: Generator, max: nat)

  /** The only retry policy there is; no option replaces it. */
  datatype RetryPolicy = DefaultRetryPolicy

  /** The answers of the backoff `g` produces for one call, given the answers
      `answers` of the library backoff underneath. */
  function Generate(g: Generator, answers: Backoff.Stream): (bo: Backoff.Stream)
    ensures g.Capped? ==> |bo| <= g.max
  {
    match g
    case Capped(inner, max) => Backoff.WithMaxRetries(Generate(inner, answers), max)
    case _ => answers
  }

  /** `RetryWrapperConfig`; `None` is Go's nil. */
  datatype RetryWrapperConfig = RetryWrapperConfig(
    logger: Option<Logger>,
    generateBackoff: Option<Generator>,
    policy: Option<RetryPolicy>,
    maxRetries: nat)

  /** The zero configuration a fresh `var cfg RetryWrapperConfig` holds. */
  const EmptyConfig := RetryWrapperConfig(None, None, None, 0)

  /** The options `WithLogger`, `WithBackoffGenerator` and `WithMaxRetries`. */
  datatype RetryWrapperOption =
    | WithLogger(logger: Option<Logger>)
    | WithBackoffGenerator(generator: Option<Generator>)
    | WithMaxRetries(retries: nat)

  /** `ConfigureRetryWrapper`: each option overwrites its own field. */
  function Configure(c: RetryWrapperConfig, opt: RetryWrapperOption): RetryWrapperConfig {
    match opt
    case WithLogger(l) => c.(logger := l)
    case WithBackoffGenerator(g) => c.(generateBackoff := g)
    case WithMaxRetries(n) => c.(maxRetries := n)
  }

  /** `RetryWrapperConfig.Option`: apply the options left to right, that is,
      all but the last one and then the last one. No option touches the
      policy. */
  function ApplyOptions(c: RetryWrapperConfig, opts: seq<RetryWrapperOption>): (r: RetryWrapperConfig)
    ensures r.policy == c.policy
    decreases |opts|
  {
    if |opts| == 0 then c
    else Configure(ApplyOptions(c, opts[..|opts| - 1]), opts[|opts| - 1])
  }

  /** Which field an option writes. */
  datatype Field = LoggerField | GeneratorField | MaxRetriesField

  function FieldOf(opt: RetryWrapperOption): Field {
    match opt
    case WithLogger(_) => LoggerField
    case WithBackoffGenerator(_) => GeneratorField
    case WithMaxRetries(_) => MaxRetriesField
  }

  /** `opts[i]` is the last option that writes field `f`. */
  predicate LastWriter(opts: seq<RetryWrapperOption>, f: Field, i: nat) {
    i < |opts| && FieldOf(opts[i]) == f && forall j :: i < j < |opts| ==> FieldOf(opts[j]) != f
  }

  /** No option writes field `f`. */
  predicate NoWriter(opts: seq<RetryWrapperOption>, f: Field) {
    forall i :: 0 <= i < |opts| ==> FieldOf(opts[i]) != f
  }

  /** Applying one more option: the field it writes takes its value, the
      other fields keep theirs. */
  lemma ApplyOneMore(c: RetryWrapperConfig, opts: seq<RetryWrapperOption>)
    requires |opts| > 0
    ensures var prev := ApplyOptions(c, opts[..|opts| - 1]);
      var last := opts[|opts| - 1];
      var r := ApplyOptions(c, opts);
      && r.logger == (if last.WithLogger? then last.logger else prev.logger)
      && r.generateBackoff == (if last.WithBackoffGenerator? then last.generator else prev.generateBackoff)
      && r.maxRetries == (if last.WithMaxRetries? then last.retries else prev.maxRetries)
  {
  }

  /** For every field the last option that writes it wins, and a field no
      option writes keeps its value. */
  lemma {:induction false} LastOptionWins(c: RetryWrapperConfig, opts: seq<RetryWrapperOption>)
    ensures NoWriter(opts, LoggerField) ==> ApplyOptions(c, opts).logger == c.logger
    ensures NoWriter(opts, GeneratorField) ==> ApplyOptions(c, opts).generateBackoff == c.generateBackoff
    ensures NoWriter(opts, MaxRetriesField) ==> ApplyOptions(c, opts).maxRetries == c.maxRetries
    ensures forall i: nat :: LastWriter(opts, LoggerField, i) ==> ApplyOptions(c, opts).logger == opts[i].logger
    ensures forall i: nat :: LastWriter(opts, GeneratorField, i) ==>
      ApplyOptions(c, opts).generateBackoff == opts[i].generator
    ensures forall i: nat :: LastWriter(opts, MaxRetriesField, i) ==> ApplyOptions(c, opts).maxRetries == opts[i].retries
    decreases |opts|
  {
    if |opts| > 0 {
      var n := |opts| - 1;
      var init := opts[..n];
      assert forall i :: 0 <= i < n ==> init[i] == opts[i];
      LastOptionWins(c, init);
      ApplyOneMore(c, opts);
      forall f | NoWriter(opts, f) ensures NoWriter(init, f) {
      }
      forall f, i: nat | LastWriter(opts, f, i) && i < n ensures LastWriter(init, f, i) {
      }
    }
  }

  /** `RetryWrapperConfig.Default`: fill the nil fields, leave the set ones. */
  function Default(c: RetryWrapperConfig): (r: RetryWrapperConfig)
    ensures r.logger.Some? && r.generateBackoff.Some? && r.policy.Some?
    ensures c.logger.Some? ==> r.logger == c.logger
    ensures c.generateBackoff.Some? ==> r.generateBackoff == c.generateBackoff
    ensures c.policy.Some? ==> r.policy == c.policy
    ensures c.logger.None? ==> r.logger == Some(Discard)
    ensures c.generateBackoff.None? ==> r.generateBackoff == Some(Exponential)
    ensures c.policy.None? ==> r.policy == Some(DefaultRetryPolicy)
    ensures r.maxRetries == c.maxRetries
  {
    RetryWrapperConfig(
      if c.logger.None? then Some(Discard) else c.logger,
      if c.generateBackoff.None? then Some(Exponential) else c.generateBackoff,
      if c.policy.None? then Some(DefaultRetryPolicy) else c.policy,
      c.maxRetries)
  }

  /** A constructed retry decorator: its configuration with every field set. */
  datatype RetryWrapper = RetryWrapper(
    logger: Logger,
    generateBackoff: Generator,
    policy: RetryPolicy,
    maxRetries: nat)

  /** `NewRetryWrapper`: options, then defaults, then the retry cap around
      the generator when a positive maximum is configured. A maximum of 0
      leaves the generator as configured. */
  function NewRetryWrapper(opts: seq<RetryWrapperOption>): (w: RetryWrapper)
    ensures var c := Default(ApplyOptions(EmptyConfig, opts));
      && w.logger == c.logger.value
      && w.policy == DefaultRetryPolicy
      && w.maxRetries == c.maxRetries
      && (w.maxRetries == 0 ==> w.generateBackoff == c.generateBackoff.value)
      && (w.maxRetries > 0 ==> w.generateBackoff == Capped(c.generateBackoff.value, w.maxRetries))
  {
    var c := Default(ApplyOptions(EmptyConfig, opts));
    var g := if c.maxRetries > 0 then Capped(c.generateBackoff.value, c.maxRetries) else c.generateBackoff.value;
    RetryWrapper(c.logger.value, g, c.policy.value, c.maxRetries)
  }

  /** Every call's backoff is built from that call's own fresh answers: with
      a positive maximum it answers `Stop` from round `maxRetries` on and
      otherwise agrees with the configured generator's backoff. */
  lemma CappedBackoff(opts: seq<RetryWrapperOption>, answers: Backoff.Stream, k: nat)
    ensures var w := NewRetryWrapper(opts);
      var base := Default(ApplyOptions(EmptyConfig, opts)).generateBackoff.value;
      Backoff.DecisionAt(Generate(w.generateBackoff, answers), k) ==
        (if 0 < w.maxRetries <= k then Backoff.Stop else Backoff.DecisionAt(Generate(base, answers), k))
  {
  }
}
