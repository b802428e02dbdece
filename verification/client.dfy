/** The convenience client: configuration by options, default transport,
    installation of transport wrappers, and the per-verb request helpers.

    As the code is written, the client's transport is the configured base
    transport: each wrapper's `Wrap` is called with that base transport and
    what it returns is dropped. And the verb helpers that take a body
    (Post, Put, Patch, Connect) send no body at all. */
module Client {
  import opened Types

  /** Transport decorators, identified by name. */
  datatype TransportWrapper = TransportWrapper(name: string)

  /** A transport: the library default, one supplied by the caller, or one
      that a wrapper's `Wrap` built around another. */
  datatype RoundTripper =
    | DefaultTransport
    | Custom(name: string)
    | Wrapped(wrapper: TransportWrapper, inner: RoundTripper)

  /** The chaining one would expect from `TransportWrapper.Wrap`: a transport
      delegating to `rt`. Only the reference for `Chain`; with no inner
      transport it gives none. */
  function WrapWith(w: TransportWrapper, rt: Option<RoundTripper>): Option<RoundTripper> {
    if rt.Some? then Some(Wrapped(w, rt.value)) else None
  }

  /** `ClientConfig`; `None` is Go's nil. */
  datatype ClientConfig = ClientConfig(transport: Option<RoundTripper>, wrappers: seq<TransportWrapper>)

  const EmptyClientConfig := ClientConfig(None, [])

  /** The options `WithTransport` and `WithWrapper`. */
  datatype ClientOption =
    | WithTransport(roundTripper: Option<RoundTripper>)
    | WithWrapper(wrapper: TransportWrapper)

  /** `ConfigureClient`: `WithTransport` replaces the transport,
      `WithWrapper` appends its wrapper. */
  function Configure(c: ClientConfig, opt: ClientOption): ClientConfig {
    match opt
    case WithTransport(rt) => c.(transport := rt)
    case WithWrapper(w) => c.(wrappers := c.wrappers + [w])
  }

  /** `ClientConfig.Option`: the options applied left to right. */
  function ApplyOptions(c: ClientConfig, opts: seq<ClientOption>): ClientConfig
    decreases |opts|
  {
    if |opts| == 0 then c
    else Configure(ApplyOptions(c, opts[..|opts| - 1]), opts[|opts| - 1])
  }

  /** The wrappers named by `WithWrapper` options, in the order given. */
  function WrappersOf(opts: seq<ClientOption>): seq<TransportWrapper> {
    if |opts| == 0 then []
    else (if opts[0].WithWrapper? then [opts[0].wrapper] else []) + WrappersOf(opts[1..])
  }

  lemma {:induction false} WrappersOfAppend(opts: seq<ClientOption>, opt: ClientOption)
    ensures WrappersOf(opts + [opt]) == WrappersOf(opts) + (if opt.WithWrapper? then [opt.wrapper] else [])
    decreases |opts|
  {
    if |opts| > 0 {
      assert (opts + [opt])[1..] == opts[1..] + [opt];
      WrappersOfAppend(opts[1..], opt);
    } else {
      assert opts + [opt] == [opt];
    }
  }

  /** `opts[i]` is the last `WithTransport` option. */
  predicate LastTransportOption(opts: seq<ClientOption>, i: nat) {
    i < |opts| && opts[i].WithTransport? && forall j :: i < j < |opts| ==> !opts[j].WithTransport?
  }

  /** The options keep the given wrappers in order, appended to the ones
      already configured; the last `WithTransport` wins, and without one the
      transport is untouched. */
  lemma {:induction false} OptionsFold(c: ClientConfig, opts: seq<ClientOption>)
    ensures ApplyOptions(c, opts).wrappers == c.wrappers + WrappersOf(opts)
    ensures (forall i :: 0 <= i < |opts| ==> !opts[i].WithTransport?) ==> ApplyOptions(c, opts).transport == c.transport
    ensures forall i: nat :: LastTransportOption(opts, i) ==> ApplyOptions(c, opts).transport == opts[i].roundTripper
    decreases |opts|
  {
    if |opts| > 0 {
      var n := |opts| - 1;
      var init := opts[..n];
      assert opts == init + [opts[n]];
      assert forall i :: 0 <= i < n ==> init[i] == opts[i];
      OptionsFold(c, init);
      WrappersOfAppend(init, opts[n]);
      forall i: nat | LastTransportOption(opts, i) && i < n ensures LastTransportOption(init, i) {
      }
    }
  }

  /** `ClientConfig.Default`: the default transport only in place of nil. */
  function Default(c: ClientConfig): (r: ClientConfig)
    ensures r.wrappers == c.wrappers
    ensures r.transport.Some?
    ensures c.transport.Some? ==> r.transport == c.transport
    ensures c.transport.None? ==> r.transport == Some(DefaultTransport)
  {
    if c.transport.None? then c.(transport := Some(DefaultTransport)) else c
  }

  /** One call `w.Wrap(rt)` made while installing the wrappers. */
  datatype WrapCall = WrapCall(wrapper: TransportWrapper, argument: Option<RoundTripper>)

  /** The `Wrap` calls made for `ws`, each with the base transport `tp`. */
  function WrapCalls(tp: Option<RoundTripper>, ws: seq<TransportWrapper>): (calls: seq<WrapCall>)
    ensures |calls| == |ws|
    ensures forall i :: 0 <= i < |ws| ==> calls[i] == WrapCall(ws[i], tp)
  {
    if |ws| == 0 then [] else [WrapCall(ws[0], tp)] + WrapCalls(tp, ws[1..])
  }

  /** What one might expect wrapping to produce: each wrapper around the
      transport built so far, the first one innermost. */
  function Chain(tp: Option<RoundTripper>, ws: seq<TransportWrapper>): Option<RoundTripper>
    decreases |ws|
  {
    if |ws| == 0 then tp else Chain(WrapWith(ws[0], tp), ws[1..])
  }

  /** `http.Client` as far as the wrapping goes: its transport and the `Wrap`
      calls made while building it. */
  datatype HttpClient = HttpClient(transport: Option<RoundTripper>, wrapCalls: seq<WrapCall>)

  /** `ClientConfig.Wrap`: call every wrapper's `Wrap` on the base transport,
      in list order, drop the results, and install the base transport. */
  function Wrap(c: ClientConfig): (h: HttpClient)
    ensures h.transport == c.transport
    ensures h.wrapCalls == WrapCalls(c.transport, c.wrappers)
  {
    HttpClient(c.transport, WrapCalls(c.transport, c.wrappers))
  }

  /** Wrapping at least once builds a transport strictly around `tp`. */
  lemma {:induction false} ChainWraps(tp: RoundTripper, ws: seq<TransportWrapper>)
    requires |ws| > 0
    ensures Chain(Some(tp), ws).Some? && tp < Chain(Some(tp), ws).value
    decreases |ws|
  {
    if |ws| > 1 {
      ChainWraps(Wrapped(ws[0], tp), ws[1..]);
    }
  }

  /** Wrapping leaves the client on the bare base transport: with at least
      one wrapper configured, the installed transport is never the chained
      one the wrappers built. */
  lemma WrapperResultsDropped(c: ClientConfig)
    requires c.transport.Some? && |c.wrappers| > 0
    ensures Wrap(c).transport == c.transport
    ensures Wrap(c).transport != Chain(c.transport, c.wrappers)
  {
    ChainWraps(c.transport.value, c.wrappers);
  }

  /** A client built by `NewClient`. */
  datatype Client = Client(cfg: ClientConfig, http: HttpClient)

  /** `NewClient`: options, then defaults, then wrapping. */
  function NewClient(opts: seq<ClientOption>): (cl: Client)
    ensures cl.cfg == Default(ApplyOptions(EmptyClientConfig, opts))
    ensures cl.http.transport.Some? && cl.http.transport == cl.cfg.transport
    ensures cl.cfg.wrappers == WrappersOf(opts)
    ensures cl.http.wrapCalls == WrapCalls(cl.cfg.transport, WrappersOf(opts))
  {
    OptionsFold(EmptyClientConfig, opts);
    var cfg := Default(ApplyOptions(EmptyClientConfig, opts));
    Client(cfg, Wrap(cfg))
  }

  /** The client's verb helpers. */
  datatype Verb = Get | Head | Post | Put | Patch | Delete | Connect | Options | Trace

  /** The method name each helper sends. */
  function MethodOf(v: Verb): string {
    match v
    case Get => "GET"
    case Head => "HEAD"
    case Post => "POST"
    case Put => "PUT"
    case Patch => "PATCH"
    case Delete => "DELETE"
    case Connect => "CONNECT"
    case Options => "OPTIONS"
    case Trace => "TRACE"
  }

  /** Every helper has its own method name. */
  lemma MethodsDistinct(v1: Verb, v2: Verb)
    ensures MethodOf(v1) == MethodOf(v2) ==> v1 == v2
  {
  }

  /** Where a helper call ends: the request could not be built, or it was
      handed to the `http.Client` (whose behaviour is not part of this model). */
  datatype Call = ConstructingRequest(msg: string) | Dispatched(client: HttpClient, req: Request)

  /** `requestWithBody`: build the request, or fail with the construction
      error `buildError` and send nothing. */
  function RequestWithBody(cl: Client, ctx: Context, methodName: string, url: string, body: RequestBody,
                           buildError: Option<string>): (r: Call)
    ensures buildError.Some? ==> r == ConstructingRequest(buildError.value)
    ensures buildError.None? ==> r.Dispatched?
    ensures r.Dispatched? ==> r.client == cl.http && r.req == Request(methodName, url, body, ctx)
  {
    if buildError.Some? then ConstructingRequest(buildError.value)
    else Dispatched(cl.http, Request(methodName, url, body, ctx))
  }

  /** A verb helper; `body` is what the caller passes to Post, Put, Patch or
      Connect and is ignored like the other helpers' missing one. */
  function Issue(cl: Client, v: Verb, ctx: Context, url: string, body: RequestBody, buildError: Option<string>): (r: Call)
    ensures r.Dispatched? ==> r.req.methodName == MethodOf(v) && r.req.body == NilBody && r.req.url == url
    ensures r.ConstructingRequest? <==> buildError.Some?
    ensures buildError.Some? ==> r == ConstructingRequest(buildError.value)
    ensures r.Dispatched? ==> r.client == cl.http && r.req.ctx == ctx
  {
    RequestWithBody(cl, ctx, MethodOf(v), url, NilBody, buildError)
  }

  /** What a body-taking helper sends does not depend on the body passed. */
  lemma BodyIgnored(cl: Client, v: Verb, ctx: Context, url: string, b1: RequestBody, b2: RequestBody,
                    buildError: Option<string>)
    ensures Issue(cl, v, ctx, url, b1, buildError) == Issue(cl, v, ctx, url, b2, buildError)
  {
  }
}
