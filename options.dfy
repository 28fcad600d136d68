/** Client options and their builders, sdk/core/src/options/mod.rs. The
    builder traits become classes that hold the `ClientOptions` (or
    `ClientMethodOptions`) their `options_mut` hands out. */
module Options {
  import RequestContext
  import opened Retry
  import opened Transports
  import opened Policies

  /** `ClientOptions`: public fields. */
  class ClientOptions {
    var context: RequestContext.Context
    var retry: RetryOptions
    var transport: TransportOptions
    var perCallPolicies: seq<Policy>
    var perRetryPolicies: seq<Policy>

    /** `Default`: an empty context, the default retry options, the default
        transport and no extra policies. */
    constructor Default()
      ensures context == RequestContext.New()
      ensures retry == DefaultOptions() && transport == Transports.Default()
      ensures perCallPolicies == [] && perRetryPolicies == []
    {
      context := RequestContext.New();
      retry := DefaultOptions();
      transport := Transports.Default();
      perCallPolicies := [];
      perRetryPolicies := [];
    }
  }

  /** `ClientMethodOptions`: private fields behind accessors. */
  class ClientMethodOptions {
    var context: RequestContext.Context
    var retry: RetryOptions
    var perCallPolicies: seq<Policy>
    var perRetryPolicies: seq<Policy>

    /** `Default`: as for `ClientOptions`, without a transport. */
    constructor Default()
      ensures Context() == RequestContext.New() && Retry() == DefaultOptions()
      ensures PerCallPolicies() == [] && PerRetryPolicies() == []
    {
      context := RequestContext.New();
      retry := DefaultOptions();
      perCallPolicies := [];
      perRetryPolicies := [];
    }

    function Context(): RequestContext.Context
      reads this
    {
      context
    }

    function Retry(): RetryOptions
      reads this
    {
      retry
    }

    function PerCallPolicies(): seq<Policy>
      reads this
    {
      perCallPolicies
    }

    function PerRetryPolicies(): seq<Policy>
      reads this
    {
      perRetryPolicies
    }
  }

  /** `ClientBuilder`: a client builder whose `options()` field is the
      `ClientOptions` it configures. The `&mut Self` each setter returns for
      chaining is the builder itself and is not modelled. */
  class ClientBuilder {
    const options: ClientOptions

    constructor (options: ClientOptions)
      ensures this.options == options
    {
      this.options := options;
    }

    /** `with_context`: replaces the context only. */
    method WithContext(context: RequestContext.Context)
      modifies options
      ensures options.context == context
      ensures options.retry == old(options.retry) && options.transport == old(options.transport)
      ensures options.perCallPolicies == old(options.perCallPolicies)
      ensures options.perRetryPolicies == old(options.perRetryPolicies)
    {
      options.context := context;
    }

    /** `with_retry`: replaces the retry options only. */
    method WithRetry(retry: RetryOptions)
      modifies options
      ensures options.retry == retry
      ensures options.context == old(options.context) && options.transport == old(options.transport)
      ensures options.perCallPolicies == old(options.perCallPolicies)
      ensures options.perRetryPolicies == old(options.perRetryPolicies)
    {
      options.retry := retry;
    }

    /** `with_transport`: replaces the transport options only. */
    method WithTransport(transport: TransportOptions)
      modifies options
      ensures options.transport == transport
      ensures options.context == old(options.context) && options.retry == old(options.retry)
      ensures options.perCallPolicies == old(options.perCallPolicies)
      ensures options.perRetryPolicies == old(options.perRetryPolicies)
    {
      options.transport := transport;
    }
  }

  /** `ClientOptionsBuilder`: getters and setters over a `ClientOptions`. */
  class ClientOptionsBuilder {
    const options: ClientOptions

    constructor (options: ClientOptions)
      ensures this.options == options
    {
      this.options := options;
    }

    function Context(): RequestContext.Context
      reads options
    {
      options.context
    }

    function Retry(): RetryOptions
      reads options
    {
      options.retry
    }

    function Transport(): TransportOptions
      reads options
    {
      options.transport
    }

    function PerCallPolicies(): seq<Policy>
      reads options
    {
      options.perCallPolicies
    }

    function PerRetryPolicies(): seq<Policy>
      reads options
    {
      options.perRetryPolicies
    }

    /** `with_context`: replaces the context only. */
    method WithContext(context: RequestContext.Context)
      modifies options
      ensures Context() == context
      ensures Retry() == old(Retry()) && Transport() == old(Transport())
      ensures PerCallPolicies() == old(PerCallPolicies()) && PerRetryPolicies() == old(PerRetryPolicies())
    {
      options.context := context;
    }

    /** `with_retry`: replaces the retry options only. */
    method WithRetry(retry: RetryOptions)
      modifies options
      ensures Retry() == retry
      ensures Context() == old(Context()) && Transport() == old(Transport())
      ensures PerCallPolicies() == old(PerCallPolicies()) && PerRetryPolicies() == old(PerRetryPolicies())
    {
      options.retry := retry;
    }

    /** `with_transport`: replaces the transport options only. */
    method WithTransport(transport: TransportOptions)
      modifies options
      ensures Transport() == transport
      ensures Context() == old(Context()) && Retry() == old(Retry())
      ensures PerCallPolicies() == old(PerCallPolicies()) && PerRetryPolicies() == old(PerRetryPolicies())
    {
      options.transport := transport;
    }

    /** `with_per_call_policies`: appends after the policies already there. */
    method WithPerCallPolicies(perCallPolicies: seq<Policy>)
      modifies options
      ensures PerCallPolicies() == old(PerCallPolicies()) + perCallPolicies
      ensures Context() == old(Context()) && Retry() == old(Retry()) && Transport() == old(Transport())
      ensures PerRetryPolicies() == old(PerRetryPolicies())
    {
      options.perCallPolicies := options.perCallPolicies + perCallPolicies;
    }

    /** `with_per_retry_policies`: appends after the policies already there. */
    method WithPerRetryPolicies(perRetryPolicies: seq<Policy>)
      modifies options
      ensures PerRetryPolicies() == old(PerRetryPolicies()) + perRetryPolicies
      ensures Context() == old(Context()) && Retry() == old(Retry()) && Transport() == old(Transport())
      ensures PerCallPolicies() == old(PerCallPolicies())
    {
      options.perRetryPolicies := options.perRetryPolicies + perRetryPolicies;
    }
  }

  /** `ClientMethodOptionsBuilder`: the same rules over a
      `ClientMethodOptions`. */
  class ClientMethodOptionsBuilder {
    const options: ClientMethodOptions

    constructor (options: ClientMethodOptions)
      ensures this.options == options
    {
      this.options := options;
    }

    function Context(): RequestContext.Context
      reads options
    {
      options.context
    }

    function Retry(): RetryOptions
      reads options
    {
      options.retry
    }

    function PerCallPolicies(): seq<Policy>
      reads options
    {
      options.perCallPolicies
    }

    function PerRetryPolicies(): seq<Policy>
      reads options
    {
      options.perRetryPolicies
    }

    /** `with_context`: replaces the context only. */
    method WithContext(context: RequestContext.Context)
      modifies options
      ensures Context() == context && Retry() == old(Retry())
      ensures PerCallPolicies() == old(PerCallPolicies()) && PerRetryPolicies() == old(PerRetryPolicies())
    {
      options.context := context;
    }

    /** `with_retry`: replaces the retry options only. */
    method WithRetry(retry: RetryOptions)
      modifies options
      ensures Retry() == retry && Context() == old(Context())
      ensures PerCallPolicies() == old(PerCallPolicies()) && PerRetryPolicies() == old(PerRetryPolicies())
    {
      options.retry := retry;
    }

    /** `with_per_call_policies`: appends after the policies already there. */
    method WithPerCallPolicies(perCallPolicies: seq<Policy>)
      modifies options
      ensures PerCallPolicies() == old(PerCallPolicies()) + perCallPolicies
      ensures Context() == old(Context()) && Retry() == old(Retry())
      ensures PerRetryPolicies() == old(PerRetryPolicies())
    {
      options.perCallPolicies := options.perCallPolicies + perCallPolicies;
    }

    /** `with_per_retry_policies`: appends after the policies already there. */
    method WithPerRetryPolicies(perRetryPolicies: seq<Policy>)
      modifies options
      ensures PerRetryPolicies() == old(PerRetryPolicies()) + perRetryPolicies
      ensures Context() == old(Context()) && Retry() == old(Retry())
      ensures PerCallPolicies() == old(PerCallPolicies())
    {
      options.perRetryPolicies := options.perRetryPolicies + perRetryPolicies;
    }
  }
}
