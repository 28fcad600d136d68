/** `Pipeline` of sdk/core/src/pipeline.rs: the caller's policies, the
    options' policies, and a transport at the end. */
module Pipelines {
  import opened Wrappers
  import opened Errors
  import opened Headers
  import opened Transports
  import opened Policies
  import opened Options
  import RequestContext
  import Requests
  import Responses

  /** No policy of the list is a transport. */
  predicate NoTransport(policies: seq<Policy>) {
    forall i :: 0 <= i < |policies| ==> !policies[i].TransportPolicy?
  }

  /** The header pairs of every custom-header policy of a list, in order. */
  function CustomPairs(policies: seq<Policy>): seq<HeaderPair> {
    if policies == [] then []
    else
      (match policies[0]
       case CustomHeader(name, value) => [(FromString(name), HeaderValue(value))]
       case _ => [])
      + CustomPairs(policies[1..])
  }

  /** Custom pairs of two lists side by side are those of each, in order. */
  lemma {:induction false} CustomPairsAppend(a: seq<Policy>, b: seq<Policy>)
    ensures CustomPairs(a + b) == CustomPairs(a) + CustomPairs(b)
  {
    if a == [] {
      assert a + b == b;
    } else {
      assert (a + b)[0] == a[0] && (a + b)[1..] == a[1..] + b;
      CustomPairsAppend(a[1..], b);
    }
  }

  /** A transport-free list followed by a transport runs every policy of the
      list and is answered by that transport. */
  lemma {:induction false} TrailingTransport(policies: seq<Policy>, t: TransportOptions)
    requires NoTransport(policies)
    ensures Terminates(policies + [TransportPolicy(t)])
    ensures FirstTransport(policies + [TransportPolicy(t)]) == t
    ensures PairsBefore(policies + [TransportPolicy(t)]) == CustomPairs(policies)
  {
    var chain := policies + [TransportPolicy(t)];
    if policies == [] {
      assert chain == [TransportPolicy(t)];
    } else {
      assert chain[0] == policies[0] && chain[1..] == policies[1..] + [TransportPolicy(t)];
      TrailingTransport(policies[1..], t);
    }
  }

  /** `Pipeline`: the assembled chain. */
  datatype Pipeline = Pipeline(policies: seq<Policy>) {

    /** `Pipeline::send`: policy 0 runs with the rest of the chain and its
        result is returned as is. */
    method Send(ctx: RequestContext.Context, request: Requests.Request)
      returns (r: Result<Responses.Response, Error>)
      requires Terminates(policies)
      modifies request.headers
      ensures r.Ok?
      ensures fresh(r.value.headers) && fresh(r.value.body.Repr())
      ensures IsCannedResponse(r.value, ResponseBytes(FirstTransport(policies)))
      ensures request.headers.entries == InsertAll(old(request.headers.entries), PairsBefore(policies))
    {
      assert [policies[0]] + policies[1..] == policies;
      HeadersAfterInsertsPairs(policies, request.headers.entries);
      r := Policies.Send(policies[0], ctx, request, policies[1..]);
    }
  }

  /** `Pipeline::new`: the per-call argument, the options' per-call list,
      the per-retry argument, the options' per-retry list, then a transport
      built from the options. The crate name and version are ignored. */
  method New(crateName: Option<string>, crateVersion: Option<string>, options: ClientOptions,
             perCallPolicies: seq<Policy>, perRetryPolicies: seq<Policy>)
    returns (p: Pipeline)
    ensures p.policies == perCallPolicies + options.perCallPolicies
                        + perRetryPolicies + options.perRetryPolicies
                        + [TransportPolicy(options.transport)]
    ensures |p.policies| == |perCallPolicies| + |options.perCallPolicies|
                          + |perRetryPolicies| + |options.perRetryPolicies| + 1
    ensures p.policies[|p.policies| - 1] == TransportPolicy(options.transport)
    ensures Terminates(p.policies)
  {
    var pipeline: seq<Policy> := [];
    pipeline := pipeline + perCallPolicies;
    pipeline := pipeline + options.perCallPolicies;
    pipeline := pipeline + perRetryPolicies;
    pipeline := pipeline + options.perRetryPolicies;
    var transport := TransportPolicy(options.transport);
    pipeline := pipeline + [transport];
    assert pipeline[|pipeline| - 1].TransportPolicy?;
    TerminatesIffHasTransport(pipeline);
    p := Pipeline(pipeline);
  }

  /** End to end: when none of the four lists holds a transport, sending
      through the assembled pipeline inserts the custom headers of the four
      lists in assembly order and answers with the options' transport, whose
      body collects to its configured bytes. */
  lemma AssembledPipelineAnswers(perCall: seq<Policy>, optionsPerCall: seq<Policy>,
                                 perRetry: seq<Policy>, optionsPerRetry: seq<Policy>,
                                 t: TransportOptions, m: map<HeaderName, HeaderValue>)
    requires NoTransport(perCall + optionsPerCall + perRetry + optionsPerRetry)
    ensures var chain := perCall + optionsPerCall + perRetry + optionsPerRetry + [TransportPolicy(t)];
      && Terminates(chain)
      && FirstTransport(chain) == t
      && HeadersAfter(chain, m)
         == InsertAll(m, CustomPairs(perCall) + CustomPairs(optionsPerCall)
                         + CustomPairs(perRetry) + CustomPairs(optionsPerRetry))
      && Responses.Collected(Streams.OneChunk(ResponseBytes(FirstTransport(chain)))) == Ok(ResponseBytes(t))
  {
    var lists := perCall + optionsPerCall + perRetry + optionsPerRetry;
    var chain := lists + [TransportPolicy(t)];
    TrailingTransport(lists, t);
    HeadersAfterInsertsPairs(chain, m);
    CustomPairsAppend(perCall + optionsPerCall + perRetry, optionsPerRetry);
    CustomPairsAppend(perCall + optionsPerCall, perRetry);
    CustomPairsAppend(perCall, optionsPerCall);
    CannedBodyCollects(t);
  }
}
