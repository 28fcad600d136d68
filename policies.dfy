/** The policies of sdk/core/src/policies/: each one receives the request
    and the rest of the chain (`next`) and either hands on to `next[0]` or,
    for the transport, produces the response. */
module Policies {
  import opened Wrappers
  import opened Errors
  import opened Headers
  import opened Transports
  import RequestContext
  import Requests
  import Responses

  /** An `Arc<dyn TokenCredential>`, known only by identity. */
  datatype Credential = Credential(id: nat)

  /** The three policies the core defines. */
  datatype Policy =
    | CustomHeader(name: string, value: string)
    | ApiKeyAuthentication(credential: Credential, scope: string)
    | TransportPolicy(transportOptions: TransportOptions)

  /** A chain can be run: walking it from the front reaches a transport
      before running out of policies (otherwise `next[0]` panics). */
  predicate Terminates(chain: seq<Policy>) {
    |chain| > 0 && (chain[0].TransportPolicy? || Terminates(chain[1..]))
  }

  /** `Terminates` means exactly that the chain holds a transport. */
  lemma {:induction false} TerminatesIffHasTransport(chain: seq<Policy>)
    ensures Terminates(chain) <==> exists i :: 0 <= i < |chain| && chain[i].TransportPolicy?
  {
    if chain != [] && !chain[0].TransportPolicy? {
      TerminatesIffHasTransport(chain[1..]);
      if exists i :: 0 <= i < |chain| && chain[i].TransportPolicy? {
        var i :| 0 <= i < |chain| && chain[i].TransportPolicy?;
        assert chain[1..][i - 1].TransportPolicy?;
      }
      if exists i :: 0 <= i < |chain[1..]| && chain[1..][i].TransportPolicy? {
        var i :| 0 <= i < |chain[1..]| && chain[1..][i].TransportPolicy?;
        assert chain[i + 1].TransportPolicy?;
      }
    }
  }

  /** The options of the first transport of the chain: the one that answers. */
  function FirstTransport(chain: seq<Policy>): TransportOptions
    requires Terminates(chain)
  {
    if chain[0].TransportPolicy? then chain[0].transportOptions
    else FirstTransport(chain[1..])
  }

  /** The header map after running `chain` on a request holding `m`: every
      custom-header policy before the first transport inserts its pair. */
  function HeadersAfter(chain: seq<Policy>, m: map<HeaderName, HeaderValue>): map<HeaderName, HeaderValue>
    requires Terminates(chain)
  {
    match chain[0]
    case TransportPolicy(_) => m
    case ApiKeyAuthentication(_, _) => HeadersAfter(chain[1..], m)
    case CustomHeader(name, value) =>
      HeadersAfter(chain[1..], m[FromString(name) := HeaderValue(value)])
  }

  /** The header pairs the policies before the first transport contribute,
      in chain order. */
  function PairsBefore(chain: seq<Policy>): seq<HeaderPair>
    requires Terminates(chain)
  {
    match chain[0]
    case TransportPolicy(_) => []
    case ApiKeyAuthentication(_, _) => PairsBefore(chain[1..])
    case CustomHeader(name, value) =>
      [(FromString(name), HeaderValue(value))] + PairsBefore(chain[1..])
  }

  /** Inserting a list of pairs is inserting its first part, then the rest. */
  lemma {:induction false} InsertAllAppend(m: map<HeaderName, HeaderValue>, a: seq<HeaderPair>, b: seq<HeaderPair>)
    ensures InsertAll(m, a + b) == InsertAll(InsertAll(m, a), b)
    decreases |b|
  {
    if b == [] {
      assert a + b == a;
    } else {
      assert (a + b)[..|a + b| - 1] == a + b[..|b| - 1];
      InsertAllAppend(m, a, b[..|b| - 1]);
    }
  }

  /** Running the chain inserts, in order, the pairs of its custom-header
      policies before the first transport, so a later policy setting the
      same (lower-cased) name wins. */
  lemma {:induction false} HeadersAfterInsertsPairs(chain: seq<Policy>, m: map<HeaderName, HeaderValue>)
    requires Terminates(chain)
    ensures HeadersAfter(chain, m) == InsertAll(m, PairsBefore(chain))
  {
    match chain[0]
    case TransportPolicy(_) =>
    case ApiKeyAuthentication(_, _) =>
      HeadersAfterInsertsPairs(chain[1..], m);
    case CustomHeader(name, value) =>
      var pair := (FromString(name), HeaderValue(value));
      HeadersAfterInsertsPairs(chain[1..], m[pair.0 := pair.1]);
      assert InsertAll(m, [pair]) == m[pair.0 := pair.1] by {
        assert [pair][..0] == [];
      }
      InsertAllAppend(m, [pair], PairsBefore(chain[1..]));
  }

  /** Policies after the first transport never run: they change neither the
      headers nor which transport answers. */
  lemma {:induction false} TransportShortCircuits(chain: seq<Policy>, rest: seq<Policy>, m: map<HeaderName, HeaderValue>)
    requires Terminates(chain)
    ensures Terminates(chain + rest)
    ensures HeadersAfter(chain + rest, m) == HeadersAfter(chain, m)
    ensures FirstTransport(chain + rest) == FirstTransport(chain)
  {
    assert (chain + rest)[0] == chain[0];
    if !chain[0].TransportPolicy? {
      assert (chain + rest)[1..] == chain[1..] + rest;
      TransportShortCircuits(chain[1..], rest, match chain[0]
        case CustomHeader(name, value) => m[FromString(name) := HeaderValue(value)]
        case _ => m);
    }
  }

  /** `Policy::send`, dispatched on the policy. */
  method Send(p: Policy, ctx: RequestContext.Context, request: Requests.Request, next: seq<Policy>)
    returns (r: Result<Responses.Response, Error>)
    requires Terminates([p] + next)
    modifies request.headers
    ensures r.Ok?
    ensures fresh(r.value.headers) && fresh(r.value.body.Repr())
    ensures IsCannedResponse(r.value, ResponseBytes(FirstTransport([p] + next)))
    ensures request.headers.entries == HeadersAfter([p] + next, old(request.headers.entries))
    decreases |next|, 1
  {
    assert ([p] + next)[0] == p && ([p] + next)[1..] == next;
    match p
    case CustomHeader(name, value) =>
      r := SendCustomHeader(name, value, ctx, request, next);
    case ApiKeyAuthentication(credential, scope) =>
      r := SendApiKeyAuthentication(credential, scope, ctx, request, next);
    case TransportPolicy(options) =>
      r := SendTransport(options, ctx, request, next);
  }

  /** `CustomHeaderPolicy::send`: inserts the header, whose name is
      lower-cased on the way in, then hands on to `next[0]`. */
  method SendCustomHeader(name: string, value: string, ctx: RequestContext.Context,
                          request: Requests.Request, next: seq<Policy>)
    returns (r: Result<Responses.Response, Error>)
    requires Terminates(next)
    modifies request.headers
    ensures r.Ok?
    ensures fresh(r.value.headers) && fresh(r.value.body.Repr())
    ensures IsCannedResponse(r.value, ResponseBytes(FirstTransport(next)))
    ensures request.headers.entries
         == HeadersAfter(next, old(request.headers.entries)[FromString(name) := HeaderValue(value)])
    decreases |next|, 0
  {
    request.InsertHeader(FromString(name), HeaderValue(value));
    assert [next[0]] + next[1..] == next;
    r := Send(next[0], ctx, request, next[1..]);
  }

  /** `ApiKeyAuthenticationPolicy::send`: hands the request on to `next[0]`
      unchanged; the credential and scope are stored but not read. */
  method SendApiKeyAuthentication(credential: Credential, scope: string, ctx: RequestContext.Context,
                                  request: Requests.Request, next: seq<Policy>)
    returns (r: Result<Responses.Response, Error>)
    requires Terminates(next)
    modifies request.headers
    ensures r.Ok?
    ensures fresh(r.value.headers) && fresh(r.value.body.Repr())
    ensures IsCannedResponse(r.value, ResponseBytes(FirstTransport(next)))
    ensures request.headers.entries == HeadersAfter(next, old(request.headers.entries))
    decreases |next|, 0
  {
    assert [next[0]] + next[1..] == next;
    r := Send(next[0], ctx, request, next[1..]);
  }

  /** `TransportPolicy::send`: answers from its transport options and never
      looks at `next`. */
  method SendTransport(options: TransportOptions, ctx: RequestContext.Context,
                       request: Requests.Request, next: seq<Policy>)
    returns (r: Result<Responses.Response, Error>)
    ensures r.Ok?
    ensures fresh(r.value.headers) && fresh(r.value.body.Repr())
    ensures IsCannedResponse(r.value, ResponseBytes(options))
  {
    r := Transports.Send(options, ctx, request);
  }
}
