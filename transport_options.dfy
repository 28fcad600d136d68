/** `TransportOptions` of sdk/core/src/options/transport.rs: a simulated
    transport that answers every request with a fixed body. */
module Transports {
  import opened Wrappers
  import opened Primitives
  import opened Errors
  import opened Headers
  import opened Streams
  import Responses
  import RequestContext
  import Requests

  /** `TransportOptionsImpl`: its one variant holds the response body. */
  datatype TransportOptionsImpl = InMemory(responseBody: Bytes)

  datatype TransportOptions = TransportOptions(inner: TransportOptionsImpl)

  /** `TransportOptions::new`. */
  function New(responseBody: Bytes): (t: TransportOptions)
    ensures ResponseBytes(t) == responseBody
  {
    TransportOptions(InMemory(responseBody))
  }

  /** `Default for TransportOptions`: an empty body. */
  function Default(): (t: TransportOptions)
    ensures ResponseBytes(t) == []
  {
    TransportOptions(InMemory([]))
  }

  /** The bytes this transport answers with. */
  function ResponseBytes(t: TransportOptions): Bytes {
    match t.inner
    case InMemory(bytes) => bytes
  }

  /** The response `send` produces for `bytes`: status 200, no headers, and
      a body that streams the bytes. */
  ghost predicate IsCannedResponse(r: Responses.Response, bytes: Bytes)
    reads r.headers, r.body.Repr()
  {
    && r.status == 200
    && r.headers.entries == map[]
    && r.body.OfBytes?
    && r.body.Valid()
    && r.body.Pending() == OneChunk(bytes)
  }

  /** `TransportOptions::send`: always `Ok`; neither the context nor the
      request has any effect. */
  method Send(t: TransportOptions, ctx: RequestContext.Context, request: Requests.Request)
    returns (r: Result<Responses.Response, Error>)
    ensures r.Ok?
    ensures fresh(r.value.headers) && fresh(r.value.body.Repr())
    ensures IsCannedResponse(r.value, ResponseBytes(t))
  {
    match t.inner
    case InMemory(bytes) =>
      var headers := new Headers();
      var stream := new BytesStream(bytes);
      return Ok(Responses.New(200, headers, Responses.OfBytes(stream)));
  }

  /** Collecting the body of the canned response gives back exactly the
      configured bytes. */
  lemma CannedBodyCollects(t: TransportOptions)
    ensures Responses.Collected(OneChunk(ResponseBytes(t))) == Ok(ResponseBytes(t))
  {
    Responses.BytesStreamCollects(ResponseBytes(t));
  }
}
