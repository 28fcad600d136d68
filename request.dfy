/** The outbound request of sdk/core/src/request.rs. */
module Requests {
  import opened Wrappers
  import opened Primitives
  import opened Errors
  import opened Headers
  import JsonFormat

  /** `Body`: its one variant holds the bytes. */
  datatype Body = BytesBody(bytes: Bytes)

  /** `Body::len`. */
  function Len(b: Body): (n: nat)
    ensures n == |b.bytes|
  {
    match b
    case BytesBody(bytes) => |bytes|
  }

  /** `Body::is_empty`: holds exactly when the length is zero. */
  function IsEmpty(b: Body): (e: bool)
    ensures e <==> Len(b) == 0
    ensures e <==> b.bytes == []
  {
    Len(b) == 0
  }

  /** The parts of a `url::Url` the core reads: its path and its query. */
  datatype Url = Url(path: string, query: Option<string>)

  /** `path_and_query`: the path, then `?` and the query when there is one. */
  function PathAndQueryOf(url: Url): (s: string)
  {
    match url.query
    case None => url.path
    case Some(q) => url.path + "?" + q
  }

  /** Splits a request target at its first `?` into path and query. */
  function SplitTarget(s: string): Url
  {
    if s == [] then Url([], None)
    else if s[0] == '?' then Url([], Some(s[1..]))
    else
      var rest := SplitTarget(s[1..]);
      Url([s[0]] + rest.path, rest.query)
  }

  /** `path_and_query` loses nothing: a path (which as `Url::path` returns
      it never holds a raw `?`) and its query are recovered by splitting the
      text at its first `?`. */
  lemma {:induction false} PathAndQueryRoundTrip(url: Url)
    requires forall i | 0 <= i < |url.path| :: url.path[i] != '?'
    ensures SplitTarget(PathAndQueryOf(url)) == url
    decreases |url.path|
  {
    var s := PathAndQueryOf(url);
    if url.path == [] {
      if url.query.Some? {
        assert s == "?" + url.query.value;
      }
    } else {
      var tail := Url(url.path[1..], url.query);
      PathAndQueryRoundTrip(tail);
      assert s == [url.path[0]] + PathAndQueryOf(tail);
      assert s[1..] == PathAndQueryOf(tail);
    }
  }

  /** `Request`: URL, method, headers and body. Policies change the headers
      and the body in place before the transport reads them. */
  class Request {
    var url: Url
    var httpMethod: string
    const headers: Headers
    var body: Body

    /** `Request::new`: the given URL and method, no headers, empty body. */
    constructor (url: Url, httpMethod: string)
      ensures this.url == url && this.httpMethod == httpMethod
      ensures fresh(headers) && headers.entries == map[]
      ensures IsEmpty(body)
    {
      this.url := url;
      this.httpMethod := httpMethod;
      headers := new Headers();
      body := BytesBody([]);
    }

    /** `Request::path_and_query`, built by pushing onto the path. */
    method PathAndQuery() returns (result: string)
      ensures result == PathAndQueryOf(url)
      ensures url.query.None? ==> result == url.path
      ensures url.query.Some? ==> |result| == |url.path| + 1 + |url.query.value|
    {
      result := url.path;
      if url.query.Some? {
        result := result + ['?'];
        result := result + url.query.value;
      }
    }

    /** `Request::insert_header`: adds or replaces one header; URL, method,
        body and every other header are unchanged. */
    method InsertHeader(key: HeaderName, value: HeaderValue)
      modifies headers
      ensures headers.entries == old(headers.entries)[key := value]
      ensures unchanged(this)
    {
      headers.Insert(key, value);
    }

    /** `Request::insert_headers`: inserts the pairs of `as_headers` in
        order, so a later pair with a name already seen wins. */
    method InsertHeaders(source: HeaderSource)
      modifies headers
      ensures headers.entries == InsertAll(old(headers.entries), AsHeaders(source))
      ensures unchanged(this)
    {
      var pairs := AsHeaders(source);
      for i := 0 to |pairs|
        invariant headers.entries == InsertAll(old(headers.entries), pairs[..i])
        invariant unchanged(this)
      {
        assert pairs[..i + 1][..i] == pairs[..i];
        InsertHeader(pairs[i].0, pairs[i].1);
      }
      assert pairs[..|pairs|] == pairs;
    }

    /** `Request::set_body`: replaces the body and nothing else. */
    method SetBody(body: Body)
      modifies this
      ensures this.body == body
      ensures url == old(url) && httpMethod == old(httpMethod)
    {
      this.body := body;
    }

    /** `Request::set_json`: the serialized bytes become the body; when
        serialization fails the error is returned before the body is
        touched. */
    method SetJson<T>(data: T, serialize: T -> Result<Bytes, string>) returns (r: Result<(), Error>)
      modifies this
      ensures r.Ok? <==> serialize(data).Ok?
      ensures r.Ok? ==> body == BytesBody(serialize(data).value)
      ensures r.Err? ==> body == old(body) && Kind(r.error) == DataConversion
      ensures url == old(url) && httpMethod == old(httpMethod)
    {
      var json := JsonFormat.ToJson(data, serialize);
      if json.Err? {
        return Err(json.error);
      }
      SetBody(BytesBody(json.value));
      return Ok(());
    }
  }
}
