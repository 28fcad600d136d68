/** The inbound response of sdk/core/src/response.rs: status, headers and a
    lazy body that is collected at most once. */
module Responses {
  import opened Wrappers
  import opened Primitives
  import opened Errors
  import opened Headers
  import opened Streams
  import JsonFormat

  /** What `ResponseBody::collect` makes of the items a stream yields: the
      in-order concatenation of the chunks, or the first error. */
  function Collected(items: seq<Item>): Result<Bytes, Error>
  {
    if items == [] then Ok([])
    else match items[0]
      case Err(e) => Err(e)
      case Ok(chunk) => Prefixed(chunk, Collected(items[1..]))
  }

  function Prefixed(prefix: Bytes, r: Result<Bytes, Error>): Result<Bytes, Error> {
    match r
    case Ok(rest) => Ok(prefix + rest)
    case Err(e) => Err(e)
  }

  /** How many items `collect` pulls from a stream: up to and including the
      first error, or all of them. */
  function Consumed(items: seq<Item>): (n: nat)
    ensures n <= |items|
  {
    if items == [] then 0
    else if items[0].Err? then 1
    else 1 + Consumed(items[1..])
  }

  /** The concatenation of the chunks of successful items. */
  function Concat(items: seq<Item>): Bytes {
    if items == [] then []
    else (if items[0].Ok? then items[0].value else []) + Concat(items[1..])
  }

  /** When no item is an error, `collect` reads every item and returns the
      concatenation of all chunks. */
  lemma {:induction false} CollectAllChunks(items: seq<Item>)
    requires forall i | 0 <= i < |items| :: items[i].Ok?
    ensures Collected(items) == Ok(Concat(items))
    ensures Consumed(items) == |items|
  {
    if items != [] {
      CollectAllChunks(items[1..]);
    }
  }

  /** When item `k` is the first error, `collect` returns that error and
      reads nothing after it. */
  lemma {:induction false} CollectStopsAtFirstError(items: seq<Item>, k: nat)
    requires k < |items| && items[k].Err?
    requires forall i | 0 <= i < k :: items[i].Ok?
    ensures Collected(items) == Err(items[k].error)
    ensures Consumed(items) == k + 1
  {
    if k > 0 {
      CollectStopsAtFirstError(items[1..], k - 1);
    }
  }

  /** The stream a `BytesStream` gives never fails, and its chunks put
      together are exactly the buffer. */
  lemma BytesStreamCollects(bytes: Bytes)
    ensures Collected(OneChunk(bytes)) == Ok(bytes)
  {
    if bytes != [] {
      assert OneChunk(bytes)[1..] == [];
      assert bytes + [] == bytes;
    }
  }

  // One lemma per step of the `collect` loop: what was collected so far,
  // `acc`, followed by what the items from `k` on collect to.

  lemma CollectStart(items: seq<Item>)
    ensures Collected(items) == Prefixed([], Collected(items[0..]))
    ensures Consumed(items) == 0 + Consumed(items[0..])
  {
    assert items[0..] == items;
    if Collected(items).Ok? {
      assert [] + Collected(items).value == Collected(items).value;
    }
  }

  lemma CollectChunk(items: seq<Item>, k: nat, acc: Bytes)
    requires k < |items| && items[k].Ok?
    requires Collected(items) == Prefixed(acc, Collected(items[k..]))
    requires Consumed(items) == k + Consumed(items[k..])
    ensures Collected(items) == Prefixed(acc + items[k].value, Collected(items[k + 1..]))
    ensures Consumed(items) == k + 1 + Consumed(items[k + 1..])
  {
    assert items[k..][1..] == items[k + 1..];
    var rest := Collected(items[k + 1..]);
    if rest.Ok? {
      assert acc + (items[k].value + rest.value) == (acc + items[k].value) + rest.value;
    }
  }

  lemma CollectError(items: seq<Item>, k: nat, acc: Bytes)
    requires k < |items| && items[k].Err?
    requires Collected(items) == Prefixed(acc, Collected(items[k..]))
    requires Consumed(items) == k + Consumed(items[k..])
    ensures Collected(items) == Err(items[k].error)
    ensures Consumed(items) == k + 1
  {
  }

  lemma CollectEnd(items: seq<Item>, k: nat, acc: Bytes)
    requires k <= |items| && items[k..] == []
    requires Collected(items) == Prefixed(acc, Collected(items[k..]))
    requires Consumed(items) == k + Consumed(items[k..])
    ensures Collected(items) == Ok(acc)
    ensures items[Consumed(items)..] == []
  {
    assert acc + [] == acc;
  }

  /** `ResponseBody`: the boxed stream a response body reads from. */
  datatype ResponseBody = OfBytes(bytesStream: BytesStream) | OfChunks(chunkStream: ChunkStream) {

    ghost function Repr(): set<object> {
      if OfBytes? then {bytesStream} else {chunkStream}
    }

    ghost predicate Valid()
      reads Repr()
    {
      if OfBytes? then bytesStream.Valid() else chunkStream.Valid()
    }

    /** The items the stream has still to yield. */
    ghost function Pending(): seq<Item>
      reads Repr()
      requires Valid()
    {
      if OfBytes? then bytesStream.Pending() else chunkStream.Pending()
    }

    /** `StreamExt::next` on the wrapped stream. */
    method PollNext() returns (item: Option<Item>)
      requires Valid()
      modifies Repr()
      ensures Valid()
      ensures old(Pending()) == [] ==> item == None && Pending() == []
      ensures old(Pending()) != [] ==> item == Some(old(Pending())[0]) && Pending() == old(Pending())[1..]
    {
      if OfBytes? {
        item := bytesStream.PollNext();
      } else {
        item := chunkStream.PollNext();
      }
    }

    /** `ResponseBody::collect`: appends chunk after chunk until the stream
        ends, and returns the first error as soon as one arrives. */
    method Collect() returns (r: Result<Bytes, Error>)
      requires Valid()
      modifies Repr()
      ensures Valid()
      ensures r == Collected(old(Pending()))
      ensures Pending() == old(Pending())[Consumed(old(Pending()))..]
    {
      ghost var items := Pending();
      ghost var k := 0;
      var result: Bytes := [];
      CollectStart(items);
      while true
        invariant Valid()
        invariant k <= |items| && Pending() == items[k..]
        invariant Collected(items) == Prefixed(result, Collected(items[k..]))
        invariant Consumed(items) == k + Consumed(items[k..])
        decreases |items| - k
      {
        var next := PollNext();
        if next.None? {
          CollectEnd(items, k, result);
          return Ok(result);
        }
        var res := next.value;
        if res.Err? {
          CollectError(items, k, result);
          return Err(res.error);
        }
        CollectChunk(items, k, result);
        result := result + res.value;
        k := k + 1;
      }
    }

    /** `ResponseBody::json`: collects first (a collect error is returned
        before anything is parsed), then deserializes the bytes. */
    method Json<T>(deserialize: Bytes -> Result<T, string>) returns (r: Result<T, Error>)
      requires Valid()
      modifies Repr()
      ensures Valid()
      ensures Collected(old(Pending())).Err? ==> r == Err(Collected(old(Pending())).error)
      ensures Collected(old(Pending())).Ok? ==> r == JsonFormat.FromJson(Collected(old(Pending())).value, deserialize)
    {
      var body := Collect();
      if body.Err? {
        return Err(body.error);
      }
      r := JsonFormat.FromJson(body.value, deserialize);
    }
  }

  /** `Response`. */
  datatype Response = Response(status: uint16, headers: Headers, body: ResponseBody)

  /** `Response::new`; `status()`, `headers()` and `into_body()` return
      what it was given. */
  function New(status: uint16, headers: Headers, body: ResponseBody): (r: Response)
    ensures r.status == status && r.headers == headers && r.body == body
  {
    Response(status, headers, body)
  }

  /** `Response::json`: `into_body().json()`. */
  method ResponseJson<T>(response: Response, deserialize: Bytes -> Result<T, string>) returns (r: Result<T, Error>)
    requires response.body.Valid()
    modifies response.body.Repr()
    ensures response.body.Valid()
    ensures Collected(old(response.body.Pending())).Err? ==> r == Err(Collected(old(response.body.Pending())).error)
    ensures Collected(old(response.body.Pending())).Ok? ==>
      r == JsonFormat.FromJson(Collected(old(response.body.Pending())).value, deserialize)
  {
    r := response.body.Json(deserialize);
  }
}
