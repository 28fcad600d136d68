/** Byte streams: `BytesStream` of sdk/core/src/stream.rs, and the other
    streams a response body may be built from. */
module Streams {
  import opened Wrappers
  import opened Primitives
  import opened Errors

  /** The item type of every stream: `azure_core::Result<Bytes>`. */
  type Item = Result<Bytes, Error>

  /** The items a `BytesStream` over `bytes` yields: the whole buffer as one
      chunk, or nothing for an empty buffer. */
  function OneChunk(bytes: Bytes): (items: seq<Item>)
    ensures |items| <= 1
    ensures items == [] <==> bytes == []
  {
    if bytes == [] then [] else [Ok(bytes)]
  }

  /** `BytesStream`: an in-memory buffer and how much of it was handed out. */
  class BytesStream {
    const bytes: Bytes
    var bytesRead: nat

    ghost predicate Valid()
      reads this
    {
      bytesRead <= |bytes|
    }

    /** The items still to come. */
    ghost function Pending(): seq<Item>
      reads this
      requires Valid()
    {
      if bytesRead < |bytes| then [Ok(bytes[bytesRead..])] else []
    }

    /** `BytesStream::new`: nothing read yet, so the whole buffer is pending. */
    constructor (bytes: Bytes)
      ensures this.bytes == bytes && bytesRead == 0
      ensures Valid() && Pending() == OneChunk(bytes)
    {
      this.bytes := bytes;
      bytesRead := 0;
    }

    /** `Stream::poll_next`: hands out everything not yet read as one chunk
        and moves the cursor to the end; at the end, yields `None`. */
    method PollNext() returns (item: Option<Item>)
      requires Valid()
      modifies this
      ensures Valid()
      ensures old(bytesRead) < |bytes| ==> item == Some(Ok(bytes[old(bytesRead)..])) && bytesRead == |bytes|
      ensures old(bytesRead) >= |bytes| ==> item == None && bytesRead == old(bytesRead)
      ensures old(Pending()) == [] ==> item == None && Pending() == []
      ensures old(Pending()) != [] ==> item == Some(old(Pending())[0]) && Pending() == old(Pending())[1..]
    {
      if bytesRead < |bytes| {
        var start := bytesRead;
        bytesRead := |bytes|;
        return Some(Ok(bytes[start..]));
      } else {
        return None;
      }
    }
  }

  /** Any other `Stream<Item = Result<Bytes>>` a response body may wrap,
      given by the items it yields in order. */
  class ChunkStream {
    const chunks: seq<Item>
    var position: nat

    ghost predicate Valid()
      reads this
    {
      position <= |chunks|
    }

    ghost function Pending(): seq<Item>
      reads this
      requires Valid()
    {
      chunks[position..]
    }

    constructor (chunks: seq<Item>)
      ensures this.chunks == chunks && position == 0
      ensures Valid() && Pending() == chunks
    {
      this.chunks := chunks;
      position := 0;
    }

    /** Yields the next item, or `None` once every item was yielded. */
    method PollNext() returns (item: Option<Item>)
      requires Valid()
      modifies this
      ensures Valid()
      ensures old(Pending()) == [] ==> item == None && Pending() == []
      ensures old(Pending()) != [] ==> item == Some(old(Pending())[0]) && Pending() == old(Pending())[1..]
    {
      if position < |chunks| {
        item := Some(chunks[position]);
        position := position + 1;
      } else {
        item := None;
      }
    }
  }
}
