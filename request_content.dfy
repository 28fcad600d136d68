/** `RequestContent<T>` of sdk/core/src/request_content.rs: bytes tagged
    with the payload type `T` they stand for, never inspected. */
module RequestContents {
  import opened Wrappers
  import opened Primitives
  import opened Errors
  import Utf8
  import Requests

  /** The type parameter is a phantom: no value of `T` is stored. */
  datatype RequestContent<T> = RequestContent(body: Bytes)

  /** `RequestContent::from(Vec<u8>)`. */
  function FromVec<T>(bytes: Bytes): (c: RequestContent<T>)
    ensures Body(c) == bytes
  {
    RequestContent(bytes)
  }

  /** `RequestContent::body`. */
  function Body<T>(c: RequestContent<T>): Bytes {
    c.body
  }

  /** `TryFrom<Bytes>`: never fails, keeps the bytes. */
  function TryFromBytes<T>(bytes: Bytes): (r: Result<RequestContent<T>, Error>)
    ensures r.Ok? && Body(r.value) == bytes
  {
    Ok(RequestContent(bytes))
  }

  /** `TryFrom<Vec<u8>>`: never fails, keeps the bytes. */
  function TryFromVec<T>(bytes: Bytes): (r: Result<RequestContent<T>, Error>)
    ensures r.Ok? && Body(r.value) == bytes
  {
    Ok(RequestContent(bytes))
  }

  /** `TryFrom<&'static str>`: never fails; the content is the UTF-8
      encoding of the text, which for ASCII text is its character codes. */
  function TryFromStr<T>(s: string): (r: Result<RequestContent<T>, Error>)
    ensures r.Ok? && Body(r.value) == Utf8.Encode(s)
    ensures Utf8.IsAscii(s) ==>
      |Body(r.value)| == |s| && forall i | 0 <= i < |s| :: Body(r.value)[i] == s[i] as int
  {
    if Utf8.IsAscii(s) then
      Utf8.EncodeAscii(s);
      Ok(RequestContent(Utf8.Encode(s)))
    else
      Ok(RequestContent(Utf8.Encode(s)))
  }

  /** `From<RequestContent<T>> for Body`: the same bytes as a request body. */
  function IntoBody<T>(c: RequestContent<T>): (b: Requests.Body)
    ensures b.bytes == Body(c)
    ensures Requests.Len(b) == |Body(c)|
  {
    Requests.BytesBody(c.body)
  }
}
