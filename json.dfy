/** The JSON helpers of sdk/core/src/json.rs. The serializer and the
    deserializer (serde_json) are not part of this model: they are passed in
    as functions whose failure is the `serde_json::Error` text. */
module JsonFormat {
  import opened Wrappers
  import opened Primitives
  import opened Errors

  /** `json::to_json`: a serializer failure becomes a `DataConversion` error. */
  function ToJson<T>(value: T, serialize: T -> Result<Bytes, string>): (r: Result<Bytes, Error>)
    ensures serialize(value).Ok? ==> r == Ok(serialize(value).value)
    ensures serialize(value).Err? ==>
      r.Err? && Kind(r.error) == DataConversion && Source(r.error) == Some(JsonError(serialize(value).error))
  {
    match serialize(value)
    case Ok(bytes) => Ok(bytes)
    case Err(text) => Err(FromJsonError(text))
  }

  /** `json::from_json`: a deserializer failure becomes a `DataConversion` error. */
  function FromJson<T>(body: Bytes, deserialize: Bytes -> Result<T, string>): (r: Result<T, Error>)
    ensures deserialize(body).Ok? ==> r == Ok(deserialize(body).value)
    ensures deserialize(body).Err? ==>
      r.Err? && Kind(r.error) == DataConversion && Source(r.error) == Some(JsonError(deserialize(body).error))
  {
    match deserialize(body)
    case Ok(v) => Ok(v)
    case Err(text) => Err(FromJsonError(text))
  }
}
