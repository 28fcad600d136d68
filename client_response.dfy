/** The typed `Response<T>` of
    sdk/client_new_method_params_context/src/response.rs: the core response
    with a phantom payload type. */
module ClientResponses {
  import opened Primitives
  import opened Headers
  import Responses

  /** `T` carries no data. */
  datatype Response<T> = Response(status: uint16, headers: Headers, body: Responses.ResponseBody) {

    function Status(): uint16 {
      status
    }

    function Headers(): Headers {
      headers
    }

    function IntoBody(): Responses.ResponseBody {
      body
    }
  }

  /** `From<azure_core::Response>`: the status is kept, the headers are
      cloned into a new map with the same entries, and the body is moved
      across. */
  method FromCoreResponse<T>(value: Responses.Response) returns (r: Response<T>)
    ensures r.Status() == value.status
    ensures fresh(r.Headers()) && r.Headers().entries == value.headers.entries
    ensures r.IntoBody() == value.body
  {
    var headers := value.headers.Clone();
    r := Response(value.status, headers, value.body);
  }
}
