/**
 * What the axios clients exchange with the backend: a request configuration whose fields interceptors rewrite,
 * responses, and errors. The backend's replies are inputs to the model.
 */
module Http {
  import opened Base
  import opened JsonValues

  /** The base URL when `NEXT_PUBLIC_API_URL` is unset or empty. */
  const DefaultApiUrl := "http://localhost:8000"

  /** `process.env.NEXT_PUBLIC_API_URL || 'http://localhost:8000'`. */
  function ApiUrl(env: Option<string>): (r: string)
    ensures env.Some? && env.value != "" ==> r == env.value
    ensures env.None? || env.value == "" ==> r == DefaultApiUrl
  {
    if env.Some? && env.value != "" then env.value else DefaultApiUrl
  }

  /** An HTTP response: status and parsed body (`response.data`). */
  datatype Response = Response(status: int, data: Json)

  /** An axios error: the response, when the server answered at all, and `error.message`. */
  datatype HttpError = HttpError(response: Option<Response>, message: string) {
    /** `error.response?.status`. */
    function Status(): Option<int> {
      if response.Some? then Some(response.value.status) else None
    }
  }

  /** `Bearer <token>`, the credential of section 2.1 of RFC 6750. */
  function Bearer(token: string): (r: string)
    ensures |r| == 7 + |token| && r[..7] == "Bearer " && r[7..] == token
  {
    "Bearer " + token
  }

  const AuthorizationHeader := "Authorization"

  /** The headers every request of the authenticated instance starts from. */
  const JsonHeaders: map<string, string> := map["Content-Type" := "application/json"]

  /** A request as the interceptors see it: mutable headers and the `_retry` mark. */
  class RequestConfig {
    const url: string
    var headers: Option<map<string, string>>
    /** `_retry`: set once the request has triggered a token refresh; never cleared. */
    var retry: bool
    /** The JSON body posted, if any. */
    const body: Option<Json>

    constructor (url: string, headers: Option<map<string, string>>, body: Option<Json>)
      ensures this.url == url && this.headers == headers && this.body == body && !retry
    {
      this.url := url;
      this.headers := headers;
      this.body := body;
      retry := false;
    }
  }
}
