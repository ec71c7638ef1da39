/** The request, URL and response shapes the proxy reads. URL parsing, `fetch` and the
    Fetch API objects are not modelled: their already-parsed fields are given as values. */
module Http {
  import opened Wrappers

  /** Header maps keyed by lower-case header name (Fetch `Headers` are case-insensitive). */
  type Headers = map<string, string>

  /** The fields of a parsed request URL the proxy uses: `protocol`, `host` (with the port),
      `hostname` (without it), `pathname`, `search` (the raw query string, with its `?`) and
      `scope`, the decoded value of the `scope` query parameter. */
  datatype Url = Url(
    protocol: string,
    host: string,
    hostname: string,
    pathname: string,
    search: string,
    scope: Option<string>)

  /** An inbound request to the proxy. */
  datatype Request = Request(httpMethod: string, url: Url, headers: Headers)
  {
    /** `request.headers.get('Authorization')`. */
    function Authorization(): (value: Option<string>)
      ensures value.Some? <==> "authorization" in headers
      ensures value.Some? ==> value.value == headers["authorization"]
    {
      Get(headers, "authorization")
    }
  }

  /** A response from an upstream registry; status and headers stand for the whole response,
      which the proxy returns unchanged when it passes it through. */
  datatype UpstreamResponse = UpstreamResponse(status: int, headers: Headers)

  const UnauthorizedStatus: int := 401

  /** `headers.get(name)`: `null` when absent. */
  function Get(headers: Headers, name: string): (value: Option<string>)
    ensures value.Some? <==> name in headers
    ensures value.Some? ==> value.value == headers[name]
  {
    if name in headers then Some(headers[name]) else None
  }

  /** JavaScript truthiness of a `string | null`: absent and empty are both false. */
  predicate Truthy(v: Option<string>)
  {
    v.Some? && v.value != ""
  }

  /** The headers of a fresh `Headers` holding only the caller's Authorization value, which is
      copied when it is truthy and left out otherwise. */
  function AuthorizationHeaders(authorization: Option<string>): (h: Headers)
    ensures "authorization" in h <==> Truthy(authorization)
    ensures "authorization" in h ==> h["authorization"] == authorization.value
    ensures forall name :: name in h ==> name == "authorization"
  {
    if Truthy(authorization) then map["authorization" := authorization.value] else map[]
  }
}
