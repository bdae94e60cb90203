/**
  The parts of an HTTP exchange that the low-level REST client reads when a
  node answers with an error: the request line of the request that was sent
  and the status line of the response that came back.

  Rendering a status line to text and reading its numeric code are two
  separate queries on the HTTP library's objects, so both are kept here as
  given, with no relation assumed between them.
 */
module Http {

  /** The request line of a request: its method (`httpMethod`, e.g. "GET") and its URI. */
  datatype RequestLine = RequestLine(httpMethod: string, uri: string)

  /**
    The status line of a response (the start line of a response, section 4
    of RFC 9112): `text` is its rendering as a string, `statusCode` the
    numeric code read from it. The code is kept as an unbounded integer:
    nothing in this model does arithmetic on it, it is only compared.
   */
  datatype StatusLine = StatusLine(text: string, statusCode: int)

  /**
    The response handle a node returned. Only its status line is read here;
    the body and the connection it holds stay with the caller.
   */
  datatype Response = Response(statusLine: StatusLine)

  /** Identity of a node as rendered to text, e.g. "http://node1:9200". */
  type Host = string

  // Server error codes of sections 15.6.1 to 15.6.6 of RFC 9110.
  const INTERNAL_SERVER_ERROR := 500
  const NOT_IMPLEMENTED := 501
  const BAD_GATEWAY := 502
  const SERVICE_UNAVAILABLE := 503
  const GATEWAY_TIMEOUT := 504
  const HTTP_VERSION_NOT_SUPPORTED := 505

  /** A status code of the client error class 4xx (section 15.5 of RFC 9110). */
  predicate IsClientError(code: int) {
    400 <= code <= 499
  }
}
