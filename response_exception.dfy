/**
  The error value the low-level REST client builds when an Elasticsearch node
  answers a request with an error status: it records which node was asked,
  what was asked and what came back, carries a fixed diagnostic message, and
  tells the caller whether the same request may be retried on another node.
 */
module ResponseErrors {
  import opened Http

  /**
    A failed exchange with one node. All fields are fixed when the value is
    built; `message` is the text the error carries, computed by `Create`.
   */
  datatype ResponseException = ResponseException(
    message: string,
    host: Host,
    requestLine: RequestLine,
    response: Response)
  {
    /** The message is the one built from the other three fields. */
    predicate Valid() {
      message == BuildMessage(requestLine, host, response)
    }

    /** The node that returned the error. */
    function GetHost(): (h: Host)
      ensures h == host
    {
      host
    }

    /** The request line of the request that failed. */
    function GetRequestLine(): (rl: RequestLine)
      ensures rl == requestLine
    {
      requestLine
    }

    /** The response the node returned. */
    function GetResponse(): (r: Response)
      ensures r == response
    {
      response
    }

    /**
      Whether the same request should be retried on other nodes. Status 500
      is left out on purpose: the server still answers 500 in places where
      the client is at fault. Exactly the three gateway-side failures of
      RFC 9110 qualify: Bad Gateway, Service Unavailable and Gateway Timeout.
     */
    predicate IsRecoverable()
      ensures IsRecoverable() <==>
        response.statusLine.statusCode in {BAD_GATEWAY, SERVICE_UNAVAILABLE, GATEWAY_TIMEOUT}
    {
      var statusCode := response.statusLine.statusCode;
      statusCode >= 502 && statusCode <= 504
    }
  }

  /**
    The diagnostic message "<METHOD> <host><uri>: <status line>": the method,
    one space, the host immediately followed by the URI, a colon and a space,
    then the status line.
   */
  function BuildMessage(requestLine: RequestLine, host: Host, response: Response): (msg: string)
    ensures |msg| == |requestLine.httpMethod| + |host| + |requestLine.uri| + |response.statusLine.text| + 3
    ensures msg[..|requestLine.httpMethod|] == requestLine.httpMethod
    ensures msg[|requestLine.httpMethod|] == ' '
    ensures msg[|requestLine.httpMethod| + 1..|requestLine.httpMethod| + 1 + |host|] == host
    ensures var k := |requestLine.httpMethod| + 1 + |host|;
      msg[k..k + |requestLine.uri|] == requestLine.uri
    ensures var k := |requestLine.httpMethod| + 1 + |host| + |requestLine.uri|;
      msg[k..k + 2] == ": "
    ensures msg[|msg| - |response.statusLine.text|..] == response.statusLine.text
  {
    var httpMethod, uri, statusLine := requestLine.httpMethod, requestLine.uri, response.statusLine.text;
    var msg := httpMethod + " " + host + uri + ": " + statusLine;
    assert msg == httpMethod + " " + (host + (uri + ": " + statusLine));
    assert msg == (httpMethod + " " + host) + (uri + (": " + statusLine));
    assert msg == (httpMethod + " " + host + uri) + (": " + statusLine);
    assert msg == (httpMethod + " " + host + uri + ": ") + statusLine;
    msg
  }

  /**
    Builds the error for a failed exchange: the message is computed once,
    here, and the three arguments are kept as they were given.
   */
  function Create(requestLine: RequestLine, host: Host, response: Response): (e: ResponseException)
    ensures e.Valid()
    ensures e.GetHost() == host
    ensures e.GetRequestLine() == requestLine
    ensures e.GetResponse() == response
  {
    ResponseException(BuildMessage(requestLine, host, response), host, requestLine, response)
  }

  /**
    A record is well-formed (its message is the one built from its other
    fields) exactly when `Create` can produce it.
   */
  lemma ValidIffCreated(e: ResponseException)
    ensures e.Valid() <==> e == Create(e.requestLine, e.host, e.response)
  {
  }

  /** The retry decision depends on the status code and nothing else. */
  lemma RecoverableDependsOnlyOnStatusCode(e1: ResponseException, e2: ResponseException)
    requires e1.response.statusLine.statusCode == e2.response.statusLine.statusCode
    ensures e1.IsRecoverable() == e2.IsRecoverable()
  {
  }

  /**
    Neither 500 nor 501, nor any client error, nor any code from 505 up is
    recoverable.
   */
  lemma NotRecoverableOutsideGateway(e: ResponseException)
    requires var code := e.response.statusLine.statusCode;
      code == INTERNAL_SERVER_ERROR || code == NOT_IMPLEMENTED ||
      IsClientError(code) || code >= HTTP_VERSION_NOT_SUPPORTED
    ensures !e.IsRecoverable()
  {
  }

  /** The status codes, among 100 to 599, that make a failure recoverable. */
  function RecoverableCodes(requestLine: RequestLine, host: Host, statusText: string): (codes: set<int>)
  {
    set code | 100 <= code <= 599 && Create(requestLine, host, Response(StatusLine(statusText, code))).IsRecoverable()
  }

  /**
    Over the whole range of valid status codes, whatever the request, host
    and status text, exactly three codes lead to a retry.
   */
  lemma ExactlyThreeRecoverableCodes(requestLine: RequestLine, host: Host, statusText: string)
    ensures RecoverableCodes(requestLine, host, statusText) == {BAD_GATEWAY, SERVICE_UNAVAILABLE, GATEWAY_TIMEOUT}
    ensures |RecoverableCodes(requestLine, host, statusText)| == 3
  {
  }

  /**
    The text of `s` up to (not including) its first space, or all of `s`
    when it has none.
   */
  function FirstWord(s: string): (w: string)
    ensures w <= s
    ensures ' ' !in w
    ensures |w| < |s| ==> s[|w|] == ' '
  {
    if s == [] || s[0] == ' ' then [] else [s[0]] + FirstWord(s[1..])
  }

  /**
    An HTTP method is a token (section 9.1 of RFC 9110) and holds no space,
    so the method can be read back from the message as its first word.
   */
  lemma MethodIsFirstWordOfMessage(requestLine: RequestLine, host: Host, response: Response)
    requires ' ' !in requestLine.httpMethod
    ensures FirstWord(BuildMessage(requestLine, host, response)) == requestLine.httpMethod
  {
  }

  /**
    For one request to one node, two errors carry the same message exactly
    when their status lines render to the same text.
   */
  lemma MessageDeterminesStatusLine(requestLine: RequestLine, host: Host, r1: Response, r2: Response)
    ensures BuildMessage(requestLine, host, r1) == BuildMessage(requestLine, host, r2)
      <==> r1.statusLine.text == r2.statusLine.text
  {
  }

  /** The message of a GET that a node answered with 503. */
  lemma ExampleMessage()
    ensures Create(RequestLine("GET", "/idx/_search"), "http://h:9200",
        Response(StatusLine("HTTP/1.1 503 Service Unavailable", 503))).message
      == "GET http://h:9200/idx/_search: HTTP/1.1 503 Service Unavailable"
    ensures Create(RequestLine("GET", "/idx/_search"), "http://h:9200",
        Response(StatusLine("HTTP/1.1 503 Service Unavailable", 503))).IsRecoverable()
  {
    assert "GET" + " " == "GET ";
    assert "GET " + "http://h:9200" == "GET http://h:9200";
    assert "GET http://h:9200" + "/idx/_search" == "GET http://h:9200/idx/_search";
    assert "GET http://h:9200/idx/_search" + ": " == "GET http://h:9200/idx/_search: ";
    assert "GET http://h:9200/idx/_search: " + "HTTP/1.1 503 Service Unavailable"
      == "GET http://h:9200/idx/_search: HTTP/1.1 503 Service Unavailable";
  }
}
