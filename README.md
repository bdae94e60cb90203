# Elasticsearch response error, modelled in Dafny

This project models the error value that the Elasticsearch low-level REST
client builds when a node answers a request with an error status
(`ElasticsearchResponseException`). The error records three things: the
node that answered (its host), the request line that was sent, and the
response that came back. It carries a diagnostic message of the form
`<METHOD> <host><uri>: <status line>`. It also tells the client whether the
same request may be retried on another node. That is the case exactly for
status codes 502, 503 and 504 (Bad Gateway, Service Unavailable and Gateway
Timeout, sections 15.6.3 to 15.6.5 of RFC 9110). Status 500 is deliberately
not retried, because the server still answers 500 in places where the
client is at fault.

Files:

- `http.dfy`, module `Http`: the request line, the status line (its text and
  its numeric code), the response, the host, and the RFC 9110 server-error
  constants.
- `response_exception.dfy`, module `ResponseErrors`: the error record, how
  it is built, its message, its accessors, the retry predicate, and the
  lemmas about them.

The Java class has only `final` fields, so the model is an immutable
datatype. The response is kept as a snapshot of its status line.
`Create` stands for the Java constructor. `IsRecoverable` is a
predicate member of the record. Java's integer width plays no part:
the status code is only compared, never computed with.

## Model

| member | source | states |
|---|---|---|
| `ResponseErrors.BuildMessage` | client/src/main/java/org/elasticsearch/client/ElasticsearchResponseException.java:44-46 | The message is the method, one space, the host, the URI right after the host, then `": "`, then the status line, in that order. Each segment is stated at its position. Its length is the sum of the four parts plus the three separator characters. |
| `ResponseErrors.Create` | client/src/main/java/org/elasticsearch/client/ElasticsearchResponseException.java:37-42 | The built error carries the message made from the three arguments (`Valid`). `GetHost`, `GetRequestLine` and `GetResponse` return exactly the arguments given (lines 60-76). |
| `ResponseErrors.ValidIffCreated` | client/src/main/java/org/elasticsearch/client/ElasticsearchResponseException.java:33-41 | A record is `Valid` (its message is the one built from its host, request line and response) exactly when it is what `Create` makes of those three fields. |
| `ResponseErrors.ResponseException.IsRecoverable` | client/src/main/java/org/elasticsearch/client/ElasticsearchResponseException.java:51-55 | An error is recoverable if and only if its status code is one of Bad Gateway, Service Unavailable or Gateway Timeout (502, 503, 504). |
| `ResponseErrors.ResponseException.GetHost` | client/src/main/java/org/elasticsearch/client/ElasticsearchResponseException.java:60-62 | Returns the stored host. `Create` stores its host argument there. |
| `ResponseErrors.ResponseException.GetRequestLine` | client/src/main/java/org/elasticsearch/client/ElasticsearchResponseException.java:67-69 | Returns the stored request line. `Create` stores its request-line argument there. |
| `ResponseErrors.ResponseException.GetResponse` | client/src/main/java/org/elasticsearch/client/ElasticsearchResponseException.java:74-76 | Returns the stored response. `Create` stores its response argument there. |
| `ResponseErrors.NotRecoverableOutsideGateway` | client/src/main/java/org/elasticsearch/client/ElasticsearchResponseException.java:53-54 | Status 500, status 501, every 4xx code and every code from 505 up are never recoverable. |
| `ResponseErrors.RecoverableDependsOnlyOnStatusCode` | client/src/main/java/org/elasticsearch/client/ElasticsearchResponseException.java:51-54 | Two errors with the same status code get the same retry decision, whatever their host, request, status text or message. |
| `ResponseErrors.ExactlyThreeRecoverableCodes` | client/src/main/java/org/elasticsearch/client/ElasticsearchResponseException.java:51-55 | Among the status codes 100 to 599, exactly three are recoverable: {502, 503, 504}. This holds for every request, host and status text. |
| `ResponseErrors.FirstWord` | client/src/main/java/org/elasticsearch/client/ElasticsearchResponseException.java:45 | The first word of a string is a prefix of it and contains no space. Either it is the whole string, or a space follows it. This is the reading side of the message format. |
| `ResponseErrors.MethodIsFirstWordOfMessage` | client/src/main/java/org/elasticsearch/client/ElasticsearchResponseException.java:45 | When the method contains no space (an HTTP method is a token), the first word of the message is the method. |
| `ResponseErrors.MessageDeterminesStatusLine` | client/src/main/java/org/elasticsearch/client/ElasticsearchResponseException.java:45 | For the same request to the same host, two messages are equal if and only if the status-line texts are equal. |
| `ResponseErrors.ExampleMessage` | client/src/main/java/org/elasticsearch/client/ElasticsearchResponseException.java:37-55 | A GET of `/idx/_search` on `http://h:9200` answered with `HTTP/1.1 503 Service Unavailable` gives the message `GET http://h:9200/idx/_search: HTTP/1.1 503 Service Unavailable`. That error is recoverable. |

## Left out

- The Java class extends `IOException`. Throwing and catching are not modelled: the error is a plain value, and its `message` field stands for the message passed to the superclass.
- The host and the status line are opaque strings. How the HTTP library renders a host or a status line to text (`HttpHost.toString()`, `StatusLine.toString()`) is not modelled. The status code is a separate field, with no relation to the status-line text assumed.
- The response is kept as a snapshot value. In Java, `response` is a final reference to a mutable object, and `isRecoverable` reads its status line again on every call, while the message fixed it once at construction. The model does not capture a status line that changes after construction. Any record built with the datatype constructor rather than `Create` need not be `Valid`.
- The response handle is reduced to its status line. Its body, its connection and closing it belong to the caller and the HTTP library.
- A response without a status line is not modelled. In Java that case fails with a null dereference while the message is built.
- The status code is not restricted to 100-599, because the code does not check it. The range appears only in `ExactlyThreeRecoverableCodes`.
- `x-pack/plugin/ccr/src/main/java/org/elasticsearch/xpack/ccr/rest/RestFollowStatsAction.java` is left out as a whole. It is a thin REST adapter over framework code that is not part of this model:
  - route registration through `RestController`;
  - comma splitting of the `index` parameter through `Strings.splitStringByCommaToArray`;
  - asynchronous execution through `NodeClient.execute` with a listener;
  - `getName`, which returns the constant `"ccr_stats"`.
- The following are not asserted, because neither source file states them: last-registered-wins route replacement, exactly-once callback delivery, mapping a backend failure to a 404 or 500 response, and pairing of concurrent requests with their responses.
- The retry loop over nodes that consults `IsRecoverable` belongs to the client code that calls this class and is not part of this model.
