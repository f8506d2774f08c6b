/**
 * The parts of the HTTP stack the client library touches: the request message
 * it fills in step by step, the response it reads, and the `HttpClient` whose
 * disposal it may own.
 */
module Http {
  import opened Wrappers

  datatype HttpMethod = Get | Post | Other(name: string)

  datatype Header = Header(name: string, value: string)

  /** A `Content-Type` header: the media type and an optional charset parameter. */
  datatype MediaTypeHeader = MediaTypeHeader(mediaType: string, charset: Option<string>)

  /** A request body: raw bytes from a stream, or text. */
  datatype Payload = Bytes(data: seq<bv8>) | Text(text: string)

  datatype HttpContent = HttpContent(payload: Payload, contentType: Option<MediaTypeHeader>)

  /** The value of a request message once it is handed to the transport. */
  datatype Request = Request(httpMethod: HttpMethod, uri: string, headers: seq<Header>, content: Option<HttpContent>)

  /** `HttpRequestMessage`: method and URI fixed, headers and content filled in afterwards. */
  class HttpRequestMessage {
    const httpMethod: HttpMethod
    const requestUri: string
    var headers: seq<Header>
    var content: Option<HttpContent>

    constructor (httpMethod: HttpMethod, requestUri: string)
      ensures this.httpMethod == httpMethod && this.requestUri == requestUri
      ensures headers == [] && content == None
    {
      this.httpMethod := httpMethod;
      this.requestUri := requestUri;
      headers := [];
      content := None;
    }

    /** `Headers.Add(name, value)`. */
    method AddHeader(name: string, value: string)
      modifies this`headers
      ensures headers == old(headers) + [Header(name, value)]
    {
      headers := headers + [Header(name, value)];
    }

    /** The `Content` setter. */
    method SetContent(c: HttpContent)
      modifies this`content
      ensures content == Some(c)
    {
      content := Some(c);
    }

    /** `Content.Headers.ContentType = t`. */
    method SetContentType(t: MediaTypeHeader)
      requires content.Some?
      modifies this`content
      ensures content == Some(old(content.value).(contentType := Some(t)))
    {
      content := Some(content.value.(contentType := Some(t)));
    }

    /** The request as the transport receives it. */
    function Snapshot(): Request
      reads this
    {
      Request(httpMethod, requestUri, headers, content)
    }
  }

  /** A response body already read as text, with the media type of its `Content-Type`. */
  datatype ResponseContent = ResponseContent(text: string, mediaType: string)

  datatype HttpResponse = HttpResponse(statusCode: int, content: Option<ResponseContent>)

  /** `IsSuccessStatusCode`: the status is in the 2xx class. */
  predicate IsSuccessStatusCode(statusCode: int)
  {
    200 <= statusCode <= 299
  }

  /** `HttpClient`, reduced to its disposal; `disposeCalls` counts `Dispose()` calls on it. */
  class HttpClient {
    ghost var disposeCalls: nat

    constructor ()
      ensures disposeCalls == 0
    {
      disposeCalls := 0;
    }

    method Dispose()
      modifies this
      ensures disposeCalls == old(disposeCalls) + 1
    {
      disposeCalls := disposeCalls + 1;
    }
  }
}
