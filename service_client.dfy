/**
 * `ServiceClient`, the base of the service clients: it builds an authorised
 * request, sends it, turns the response into a typed result or an exception,
 * and releases the `HttpClient` it owns when it is disposed.
 *
 * The JSON serialiser, `Uri.IsWellFormedUriString` and the network exchange
 * are collaborators this model does not interpret; they are passed in as a
 * `Collaborators` value of total functions.
 */
module ServiceClients {
  import opened Wrappers
  import opened Text
  import opened Http

  /** The request body: null, a `Stream`, or any other object. */
  datatype RequestBody<T> = NullBody | StreamBody(data: seq<bv8>) | ObjectBody(value: T)

  /** The service's error description, `{ code, message }`. */
  datatype ClientError = ClientError(code: string, message: string)

  /** The error envelope `{ "error": { ... } }`; its `Error` may be null. */
  datatype WrappedClientError = WrappedClientError(error: Option<ClientError>)

  /** What a call of `JsonConvert.DeserializeObject` gives: a value, null, or a thrown reader error. */
  datatype JsonResult<T> = Parsed(value: T) | ParsedNull | Malformed

  /**
   * How a request ends: a value, `default(TResponse)`, or one of the three
   * exceptions the decoding path can raise.
   */
  datatype Outcome<T> =
    | Deserialized(value: T)
    | DefaultValue
    | ClientException(error: ClientError, statusCode: int)
    | HttpRequestException(statusCode: int)
    | JsonException

  datatype Collaborators<!Req, Resp> = Collaborators(
    isWellFormedRelativeUri: string -> bool,
    serialize: Req -> string,
    transport: Request -> HttpResponse,
    deserialize: string -> JsonResult<Resp>,
    deserializeEnvelope: string -> JsonResult<WrappedClientError>)

  const OctetStream: string := "application/octet-stream"
  const ApplicationJson: string := "application/json"

  // ---------------------------------------------------------------------------
  // Building the request

  /** The request URI: relative URLs are appended to the API root, others used as they are. */
  function ResolveUri(apiRoot: string, apiUrl: string, urlIsRelative: bool): string
  {
    if urlIsRelative then apiRoot + apiUrl else apiUrl
  }

  /** The request content chosen for a body. */
  function EncodeBody<T>(body: RequestBody<T>, serialize: T -> string): (c: Option<HttpContent>)
    ensures c.None? <==> body.NullBody?
    ensures c.Some? ==> c.value.contentType.Some?
    ensures body.StreamBody? ==> c.value.payload == Bytes(body.data) && c.value.contentType.value == MediaTypeHeader(OctetStream, None)
    ensures body.ObjectBody? ==> c.value.payload == Text(serialize(body.value))
    ensures body.ObjectBody? ==> c.value.contentType.value == MediaTypeHeader(ApplicationJson, Some("utf-8"))
  {
    match body
    case NullBody => None
    case StreamBody(data) => Some(HttpContent(Bytes(data), Some(MediaTypeHeader(OctetStream, None))))
    case ObjectBody(v) => Some(HttpContent(Text(serialize(v)), Some(MediaTypeHeader(ApplicationJson, Some("utf-8")))))
  }

  /** The request `SendAsync` hands to the transport. */
  function RequestFor<Req, Resp>(apiRoot: string, authKey: string, authValue: string, httpMethod: HttpMethod,
                                 apiUrl: string, body: RequestBody<Req>, env: Collaborators<Req, Resp>): Request
  {
    Request(httpMethod,
            ResolveUri(apiRoot, apiUrl, env.isWellFormedRelativeUri(apiUrl)),
            [Header(authKey, authValue)],
            EncodeBody(body, env.serialize))
  }

  /**
   * The request carries the given method and exactly the one authorisation
   * header; a relative URL is the API root followed by the URL with nothing
   * inserted or removed, any other URL is used unchanged.
   */
  lemma RequestForShape<Req, Resp>(apiRoot: string, authKey: string, authValue: string, httpMethod: HttpMethod,
                                   apiUrl: string, body: RequestBody<Req>, env: Collaborators<Req, Resp>)
    ensures var r := RequestFor(apiRoot, authKey, authValue, httpMethod, apiUrl, body, env);
      && r.httpMethod == httpMethod
      && |r.headers| == 1 && r.headers[0] == Header(authKey, authValue)
      && (env.isWellFormedRelativeUri(apiUrl) ==>
            |r.uri| == |apiRoot| + |apiUrl| && r.uri[..|apiRoot|] == apiRoot && r.uri[|apiRoot|..] == apiUrl)
      && (!env.isWellFormedRelativeUri(apiUrl) ==> r.uri == apiUrl)
      && r.content == EncodeBody(body, env.serialize)
  {
  }

  // ---------------------------------------------------------------------------
  // Decoding the response

  /** The response has content whose media type contains `application/json`. */
  predicate DeclaresJson(response: HttpResponse)
  {
    response.content.Some? && Contains(response.content.value.mediaType, ApplicationJson)
  }

  /**
   * `GetContent`: the body is read on success, and on failure only when it is
   * declared as JSON; otherwise the empty string stands for it.
   */
  function GetContent(response: HttpResponse): (text: string)
    ensures text != "" ==> response.content.Some? && text == response.content.value.text
    ensures response.content.Some? && (IsSuccessStatusCode(response.statusCode) || DeclaresJson(response)) ==>
              text == response.content.value.text
    ensures !IsSuccessStatusCode(response.statusCode) && !DeclaresJson(response) ==> text == ""
  {
    if IsSuccessStatusCode(response.statusCode) then
      if response.content.Some? then response.content.value.text else ""
    else if response.content.Some? && Contains(response.content.value.mediaType, ApplicationJson) then
      response.content.value.text
    else
      ""
  }

  /**
   * `GetResponse`: on success a non-blank body is deserialised and a blank one
   * gives the default value; on failure the outcome is always an exception,
   * the service's error when a JSON envelope carries one, else the status.
   */
  function GetResponse<T>(response: HttpResponse, responseContent: string,
                          deserialize: string -> JsonResult<T>,
                          deserializeEnvelope: string -> JsonResult<WrappedClientError>): (r: Outcome<T>)
    ensures IsSuccessStatusCode(response.statusCode) ==> r.Deserialized? || r.DefaultValue? || r.JsonException?
    ensures !IsSuccessStatusCode(response.statusCode) ==>
              r.ClientException? || r.HttpRequestException? || r.JsonException?
    ensures IsSuccessStatusCode(response.statusCode) && IsBlank(responseContent) ==> r == DefaultValue
    ensures r.Deserialized? ==> !IsBlank(responseContent) && deserialize(responseContent) == Parsed(r.value)
    ensures r.ClientException? ==>
              && r.statusCode == response.statusCode
              && DeclaresJson(response)
              && deserializeEnvelope(responseContent) == Parsed(WrappedClientError(Some(r.error)))
    ensures r.HttpRequestException? ==> r.statusCode == response.statusCode
    ensures !IsSuccessStatusCode(response.statusCode) && !DeclaresJson(response) ==>
              r == HttpRequestException(response.statusCode)
    ensures r.JsonException? <==>
              if IsSuccessStatusCode(response.statusCode) then
                !IsBlank(responseContent) && deserialize(responseContent) == Malformed
              else
                DeclaresJson(response) && deserializeEnvelope(responseContent) == Malformed
  {
    if IsSuccessStatusCode(response.statusCode) then
      if !IsBlank(responseContent) then
        match deserialize(responseContent)
        case Parsed(v) => Deserialized(v)
        case ParsedNull => DefaultValue
        case Malformed => JsonException
      else
        DefaultValue
    else if response.content.Some? && Contains(response.content.value.mediaType, ApplicationJson) then
      match deserializeEnvelope(responseContent)
      case Malformed => JsonException
      case Parsed(WrappedClientError(Some(error))) => ClientException(error, response.statusCode)
      case _ => HttpRequestException(response.statusCode)   // EnsureSuccessStatusCode
    else
      HttpRequestException(response.statusCode)               // EnsureSuccessStatusCode
  }

  /** What the continuation chain of `SendAsync` makes of a response. */
  function Receive<Req, Resp>(response: HttpResponse, env: Collaborators<Req, Resp>): Outcome<Resp>
  {
    GetResponse(response, GetContent(response), env.deserialize, env.deserializeEnvelope)
  }

  /** A successful response without content, or with a blank body, gives the default value. */
  lemma EmptySuccessGivesDefault<Req, Resp>(response: HttpResponse, env: Collaborators<Req, Resp>)
    requires IsSuccessStatusCode(response.statusCode)
    requires response.content.None? || IsBlank(response.content.value.text)
    ensures Receive(response, env) == DefaultValue
  {
  }

  /** A successful response with a non-blank body gives what the deserialiser makes of it. */
  lemma SuccessDeserialisesBody<Req, Resp>(response: HttpResponse, env: Collaborators<Req, Resp>)
    requires IsSuccessStatusCode(response.statusCode)
    requires response.content.Some? && !IsBlank(response.content.value.text)
    ensures var parsed := env.deserialize(response.content.value.text);
      Receive(response, env) == match parsed
        case Parsed(v) => Deserialized(v)
        case ParsedNull => DefaultValue
        case Malformed => JsonException
  {
  }

  /** A JSON error envelope with an error on a failure status becomes a `ClientException`. */
  lemma ServiceErrorIsRaised<Req, Resp>(response: HttpResponse, env: Collaborators<Req, Resp>, error: ClientError)
    requires !IsSuccessStatusCode(response.statusCode) && DeclaresJson(response)
    requires env.deserializeEnvelope(response.content.value.text) == Parsed(WrappedClientError(Some(error)))
    ensures Receive(response, env) == ClientException(error, response.statusCode)
  {
  }

  /**
   * A failure status with a JSON media type whose body the reader rejects ends
   * in the reader's exception, before `EnsureSuccessStatusCode` is reached.
   */
  lemma MalformedEnvelopeIsJsonError<Req, Resp>(response: HttpResponse, env: Collaborators<Req, Resp>)
    requires !IsSuccessStatusCode(response.statusCode) && DeclaresJson(response)
    requires env.deserializeEnvelope(response.content.value.text) == Malformed
    ensures Receive(response, env) == JsonException
  {
  }

  /**
   * A failure status without a JSON body, or whose envelope is null or has no
   * error, ends in the transport error of `EnsureSuccessStatusCode`.
   */
  lemma FailureWithoutEnvelopeIsTransportError<Req, Resp>(response: HttpResponse, env: Collaborators<Req, Resp>)
    requires !IsSuccessStatusCode(response.statusCode)
    requires DeclaresJson(response) ==>
      env.deserializeEnvelope(response.content.value.text) in {ParsedNull, Parsed(WrappedClientError(None))}
    ensures Receive(response, env) == HttpRequestException(response.statusCode)
  {
  }

  /** The default value is returned only for a success status; a failure never yields a value. */
  lemma DefaultOnlyOnSuccess<Req, Resp>(response: HttpResponse, env: Collaborators<Req, Resp>)
    ensures Receive(response, env).DefaultValue? || Receive(response, env).Deserialized?
            ==> IsSuccessStatusCode(response.statusCode)
  {
  }

  // ---------------------------------------------------------------------------
  // Disposal

  /** The two flags `_ownHttpClient` and `_disposed`. */
  datatype DisposalState = DisposalState(ownsClient: bool, disposed: bool)

  /** `Dispose(disposing)`: the new flags, and whether the `HttpClient` is disposed. */
  function DisposeStep(s: DisposalState, disposing: bool): (r: (DisposalState, bool))
    ensures r.0 == s.(disposed := true)
    ensures r.1 ==> s.ownsClient && disposing && !s.disposed
  {
    if s.disposed then (s, false)
    else (s.(disposed := true), disposing && s.ownsClient)
  }

  /** How many times a run of `Dispose(disposing)` calls disposes the `HttpClient`. */
  function ReleaseCount(s: DisposalState, calls: seq<bool>): nat
    decreases |calls|
  {
    if calls == [] then 0
    else
      var (next, released) := DisposeStep(s, calls[0]);
      (if released then 1 else 0) + ReleaseCount(next, calls[1..])
  }

  lemma {:induction false} DisposedReleasesNothing(s: DisposalState, calls: seq<bool>)
    requires s.disposed
    ensures ReleaseCount(s, calls) == 0
  {
    if calls != [] {
      DisposedReleasesNothing(s, calls[1..]);
    }
  }

  /**
   * Over any run of calls the client is disposed at most once: exactly when it
   * is owned, not yet disposed, and the first call is `Dispose(true)`. So a
   * borrowed client is never disposed, repeated disposal does nothing, and
   * after the finalizer's `Dispose(false)` nothing is released.
   */
  lemma {:induction false} ReleasedAtMostOnce(s: DisposalState, calls: seq<bool>)
    ensures ReleaseCount(s, calls) == if s.ownsClient && !s.disposed && |calls| != 0 && calls[0] then 1 else 0
  {
    if calls != [] {
      DisposedReleasesNothing(DisposeStep(s, calls[0]).0, calls[1..]);
    }
  }

  class ServiceClient {
    const httpClient: HttpClient
    const ownHttpClient: bool
    var disposed: bool

    /** Root of the API URL, without a trailing slash. */
    var apiRoot: string
    /** Name and value of the authorisation header. */
    var authKey: string
    var authValue: string

    function State(): DisposalState
      reads this
    {
      DisposalState(ownHttpClient, disposed)
    }

    /** An owned `HttpClient` is disposed at most once, and only after this client is disposed. */
    ghost predicate Valid()
      reads this, httpClient
    {
      ownHttpClient ==> httpClient.disposeCalls <= 1 && (httpClient.disposeCalls == 1 ==> disposed)
    }

    /** The default constructor creates and owns its `HttpClient`. */
    constructor ()
      ensures Valid() && fresh(httpClient)
      ensures ownHttpClient && !disposed && httpClient.disposeCalls == 0
      ensures apiRoot == "" && authKey == "" && authValue == ""
    {
      httpClient := new HttpClient();
      ownHttpClient := true;
      disposed := false;
      apiRoot, authKey, authValue := "", "", "";
    }

    /** The test constructor borrows an injected `HttpClient`. */
    constructor WithHttpClient(client: HttpClient)
      ensures Valid() && httpClient == client
      ensures !ownHttpClient && !disposed
      ensures apiRoot == "" && authKey == "" && authValue == ""
    {
      httpClient := client;
      ownHttpClient := false;
      disposed := false;
      apiRoot, authKey, authValue := "", "", "";
    }

    /** `Dispose(bool disposing)`. */
    method DisposeCore(disposing: bool)
      requires Valid()
      modifies this`disposed, httpClient
      ensures Valid()
      ensures State() == DisposeStep(old(State()), disposing).0
      ensures httpClient.disposeCalls == old(httpClient.disposeCalls) + (if DisposeStep(old(State()), disposing).1 then 1 else 0)
    {
      if disposed {
        return;
      }
      if disposing && ownHttpClient {
        httpClient.Dispose();
      }
      disposed := true;
    }

    /** `IDisposable.Dispose()`: disposes an owned client unless already disposed. */
    method Dispose()
      requires Valid()
      modifies this`disposed, httpClient
      ensures Valid() && disposed
      ensures httpClient.disposeCalls == old(httpClient.disposeCalls) + (if ownHttpClient && !old(disposed) then 1 else 0)
    {
      DisposeCore(true);
    }

    /** The finalizer: `Dispose(false)`, which never disposes the client but marks this one disposed. */
    method Finalize()
      requires Valid()
      modifies this`disposed, httpClient
      ensures Valid() && disposed
      ensures httpClient.disposeCalls == old(httpClient.disposeCalls)
    {
      DisposeCore(false);
    }

    /**
     * `SendAsync`: builds the request step by step, hands it to the transport
     * and decodes the response.
     */
    method SendAsync<Req, Resp>(httpMethod: HttpMethod, apiUrl: string, requestBody: RequestBody<Req>,
                                env: Collaborators<Req, Resp>)
      returns (sent: Request, outcome: Outcome<Resp>)
      ensures sent == RequestFor(apiRoot, authKey, authValue, httpMethod, apiUrl, requestBody, env)
      ensures outcome == Receive(env.transport(sent), env)
    {
      var urlIsRelative := env.isWellFormedRelativeUri(apiUrl);
      var requestUri := if urlIsRelative then apiRoot + apiUrl else apiUrl;
      var request := new HttpRequestMessage(httpMethod, requestUri);
      request.AddHeader(authKey, authValue);
      match requestBody {
        case NullBody =>
        case StreamBody(data) =>
          request.SetContent(HttpContent(Bytes(data), None));
          request.SetContentType(MediaTypeHeader(OctetStream, None));
        case ObjectBody(value) =>
          request.SetContent(HttpContent(Text(env.serialize(value)), Some(MediaTypeHeader(ApplicationJson, Some("utf-8")))));
      }
      sent := request.Snapshot();
      var response := env.transport(sent);
      var responseContent := GetContent(response);
      outcome := GetResponse(response, responseContent, env.deserialize, env.deserializeEnvelope);
    }

    /** `PostAsync`: a POST request (its documentation calls it GET). */
    method PostAsync<Req, Resp>(apiUrl: string, requestBody: RequestBody<Req>, env: Collaborators<Req, Resp>)
      returns (sent: Request, outcome: Outcome<Resp>)
      ensures sent.httpMethod == Post
      ensures sent == RequestFor(apiRoot, authKey, authValue, Post, apiUrl, requestBody, env)
      ensures outcome == Receive(env.transport(sent), env)
    {
      sent, outcome := SendAsync(Post, apiUrl, requestBody, env);
    }

    /** `GetAsync`: a GET request (its documentation calls it POST). */
    method GetAsync<Req, Resp>(apiUrl: string, requestBody: RequestBody<Req>, env: Collaborators<Req, Resp>)
      returns (sent: Request, outcome: Outcome<Resp>)
      ensures sent.httpMethod == Get
      ensures sent == RequestFor(apiRoot, authKey, authValue, Get, apiUrl, requestBody, env)
      ensures outcome == Receive(env.transport(sent), env)
    {
      sent, outcome := SendAsync(Get, apiUrl, requestBody, env);
    }
  }
}
