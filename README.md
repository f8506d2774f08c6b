# Cognitive Services client library: service client, emotion ranking and equality

This project models three parts of the C# client library for the Cognitive
Services emotion API in Dafny, and proves properties of the model.

- **`ServiceClient`** is the base of every service client.
  - `SendAsync` builds an `HttpRequestMessage` step by step. The URL is the
    API root followed by the given URL when that URL is a well-formed
    relative reference; otherwise the URL is used as it is.
  - It adds the single authorisation header `AuthKey: AuthValue`.
  - It attaches no content for a null body, a stream as
    `application/octet-stream`, and any other body as UTF-8 JSON.
  - `GetContent` decides whether the response body is read.
  - `GetResponse` turns the response into a value, the default value, a
    `ClientException` carrying the service's error envelope and the status,
    a transport error from `EnsureSuccessStatusCode`, or a JSON reader error.
  - The class owns the `HttpClient` it creates and borrows one that is
    injected. When `Dispose()`, `Dispose(bool)` and the finalizer run one after
    another, they release an owned client at most once.
- **`Emotion`** holds eight scores. `ToRankedList` orders the eight
  (label, score) pairs by descending score, then by ascending label.
  `Equals` and `GetHashCode` use seven of the fields and leave `Contempt` out.
- **`FaceAttributes`** wraps one possibly-null `Emotion`. Its `Equals`
  delegates to `Emotion.Equals`. Its hash XORs a value with itself, so it is
  a constant.

Files:

- `wrappers.dfy` (`Wrappers`): `Option`, and `ObjectArg`, which is what
  `o as T` sees of an `Equals` argument.
- `text.dfy` (`Text`): the ordinal string order, `String.Contains` and
  `String.IsNullOrWhiteSpace`.
- `emotions.dfy` (`Emotions`), `contract.dfy` (`Contract`): the two value
  types.
- `http.dfy` (`Http`): the request message class, the response values, and
  `HttpClient` with a ghost count of its `Dispose()` calls.
- `service_client.dfy` (`ServiceClients`): request building, response
  decoding, the disposal state machine and the `ServiceClient` class.

Modelling choices:

- Scores are `real`, so NaN does not arise. C# `int` hashes are `bv32`.
  `float.GetHashCode` is a parameter `fieldHash: real -> bv32`.
- `ToRankedList` is modelled as an insertion sort, `SortByRank`. The model
  proves that exactly one ranked ordering of the eight entries exists. The
  LINQ stable sort and this sort therefore agree, whatever order the
  dictionary is enumerated in.
- The JSON serialiser, the two deserialiser calls, `Uri.IsWellFormedUriString`
  and the network exchange are the fields of a `Collaborators` value of total
  functions. `SendAsync` takes one as a parameter.
- A deserialiser call gives `Parsed(v)`, `ParsedNull` or `Malformed`.
  `Malformed` stands for the exception the call throws.
- `ApiRoot`, `AuthKey` and `AuthValue` start as `""`. C# starts them as
  `null`. For `ApiRoot` the two agree, since `null + apiUrl` and
  `"" + apiUrl` are the same string. For `AuthKey` they do not agree: see
  "## Left out".
- `Emotion.GetHashCode` is the function `XorOfHashes` applied to the seven
  compared scores, Anger to Surprise without Contempt. It XORs their hashes
  from left to right, starting with the first hash, as the source's
  expression does.

Two behaviours of the code are worth stating:

- On a failure status with a JSON media type whose body is not JSON,
  `JsonConvert.DeserializeObject` (ClientLibrary/ServiceClient.cs:256)
  throws. The outcome is therefore `JsonException`, and the
  `EnsureSuccessStatusCode` error is never reached.
- `Equals` compares seven scores and leaves `Contempt` out, although
  `ToRankedList` includes it. `GetHashCode` leaves it out too.

## Model

| member | source | states |
|---|---|---|
| ServiceClients.ServiceClient.constructor | ClientLibrary/ServiceClient.cs:83-85 | the default constructor creates a fresh `HttpClient`, owns it, and is not disposed |
| ServiceClients.ServiceClient.WithHttpClient | ClientLibrary/ServiceClient.cs:91-104 | the test constructor keeps the injected client, does not own it, and is not disposed |
| ServiceClients.ServiceClient.DisposeCore | ClientLibrary/ServiceClient.cs:115-128 | `Dispose(bool)` moves the two flags as `DisposeStep` says and disposes the client exactly when `DisposeStep` releases; it keeps the invariant that an owned client is disposed at most once and only after this client is disposed |
| ServiceClients.ServiceClient.Dispose | ClientLibrary/ServiceClient.cs:109-113 | after `Dispose()` the client is disposed; an owned client is disposed once if this client was not yet disposed, a borrowed one never |
| ServiceClients.ServiceClient.Finalize | ClientLibrary/ServiceClient.cs:130-133 | the finalizer marks the client disposed and never disposes the `HttpClient` |
| ServiceClients.DisposeStep | ClientLibrary/ServiceClient.cs:115-128 | one `Dispose(disposing)` always leaves `_disposed` set and ownership unchanged; it releases only an owned, not yet disposed client when `disposing` is true |
| ServiceClients.ReleasedAtMostOnce | ClientLibrary/ServiceClient.cs:109-133 | over any run of `Dispose(true)`/`Dispose(false)` calls the client is released exactly once if it is owned, not yet disposed and the first call is `Dispose(true)`, and never otherwise: repeated disposal is a no-op, a borrowed client is never released, and after the finalizer nothing is released |
| ServiceClients.DisposedReleasesNothing | ClientLibrary/ServiceClient.cs:117-120 | once `_disposed` is set, no further call releases anything |
| ServiceClients.ServiceClient.SendAsync | ClientLibrary/ServiceClient.cs:193-219 | the request built step by step is `RequestFor` of the client's root, credentials, method, URL and body, and the outcome is `GetResponse` of the transport's response and its `GetContent` |
| ServiceClients.ServiceClient.PostAsync | ClientLibrary/ServiceClient.cs:162-165 | sends method POST, with the request and outcome of `SendAsync` |
| ServiceClients.ServiceClient.GetAsync | ClientLibrary/ServiceClient.cs:177-180 | sends method GET, with the request and outcome of `SendAsync` |
| ServiceClients.RequestForShape | ClientLibrary/ServiceClient.cs:195-199 | the request has the given method and exactly one header, `AuthKey: AuthValue`; for a relative URL the URI is the API root followed by the URL with nothing inserted or removed, otherwise the URL unchanged |
| ServiceClients.EncodeBody | ClientLibrary/ServiceClient.cs:201-212 | a null body gives no content; a stream body is attached unchanged as `application/octet-stream` with no charset parameter; any other body becomes its JSON serialisation as `application/json; charset=utf-8` |
| ServiceClients.GetContent | ClientLibrary/ServiceClient.cs:224-238 | a non-empty result is always the body; the body is returned on success when content exists, and on failure only when the media type contains `application/json`; otherwise `""` |
| Text.ContainsIffOccurs | ClientLibrary/ServiceClient.cs:233 | `Contains(s, sub)` holds exactly when `sub` occurs at some position of `s`, as `String.Contains` tests the media type |
| ServiceClients.GetResponse | ClientLibrary/ServiceClient.cs:243-266 | success gives a value, the default or a JSON error, and a blank body gives the default; failure always gives an exception; a `ClientException` carries the envelope's error and the response status; a failure without a JSON media type is the transport error with the status; the outcome is a JSON error exactly when the deserialiser call that runs (the body's on success, the envelope's on a JSON failure) rejects its input |
| ServiceClients.EmptySuccessGivesDefault | ClientLibrary/ServiceClient.cs:245-251 | a success response with no content or a blank body yields `default(TResponse)` and no error |
| ServiceClients.SuccessDeserialisesBody | ClientLibrary/ServiceClient.cs:245-250 | a success response with a non-blank body yields what the deserialiser makes of it |
| ServiceClients.ServiceErrorIsRaised | ClientLibrary/ServiceClient.cs:254-260 | a failure status with a JSON media type whose envelope has a non-null error raises a `ClientException` with that error and the response status |
| ServiceClients.MalformedEnvelopeIsJsonError | ClientLibrary/ServiceClient.cs:254-257 | a failure status with a JSON media type whose envelope the reader rejects ends in the reader's exception, not in `EnsureSuccessStatusCode` |
| ServiceClients.FailureWithoutEnvelopeIsTransportError | ClientLibrary/ServiceClient.cs:252-264 | a failure without a JSON body, or whose envelope is null or has a null error, ends in the `EnsureSuccessStatusCode` transport error with the status |
| ServiceClients.DefaultOnlyOnSuccess | ClientLibrary/ServiceClient.cs:243-266 | a value or the default value is returned only for a success status |
| Emotions.ToRankedList | ClientLibrary/Emotion.cs:54-70 | the result is a permutation of the eight dictionary entries, non-increasing in score, and entries of equal score are in ascending label order |
| Emotions.RankedListEntries | ClientLibrary/Emotion.cs:56-66 | the ranked list has eight entries, exactly the pairs (label, field value) of the dictionary, each label once |
| Emotions.RankedListIsUnique | ClientLibrary/Emotion.cs:51-69 | any ordering of the eight entries that is ranked by score, then label, equals the ranked list |
| Emotions.RankedIsUnique | ClientLibrary/Emotion.cs:67-69 | two ranked sequences with the same entries are equal |
| Emotions.SortByRankRanked | ClientLibrary/Emotion.cs:67-69 | sorting entries with distinct labels gives a ranked permutation of them |
| Emotions.AllScoresEqualRanking | ClientLibrary/Emotion.cs:51-68 | with all eight scores equal the order is Anger, Contempt, Disgust, Fear, Happiness, Neutral, Sadness, Surprise |
| Emotions.TopEntryIsMaximum | ClientLibrary/Emotion.cs:67 | the first ranked entry has the highest of the eight scores |
| Text.OrdinalLessTransitive | ClientLibrary/Emotion.cs:68 | the label order used by `ThenBy` is transitive |
| Text.OrdinalLessTotal | ClientLibrary/Emotion.cs:68 | any two different labels are ordered one way or the other |
| Emotions.Equals | ClientLibrary/Emotion.cs:73-87 | false for null or another type; otherwise true exactly when the two emotions agree on every score except `Contempt` |
| Emotions.EqualsIsEquivalence | ClientLibrary/Emotion.cs:80-86 | `Equals` is reflexive, symmetric and transitive |
| Emotions.ContemptIgnoredByEquals | ClientLibrary/Emotion.cs:56-86 | two emotions that differ only in `Contempt` are equal, yet their ranked lists differ |
| Emotions.GetHashCode | ClientLibrary/Emotion.cs:89-98 | the hash is the same for `e` and for every emotion equal to it |
| Emotions.HashIgnoresContempt | ClientLibrary/Emotion.cs:56-98 | changing only `Contempt` leaves the hash unchanged but changes the ranked list |
| Emotions.HashConsistentWithEquals | ClientLibrary/Emotion.cs:89-98 | for any per-field hash, equal emotions have equal hashes |
| Contract.Equals | ClientLibrary/Contract/FaceAttributes.cs:45-70 | false for null or another type; true when both emotions are null; false when exactly one is; otherwise true exactly when the emotions agree on every score except `Contempt` |
| Contract.SecondBlockIsRedundant | ClientLibrary/Contract/FaceAttributes.cs:53-69 | the result is decided by the first null check and delegation; the repeated block never changes it |
| Contract.EqualsIsEquivalence | ClientLibrary/Contract/FaceAttributes.cs:45-70 | `Equals` is reflexive, symmetric and transitive |
| Contract.ContemptIgnored | ClientLibrary/Contract/FaceAttributes.cs:59-68 | attributes whose emotions differ only in `Contempt` are equal |
| Contract.GetHashCode | ClientLibrary/Contract/FaceAttributes.cs:72-77 | the hash is `0x3FFFFFFF` when the emotion is null and `0` otherwise, whatever the scores |
| Contract.HashConsistentWithEquals | ClientLibrary/Contract/FaceAttributes.cs:45-77 | equal attributes have equal hashes |

## Left out

- The asynchronous exchange is not modelled: `_httpClient.SendAsync`, the `ContinueWith` chain, the blocking `task.Result` and cancellation. `SendAsync` is a synchronous composition: build the request, pass it to a transport function, then apply `GetContent` and `GetResponse`. In the source, `task` is a task whose result is the inner task, so `task.Result` returns that inner task. `ClientException`, the `EnsureSuccessStatusCode` error and the JSON reader error fault the inner task, and a caller that awaits it sees them unwrapped, as the outcomes here name them. A failure of `_httpClient.SendAsync` itself, or an exception inside `GetContent`, is thrown by `task.Result` wrapped in an `AggregateException`; the model has neither.
- Newtonsoft JSON is not interpreted: the camelCase names, ISO dates and omitted nulls of the settings, and what the deserialiser accepts. The serialiser and both deserialiser calls are uninterpreted functions.
- `JsonConvert.SerializeObject` (ClientLibrary/ServiceClient.cs:210) is assumed never to throw: `serialize` is total and `Outcome` has no case for it. The settings keep Newtonsoft's default reference-loop handling, so a request body that refers to itself throws out of `SendAsync` before any request is sent; the model does not capture that failure.
- Concurrent `Dispose` calls are not modelled; the model runs its methods one at a time. The source does not synchronise `Dispose(bool)`: it reads `_disposed` (ClientLibrary/ServiceClient.cs:117) and sets it (line 127) with no lock. Two racing calls can both pass the check and dispose an owned client twice. `Valid()`'s `disposeCalls <= 1` and `ReleasedAtMostOnce` hold only for calls made one after another.
- `Uri.IsWellFormedUriString` is an uninterpreted predicate.
- The `HttpRequestMessage` constructor's URI parsing is not modelled, and neither is the header-name validation of `Headers.Add`. With `AuthKey` null or `""`, which is its initial value, `Headers.Add` throws; the model instead builds the header `Header("", AuthValue)`.
- A failure response whose content has no `Content-Type` is not modelled; the source dereferences a null there. In the model, response content always carries a media type.
- Decoding the body into text by its charset (`ReadAsStringAsync`) is left out. The response content is already text.
- Using an `HttpClient` after it has been disposed is left out; it raises an `ObjectDisposedException` inside `HttpClient`.
- `GC.SuppressFinalize` and the scheduling of finalizers are left out. The finalizer is one call of `Dispose(false)`.
- IEEE float details are left out: NaN, `-0.0` and the bit patterns of `float.GetHashCode`.
- The `ThenBy` label comparison is culture-sensitive in the source. The model uses ordinal order, which agrees with it on the eight ASCII labels.
- SampleUserControlLibrary/SubscriptionKeyPage.xaml.cs is not part of this model. It is a GUI page over isolated-storage files.
