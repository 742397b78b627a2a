/** ClipboardPortal/ServerRequest.swift: the typed errors of the ClipboardPortal
    client, their messages, and the checks `sendRequest` applies to a response. */
module PortalServerRequest {

  import opened Wrappers
  import opened Strings

  datatype ServerRequestError =
    | NetworkError
    | BadRequest
    | Forbidden
    | NotFound
    | PayloadTooLarge
    | UnprocessableEntity
    | ServerError
    | ServerDown
    | Unknown
    | BrokenJsonResponse(detail: string)

  /** The statuses of section 15 of RFC 9110 that have their own error. */
  const MappedStatuses: set<int> := {400, 403, 404, 413, 422, 500, 502}

  /** `ServerRequestError.fromStatusCode`. */
  function FromStatusCode(status: int): (e: ServerRequestError)
    ensures status !in MappedStatuses <==> e == Unknown
    ensures !e.NetworkError? && !e.BrokenJsonResponse?
  {
    match status
    case 400 => BadRequest
    case 403 => Forbidden
    case 404 => NotFound
    case 413 => PayloadTooLarge
    case 422 => UnprocessableEntity
    case 500 => ServerError
    case 502 => ServerDown
    case _ => Unknown
  }

  /** The status code of RFC 9110 that each error stands for: 400 Bad Request
      (section 15.5.1), 403 Forbidden (15.5.4), 404 Not Found (15.5.5),
      413 Content Too Large (15.5.14), 422 Unprocessable Content (15.5.21),
      500 Internal Server Error (15.6.1), 502 Bad Gateway (15.6.3). */
  function RfcStatus(e: ServerRequestError): (code: Option<int>)
    ensures code.Some? ==> 400 <= code.value < 600
  {
    match e
    case BadRequest => Some(400)
    case Forbidden => Some(403)
    case NotFound => Some(404)
    case PayloadTooLarge => Some(413)
    case UnprocessableEntity => Some(422)
    case ServerError => Some(500)
    case ServerDown => Some(502)
    case _ => None
  }

  /** `fromStatusCode` and the RFC 9110 table are inverse on the mapped
      statuses, and every other status lands on `.unknown`. */
  lemma FromStatusCodeMatchesRfc(status: int, e: ServerRequestError)
    ensures RfcStatus(e).Some? ==> FromStatusCode(RfcStatus(e).value) == e
    ensures status in MappedStatuses ==> RfcStatus(FromStatusCode(status)) == Some(status)
    ensures status !in MappedStatuses ==> RfcStatus(FromStatusCode(status)) == None
  {
  }

  /** `errorDescription`: the text shown to the user. */
  function ErrorDescription(e: ServerRequestError): (text: string)
    ensures e.BrokenJsonResponse? ==> Contains(text, e.detail)
  {
    match e
    case NetworkError => "A network error occurred. Please check your connection and try again."
    case BadRequest => "Bad request. Please check the request and try again."
    case Forbidden => "Forbidden. You don't have permission to access this resource."
    case NotFound => "Resource not found. Please check the URL and try again."
    case PayloadTooLarge => "Too much data."
    case UnprocessableEntity => "The app sent invalid data to the server. Please update the app."
    case ServerError => "A server error occurred. Please try again later."
    case ServerDown => "The server is offline. Please try again later."
    case BrokenJsonResponse(detail) =>
      ContainsInMiddle(BrokenJsonPrefix, detail, ")");
      BrokenJsonPrefix + detail + ")"
    case Unknown => "An unknown error occurred."
  }

  const BrokenJsonPrefix: string := "The server response was not expected. Please update the app. ("

  /** The detail of a broken JSON response can be read back from its message. */
  lemma BrokenJsonDescriptionInjective(d1: string, d2: string)
    requires ErrorDescription(BrokenJsonResponse(d1)) == ErrorDescription(BrokenJsonResponse(d2))
    ensures d1 == d2
  {
    var t1, t2 := ErrorDescription(BrokenJsonResponse(d1)), ErrorDescription(BrokenJsonResponse(d2));
    assert t1[|BrokenJsonPrefix|..|t1| - 1] == d1;
    assert t2[|BrokenJsonPrefix|..|t2| - 1] == d2;
  }

  // ---------------------------------------------------------------------
  // sendRequest

  /** What `URLSession.data(for:)` hands back: a thrown error (whatever its
      cause) or the body with a response that may or may not be HTTP. */
  datatype Transport =
    | TransportFailed
    | Delivered(data: seq<Byte>, response: Response)

  datatype Response = NonHttpResponse | HttpResponse(statusCode: int)

  /** What `JSONDecoder.decode` does with the body. */
  datatype JsonDecoding<T> =
    | Decoded(value: T)
    | DataCorrupted(context: string)
    | KeyNotFound(key: string, context: string, codingPath: string)
    | ValueNotFound(valueType: string, context: string, codingPath: string)
    | TypeMismatch(expectedType: string, context: string, codingPath: string)
    | OtherDecodingError(description: string)

  /** How `sendRequest` ends: a value, a `ServerRequestError`, or another error rethrown unchanged. */
  datatype RequestOutcome<T> =
    | Returned(value: T)
    | Thrown(error: ServerRequestError)
    | Rethrown(description: string)

  predicate IsSuccessStatus(status: int) {
    200 <= status <= 299
  }

  /** The guards shared by both result kinds: transport, HTTP, status. */
  function CheckResponse(t: Transport): (r: Result<seq<Byte>, ServerRequestError>)
    ensures r.Success? <==> t.Delivered? && t.response.HttpResponse? && IsSuccessStatus(t.response.statusCode)
    ensures r.Success? ==> r.value == t.data
    ensures t.TransportFailed? <==> r == Failure(NetworkError)
    ensures t.Delivered? && t.response.NonHttpResponse? ==> r == Failure(Unknown)
    ensures t.Delivered? && t.response.HttpResponse? && !IsSuccessStatus(t.response.statusCode)
            ==> r == Failure(FromStatusCode(t.response.statusCode))
  {
    if t.TransportFailed? then Failure(NetworkError)
    else if t.response.NonHttpResponse? then Failure(Unknown)
    else if !IsSuccessStatus(t.response.statusCode) then Failure(FromStatusCode(t.response.statusCode))
    else Success(t.data)
  }

  /** `sendRequest` with `T == String`: the body decoded as UTF-8, `utf8`
      standing for `String(data:encoding: .utf8)`. */
  function SendRequestForString(t: Transport, utf8: seq<Byte> -> Option<string>): (r: RequestOutcome<string>)
    ensures r.Returned? <==> CheckResponse(t).Success? && utf8(t.data).Some?
    ensures r.Returned? ==> r.value == utf8(t.data).value
    ensures CheckResponse(t).Success? && utf8(t.data).None? ==> r == Thrown(Unknown)
    ensures CheckResponse(t).Failure? ==> r == Thrown(CheckResponse(t).error)
    ensures !r.Rethrown?
  {
    match CheckResponse(t)
    case Failure(e) => Thrown(e)
    case Success(data) =>
      match utf8(data)
      case Some(text) => Returned(text)
      case None => Thrown(Unknown)
  }

  /** `sendRequest` for any other `Decodable` result, `decode` standing for `JSONDecoder.decode`. */
  function SendRequestForJson<T>(t: Transport, decode: seq<Byte> -> JsonDecoding<T>): (r: RequestOutcome<T>)
    ensures CheckResponse(t).Failure? ==> r == Thrown(CheckResponse(t).error)
    ensures CheckResponse(t).Success? ==> r == DecodeOutcome(decode(t.data))
  {
    match CheckResponse(t)
    case Failure(e) => Thrown(e)
    case Success(data) => DecodeOutcome(decode(data))
  }

  /** The `catch` clauses around `JSONDecoder.decode`. */
  function DecodeOutcome<T>(d: JsonDecoding<T>): (r: RequestOutcome<T>)
    ensures d.Decoded? <==> r.Returned?
    ensures d.Decoded? ==> r.value == d.value
    ensures d.OtherDecodingError? <==> r.Rethrown?
    ensures d.OtherDecodingError? ==> r.description == d.description
    ensures !d.Decoded? && !d.OtherDecodingError? <==> r.Thrown? && r.error.BrokenJsonResponse?
  {
    match d
    case Decoded(v) => Returned(v)
    case DataCorrupted(ctx) => Thrown(BrokenJsonResponse("Corrupted JSON: " + ctx))
    case KeyNotFound(key, ctx, path) =>
      Thrown(BrokenJsonResponse("Key '" + key + "' not found: " + ctx + " (codingPath: " + path))
    case ValueNotFound(value, ctx, path) =>
      Thrown(BrokenJsonResponse("Value '" + value + "' not found: " + ctx + " (codingPath: " + path))
    case TypeMismatch(ty, ctx, path) =>
      Thrown(BrokenJsonResponse("Type '" + ty + "' mismatch: " + ctx + " (codingPath: " + path))
    case OtherDecodingError(desc) => Rethrown(desc)
  }

  /** Where each error of the JSON pipeline can come from: `.networkError`
      only from the transport, `.unknown` only from a non-HTTP response or an
      unmapped status, `.brokenJsonResponse` only after a 2xx status, and a
      value only after a 2xx status. */
  lemma JsonOutcomeOrigins<T>(t: Transport, decode: seq<Byte> -> JsonDecoding<T>)
    ensures SendRequestForJson(t, decode) == Thrown(NetworkError) <==> t.TransportFailed?
    ensures SendRequestForJson(t, decode) == Thrown(Unknown) <==>
            t.Delivered? && (t.response.NonHttpResponse? ||
                             (!IsSuccessStatus(t.response.statusCode) && t.response.statusCode !in MappedStatuses))
    ensures SendRequestForJson(t, decode).Returned? || SendRequestForJson(t, decode).Rethrown? ||
            SendRequestForJson(t, decode).error.BrokenJsonResponse?
            ==> t.Delivered? && t.response.HttpResponse? && IsSuccessStatus(t.response.statusCode)
  {
    var r := SendRequestForJson(t, decode);
    if t.Delivered? && t.response.HttpResponse? && !IsSuccessStatus(t.response.statusCode) {
      var e := FromStatusCode(t.response.statusCode);
      assert r == Thrown(e);
    }
  }
}
