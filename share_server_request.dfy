/** ShareClipboard/ServerRequest.swift: the older client's typed errors, their
    messages, and the checks its `sendRequest` applies to a response. */
module ShareServerRequest {

  import opened Wrappers
  import opened Strings

  datatype ServerRequestError =
    | NetworkError
    | BadRequest
    | Forbidden
    | NotFound
    | ServerError
    | Unknown(code: int)

  /** `errorDescription`. */
  function ErrorDescription(e: ServerRequestError): (text: string)
    ensures e.Unknown? ==> Contains(text, IntToString(e.code))
  {
    match e
    case NetworkError => "A network error occurred. Please check your connection and try again."
    case BadRequest => "Bad request. Please check the request and try again."
    case Forbidden => "Forbidden. You don't have permission to access this resource."
    case NotFound => "Resource not found. Please check the URL and try again."
    case ServerError => "A server error occurred. Please try again later."
    case Unknown(code) =>
      ContainsInMiddle(UnknownPrefix, IntToString(code), ")");
      UnknownPrefix + IntToString(code) + ")"
  }

  const UnknownPrefix: string := "An unknown error occurred. (Error code: "

  /** The code of an unknown error can be read back from its message:
      different codes are shown with different messages. */
  lemma UnknownDescriptionInjective(c1: int, c2: int)
    requires ErrorDescription(Unknown(c1)) == ErrorDescription(Unknown(c2))
    ensures c1 == c2
  {
    var t1, t2 := ErrorDescription(Unknown(c1)), ErrorDescription(Unknown(c2));
    assert t1[|UnknownPrefix|..|t1| - 1] == IntToString(c1);
    assert t2[|UnknownPrefix|..|t2| - 1] == IntToString(c2);
    IntToStringInjective(c1, c2);
  }

  /** The `switch` on a status outside 200...299 in `sendRequest`. */
  function StatusError(status: int): (e: ServerRequestError)
    ensures e.Unknown? <==> status !in {400, 403, 404, 500}
    ensures e.Unknown? ==> e.code == status
    ensures !e.NetworkError?
  {
    match status
    case 400 => BadRequest
    case 403 => Forbidden
    case 404 => NotFound
    case 500 => ServerError
    case _ => Unknown(status)
  }

  /** The status code of RFC 9110 each named error stands for (sections
      15.5.1, 15.5.4, 15.5.5 and 15.6.1); `.unknown` carries its own. */
  function StatusOf(e: ServerRequestError): (code: Option<int>)
  {
    match e
    case BadRequest => Some(400)
    case Forbidden => Some(403)
    case NotFound => Some(404)
    case ServerError => Some(500)
    case Unknown(c) => Some(c)
    case NetworkError => None
  }

  /** No information about the status is lost: the error gives the status back. */
  lemma StatusErrorRoundTrip(status: int)
    ensures StatusOf(StatusError(status)) == Some(status)
  {
  }

  // ---------------------------------------------------------------------
  // sendRequest

  datatype Transport =
    | TransportFailed
    | Delivered(data: seq<Byte>, response: Response)

  datatype Response = NonHttpResponse | HttpResponse(statusCode: int)

  /** `JSONDecoder.decode`: a value, or the decoding error's description (rethrown unchanged). */
  datatype JsonDecoding<T> = Decoded(value: T) | DecodingFailed(description: string)

  datatype RequestOutcome<T> =
    | Returned(value: T)
    | Thrown(error: ServerRequestError)
    | Rethrown(description: string)

  predicate IsSuccessStatus(status: int) {
    200 <= status <= 299
  }

  /** `sendRequest`. */
  function SendRequest<T>(t: Transport, decode: seq<Byte> -> JsonDecoding<T>): (r: RequestOutcome<T>)
    ensures t.TransportFailed? <==> r == Thrown(NetworkError)
    ensures t.Delivered? && t.response.NonHttpResponse? ==> r == Thrown(Unknown(-1))
    ensures t.Delivered? && t.response.HttpResponse? && !IsSuccessStatus(t.response.statusCode)
            ==> r == Thrown(StatusError(t.response.statusCode))
    ensures r.Returned? || r.Rethrown? <==>
            t.Delivered? && t.response.HttpResponse? && IsSuccessStatus(t.response.statusCode)
    ensures r.Returned? ==> decode(t.data) == Decoded(r.value)
    ensures r.Rethrown? ==> decode(t.data) == DecodingFailed(r.description)
  {
    if t.TransportFailed? then Thrown(NetworkError)
    else if t.response.NonHttpResponse? then Thrown(Unknown(-1))
    else if !IsSuccessStatus(t.response.statusCode) then Thrown(StatusError(t.response.statusCode))
    else match decode(t.data)
      case Decoded(v) => Returned(v)
      case DecodingFailed(desc) => Rethrown(desc)
  }

  /** A real HTTP status (never negative) is never confused with the
      `.unknown(-1)` of a non-HTTP response. */
  lemma NonHttpDistinguishable<T>(t: Transport, u: Transport, decode: seq<Byte> -> JsonDecoding<T>)
    requires t.Delivered? && t.response.NonHttpResponse?
    requires u.Delivered? && u.response.HttpResponse? && u.response.statusCode >= 0
    ensures SendRequest(t, decode) != SendRequest(u, decode)
  {
  }
}
