/**
 * The API's response envelope: a handler's `Result<T, ApiError>` becomes
 * `ApiResponse::Success(T)` or `ApiResponse::Failure(ApiError)`, which
 * becomes an HTTP status and a JSON body. A success takes the status its
 * payload type declares (`IntoSuccess::STATUS_CODE`); a failure takes the
 * status stored in the error, which is not part of the body.
 */
module ApiResponses {

  import Wrappers
  import opened JsonValues

  type StatusCode = c: int | 100 <= c < 1000 witness 200

  datatype ApiError = ApiError(statusCode: StatusCode, code: string, message: string)

  datatype ApiResponse<T> = Success(value: T) | Failure(error: ApiError)

  /** The associated constants of an error type implementing `IntoFailure`. */
  datatype FailureKind = FailureKind(statusCode: StatusCode, code: string)

  /** The associated constant and serializer of a payload type implementing `IntoSuccess`. */
  datatype SuccessKind<!T> = SuccessKind(statusCode: StatusCode, toJson: T -> Json)

  datatype HttpResponse = HttpResponse(status: StatusCode, body: Json)

  /** `ApiResponseExt::into_response` on a `Result`. */
  function FromResult<T>(r: Wrappers.Result<T, ApiError>): (resp: ApiResponse<T>)
    ensures resp.Success? <==> r.Success?
    ensures resp.Success? ==> resp.value == r.value
    ensures resp.Failure? ==> resp.error == r.error
  {
    match r
    case Success(ok) => Success(ok)
    case Failure(err) => Failure(err)
  }

  /** The inverse view: which `Result` an envelope came from. */
  function ToResult<T>(resp: ApiResponse<T>): Wrappers.Result<T, ApiError> {
    match resp
    case Success(ok) => Wrappers.Success(ok)
    case Failure(err) => Wrappers.Failure(err)
  }

  /** The conversion loses nothing and adds no case: it is a bijection. */
  lemma FromResultBijective<T>(r: Wrappers.Result<T, ApiError>, resp: ApiResponse<T>)
    ensures ToResult(FromResult(r)) == r
    ensures FromResult(ToResult(resp)) == resp
  {
  }

  /** `IntoFailure::into_api_error`: the type's status and code, and the error's display text. */
  function IntoApiError(kind: FailureKind, display: string): (e: ApiError)
    ensures e.statusCode == kind.statusCode && e.code == kind.code && e.message == display
  {
    ApiError(kind.statusCode, kind.code, display)
  }

  /** The serialized error: `status_code` is skipped, so only `code` and `message` appear. */
  function ErrorBody(e: ApiError): (body: Json)
    ensures body.JObject? && |body.members| == 2
    ensures body.members[0] == ("code", JString(e.code)) && body.members[1] == ("message", JString(e.message))
  {
    JObject([("code", JString(e.code)), ("message", JString(e.message))])
  }

  /** `IntoResponse for ApiResponse<T>`. */
  function IntoHttpResponse<T>(resp: ApiResponse<T>, kind: SuccessKind<T>): (r: HttpResponse)
    ensures resp.Success? ==> r == HttpResponse(kind.statusCode, kind.toJson(resp.value))
    ensures resp.Failure? ==> r == HttpResponse(resp.error.statusCode, ErrorBody(resp.error))
  {
    match resp
    case Success(ok) => HttpResponse(kind.statusCode, kind.toJson(ok))
    case Failure(err) => HttpResponse(err.statusCode, ErrorBody(err))
  }

  /** Errors that differ only in their status serialize to the same body. */
  lemma StatusNotInBody(e: ApiError, status: StatusCode)
    ensures ErrorBody(e.(statusCode := status)) == ErrorBody(e)
    ensures !HasKey(ErrorBody(e).members, "status_code")
  {
  }

  /** A failing handler answers with its error type's status, code, and the error's text. */
  lemma FailureResponse<T>(failure: FailureKind, display: string, kind: SuccessKind<T>)
    ensures IntoHttpResponse(FromResult(Wrappers.Failure(IntoApiError(failure, display))), kind)
         == HttpResponse(failure.statusCode, JObject([("code", JString(failure.code)), ("message", JString(display))]))
  {
  }

  /** A successful handler answers with its payload type's status, whatever the value. */
  lemma SuccessResponse<T>(value: T, kind: SuccessKind<T>)
    ensures IntoHttpResponse(FromResult(Wrappers.Success(value)), kind).status == kind.statusCode
  {
  }
}
