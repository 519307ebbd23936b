/** Folding a result and turning a failure into an HTTP problem response
    (Abstractions/ResultExtensions.cs). Status codes are those of section 15 of
    RFC 9110; the body is the problem-details object of section 3.1 of RFC 7807. */
module ResultExtensions {
  import opened Abstractions
  import UserErrors

  /** `Match` on the non-generic result: onSuccess() when it succeeded, onFailure(error) otherwise. */
  function Match<TOut>(result: Result<Unit>, onSuccess: () -> TOut, onFailure: Error -> TOut): (out: TOut)
    ensures result.IsSuccess() ==> out == onSuccess()
    ensures !result.IsSuccess() ==> out == onFailure(result.error)
  {
    if result.IsSuccess() then onSuccess() else onFailure(result.error)
  }

  /** `Match` on `Result<T>`: onSuccess receives the value. */
  function MatchValue<T, TOut>(result: Result<T>, onSuccess: T -> TOut, onFailure: Error -> TOut): (out: TOut)
    ensures result.IsSuccess() ==> out == onSuccess(result.value)
    ensures !result.IsSuccess() ==> out == onFailure(result.error)
  {
    if result.IsSuccess() then onSuccess(result.value) else onFailure(result.error)
  }

  const Status400BadRequest := 400
  const Status401Unauthorized := 401
  const Status403Forbidden := 403
  const Status404NotFound := 404
  const Status409Conflict := 409
  const Status500InternalServerError := 500

  /** The switch on the error kind; `None` falls to the default arm. */
  function StatusCode(kind: ErrorType): int {
    match kind
    case Validation => Status400BadRequest
    case NotFound => Status404NotFound
    case Conflict => Status409Conflict
    case Unauthorized => Status401Unauthorized
    case Forbidden => Status403Forbidden
    case None => Status500InternalServerError
  }

  datatype ProblemDetails = ProblemDetails(status: int, title: string, detail: string)

  /** What `ToProblemDetails` does: throws on a success, otherwise answers with a status and a body. */
  datatype ProblemResult =
    | Thrown(message: string)
    | Response(statusCode: int, body: ProblemDetails)

  function ToProblemDetails<T>(result: Result<T>): (r: ProblemResult)
    ensures result.IsSuccess() <==> r.Thrown?
    ensures r.Response? ==> r.body.status == r.statusCode
    ensures r.Response? ==> r.body.title == result.error.code && r.body.detail == result.error.description
    ensures r.Response? ==> r.statusCode == StatusCode(result.error.kind)
    ensures r.Response? ==> 400 <= r.statusCode <= 500
  {
    if result.IsSuccess() then
      Thrown("Cannot convert a success result to problem details.")
    else
      var statusCode := StatusCode(result.error.kind);
      Response(statusCode, ProblemDetails(statusCode, result.error.code, result.error.description))
  }

  /** Every kind but `None` is a client error (4xx), and distinct kinds get distinct statuses. */
  lemma StatusCodeClassifies(a: ErrorType, b: ErrorType)
    ensures a != ErrorType.None <==> 400 <= StatusCode(a) < 500
    ensures a == ErrorType.None <==> StatusCode(a) == 500
    ensures a != b ==> StatusCode(a) != StatusCode(b)
  {
  }

  /** The status of each kind, as the switch lists it. */
  lemma StatusTable()
    ensures StatusCode(ErrorType.Validation) == 400 && StatusCode(ErrorType.NotFound) == 404
    ensures StatusCode(ErrorType.Conflict) == 409 && StatusCode(ErrorType.Unauthorized) == 401
    ensures StatusCode(ErrorType.Forbidden) == 403 && StatusCode(ErrorType.None) == 500
  {
  }

  /** The HTTP answers of the credential flows: 401 for every credential failure,
      409 for a duplicate email, 400 for the code and registration failures, 404 for a missing user. */
  lemma UserErrorStatuses<T>()
    ensures forall e :: e in {UserErrors.InvalidCredentials, UserErrors.EmailNotConfirmed,
                              UserErrors.LockedOut, UserErrors.InvalidRefreshToken} ==>
              ToProblemDetails(Result<T>.Failure(e)) == Response(401, ProblemDetails(401, e.code, e.description))
    ensures ToProblemDetails(Result<T>.Failure(UserErrors.DuplicateEmail)).statusCode == 409
    ensures ToProblemDetails(Result<T>.Failure(UserErrors.NotFound)).statusCode == 404
    ensures forall e :: e in {UserErrors.InvalidResetToken, UserErrors.RegistrationFailed,
                              UserErrors.ResetPasswordFailed, UserErrors.EmailConfirmationFailed} ==>
              ToProblemDetails(Result<T>.Failure(e)).statusCode == 400
  {
  }
}
