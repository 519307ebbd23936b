/** The error record, its kinds and factories (Abstractions/Error.cs), and the
    Result type the services return. */
module Abstractions {

  /** The error kinds, in the order the enum declares them. */
  datatype ErrorType = None | Validation | NotFound | Conflict | Unauthorized | Forbidden

  /** A record: two errors are equal exactly when code, description and kind are. */
  datatype Error = Error(code: string, description: string, kind: ErrorType)

  /** `Error.None`: the error carried by a successful result. */
  const NoError: Error := Error("", "", ErrorType.None)

  function ValidationError(code: string, description: string): Error {
    Error(code, description, ErrorType.Validation)
  }

  function NotFoundError(code: string, description: string): Error {
    Error(code, description, ErrorType.NotFound)
  }

  function ConflictError(code: string, description: string): Error {
    Error(code, description, ErrorType.Conflict)
  }

  function UnauthorizedError(code: string, description: string): Error {
    Error(code, description, ErrorType.Unauthorized)
  }

  function ForbiddenError(code: string, description: string): Error {
    Error(code, description, ErrorType.Forbidden)
  }

  /** The five factories, by the kind they stand for. */
  datatype Factory = MakeValidation | MakeNotFound | MakeConflict | MakeUnauthorized | MakeForbidden

  function Make(f: Factory, code: string, description: string): Error {
    match f
    case MakeValidation => ValidationError(code, description)
    case MakeNotFound => NotFoundError(code, description)
    case MakeConflict => ConflictError(code, description)
    case MakeUnauthorized => UnauthorizedError(code, description)
    case MakeForbidden => ForbiddenError(code, description)
  }

  /** Each factory yields the kind named after it and keeps code and description. */
  lemma FactoriesKeepFields(f: Factory, code: string, description: string)
    ensures Make(f, code, description).code == code
    ensures Make(f, code, description).description == description
    ensures Make(f, code, description).kind ==
      match f
      case MakeValidation => ErrorType.Validation
      case MakeNotFound => ErrorType.NotFound
      case MakeConflict => ErrorType.Conflict
      case MakeUnauthorized => ErrorType.Unauthorized
      case MakeForbidden => ErrorType.Forbidden
  {
  }

  /** No factory produces the kind `None`, so no factory result equals `Error.None`. */
  lemma FactoriesNeverNone(f: Factory, code: string, description: string)
    ensures Make(f, code, description).kind != ErrorType.None
    ensures Make(f, code, description) != NoError
  {
  }

  /** Errors built from different kinds differ even with the same code and description. */
  lemma FactoriesDistinguishKinds(f: Factory, g: Factory, code: string, description: string)
    ensures Make(f, code, description) == Make(g, code, description) <==> f == g
  {
  }

  /** The outcome of an operation: a value, or exactly one error. */
  datatype Result<+T> = Success(value: T) | Failure(error: Error) {
    predicate IsSuccess() { Success? }
  }

  /** The value of a result that carries none (the non-generic `Result`). */
  datatype Unit = Unit

  datatype Option<+T> = Nothing | Some(value: T)
}
