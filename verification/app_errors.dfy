/** The application's own error taxonomy: `AppError` and its six fixed subclasses. */
module AppErrors {
  import opened Options

  /** The prototype an error object carries at run time, which `instanceof` inspects.
      Every class below extends `AppError`. */
  datatype ErrorClass =
    | AppErrorClass
    | BadRequestErrorClass
    | UnauthorizedErrorClass
    | NotFoundErrorClass
    | TooManyRequestErrorClass
    | InternalServerErrorClass
    | ServiceUnavailableErrorClass

  /** An `AppError` value. The fields are `readonly` in the source, so a value never changes.
      `name` is inherited from `Error.prototype` (none of the classes sets it) and `stack`
      is the call-site trace captured at construction, kept opaque. */
  datatype AppError = AppError(
    proto: ErrorClass,
    name: string,
    message: string,
    statusCode: int,
    isOperational: bool,
    stack: string)

  /** `err instanceof c`: true of `AppError` itself for every value, otherwise only of the
      class whose prototype the value carries. */
  predicate InstanceOf(e: AppError, c: ErrorClass) {
    c == AppErrorClass || e.proto == c
  }

  /** `new AppError(message, statusCode, isOperational = true)`; the runtime supplies `stack`. */
  function NewAppError(message: string, statusCode: int, isOperational: Option<bool>, stack: string): (e: AppError)
    ensures e.message == message && e.statusCode == statusCode
    ensures e.isOperational <==> isOperational != Some(false)
    ensures e.proto == AppErrorClass && e.name == "Error"
  {
    AppError(AppErrorClass, "Error", message, statusCode, isOperational.GetOr(true), stack)
  }

  /** The six subclasses. */
  datatype Variant =
    | BadRequest
    | Unauthorized
    | NotFound
    | TooManyRequest
    | InternalServer
    | ServiceUnavailable

  function DefaultMessage(v: Variant): string {
    match v
    case BadRequest => "Bad Request"
    case Unauthorized => "Unauthorized-Invalid credentials"
    case NotFound => "Not Found"
    case TooManyRequest => "Too many reqeusts"
    case InternalServer => "Internal server error"
    case ServiceUnavailable => "Service temporarily unavailable"
  }

  function StatusOf(v: Variant): int {
    match v
    case BadRequest => 400
    case Unauthorized => 401
    case NotFound => 404
    case TooManyRequest => 429
    case InternalServer => 500
    case ServiceUnavailable => 503
  }

  /** The prototype each constructor installs last. `UnauthorizedError` installs
      `BadRequestError.prototype`, not its own. */
  function ClassOf(v: Variant): ErrorClass {
    match v
    case BadRequest => BadRequestErrorClass
    case Unauthorized => BadRequestErrorClass
    case NotFound => NotFoundErrorClass
    case TooManyRequest => TooManyRequestErrorClass
    case InternalServer => InternalServerErrorClass
    case ServiceUnavailable => ServiceUnavailableErrorClass
  }

  /** `new BadRequestError(message?)` and its five siblings. */
  function NewVariant(v: Variant, message: Option<string>, stack: string): (e: AppError)
    ensures match v
      case BadRequest =>
        e.statusCode == 400 && e.message == message.GetOr("Bad Request") && e.proto == BadRequestErrorClass
      case Unauthorized =>
        e.statusCode == 401 && e.message == message.GetOr("Unauthorized-Invalid credentials")
        && e.proto == BadRequestErrorClass
      case NotFound =>
        e.statusCode == 404 && e.message == message.GetOr("Not Found") && e.proto == NotFoundErrorClass
      case TooManyRequest =>
        e.statusCode == 429 && e.message == message.GetOr("Too many reqeusts") && e.proto == TooManyRequestErrorClass
      case InternalServer =>
        e.statusCode == 500 && e.message == message.GetOr("Internal server error")
        && e.proto == InternalServerErrorClass
      case ServiceUnavailable =>
        e.statusCode == 503 && e.message == message.GetOr("Service temporarily unavailable")
        && e.proto == ServiceUnavailableErrorClass
    ensures e.isOperational <==> v != InternalServer
    ensures e.name == "Error" && e.stack == stack
  {
    var base := NewAppError(
      message.GetOr(DefaultMessage(v)),
      StatusOf(v),
      if v == InternalServer then Some(false) else None,
      stack);
    base.(proto := ClassOf(v))
  }

  /** An explicit message changes the message and nothing else. */
  lemma OverrideChangesOnlyMessage(v: Variant, message: string, stack: string)
    ensures NewVariant(v, Some(message), stack) == NewVariant(v, None, stack).(message := message)
  {
  }

  /** Every subclass value is an `AppError`, whichever variant built it. */
  lemma EveryVariantIsAppError(v: Variant, message: Option<string>, stack: string)
    ensures InstanceOf(NewVariant(v, message, stack), AppErrorClass)
  {
  }

  /** `InternalServerError` is the only non-operational variant. */
  lemma OnlyInternalServerIsNonOperational(v: Variant, message: Option<string>, stack: string)
    ensures !NewVariant(v, message, stack).isOperational <==> v == InternalServer
  {
  }

  /** An `UnauthorizedError` reports itself as a `BadRequestError` at run time while keeping
      status 401, and no constructed value is ever an instance of `UnauthorizedError`. */
  lemma UnauthorizedReportsAsBadRequest(message: Option<string>, stack: string)
    ensures var e := NewVariant(Unauthorized, message, stack);
      InstanceOf(e, BadRequestErrorClass) && !InstanceOf(e, UnauthorizedErrorClass) && e.statusCode == 401
    ensures forall v: Variant :: !InstanceOf(NewVariant(v, message, stack), UnauthorizedErrorClass)
  {
  }

  /** Run-time type tells variants apart except `BadRequest` from `Unauthorized`;
      the status code always tells them apart. */
  lemma VariantsDistinguishable(v1: Variant, v2: Variant, m1: Option<string>, m2: Option<string>, s1: string, s2: string)
    requires v1 != v2
    ensures var e1, e2 := NewVariant(v1, m1, s1), NewVariant(v2, m2, s2);
      e1.statusCode != e2.statusCode
      && (e1.proto == e2.proto <==> {v1, v2} == {BadRequest, Unauthorized})
  {
  }
}
