/** `GlobalExceptionHandler`: the translation of each exception into an
    error response whose body is an `ApiError`. Spring picks the handler of
    the most specific exception type; `Handle` is that choice. */
module ExceptionHandler {
  import opened Wrappers
  import opened Constraints
  import opened Http
  import opened Exceptions
  import opened ApiErrors

  const MalformedJson := "Malformed JSON request"
  const BodyValidationFailed := "Validation failed for request body"
  const ParameterValidationFailed := "Validation failed for request parameters"
  const InternalServerErrorMessage := "Internal server error"

  /** Whether `r` is an error response whose body repeats its status code. */
  predicate Consistent(r: ResponseEntity<ApiError>) {
    r.body.Some? && r.body.value.status == r.status.Value()
  }

  /** Not found: 404 with the exception's message. */
  function HandleNotFound(message: Option<string>, path: string, now: Timestamp): (r: ResponseEntity<ApiError>)
    ensures Consistent(r) && r.status == NotFound
    ensures r.body.value == NewApiError(NotFound, message, path, now)
  {
    ResponseEntity(NotFound, Some(NewApiError(NotFound, message, path, now)))
  }

  /** Illegal argument: 400 with the exception's message. */
  function HandleBadRequest(message: Option<string>, path: string, now: Timestamp): (r: ResponseEntity<ApiError>)
    ensures Consistent(r) && r.status == BadRequest
    ensures r.body.value == NewApiError(BadRequest, message, path, now)
  {
    ResponseEntity(BadRequest, Some(NewApiError(BadRequest, message, path, now)))
  }

  /** Unreadable body: 400 with a fixed message; the exception's own text is
      only logged. */
  function HandleUnreadable(path: string, now: Timestamp): (r: ResponseEntity<ApiError>)
    ensures Consistent(r) && r.status == BadRequest
    ensures r.body.value.message == Some(MalformedJson) && r.body.value.fieldErrors.None?
  {
    ResponseEntity(BadRequest, Some(NewApiError(BadRequest, Some(MalformedJson), path, now)))
  }

  /** "field: message"; a null default message prints as "null", as Java's
      string concatenation does. */
  function FormatFieldError(fe: FieldError): (r: string)
    ensures |r| >= |fe.field| + 2
    ensures r[..|fe.field|] == fe.field && r[|fe.field|..|fe.field| + 2] == ": "
    ensures r[|fe.field| + 2..] == fe.defaultMessage.GetOr("null")
  {
    fe.field + ": " + fe.defaultMessage.GetOr("null")
  }

  /** "propertyPath: message". */
  function FormatConstraintViolation(cv: ConstraintViolation): (r: string)
    ensures |r| >= |cv.propertyPath| + 2
    ensures r[..|cv.propertyPath|] == cv.propertyPath && r[|cv.propertyPath|..|cv.propertyPath| + 2] == ": "
    ensures r[|cv.propertyPath| + 2..] == cv.message
  {
    cv.propertyPath + ": " + cv.message
  }

  /** The formatted field errors, one per error, in order. */
  function FormatFieldErrors(errors: seq<FieldError>): (r: seq<string>)
    ensures |r| == |errors|
    ensures forall i :: 0 <= i < |r| ==> r[i] == FormatFieldError(errors[i])
  {
    if errors == [] then [] else [FormatFieldError(errors[0])] + FormatFieldErrors(errors[1..])
  }

  /** The formatted constraint violations, one per violation, in the order
      the exception's set yields them. */
  function FormatConstraintViolations(violations: seq<ConstraintViolation>): (r: seq<string>)
    ensures |r| == |violations|
    ensures forall i :: 0 <= i < |r| ==> r[i] == FormatConstraintViolation(violations[i])
  {
    if violations == [] then [] else [FormatConstraintViolation(violations[0])] + FormatConstraintViolations(violations[1..])
  }

  /** Body validation failure: 400, a fixed message, and the formatted
      field errors. */
  function HandleValidationErrors(errors: seq<FieldError>, path: string, now: Timestamp): (r: ResponseEntity<ApiError>)
    ensures Consistent(r) && r.status == BadRequest
    ensures r.body.value.message == Some(BodyValidationFailed)
    ensures r.body.value.fieldErrors == Some(FormatFieldErrors(errors))
  {
    var error := NewApiError(BadRequest, Some(BodyValidationFailed), path, now);
    ResponseEntity(BadRequest, Some(error.(fieldErrors := Some(FormatFieldErrors(errors)))))
  }

  /** Parameter validation failure: 400, a fixed message, and the formatted
      violations. */
  function HandleConstraintViolation(violations: seq<ConstraintViolation>, path: string, now: Timestamp): (r: ResponseEntity<ApiError>)
    ensures Consistent(r) && r.status == BadRequest
    ensures r.body.value.message == Some(ParameterValidationFailed)
    ensures r.body.value.fieldErrors == Some(FormatConstraintViolations(violations))
  {
    var error := NewApiError(BadRequest, Some(ParameterValidationFailed), path, now);
    ResponseEntity(BadRequest, Some(error.(fieldErrors := Some(FormatConstraintViolations(violations)))))
  }

  /** Anything else: 500 with the exception's message, or a fixed one when
      that is null. */
  function HandleAll(message: Option<string>, path: string, now: Timestamp): (r: ResponseEntity<ApiError>)
    ensures Consistent(r) && r.status == InternalServerError
    ensures message.Some? ==> r.body.value.message == message
    ensures message.None? ==> r.body.value.message == Some(InternalServerErrorMessage)
  {
    var text := if message.Some? then message.value else InternalServerErrorMessage;
    ResponseEntity(InternalServerError, Some(NewApiError(InternalServerError, Some(text), path, now)))
  }

  /** The response to `ex` raised while serving `path`. */
  function Handle(ex: JavaException, path: string, now: Timestamp): (r: ResponseEntity<ApiError>)
    ensures Consistent(r)
    ensures r.body.value.path == path && r.body.value.timestamp == now
    ensures r.body.value.message.Some? || ex.EntityNotFound? || ex.IllegalArgument?
  {
    match ex
    case EntityNotFound(m) => HandleNotFound(m, path, now)
    case IllegalArgument(m) => HandleBadRequest(m, path, now)
    case MessageNotReadable(_) => HandleUnreadable(path, now)
    case MethodArgumentNotValid(errors) => HandleValidationErrors(errors, path, now)
    case ConstraintViolations(violations) => HandleConstraintViolation(violations, path, now)
    case Unexpected(m) => HandleAll(m, path, now)
  }

  /** The status tells the exception kind apart: 404 exactly for a missing
      entity, 500 exactly for an unexpected exception, 400 for the rest. */
  lemma StatusClassifiesException(ex: JavaException, path: string, now: Timestamp)
    ensures Handle(ex, path, now).status == NotFound <==> ex.EntityNotFound?
    ensures Handle(ex, path, now).status == InternalServerError <==> ex.Unexpected?
    ensures Handle(ex, path, now).status == BadRequest <==>
      (ex.IllegalArgument? || ex.MessageNotReadable? || ex.MethodArgumentNotValid? || ex.ConstraintViolations?)
  {
  }

  /** Only the validation handlers list field errors. */
  lemma FieldErrorsOnlyForValidation(ex: JavaException, path: string, now: Timestamp)
    ensures Handle(ex, path, now).body.value.fieldErrors.Some? <==>
      (ex.MethodArgumentNotValid? || ex.ConstraintViolations?)
  {
  }

  /** The text of an unreadable body's exception never reaches the client. */
  lemma UnreadableHidesDetail(a: Option<string>, b: Option<string>, path: string, now: Timestamp)
    ensures Handle(MessageNotReadable(a), path, now) == Handle(MessageNotReadable(b), path, now)
  {
  }
}
