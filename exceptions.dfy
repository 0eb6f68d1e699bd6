/** The exceptions that reach the exception handler, by the handler that
    catches them. */
module Exceptions {
  import opened Wrappers

  /** A binding error on one field of a request body: the field's name and
      its (possibly null) default message. */
  datatype FieldError = FieldError(field: string, defaultMessage: Option<string>)

  /** A violated constraint on a method parameter: its property path and
      its interpolated message. */
  datatype ConstraintViolation = ConstraintViolation(propertyPath: string, message: string)

  /** An exception with its (possibly null) message, or with the errors it
      carries. `Unexpected` is every exception no more specific handler
      claims. */
  datatype JavaException =
    | EntityNotFound(message: Option<string>)
    | IllegalArgument(message: Option<string>)
    | MessageNotReadable(message: Option<string>)
    | MethodArgumentNotValid(fieldErrors: seq<FieldError>)
    | ConstraintViolations(violations: seq<ConstraintViolation>)
    | Unexpected(message: Option<string>)
}
