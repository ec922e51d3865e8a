/** Failure values shared by the model: the rejections the serializers raise and
    the integrity errors the database raises. */
module Errors {

  datatype Option<+T> = None | Some(value: T)

  /** A rejection reported to the caller. */
  datatype Error =
    | FieldError(field: string, message: string)   // a validation error keyed by an input field
    | ValidationError(message: string)              // a validation error not tied to one field
    | IntegrityError(message: string)               // a database constraint refused the write

  datatype Result<+T> = Success(value: T) | Failure(error: Error)

  datatype Outcome = Pass | Fail(error: Error)
}
