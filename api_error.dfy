/** The catalog handlers' error type and its translation into an HTTP
    status and a JSON error body. */
module ApiErrors {
  import opened Common

  /** One failed validation rule: the field it guards and its message. */
  datatype FieldError = FieldError(field: string, message: string)

  /** Every error a catalog handler returns. The first five are declared
      with their HTTP mapping; the last four are used by the toner and
      printer handlers but have no mapping of their own. */
  datatype ApiError =
    | DatabaseError
    | ValidationError(errors: seq<FieldError>)
    | IdNotFound
    | AlreadyExists
    | Unknown
    | EmptyName
    | NameTooShort
    | NameTooLong
    | NotModified
  {
    /** The variant is one of the five that carry an HTTP mapping. */
    predicate Declared() {
      DatabaseError? || ValidationError? || IdNotFound? || AlreadyExists? || Unknown?
    }
  }

  datatype ErrorResponse = ErrorResponse(code: string, message: string, details: Option<string>)

  /** The text of a validation failure: one `field: message` line per rule. */
  function RenderFieldErrors(errors: seq<FieldError>): string {
    if errors == [] then ""
    else errors[0].field + ": " + errors[0].message + "\n" + RenderFieldErrors(errors[1..])
  }

  /** `IntoResponse for ApiError`: the status and body sent for an error. */
  function IntoResponse(e: ApiError): (r: (StatusCode, ErrorResponse))
    requires e.Declared()
    ensures r.1.details.Some?
    ensures r.0 == 500 <==> e.DatabaseError? || e.Unknown?
    ensures r.0 == 400 <==> e.ValidationError?
    ensures r.0 == 404 <==> e.IdNotFound?
    ensures r.0 == CONFLICT <==> e.AlreadyExists?
    ensures r.1.code == "DATABASE_ERROR" <==> e.DatabaseError?
    ensures r.1.code == "VALIDATION_ERROR" <==> e.ValidationError?
    ensures r.1.code == "ID_NOT_FOUND" <==> e.IdNotFound?
    ensures r.1.code == "ALREADY_EXISTS" <==> e.AlreadyExists?
    ensures r.1.code == "UNKNOWN_ERROR" <==> e.Unknown?
    ensures e.ValidationError? ==> r.1.details == Some(RenderFieldErrors(e.errors))
    ensures e.DatabaseError? ==> r.1.message == "An unexpected database error occurred."
    ensures e.ValidationError? ==> r.1.message == "One or more validation errors occurred."
    ensures e.IdNotFound? ==> r.1.message == "The provided ID does not exist."
    ensures e.AlreadyExists? ==> r.1.message == "A resource with the provided details already exists."
    ensures e.Unknown? ==> r.1.message == "An unknown error occurred."
  {
    match e
    case DatabaseError =>
      (INTERNAL_SERVER_ERROR,
       ErrorResponse("DATABASE_ERROR", "An unexpected database error occurred.",
                     Some("Please try again later or contact support.")))
    case ValidationError(errors) =>
      (BAD_REQUEST,
       ErrorResponse("VALIDATION_ERROR", "One or more validation errors occurred.",
                     Some(RenderFieldErrors(errors))))
    case IdNotFound =>
      (NOT_FOUND,
       ErrorResponse("ID_NOT_FOUND", "The provided ID does not exist.",
                     Some("Please verify that the ID is correct and try again.")))
    case AlreadyExists =>
      (CONFLICT,
       ErrorResponse("ALREADY_EXISTS", "A resource with the provided details already exists.",
                     Some("Please choose a different name.")))
    case Unknown =>
      (INTERNAL_SERVER_ERROR,
       ErrorResponse("UNKNOWN_ERROR", "An unknown error occurred.",
                     Some("Please try again later or contact support.")))
  }

  /** Two declared errors get the same error code only when they are the
      same kind of error: the five codes are pairwise distinct. */
  lemma ErrorCodeIdentifiesVariant(a: ApiError, b: ApiError)
    requires a.Declared() && b.Declared()
    requires IntoResponse(a).1.code == IntoResponse(b).1.code
    ensures a.DatabaseError? == b.DatabaseError? && a.ValidationError? == b.ValidationError?
    ensures a.IdNotFound? == b.IdNotFound? && a.AlreadyExists? == b.AlreadyExists?
    ensures a.Unknown? == b.Unknown?
  {
  }
}
