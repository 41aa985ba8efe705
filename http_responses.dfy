/** The answers of the inbound HTTP adapter. Their definitions live in a
    responses module that is not part of this model; only the variants and
    fields the toner handlers use are kept, without their status codes. */
module HttpResponses {
  import opened Common

  /** A failed request: which kind, and the message shown to the client. */
  datatype HttpError =
    | UnprocessableEntity(message: string)
    | InternalServerError(message: string)
    | NotFound(message: string)

  /** A successful request: its status and its data. */
  datatype ApiSuccess<+T> = ApiSuccess(status: StatusCode, data: T)

  const INTERNAL_SERVER_ERROR_MESSAGE: string := "Internal server error"
}
