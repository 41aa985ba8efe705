/** `DELETE` of a toner through the stock domain: the body's id is parsed,
    the service deletes the toner, and its answer becomes an HTTP answer. */
module HttpDeleteToner {
  import opened Common
  import opened TonerDomain
  import opened HttpResponses

  datatype DeleteTonerHttpRequestBody = DeleteTonerHttpRequestBody(id: string)

  /** The data of a successful answer: the deleted toner's id as text. */
  datatype DeleteTonerResponseData = DeleteTonerResponseData(id: string)

  /** The id could not be read; `TonerIdEmptyError` is not part of this
      model beyond its name. */
  datatype ParseDeleteTonerHttpRequestError = IdError

  const EMPTY_ID_MESSAGE: string := "Toner id cannot be empty"

  /** `try_into_domain`: parses the id, panicking on malformed text, and
      never answers with an error. */
  function TryIntoDomain(body: DeleteTonerHttpRequestBody)
    : (r: Result<DeleteTonerRequest, ParseDeleteTonerHttpRequestError>)
    requires IsUuidText(body.id)
    ensures r.Ok? && r.value.id == body.id
  {
    Ok(DeleteTonerRequest(ParseUuid(body.id).value))
  }

  /** `From<ParseDeleteTonerHttpRequestError> for ApiError`. */
  function FromParseError(e: ParseDeleteTonerHttpRequestError): (r: HttpError)
    ensures r == UnprocessableEntity("Toner id cannot be empty")
  {
    UnprocessableEntity(EMPTY_ID_MESSAGE)
  }

  /** `From<DeleteTonerError> for ApiError`. */
  function FromDeleteTonerError(e: DeleteTonerError): (r: HttpError)
    ensures e.NotFound? <==> r.NotFound?
    ensures e.NotFound? ==> r.message == "Toner with id " + e.id + " not found"
    ensures e.DeleteUnknown? <==> r == InternalServerError("Internal server error")
  {
    match e
    case NotFound(id) => HttpResponses.NotFound("Toner with id " + id + " not found")
    case DeleteUnknown => InternalServerError(INTERNAL_SERVER_ERROR_MESSAGE)
  }

  /** `From<&Uuid> for DeleteTonerResponseData`: the id, printed. */
  function ResponseDataFromId(id: Uuid): (r: DeleteTonerResponseData)
    ensures ParseUuid(r.id) == Some(id)
  {
    DeleteTonerResponseData(id)
  }

  /** `From<&Toner> for DeleteTonerResponseData`: the toner's id, printed. */
  function ResponseDataFromToner(toner: Toner): (r: DeleteTonerResponseData)
    ensures r == ResponseDataFromId(toner.id)
  {
    DeleteTonerResponseData(toner.id)
  }

  /** The `delete_toner` handler over a stock service, given as the
      function from a domain request to the service's answer. */
  function DeleteTonerHandler(body: DeleteTonerHttpRequestBody,
                              service: DeleteTonerRequest -> Result<Uuid, DeleteTonerError>)
    : (r: Result<ApiSuccess<DeleteTonerResponseData>, HttpError>)
    requires IsUuidText(body.id)
    ensures var answer := service(DeleteTonerRequest(body.id));
            (r.Ok? <==> answer.Ok?) &&
            (r.Ok? ==> r.value.status == OK && ParseUuid(r.value.data.id) == Some(answer.value)) &&
            (r.Err? ==> r.error == FromDeleteTonerError(answer.error))
    ensures r != Err(UnprocessableEntity("Toner id cannot be empty"))
  {
    match TryIntoDomain(body)
    case Err(e) => Err(FromParseError(e))
    case Ok(request) =>
      match service(request)
      case Err(e) => Err(FromDeleteTonerError(e))
      case Ok(id) => Ok(ApiSuccess(OK, ResponseDataFromId(id)))
  }

  /** With a service that answers the id it was asked to delete, as the
      SQLite repository does, a successful answer carries the body's id. */
  lemma DeletedIdRoundTrip(body: DeleteTonerHttpRequestBody,
                           service: DeleteTonerRequest -> Result<Uuid, DeleteTonerError>)
    requires IsUuidText(body.id)
    requires forall req :: service(req).Ok? ==> service(req).value == req.id
    requires DeleteTonerHandler(body, service).Ok?
    ensures DeleteTonerHandler(body, service).value.data.id == body.id
  {
    assert service(DeleteTonerRequest(body.id)).Ok?;
  }
}
