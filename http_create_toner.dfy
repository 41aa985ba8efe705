/** `POST` of a toner through the stock domain: the body's name becomes a
    `TonerName`, the service creates the toner, and its answer becomes an
    HTTP answer. */
module HttpCreateToner {
  import opened Common
  import opened TonerDomain
  import opened HttpResponses

  datatype CreateTonerHttpRequestBody = CreateTonerHttpRequestBody(name: string)

  /** The data of a successful answer: the new toner's id as text. */
  datatype CreateTonerResponseData = CreateTonerResponseData(id: string)

  /** The only way the body can be refused: the name is empty. */
  datatype ParseCreateTonerHttpRequestError = Name(cause: TonerNameEmptyError)

  const EMPTY_NAME_MESSAGE: string := "Toner name cannot be empty"

  /** `try_into_domain`: the name goes through `TonerName::new`. */
  function TryIntoDomain(body: CreateTonerHttpRequestBody)
    : (r: Result<CreateTonerRequest, ParseCreateTonerHttpRequestError>)
    ensures r.Err? <==> AllWhitespace(body.name)
    ensures r.Ok? ==> r.value.name.text == Trim(body.name)
  {
    match NewTonerName(body.name)
    case Err(e) => Err(Name(e))
    case Ok(name) => Ok(CreateTonerRequest(name))
  }

  /** `From<ParseCreateTonerHttpRequestError> for ApiError`. */
  function FromParseError(e: ParseCreateTonerHttpRequestError): (r: HttpError)
    ensures r == UnprocessableEntity("Toner name cannot be empty")
  {
    UnprocessableEntity(EMPTY_NAME_MESSAGE)
  }

  /** `From<CreateTonerError> for ApiError`: a duplicate names the toner,
      anything else is hidden behind a generic message. */
  function FromCreateTonerError(e: CreateTonerError): (r: HttpError)
    ensures e.Duplicate? <==> r.UnprocessableEntity?
    ensures e.Duplicate? ==> r.message == "Toner with name " + e.name.text + " already exists"
    ensures e.CreateUnknown? <==> r == InternalServerError("Internal server error")
  {
    match e
    case Duplicate(name) => UnprocessableEntity("Toner with name " + Display(name) + " already exists")
    case CreateUnknown => InternalServerError(INTERNAL_SERVER_ERROR_MESSAGE)
  }

  /** `From<&Toner> for CreateTonerResponseData`: the id, printed. */
  function ResponseData(toner: Toner): (r: CreateTonerResponseData)
    ensures ParseUuid(r.id) == Some(toner.id)
  {
    CreateTonerResponseData(toner.id)
  }

  /** The `create_toner` handler over a stock service, given as the
      function from a domain request to the service's answer. */
  function CreateTonerHandler(body: CreateTonerHttpRequestBody,
                              service: CreateTonerRequest -> Result<Toner, CreateTonerError>)
    : (r: Result<ApiSuccess<CreateTonerResponseData>, HttpError>)
    ensures AllWhitespace(body.name) ==> r == Err(UnprocessableEntity("Toner name cannot be empty"))
    ensures !AllWhitespace(body.name) ==>
              var answer := service(CreateTonerRequest(NewTonerName(body.name).value));
              (r.Ok? <==> answer.Ok?) &&
              (r.Ok? ==> r.value.status == CREATED && ParseUuid(r.value.data.id) == Some(answer.value.id)) &&
              (r.Err? ==> r.error == FromCreateTonerError(answer.error))
  {
    match TryIntoDomain(body)
    case Err(e) => Err(FromParseError(e))
    case Ok(request) =>
      match service(request)
      case Err(e) => Err(FromCreateTonerError(e))
      case Ok(toner) => Ok(ApiSuccess(CREATED, ResponseData(toner)))
  }

  /** A refused name never reaches the service: the answer is the same
      whatever the service would have done. */
  lemma EmptyNameSkipsService(body: CreateTonerHttpRequestBody,
                              s1: CreateTonerRequest -> Result<Toner, CreateTonerError>,
                              s2: CreateTonerRequest -> Result<Toner, CreateTonerError>)
    requires AllWhitespace(body.name)
    ensures CreateTonerHandler(body, s1) == CreateTonerHandler(body, s2)
  {
  }
}
