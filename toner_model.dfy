/** The toner row's constructors and the declarative validation rules on
    the toner create and update request bodies. */
module TonerModel {
  import opened Common
  import opened Tables
  import opened ApiErrors

  const NAME_RULE_MESSAGE: string := "Name must be greater than 3 chars"
  const STOCK_RULE_MESSAGE: string := "Stock must be greater or equal than 0"
  const MIN_NAME_CHARS: nat := 3

  /** `Toner::new`: a fresh id and the given columns. */
  function NewToner(freshId: Uuid, name: string, stock: Option<I32>, price: Option<Decimal>): (t: Toner)
    ensures t.id == freshId
    ensures t.name == name && t.stock == stock && t.price == price
  {
    Supply(freshId, name, stock, price)
  }

  /** `Toner::default`: a fresh id, the name "Unknown", no stock and no price. */
  function DefaultToner(freshId: Uuid): (t: Toner)
    ensures t.id == freshId
    ensures t.name == "Unknown" && t.stock.None? && t.price.None?
  {
    Supply(freshId, "Unknown", None, None)
  }

  /** The `length(min = 3)` rule: counted in characters. */
  function NameRule(name: string): (errs: seq<FieldError>)
    ensures errs == [] <==> |name| >= MIN_NAME_CHARS
    ensures errs != [] ==> errs == [FieldError("name", NAME_RULE_MESSAGE)]
  {
    if |name| < MIN_NAME_CHARS then [FieldError("name", NAME_RULE_MESSAGE)] else []
  }

  /** The `range(min = 0)` rule: an absent stock passes. */
  function StockRule(stock: Option<I32>): (errs: seq<FieldError>)
    ensures errs == [] <==> (stock.Some? ==> stock.value >= 0)
    ensures errs != [] ==> errs == [FieldError("stock", STOCK_RULE_MESSAGE)]
  {
    if stock.Some? && stock.value < 0 then [FieldError("stock", STOCK_RULE_MESSAGE)] else []
  }

  /** `CreateTonerRequest::validate`: every violated rule, name first. */
  function ValidateCreateTonerRequest(req: CreateTonerRequest): (errs: seq<FieldError>)
    ensures errs == [] <==> |req.name| >= MIN_NAME_CHARS && (req.stock.Some? ==> req.stock.value >= 0)
    ensures FieldError("name", NAME_RULE_MESSAGE) in errs <==> |req.name| < MIN_NAME_CHARS
    ensures FieldError("stock", STOCK_RULE_MESSAGE) in errs <==> req.stock.Some? && req.stock.value < 0
  {
    NameRule(req.name) + StockRule(req.stock)
  }

  /** `UpdateTonerRequest::validate`: the same rules on the optional name
      and stock; absent fields are valid. */
  function ValidateUpdateTonerRequest(req: UpdateTonerRequest): (errs: seq<FieldError>)
    ensures errs == [] <==> (req.name.Some? ==> |req.name.value| >= MIN_NAME_CHARS) && (req.stock.Some? ==> req.stock.value >= 0)
    ensures FieldError("name", NAME_RULE_MESSAGE) in errs <==> req.name.Some? && |req.name.value| < MIN_NAME_CHARS
    ensures FieldError("stock", STOCK_RULE_MESSAGE) in errs <==> req.stock.Some? && req.stock.value < 0
  {
    (if req.name.Some? then NameRule(req.name.value) else []) + StockRule(req.stock)
  }

  /** Price carries no rule in either request. */
  lemma PriceIsUnconstrained(c: CreateTonerRequest, u: UpdateTonerRequest, p: Option<Decimal>)
    ensures ValidateCreateTonerRequest(c.(price := p)) == ValidateCreateTonerRequest(c)
    ensures ValidateUpdateTonerRequest(u.(price := p)) == ValidateUpdateTonerRequest(u)
  {
  }

  /** An empty name is rejected, which the handler turns into a 400 answer. */
  lemma EmptyNameIsRejected(req: CreateTonerRequest)
    requires req.name == ""
    ensures ValidateCreateTonerRequest(req) != []
    ensures IntoResponse(ValidationError(ValidateCreateTonerRequest(req))).0 == BAD_REQUEST
  {
  }
}
