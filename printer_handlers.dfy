/** The printer handlers. A printer row refers to a brand, a toner and a
    drum by id; reads join the three tables in, so a printer whose
    references do not all resolve is invisible to them. The rules of the
    printer requests' `validate()` are not part of this model, so the create
    and update handlers take them as a parameter. */
module PrinterHandlers {
  import opened Common
  import opened Tables
  import opened ApiErrors
  import opened Database
  import Uniqueness
  import Existence

  /** A printer with its brand, toner and drum rows inlined. */
  datatype PrinterDetails = PrinterDetails(
    id: Uuid, name: string, model: string, brand: Brand, toner: Toner, drum: Drum)

  datatype CreatePrinterRequest = CreatePrinterRequest(
    name: string, model: string, brand: string, toner: string, drum: string)

  /** Every column but the id is optional; the three references arrive as
      text. */
  datatype UpdatePrinterRequest = UpdatePrinterRequest(
    id: Uuid, name: Option<string>, model: Option<string>,
    brand: Option<string>, toner: Option<string>, drum: Option<string>)

  /** The inner join of one printer row with the brands, toners and drums
      tables succeeds. */
  predicate Resolves(db: Store, p: Printer)
    reads db
  {
    p.toner in db.toners && p.drum in db.drums && p.brand in db.brands
  }

  /** The joined row of a printer whose references resolve. */
  function Details(db: Store, p: Printer): (d: PrinterDetails)
    reads db
    requires db.Valid() && Resolves(db, p)
    ensures d.id == p.id && d.name == p.name && d.model == p.model
    ensures d.brand == db.brands[p.brand] && d.brand.id == p.brand
    ensures d.toner == db.toners[p.toner] && d.toner.id == p.toner
    ensures d.drum == db.drums[p.drum] && d.drum.id == p.drum
  {
    PrinterDetails(p.id, p.name, p.model, db.brands[p.brand], db.toners[p.toner], db.drums[p.drum])
  }

  /** The rows of the join, keyed by printer id. */
  function Joined(db: Store): (m: map<Uuid, PrinterDetails>)
    reads db
    requires db.Valid()
    ensures forall k :: k in m <==> k in db.printers && Resolves(db, db.printers[k])
    ensures forall k :: k in m ==> m[k] == Details(db, db.printers[k]) && m[k].id == k
  {
    map k | k in db.printers && Resolves(db, db.printers[k]) :: Details(db, db.printers[k])
  }

  /** `count_printers`: every printer row, resolvable or not. */
  function CountPrinters(db: Store): (r: Result<Reply<int>, ApiError>)
    reads db
    ensures r.Ok? <==> db.online
    ensures r.Ok? ==> r.value == Reply(OK, |db.printers|)
    ensures r.Err? ==> r.error == DatabaseError
  {
    if !db.online then Err(DatabaseError) else Ok(Reply(OK, |db.printers|))
  }

  /** `search_printer`: the joined printer; a printer that exists but whose
      references do not all resolve is reported as `IdNotFound`. */
  function SearchPrinter(db: Store, id: Uuid): (r: Result<Reply<PrinterDetails>, ApiError>)
    reads db
    requires db.Valid()
    ensures r.Ok? <==> db.online && id in db.printers && Resolves(db, db.printers[id])
    ensures r.Ok? ==> r.value.status == OK && r.value.body == Details(db, db.printers[id]) && r.value.body.id == id
    ensures r == Err(IdNotFound) <==> db.online && (id !in db.printers || !Resolves(db, db.printers[id]))
    ensures r == Err(DatabaseError) <==> !db.online
  {
    if !db.online then Err(DatabaseError)
    else if id in db.printers && Resolves(db, db.printers[id]) then Ok(Reply(OK, Details(db, db.printers[id])))
    else Err(IdNotFound)
  }

  /** `show_printers`: the joined rows. */
  function ShowPrinters(db: Store): (r: Result<Reply<set<PrinterDetails>>, ApiError>)
    reads db
    requires db.Valid()
    ensures r.Ok? <==> db.online
    ensures r.Ok? ==> r.value.status == OK
    ensures r.Ok? ==> forall d :: d in r.value.body <==>
                        d.id in db.printers && Resolves(db, db.printers[d.id]) && d == Details(db, db.printers[d.id])
    ensures r.Err? ==> r.error == DatabaseError
  {
    if !db.online then Err(DatabaseError)
    else
      var m := Joined(db);
      assert forall d :: d in m.Values ==> d.id in m && m[d.id] == d;
      Ok(Reply(OK, m.Values))
  }

  /** The list never holds more printers than the count reports, and holds
      exactly as many when every printer's references resolve. */
  lemma ShowPrintersAgreesWithCount(db: Store)
    requires db.Valid() && db.online
    ensures |ShowPrinters(db).value.body| <= CountPrinters(db).value.body
    ensures (forall k :: k in db.printers ==> Resolves(db, db.printers[k])) ==>
              |ShowPrinters(db).value.body| == CountPrinters(db).value.body
  {
    var m := Joined(db);
    KeyedRowsCount(m, (d: PrinterDetails) => d.id);
    assert db.printers.Keys == m.Keys + (db.printers.Keys - m.Keys);
    assert |db.printers.Keys| == |m.Keys| + |db.printers.Keys - m.Keys|;
    if forall k :: k in db.printers ==> Resolves(db, db.printers[k]) {
      assert db.printers.Keys - m.Keys == {};
    }
  }

  /** A printer whose toner row is gone is still counted but cannot be
      fetched. */
  lemma DanglingPrinterIsNotFound(db: Store, id: Uuid)
    requires db.Valid() && db.online && id in db.printers && db.printers[id].toner !in db.toners
    ensures SearchPrinter(db, id) == Err(IdNotFound)
    ensures CountPrinters(db).value.body >= 1
  {
    assert id in db.printers.Keys;
  }

  /** `create_printer`: the request's `validate()` first, then the
      uniqueness check, then the three references are parsed, panicking on
      text that is not a UUID, then one INSERT under the fresh id. The
      references are not checked against their tables. */
  method CreatePrinter(db: Store, req: CreatePrinterRequest, freshId: Uuid,
                       validate: CreatePrinterRequest -> seq<FieldError>)
    returns (r: Result<Reply<Uuid>, ApiError>)
    requires db.Valid()
    requires validate(req) == [] && db.online && !Uniqueness.PrinterNameTaken(db.printers, req.name) ==>
               IsUuidText(req.brand) && IsUuidText(req.toner) && IsUuidText(req.drum)
    modifies db
    ensures db.Valid()
    ensures db.toners == old(db.toners) && db.drums == old(db.drums) && db.brands == old(db.brands)
    ensures db.movements == old(db.movements) && db.online == old(db.online)
    ensures validate(req) != [] ==> r == Err(ValidationError(validate(req)))
    ensures r == Err(DatabaseError) <==>
              validate(req) == [] && (!old(db.online) ||
                (!Uniqueness.PrinterNameTaken(old(db.printers), req.name) && freshId in old(db.printers)))
    ensures r == Err(AlreadyExists) <==>
              validate(req) == [] && old(db.online) && Uniqueness.PrinterNameTaken(old(db.printers), req.name)
    ensures r.Ok? <==> validate(req) == [] && old(db.online) &&
                       !Uniqueness.PrinterNameTaken(old(db.printers), req.name) && freshId !in old(db.printers)
    ensures r.Ok? ==> r.value == Reply(CREATED, freshId)
    ensures r.Ok? ==> db.printers == old(db.printers)[freshId :=
                        Printer(freshId, req.name, req.model, req.brand, req.toner, req.drum)]
    ensures r.Err? ==> db.printers == old(db.printers)
  {
    var errors := validate(req);
    if errors != [] {
      return Err(ValidationError(errors));
    }
    var unique := Uniqueness.IsPrinterUnique(db, req.name);
    if unique.Err? {
      return Err(unique.error);
    }
    var brand := ParseUuid(req.brand).value;
    var toner := ParseUuid(req.toner).value;
    var drum := ParseUuid(req.drum).value;
    var printer := Printer(freshId, req.name, req.model, brand, toner, drum);
    if freshId in db.printers {
      // the INSERT violates the primary key
      return Err(DatabaseError);
    }
    db.printers := db.printers[freshId := printer];
    return Ok(Reply(CREATED, freshId));
  }

  /** Some column of the update will be written: a name or a model, or a
      reference whose text parses as a UUID. */
  predicate ChangesSomething(req: UpdatePrinterRequest) {
    req.name.Some? || req.model.Some? || ParseOptionalUuid(req.brand).Some? ||
    ParseOptionalUuid(req.toner).Some? || ParseOptionalUuid(req.drum).Some?
  }

  /** The printer row after the per-column UPDATEs: a reference whose text
      does not parse is skipped, as if it were absent. */
  function PatchPrinter(p: Printer, req: UpdatePrinterRequest): (r: Printer)
    ensures r.id == p.id
    ensures r.name == (if req.name.Some? then req.name.value else p.name)
    ensures r.model == (if req.model.Some? then req.model.value else p.model)
    ensures r.brand == (if ParseOptionalUuid(req.brand).Some? then req.brand.value else p.brand)
    ensures r.toner == (if ParseOptionalUuid(req.toner).Some? then req.toner.value else p.toner)
    ensures r.drum == (if ParseOptionalUuid(req.drum).Some? then req.drum.value else p.drum)
    ensures !ChangesSomething(req) ==> r == p
  {
    Printer(p.id,
      if req.name.Some? then req.name.value else p.name,
      if req.model.Some? then req.model.value else p.model,
      if ParseOptionalUuid(req.brand).Some? then req.brand.value else p.brand,
      if ParseOptionalUuid(req.toner).Some? then req.toner.value else p.toner,
      if ParseOptionalUuid(req.drum).Some? then req.drum.value else p.drum)
  }

  /** A second write to the same key replaces the first. */
  lemma RewriteRow(m: map<Uuid, Printer>, id: Uuid, first: Printer, second: Printer)
    ensures m[id := first][id := second] == m[id := second]
  {
  }

  /** One `UPDATE printers SET .. WHERE id = ..` on an existing row. */
  method SetPrinterRow(db: Store, row: Printer)
    requires db.Valid() && row.id in db.printers
    modifies db
    ensures db.Valid()
    ensures db.printers == old(db.printers)[row.id := row]
    ensures db.toners == old(db.toners) && db.drums == old(db.drums) && db.brands == old(db.brands)
    ensures db.movements == old(db.movements) && db.online == old(db.online)
  {
    db.printers := db.printers[row.id := row];
  }

  /** `update_printer`: the request's `validate()` first, then the
      existence check, then one UPDATE per supplied column, remembering
      whether any ran; `NotModified` when none did. */
  method UpdatePrinter(db: Store, req: UpdatePrinterRequest, validate: UpdatePrinterRequest -> seq<FieldError>)
    returns (r: Result<Reply<Uuid>, ApiError>)
    requires db.Valid()
    modifies db
    ensures db.Valid()
    ensures db.toners == old(db.toners) && db.drums == old(db.drums) && db.brands == old(db.brands)
    ensures db.movements == old(db.movements) && db.online == old(db.online)
    ensures validate(req) != [] ==> r == Err(ValidationError(validate(req)))
    ensures r == Err(DatabaseError) <==> validate(req) == [] && !old(db.online)
    ensures r == Err(IdNotFound) <==> validate(req) == [] && old(db.online) && req.id !in old(db.printers)
    ensures r == Err(NotModified) <==>
              validate(req) == [] && old(db.online) && req.id in old(db.printers) && !ChangesSomething(req)
    ensures r.Ok? <==> validate(req) == [] && old(db.online) && req.id in old(db.printers) && ChangesSomething(req)
    ensures r.Ok? ==> r.value == Reply(OK, req.id)
    ensures r.Ok? ==> db.printers == old(db.printers)[req.id := PatchPrinter(old(db.printers)[req.id], req)]
    ensures r.Err? ==> db.printers == old(db.printers)
  {
    var errors := validate(req);
    if errors != [] {
      return Err(ValidationError(errors));
    }
    var found := Existence.PrinterExists(db, req.id);
    if found.Err? {
      return Err(found.error);
    }
    var brand := ParseOptionalUuid(req.brand);
    var toner := ParseOptionalUuid(req.toner);
    var drum := ParseOptionalUuid(req.drum);
    var updated := false;
    // `row` is the printer's row as the UPDATEs so far have left it
    var row := db.printers[req.id];
    assert db.printers == old(db.printers)[req.id := row];
    if req.name.Some? {
      RewriteRow(old(db.printers), req.id, row, row.(name := req.name.value));
      row := row.(name := req.name.value);
      SetPrinterRow(db, row);
      updated := true;
    }
    assert db.printers == old(db.printers)[req.id := row];
    if req.model.Some? {
      RewriteRow(old(db.printers), req.id, row, row.(model := req.model.value));
      row := row.(model := req.model.value);
      SetPrinterRow(db, row);
      updated := true;
    }
    assert db.printers == old(db.printers)[req.id := row];
    if brand.Some? {
      RewriteRow(old(db.printers), req.id, row, row.(brand := brand.value));
      row := row.(brand := brand.value);
      SetPrinterRow(db, row);
      updated := true;
    }
    assert db.printers == old(db.printers)[req.id := row];
    if toner.Some? {
      RewriteRow(old(db.printers), req.id, row, row.(toner := toner.value));
      row := row.(toner := toner.value);
      SetPrinterRow(db, row);
      updated := true;
    }
    assert db.printers == old(db.printers)[req.id := row];
    if drum.Some? {
      RewriteRow(old(db.printers), req.id, row, row.(drum := drum.value));
      row := row.(drum := drum.value);
      SetPrinterRow(db, row);
      updated := true;
    }
    assert db.printers == old(db.printers)[req.id := row];
    ghost var before := old(db.printers)[req.id];
    assert row == PatchPrinter(before, req);
    assert updated == ChangesSomething(req);
    if !updated {
      return Err(NotModified);
    }
    return Ok(Reply(OK, req.id));
  }

  /** `delete_printer`: the existence check, then exactly that printer is
      removed. */
  method DeletePrinter(db: Store, id: Uuid) returns (r: Result<Reply<string>, ApiError>)
    requires db.Valid()
    modifies db
    ensures db.Valid()
    ensures db.toners == old(db.toners) && db.drums == old(db.drums) && db.brands == old(db.brands)
    ensures db.movements == old(db.movements) && db.online == old(db.online)
    ensures r == Err(DatabaseError) <==> !old(db.online)
    ensures r == Err(IdNotFound) <==> old(db.online) && id !in old(db.printers)
    ensures r.Ok? <==> old(db.online) && id in old(db.printers)
    ensures r.Ok? ==> r.value == Reply(OK, "Printer deleted!") && db.printers == old(db.printers) - {id}
    ensures r.Err? ==> db.printers == old(db.printers)
  {
    var found := Existence.PrinterExists(db, id);
    if found.Err? {
      return Err(found.error);
    }
    db.printers := db.printers - {id};
    return Ok(Reply(OK, "Printer deleted!"));
  }

  /** A reference given as text that is not a UUID is dropped without an
      error: a request carrying only such a reference changes nothing. */
  lemma MalformedReferenceIsIgnored(req: UpdatePrinterRequest)
    requires req.name.None? && req.model.None? && req.toner.None? && req.drum.None?
    requires req.brand.Some? && !IsUuidText(req.brand.value)
    ensures !ChangesSomething(req)
  {
  }
}
