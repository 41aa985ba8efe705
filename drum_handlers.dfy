/** The drum catalog handlers. The rules of the drum requests' `validate()`
    are not part of this model, so the create and update handlers take them
    as a parameter; beyond those rules, an update writes a new name without
    any duplicate check. */
module DrumHandlers {
  import opened Common
  import opened Tables
  import opened ApiErrors
  import opened Database
  import Uniqueness
  import Existence

  /** `count_drums`: the number of drums. */
  function CountDrums(db: Store): (r: Result<Reply<int>, ApiError>)
    reads db
    ensures r.Ok? <==> db.online
    ensures r.Ok? ==> r.value == Reply(OK, |db.drums|)
    ensures r.Err? ==> r.error == DatabaseError
  {
    if !db.online then Err(DatabaseError) else Ok(Reply(OK, |db.drums|))
  }

  /** `search_drum`: the drum with this id, `IdNotFound` when there is none. */
  function SearchDrum(db: Store, id: Uuid): (r: Result<Reply<Drum>, ApiError>)
    reads db
    requires db.Valid()
    ensures r.Ok? <==> db.online && id in db.drums
    ensures r.Ok? ==> r.value.status == OK && r.value.body.id == id && r.value.body == db.drums[id]
    ensures r == Err(IdNotFound) <==> db.online && id !in db.drums
    ensures r == Err(DatabaseError) <==> !db.online
  {
    if !db.online then Err(DatabaseError)
    else if id !in db.drums then Err(IdNotFound)
    else Ok(Reply(OK, db.drums[id]))
  }

  /** `show_drums`: every drum. */
  function ShowDrums(db: Store): (r: Result<Reply<set<Drum>>, ApiError>)
    reads db
    ensures r.Ok? <==> db.online
    ensures r.Ok? ==> r.value.status == OK && forall d :: d in r.value.body <==> d in db.drums.Values
    ensures r.Err? ==> r.error == DatabaseError
  {
    if !db.online then Err(DatabaseError) else Ok(Reply(OK, db.drums.Values))
  }

  /** The list has as many drums as the count reports. */
  lemma ShowDrumsMatchesCount(db: Store)
    requires db.Valid() && db.online
    ensures |ShowDrums(db).value.body| == CountDrums(db).value.body
  {
    KeyedRowsCount(db.drums, (d: Drum) => d.id);
  }

  /** `create_drum`: the request's `validate()` first, before any database
      access, then the uniqueness check, then one INSERT under the fresh id;
      201 with that id. The validation rules are those of `validate`; the
      handler's documentation and its endpoint test say they refuse an
      empty name. */
  method CreateDrum(db: Store, req: CreateDrumRequest, freshId: Uuid,
                    validate: CreateDrumRequest -> seq<FieldError>)
    returns (r: Result<Reply<Uuid>, ApiError>)
    requires db.Valid()
    modifies db
    ensures db.Valid()
    ensures db.toners == old(db.toners) && db.brands == old(db.brands) && db.printers == old(db.printers)
    ensures db.movements == old(db.movements) && db.online == old(db.online)
    ensures validate(req) != [] ==> r == Err(ValidationError(validate(req)))
    ensures r == Err(DatabaseError) <==>
              validate(req) == [] && (!old(db.online) ||
                                      (!SupplyNameTaken(old(db.drums), req.name) && freshId in old(db.drums)))
    ensures r == Err(AlreadyExists) <==> validate(req) == [] && old(db.online) && SupplyNameTaken(old(db.drums), req.name)
    ensures r.Ok? <==> validate(req) == [] && old(db.online) && !SupplyNameTaken(old(db.drums), req.name) &&
                       freshId !in old(db.drums)
    ensures r.Ok? ==> r.value == Reply(CREATED, freshId)
    ensures r.Ok? ==> db.drums == old(db.drums)[freshId := Supply(freshId, req.name, req.stock, req.price)]
    ensures r.Err? ==> db.drums == old(db.drums)
  {
    var errors := validate(req);
    if errors != [] {
      return Err(ValidationError(errors));
    }
    var unique := Uniqueness.IsDrumUnique(db, req.name);
    if unique.Err? {
      return Err(unique.error);
    }
    if freshId in db.drums {
      // the INSERT violates the primary key
      return Err(DatabaseError);
    }
    db.drums := db.drums[freshId := Supply(freshId, req.name, req.stock, req.price)];
    return Ok(Reply(CREATED, freshId));
  }

  /** `update_drum`: the request's `validate()` first, then the existence
      check, then up to three per-column UPDATEs, each written verbatim; 200
      with the id. */
  method UpdateDrum(db: Store, req: UpdateDrumRequest, validate: UpdateDrumRequest -> seq<FieldError>)
    returns (r: Result<Reply<Uuid>, ApiError>)
    requires db.Valid()
    modifies db
    ensures db.Valid()
    ensures db.toners == old(db.toners) && db.brands == old(db.brands) && db.printers == old(db.printers)
    ensures db.movements == old(db.movements) && db.online == old(db.online)
    ensures validate(req) != [] ==> r == Err(ValidationError(validate(req)))
    ensures r == Err(DatabaseError) <==> validate(req) == [] && !old(db.online)
    ensures r == Err(IdNotFound) <==> validate(req) == [] && old(db.online) && req.id !in old(db.drums)
    ensures r.Ok? <==> validate(req) == [] && old(db.online) && req.id in old(db.drums)
    ensures r.Ok? ==> r.value == Reply(OK, req.id)
    ensures r.Ok? ==> db.drums == old(db.drums)[req.id := PatchSupply(old(db.drums)[req.id], req)]
    ensures r.Err? ==> db.drums == old(db.drums)
  {
    var errors := validate(req);
    if errors != [] {
      return Err(ValidationError(errors));
    }
    var found := Existence.DrumExists(db, req.id);
    if found.Err? {
      return Err(found.error);
    }
    if req.name.Some? {
      db.drums := db.drums[req.id := db.drums[req.id].(name := req.name.value)];
    }
    if req.stock.Some? {
      db.drums := db.drums[req.id := db.drums[req.id].(stock := req.stock)];
    }
    if req.price.Some? {
      db.drums := db.drums[req.id := db.drums[req.id].(price := req.price)];
    }
    return Ok(Reply(OK, req.id));
  }

  /** `delete_drum`: the existence check, then exactly that drum is removed. */
  method DeleteDrum(db: Store, id: Uuid) returns (r: Result<Reply<string>, ApiError>)
    requires db.Valid()
    modifies db
    ensures db.Valid()
    ensures db.toners == old(db.toners) && db.brands == old(db.brands) && db.printers == old(db.printers)
    ensures db.movements == old(db.movements) && db.online == old(db.online)
    ensures r == Err(DatabaseError) <==> !old(db.online)
    ensures r == Err(IdNotFound) <==> old(db.online) && id !in old(db.drums)
    ensures r.Ok? <==> old(db.online) && id in old(db.drums)
    ensures r.Ok? ==> r.value == Reply(OK, "Drum deleted!") && db.drums == old(db.drums) - {id}
    ensures r.Err? ==> db.drums == old(db.drums)
  {
    var found := Existence.DrumExists(db, id);
    if found.Err? {
      return Err(found.error);
    }
    db.drums := db.drums - {id};
    return Ok(Reply(OK, "Drum deleted!"));
  }

  /** Since update writes a name with no duplicate check, any drum can be
      renamed to another drum's name, which a create would refuse. */
  lemma UpdateCanDuplicateName(m: map<Uuid, Drum>, a: Uuid, b: Uuid)
    requires a in m && b in m && a != b
    ensures var after := m[b := PatchSupply(m[b], UpdateSupplyRequest(b, Some(m[a].name), None, None))];
            after[a].name == after[b].name && SupplyNameTakenByOther(after, b, after[b].name)
  {
  }
}
