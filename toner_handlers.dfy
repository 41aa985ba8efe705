/** The toner catalog handlers: count, fetch, list, create, update and
    delete. */
module TonerHandlers {
  import opened Common
  import opened Tables
  import opened ApiErrors
  import opened Database
  import opened TonerModel

  /** Bounds the update handler puts on a new name, counted in UTF-8 bytes. */
  const MIN_NAME_BYTES: nat := 4
  const MAX_NAME_BYTES: nat := 20

  /** The number of bytes `c` takes in UTF-8. */
  function Utf8Width(c: char): (n: nat)
    ensures 1 <= n <= 4
    ensures n == 1 <==> (c as int) < 0x80
  {
    if (c as int) < 0x80 then 1
    else if (c as int) < 0x800 then 2
    else if (c as int) < 0x1_0000 then 3
    else 4
  }

  /** `String::len`: the length of the UTF-8 encoding. */
  function Utf8Len(s: string): (n: nat)
    ensures |s| <= n <= 4 * |s|
    ensures n == 0 <==> s == ""
  {
    if s == "" then 0 else Utf8Width(s[0]) + Utf8Len(s[1..])
  }

  /** The name checks of the update handler, in order: empty, too short,
      too long. `None` when the name passes all three. */
  function NameLengthError(name: string): (r: Option<ApiError>)
    ensures r == Some(EmptyName) <==> name == ""
    ensures r == Some(NameTooShort) <==> name != "" && Utf8Len(name) < MIN_NAME_BYTES
    ensures r == Some(NameTooLong) <==> Utf8Len(name) > MAX_NAME_BYTES
    ensures r.None? <==> MIN_NAME_BYTES <= Utf8Len(name) <= MAX_NAME_BYTES
  {
    if name == "" then Some(EmptyName)
    else if Utf8Len(name) < MIN_NAME_BYTES then Some(NameTooShort)
    else if Utf8Len(name) > MAX_NAME_BYTES then Some(NameTooLong)
    else None
  }

  /** `count_toners`: the number of toners. */
  function CountToners(db: Store): (r: Result<Reply<int>, ApiError>)
    reads db
    ensures r.Ok? <==> db.online
    ensures r.Ok? ==> r.value == Reply(OK, |db.toners|)
    ensures r.Err? ==> r.error == DatabaseError
  {
    if !db.online then Err(DatabaseError) else Ok(Reply(OK, |db.toners|))
  }

  /** `search_toner`: the toner with this id, `IdNotFound` when there is none. */
  function SearchToner(db: Store, id: Uuid): (r: Result<Reply<Toner>, ApiError>)
    reads db
    requires db.Valid()
    ensures r.Ok? <==> db.online && id in db.toners
    ensures r.Ok? ==> r.value.status == OK && r.value.body.id == id && r.value.body == db.toners[id]
    ensures r == Err(IdNotFound) <==> db.online && id !in db.toners
    ensures r == Err(DatabaseError) <==> !db.online
  {
    if !db.online then Err(DatabaseError)
    else if id !in db.toners then Err(IdNotFound)
    else Ok(Reply(OK, db.toners[id]))
  }

  /** `show_toners`: every toner. */
  function ShowToners(db: Store): (r: Result<Reply<set<Toner>>, ApiError>)
    reads db
    ensures r.Ok? <==> db.online
    ensures r.Ok? ==> r.value.status == OK && forall t :: t in r.value.body <==> t in db.toners.Values
    ensures r.Err? ==> r.error == DatabaseError
  {
    if !db.online then Err(DatabaseError) else Ok(Reply(OK, db.toners.Values))
  }

  /** The list has as many toners as the count reports. */
  lemma ShowTonersMatchesCount(db: Store)
    requires db.Valid() && db.online
    ensures |ShowToners(db).value.body| == CountToners(db).value.body
  {
    KeyedRowsCount(db.toners, (t: Toner) => t.id);
  }

  /** `create_toner`: validation first (no database access), then the
      duplicate-name check, then one INSERT under the fresh id; 201 with
      that id. */
  method CreateToner(db: Store, req: CreateTonerRequest, freshId: Uuid)
    returns (r: Result<Reply<Uuid>, ApiError>)
    requires db.Valid()
    modifies db
    ensures db.Valid()
    ensures db.drums == old(db.drums) && db.brands == old(db.brands) && db.printers == old(db.printers)
    ensures db.movements == old(db.movements) && db.online == old(db.online)
    ensures ValidateCreateTonerRequest(req) != [] ==> r == Err(ValidationError(ValidateCreateTonerRequest(req)))
    ensures ValidateCreateTonerRequest(req) == [] && !old(db.online) ==> r == Err(DatabaseError)
    ensures ValidateCreateTonerRequest(req) == [] && old(db.online) ==>
              (SupplyNameTaken(old(db.toners), req.name) ==> r == Err(AlreadyExists))
    ensures r.Ok? <==> ValidateCreateTonerRequest(req) == [] && old(db.online) &&
                       !SupplyNameTaken(old(db.toners), req.name) && freshId !in old(db.toners)
    ensures r.Ok? ==> r.value == Reply(CREATED, freshId)
    ensures r.Ok? ==> db.toners == old(db.toners)[freshId := NewToner(freshId, req.name, req.stock, req.price)]
    ensures r.Err? ==> db.toners == old(db.toners)
  {
    var errors := ValidateCreateTonerRequest(req);
    if errors != [] {
      return Err(ValidationError(errors));
    }
    var toner := NewToner(freshId, req.name, req.stock, req.price);
    if !db.online {
      return Err(DatabaseError);
    }
    if SupplyNameTaken(db.toners, toner.name) {
      return Err(AlreadyExists);
    }
    if freshId in db.toners {
      // the INSERT violates the primary key
      return Err(DatabaseError);
    }
    db.toners := db.toners[freshId := toner];
    return Ok(Reply(CREATED, freshId));
  }

  /** `update_toner`: existence check (a failed query is `Unknown`), then
      the name checks in order, the duplicate check against other toners,
      and up to three per-column UPDATEs. Stock is written verbatim, with no
      range check, and the answer is 200 even when no column was given. */
  method UpdateToner(db: Store, req: UpdateTonerRequest) returns (r: Result<Reply<Uuid>, ApiError>)
    requires db.Valid()
    modifies db
    ensures db.Valid()
    ensures db.drums == old(db.drums) && db.brands == old(db.brands) && db.printers == old(db.printers)
    ensures db.movements == old(db.movements) && db.online == old(db.online)
    ensures r == Err(Unknown) <==> !old(db.online)
    ensures r == Err(IdNotFound) <==> old(db.online) && req.id !in old(db.toners)
    ensures old(db.online) && req.id in old(db.toners) && req.name.Some? ==>
              (NameLengthError(req.name.value).Some? ==> r == Err(NameLengthError(req.name.value).value))
    ensures r == Err(AlreadyExists) <==>
              old(db.online) && req.id in old(db.toners) && req.name.Some? &&
              NameLengthError(req.name.value).None? && SupplyNameTakenByOther(old(db.toners), req.id, req.name.value)
    ensures r.Ok? <==>
              old(db.online) && req.id in old(db.toners) &&
              (req.name.Some? ==> NameLengthError(req.name.value).None? &&
                                  !SupplyNameTakenByOther(old(db.toners), req.id, req.name.value))
    ensures r.Ok? ==> r.value == Reply(OK, req.id)
    ensures r.Ok? ==> db.toners == old(db.toners)[req.id := PatchSupply(old(db.toners)[req.id], req)]
    ensures r.Err? ==> db.toners == old(db.toners)
  {
    if !db.online {
      return Err(Unknown);
    }
    if req.id !in db.toners {
      return Err(IdNotFound);
    }
    if req.name.Some? {
      var name := req.name.value;
      var lengthError := NameLengthError(name);
      if lengthError.Some? {
        return Err(lengthError.value);
      }
      if SupplyNameTakenByOther(db.toners, req.id, name) {
        return Err(AlreadyExists);
      }
      db.toners := db.toners[req.id := db.toners[req.id].(name := name)];
    }
    if req.stock.Some? {
      db.toners := db.toners[req.id := db.toners[req.id].(stock := req.stock)];
    }
    if req.price.Some? {
      db.toners := db.toners[req.id := db.toners[req.id].(price := req.price)];
    }
    return Ok(Reply(OK, req.id));
  }

  /** `delete_toner`: existence check (a failed query is `Unknown`), then
      exactly that toner is removed. */
  method DeleteToner(db: Store, id: Uuid) returns (r: Result<Reply<string>, ApiError>)
    requires db.Valid()
    modifies db
    ensures db.Valid()
    ensures db.drums == old(db.drums) && db.brands == old(db.brands) && db.printers == old(db.printers)
    ensures db.movements == old(db.movements) && db.online == old(db.online)
    ensures r == Err(Unknown) <==> !old(db.online)
    ensures r == Err(IdNotFound) <==> old(db.online) && id !in old(db.toners)
    ensures r.Ok? <==> old(db.online) && id in old(db.toners)
    ensures r.Ok? ==> r.value == Reply(OK, "Toner deleted!") && db.toners == old(db.toners) - {id}
    ensures r.Err? ==> db.toners == old(db.toners)
  {
    if !db.online {
      return Err(Unknown);
    }
    if id !in db.toners {
      return Err(IdNotFound);
    }
    db.toners := db.toners - {id};
    return Ok(Reply(OK, "Toner deleted!"));
  }

  /** Resubmitting a toner's own name passes the duplicate check, since the
      check skips the toner being updated. */
  lemma OwnNameIsNoConflict(m: map<Uuid, Toner>, id: Uuid)
    requires SuppliesKeyed(m) && id in m
    requires forall a, b :: a in m && b in m && a != b ==> m[a].name != m[b].name
    ensures !SupplyNameTakenByOther(m, id, m[id].name)
    ensures SupplyNameTaken(m, m[id].name)
  {
  }

  /** A name of 3 ASCII characters passes the create rule (3 characters or
      more) but is refused by the update handler (4 bytes or more). */
  lemma CreateAndUpdateNameRulesDiffer()
    ensures NameRule("abc") == []
    ensures NameLengthError("abc") == Some(NameTooShort)
  {
    assert Utf8Len("abc") == 3 by {
      assert "abc"[1..] == "bc" && "bc"[1..] == "c" && "c"[1..] == "";
    }
  }
}
