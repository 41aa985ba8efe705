/** The stock movement ledger: counting, listing and fetching ledger rows,
    recording a toner or drum movement (which also adds the quantity to
    that item's stock), and editing or removing a ledger row (which never
    touches stock). Each handler answers with an HTTP status. */
module MovementHandlers {
  import opened Common
  import opened Tables
  import opened Database

  /** The JSON body of a read: a value, an error message, or `null`. */
  datatype Body<+T> = Json(value: T) | Message(text: string) | Null

  datatype CreateTonerMovementRequest = CreateTonerMovementRequest(tonerId: Option<Uuid>, quantity: I32)

  datatype CreateDrumMovementRequest = CreateDrumMovementRequest(drumId: Option<Uuid>, quantity: I32)

  datatype UpdateMovementRequest = UpdateMovementRequest(
    id: Uuid, printerId: Uuid, tonerId: Option<Uuid>, drumId: Option<Uuid>, quantity: I32)

  /** The three `WHERE` clauses the read handlers use. */
  datatype Filter = AllMovements | TonerMovements | DrumMovements

  predicate Selects(f: Filter, m: Movement) {
    match f
    case AllMovements => true
    case TonerMovements => m.tonerId.Some?
    case DrumMovements => m.drumId.Some?
  }

  /** The part of the ledger a filter keeps. */
  function Selected(m: map<Uuid, Movement>, f: Filter): (r: map<Uuid, Movement>)
    ensures r.Keys <= m.Keys
    ensures forall k :: k in r <==> k in m && Selects(f, m[k])
    ensures forall k :: k in r ==> r[k] == m[k]
  {
    map k | k in m && Selects(f, m[k]) :: m[k]
  }

  /** Every ledger row names exactly one item: a toner or a drum. */
  ghost predicate SingleItemRows(m: map<Uuid, Movement>) {
    forall k :: k in m ==> (m[k].tonerId.Some? <==> m[k].drumId.None?)
  }

  /** Some printer is assigned this toner. */
  predicate PrinterWithToner(printers: map<Uuid, Printer>, tonerId: Uuid) {
    exists p :: p in printers && printers[p].toner == tonerId
  }

  /** Some printer is assigned this drum. */
  predicate PrinterWithDrum(printers: map<Uuid, Printer>, drumId: Uuid) {
    exists p :: p in printers && printers[p].drum == drumId
  }

  // ---------------------------------------------------------------- reads

  /** `SELECT COUNT(*)::int`: the cast to a 32-bit integer fails when the
      count exceeds `i32`, and any failure is answered with 500. */
  function Count(db: Store, f: Filter, failure: string): (r: Reply<Body<int>>)
    reads db
  {
    if !db.online || |Selected(db.movements, f)| > I32_MAX then Reply(INTERNAL_SERVER_ERROR, Message(failure))
    else Reply(OK, Json(|Selected(db.movements, f)|))
  }

  /** `count_all_movements`: the number of ledger rows, when it fits `i32`. */
  function CountAllMovements(db: Store): (r: Reply<Body<int>>)
    reads db
    ensures r.status == OK <==> db.online && |db.movements| <= I32_MAX
    ensures r.status == OK ==> r.body == Json(|db.movements|)
    ensures r.status != OK ==> r == Reply(INTERNAL_SERVER_ERROR, Message("Error retrieving movement count."))
  {
    assert Selected(db.movements, AllMovements).Keys == db.movements.Keys;
    Count(db, AllMovements, "Error retrieving movement count.")
  }

  /** `count_toner_movements`: the number of rows whose toner is set. */
  function CountTonerMovements(db: Store): (r: Reply<Body<int>>)
    reads db
    ensures r.status == OK <==> db.online && |set k | k in db.movements && db.movements[k].tonerId.Some?| <= I32_MAX
    ensures r.status == OK ==> r.body == Json(|set k | k in db.movements && db.movements[k].tonerId.Some?|)
    ensures r.status != OK ==> r == Reply(INTERNAL_SERVER_ERROR, Message("Error retrieving toner movement count."))
  {
    assert Selected(db.movements, TonerMovements).Keys == set k | k in db.movements && db.movements[k].tonerId.Some?;
    Count(db, TonerMovements, "Error retrieving toner movement count.")
  }

  /** `count_drum_movements`: the number of rows whose drum is set. */
  function CountDrumMovements(db: Store): (r: Reply<Body<int>>)
    reads db
    ensures r.status == OK <==> db.online && |set k | k in db.movements && db.movements[k].drumId.Some?| <= I32_MAX
    ensures r.status == OK ==> r.body == Json(|set k | k in db.movements && db.movements[k].drumId.Some?|)
    ensures r.status != OK ==> r == Reply(INTERNAL_SERVER_ERROR, Message("Error retrieving drum movement count."))
  {
    assert Selected(db.movements, DrumMovements).Keys == set k | k in db.movements && db.movements[k].drumId.Some?;
    Count(db, DrumMovements, "Error retrieving drum movement count.")
  }

  /** `search_movement`: the row with this id, 404 when there is none. */
  function SearchMovement(db: Store, id: Uuid): (r: Reply<Body<Movement>>)
    reads db
    requires db.Valid()
    ensures r.status == OK <==> db.online && id in db.movements
    ensures r.status == NOT_FOUND <==> db.online && id !in db.movements
    ensures r.status == INTERNAL_SERVER_ERROR <==> !db.online
    ensures r.status == OK ==> r.body.Json? && r.body.value.id == id && r.body.value == db.movements[id]
    ensures r.status != OK ==> r.body == Null
  {
    if !db.online then Reply(INTERNAL_SERVER_ERROR, Null)
    else if id in db.movements then Reply(OK, Json(db.movements[id]))
    else Reply(NOT_FOUND, Null)
  }

  function List(db: Store, f: Filter, failure: string): (r: Reply<Body<set<Movement>>>)
    reads db
    ensures db.online ==> r == Reply(OK, Json(Selected(db.movements, f).Values))
    ensures !db.online ==> r == Reply(INTERNAL_SERVER_ERROR, Message(failure))
  {
    if !db.online then Reply(INTERNAL_SERVER_ERROR, Message(failure))
    else Reply(OK, Json(Selected(db.movements, f).Values))
  }

  /** `show_all_movements`: every ledger row. */
  function ShowAllMovements(db: Store): (r: Reply<Body<set<Movement>>>)
    reads db
    ensures r.status == OK <==> db.online
    ensures db.online ==> r.body.Json?
    ensures db.online ==> forall mv :: mv in r.body.value <==> mv in db.movements.Values
    ensures !db.online ==> r == Reply(INTERNAL_SERVER_ERROR, Message("Error listing movements."))
  {
    List(db, AllMovements, "Error listing movements.")
  }

  /** `show_toner_movements`: exactly the rows whose toner is set. */
  function ShowTonerMovements(db: Store): (r: Reply<Body<set<Movement>>>)
    reads db
    ensures r.status == OK <==> db.online
    ensures db.online ==> r.body.Json?
    ensures db.online ==> forall mv :: mv in r.body.value <==> mv in db.movements.Values && mv.tonerId.Some?
    ensures !db.online ==> r == Reply(INTERNAL_SERVER_ERROR, Message("Error listing toner movements."))
  {
    List(db, TonerMovements, "Error listing toner movements.")
  }

  /** `show_drum_movements`: exactly the rows whose drum is set. Its failure
      message names toner movements, as the handler's does. */
  function ShowDrumMovements(db: Store): (r: Reply<Body<set<Movement>>>)
    reads db
    ensures r.status == OK <==> db.online
    ensures db.online ==> r.body.Json?
    ensures db.online ==> forall mv :: mv in r.body.value <==> mv in db.movements.Values && mv.drumId.Some?
    ensures !db.online ==> r == Reply(INTERNAL_SERVER_ERROR, Message("Error listing toner movements."))
  {
    List(db, DrumMovements, "Error listing toner movements.")
  }

  /** Listing and counting agree: each list has as many rows as its count. */
  lemma ListSizeIsCount(db: Store, f: Filter)
    requires db.Valid() && db.online && |Selected(db.movements, f)| <= I32_MAX
    ensures List(db, f, "").body.value == Selected(db.movements, f).Values
    ensures |List(db, f, "").body.value| == Count(db, f, "").body.value
  {
    var sel := Selected(db.movements, f);
    KeyedRowsCount(sel, (mv: Movement) => mv.id);
  }

  /** When every row names exactly one item, all three counts succeed
      together and the toner count and the drum count add up to the total
      count. */
  lemma MovementCountsAddUp(db: Store)
    requires db.online && SingleItemRows(db.movements) && |db.movements| <= I32_MAX
    ensures CountTonerMovements(db).status == OK && CountDrumMovements(db).status == OK
    ensures CountTonerMovements(db).body.value + CountDrumMovements(db).body.value
         == CountAllMovements(db).body.value
  {
    var toner := Selected(db.movements, TonerMovements).Keys;
    var drum := Selected(db.movements, DrumMovements).Keys;
    assert toner * drum == {};
    assert toner + drum == db.movements.Keys;
    assert |toner + drum| == |toner| + |drum|;
    assert |toner| <= I32_MAX && |drum| <= I32_MAX;
    assert CountTonerMovements(db) == Reply(OK, Json(|toner|));
    assert CountDrumMovements(db) == Reply(OK, Json(|drum|));
    assert CountAllMovements(db) == Reply(OK, Json(|db.movements|));
  }

  // --------------------------------------------------------------- writes

  /** `create_toner_movement`. A missing toner id answers 500. Otherwise
      the printer assigned that toner is looked up (the handler panics when
      none exists or the database is down), a zero quantity answers 400,
      and then one ledger row is inserted under the fresh id and the
      quantity is added to the toner's stock. */
  method CreateTonerMovement(db: Store, req: CreateTonerMovementRequest, freshId: Uuid, now: Timestamp)
    returns (status: StatusCode)
    requires db.Valid()
    requires req.tonerId.Some? ==> db.online && PrinterWithToner(db.printers, req.tonerId.value)
    requires req.tonerId.Some? && req.quantity != 0 && freshId !in db.movements ==>
               StockAddFits(db.toners, req.tonerId.value, req.quantity)
    modifies db
    ensures db.Valid()
    ensures db.drums == old(db.drums) && db.brands == old(db.brands)
    ensures db.printers == old(db.printers) && db.online == old(db.online)
    ensures req.tonerId.None? ==> status == INTERNAL_SERVER_ERROR
    ensures req.tonerId.Some? && req.quantity == 0 ==> status == BAD_REQUEST
    ensures req.tonerId.Some? && req.quantity != 0 && freshId in old(db.movements) ==> status == INTERNAL_SERVER_ERROR
    ensures status == CREATED <==> req.tonerId.Some? && req.quantity != 0 && freshId !in old(db.movements)
    ensures status != CREATED ==> db.toners == old(db.toners) && db.movements == old(db.movements)
    ensures status == CREATED ==>
      exists p :: p in db.printers && db.printers[p].toner == req.tonerId.value &&
        db.movements == old(db.movements)[freshId := Movement(freshId, p, req.tonerId, None, req.quantity, now)]
    ensures status == CREATED ==> db.toners == AddToStock(old(db.toners), req.tonerId.value, req.quantity)
    ensures SingleItemRows(old(db.movements)) ==> SingleItemRows(db.movements)
  {
    match req.tonerId {
      case None =>
        return INTERNAL_SERVER_ERROR;
      case Some(tonerId) =>
        var printerId :| printerId in db.printers && db.printers[printerId].toner == tonerId;
        var row := Movement(freshId, printerId, Some(tonerId), None, req.quantity, now);
        if row.quantity == 0 {
          return BAD_REQUEST;
        }
        if freshId in db.movements {
          // the INSERT violates the primary key
          return INTERNAL_SERVER_ERROR;
        }
        db.movements := db.movements[freshId := row];
        db.toners := AddToStock(db.toners, tonerId, req.quantity);
        return CREATED;
    }
  }

  /** `create_drum_movement`: as for toners, except that a missing drum id
      answers 404 instead of 500. */
  method CreateDrumMovement(db: Store, req: CreateDrumMovementRequest, freshId: Uuid, now: Timestamp)
    returns (status: StatusCode)
    requires db.Valid()
    requires req.drumId.Some? ==> db.online && PrinterWithDrum(db.printers, req.drumId.value)
    requires req.drumId.Some? && req.quantity != 0 && freshId !in db.movements ==>
               StockAddFits(db.drums, req.drumId.value, req.quantity)
    modifies db
    ensures db.Valid()
    ensures db.toners == old(db.toners) && db.brands == old(db.brands)
    ensures db.printers == old(db.printers) && db.online == old(db.online)
    ensures req.drumId.None? ==> status == NOT_FOUND
    ensures req.drumId.Some? && req.quantity == 0 ==> status == BAD_REQUEST
    ensures req.drumId.Some? && req.quantity != 0 && freshId in old(db.movements) ==> status == INTERNAL_SERVER_ERROR
    ensures status == CREATED <==> req.drumId.Some? && req.quantity != 0 && freshId !in old(db.movements)
    ensures status != CREATED ==> db.drums == old(db.drums) && db.movements == old(db.movements)
    ensures status == CREATED ==>
      exists p :: p in db.printers && db.printers[p].drum == req.drumId.value &&
        db.movements == old(db.movements)[freshId := Movement(freshId, p, None, req.drumId, req.quantity, now)]
    ensures status == CREATED ==> db.drums == AddToStock(old(db.drums), req.drumId.value, req.quantity)
    ensures SingleItemRows(old(db.movements)) ==> SingleItemRows(db.movements)
  {
    match req.drumId {
      case None =>
        return NOT_FOUND;
      case Some(drumId) =>
        var printerId :| printerId in db.printers && db.printers[printerId].drum == drumId;
        var row := Movement(freshId, printerId, None, Some(drumId), req.quantity, now);
        if row.quantity == 0 {
          return BAD_REQUEST;
        }
        if freshId in db.movements {
          // the INSERT violates the primary key
          return INTERNAL_SERVER_ERROR;
        }
        db.movements := db.movements[freshId := row];
        db.drums := AddToStock(db.drums, drumId, req.quantity);
        return CREATED;
    }
  }

  /** The row after `update_movement`: printer, toner, drum and quantity
      are all overwritten (absent items become NULL); id and creation time
      are kept. */
  function Retarget(m: Movement, req: UpdateMovementRequest): (r: Movement)
    ensures r.id == m.id && r.createdAt == m.createdAt
    ensures r.printerId == req.printerId && r.quantity == req.quantity
    ensures r.tonerId == req.tonerId && r.drumId == req.drumId
  {
    m.(printerId := req.printerId, tonerId := req.tonerId, drumId := req.drumId, quantity := req.quantity)
  }

  /** `update_movement`: 400 when neither item is given (before any
      lookup), 404 for an unknown id, otherwise the row is overwritten with
      no check on the quantity. Stock is never adjusted. */
  method UpdateMovement(db: Store, req: UpdateMovementRequest) returns (status: StatusCode)
    requires db.Valid()
    modifies db
    ensures db.Valid()
    ensures db.toners == old(db.toners) && db.drums == old(db.drums)
    ensures db.brands == old(db.brands) && db.printers == old(db.printers) && db.online == old(db.online)
    ensures req.tonerId.None? && req.drumId.None? ==> status == BAD_REQUEST
    ensures status == OK <==>
      (req.tonerId.Some? || req.drumId.Some?) && old(db.online) && req.id in old(db.movements)
    ensures status == NOT_FOUND <==>
      (req.tonerId.Some? || req.drumId.Some?) && old(db.online) && req.id !in old(db.movements)
    ensures status == INTERNAL_SERVER_ERROR <==> (req.tonerId.Some? || req.drumId.Some?) && !old(db.online)
    ensures status == OK ==> db.movements == old(db.movements)[req.id := Retarget(old(db.movements)[req.id], req)]
    ensures status != OK ==> db.movements == old(db.movements)
  {
    if req.tonerId.None? && req.drumId.None? {
      return BAD_REQUEST;
    }
    if !db.online {
      return INTERNAL_SERVER_ERROR;
    }
    if req.id !in db.movements {
      return NOT_FOUND;
    }
    db.movements := db.movements[req.id := Retarget(db.movements[req.id], req)];
    return OK;
  }

  /** `delete_movement`: 404 for an unknown id, otherwise exactly that row
      is removed. Stock is never adjusted. */
  method DeleteMovement(db: Store, id: Uuid) returns (status: StatusCode)
    requires db.Valid()
    modifies db
    ensures db.Valid()
    ensures db.toners == old(db.toners) && db.drums == old(db.drums)
    ensures db.brands == old(db.brands) && db.printers == old(db.printers) && db.online == old(db.online)
    ensures status == OK <==> old(db.online) && id in old(db.movements)
    ensures status == NOT_FOUND <==> old(db.online) && id !in old(db.movements)
    ensures status == INTERNAL_SERVER_ERROR <==> !old(db.online)
    ensures status == OK ==> db.movements == old(db.movements) - {id}
    ensures status != OK ==> db.movements == old(db.movements)
    ensures SingleItemRows(old(db.movements)) ==> SingleItemRows(db.movements)
  {
    if !db.online {
      return INTERNAL_SERVER_ERROR;
    }
    if id !in db.movements {
      return NOT_FOUND;
    }
    db.movements := db.movements - {id};
    return OK;
  }

  /** An update may set both items (or change one row's item kind), after
      which the toner and drum counts no longer add up to the total: here a
      single toner row is given a drum as well. */
  lemma UpdateCanBreakCountPartition()
    ensures var row := Movement(NIL_UUID, NIL_UUID, Some(NIL_UUID), None, 1, 0);
            var req := UpdateMovementRequest(NIL_UUID, NIL_UUID, Some(NIL_UUID), Some(NIL_UUID), 1);
            var after := map[NIL_UUID := Retarget(row, req)];
            SingleItemRows(map[NIL_UUID := row]) && !SingleItemRows(after) &&
            |Selected(after, TonerMovements)| + |Selected(after, DrumMovements)| == |after| + 1
  {
    var row := Movement(NIL_UUID, NIL_UUID, Some(NIL_UUID), None, 1, 0);
    var req := UpdateMovementRequest(NIL_UUID, NIL_UUID, Some(NIL_UUID), Some(NIL_UUID), 1);
    var after := map[NIL_UUID := Retarget(row, req)];
    assert Selected(after, TonerMovements).Keys == {NIL_UUID};
    assert Selected(after, DrumMovements).Keys == {NIL_UUID};
  }
}
