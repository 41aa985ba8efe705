/** The SQLite repository of the stock domain: a toners table of (id, name)
    rows, written inside a transaction that is committed at the end. The
    driver's answers (the transaction opening, each statement, the commit)
    are parameters; a transaction that is not committed leaves the table
    as it was. */
module SqliteAdapter {
  import opened Common
  import opened TonerDomain

  /** `sqlx::Error`, reduced to what the adapter inspects: a database error
      with its optional code, or any other failure. */
  datatype SqlxError = DatabaseFailure(code: Option<string>) | OtherFailure

  const UNIQUE_CONSTRAINT_VIOLATION_CODE: string := "2067"
  const ALREADY_EXISTS: string := "409"

  /** `is_unique_constraint_violation`. */
  function IsUniqueConstraintViolation(e: SqlxError): (b: bool)
    ensures b <==> e.DatabaseFailure? && e.code.Some? && e.code.value == "2067"
  {
    match e
    case DatabaseFailure(Some(code)) => code == UNIQUE_CONSTRAINT_VIOLATION_CODE
    case _ => false
  }

  /** `exists`: the error means the row is not there. */
  function Exists(e: SqlxError): (b: bool)
    ensures b <==> e.DatabaseFailure? && e.code.Some? && e.code.value == "409"
  {
    match e
    case DatabaseFailure(Some(code)) => code == ALREADY_EXISTS
    case _ => false
  }

  /** The two classifications never agree on an error. */
  lemma ClassificationsAreDisjoint(e: SqlxError)
    ensures !(IsUniqueConstraintViolation(e) && Exists(e))
    ensures e.OtherFailure? || e.code.None? ==> !IsUniqueConstraintViolation(e) && !Exists(e)
  {
  }

  /** How the driver answers one statement: it fails with an error, or it
      runs and reports how many rows it touched. */
  datatype Outcome = Failed(error: SqlxError) | Done(rowsAffected: nat)

  class Sqlite {
    /** The committed toners table. */
    var toners: map<Uuid, TonerName>

    constructor ()
      ensures toners == map[]
    {
      toners := map[];
    }

    /** `create_toner`: open a transaction, insert (fresh id, name), commit.
        A unique violation is `Duplicate` with the request's name; every
        other failure is `Unknown`. Only a commit changes the table. */
    method CreateToner(req: CreateTonerRequest, freshId: Uuid,
                       beginError: Option<SqlxError>, insert: Outcome, commitError: Option<SqlxError>)
      returns (r: Result<Toner, CreateTonerError>)
      requires insert.Done? ==> freshId !in toners
      modifies this
      ensures beginError.Some? ==> r == Err(CreateUnknown)
      ensures beginError.None? && insert.Failed? ==>
                r == (if IsUniqueConstraintViolation(insert.error) then Err(Duplicate(req.name)) else Err(CreateUnknown))
      ensures beginError.None? && insert.Done? && commitError.Some? ==> r == Err(CreateUnknown)
      ensures r.Ok? <==> beginError.None? && insert.Done? && commitError.None?
      ensures r.Ok? ==> r.value == Toner(freshId, req.name) && toners == old(toners)[freshId := req.name]
      ensures r.Err? ==> toners == old(toners)
    {
      if beginError.Some? {
        return Err(CreateUnknown);
      }
      var pending := SaveToner(toners, req.name, freshId, insert);
      if pending.Err? {
        if IsUniqueConstraintViolation(pending.error) {
          return Err(Duplicate(req.name));
        }
        return Err(CreateUnknown);
      }
      if commitError.Some? {
        return Err(CreateUnknown);
      }
      toners := pending.value.0;
      return Ok(Toner(pending.value.1, req.name));
    }

    /** `delete_toner` as written: a failure classified by `exists` becomes
        `NotFound`. A DELETE that matches no row does not fail, so an
        absent id is answered with `Ok(id)`. */
    method DeleteTonerAsWritten(req: DeleteTonerRequest,
                                beginError: Option<SqlxError>, delete: Outcome, commitError: Option<SqlxError>)
      returns (r: Result<Uuid, DeleteTonerError>)
      requires delete.Done? ==> delete.rowsAffected == (if req.id in toners then 1 else 0)
      modifies this
      ensures beginError.Some? ==> r == Err(DeleteUnknown)
      ensures beginError.None? && delete.Failed? ==>
                r == (if Exists(delete.error) then Err(NotFound(req.id)) else Err(DeleteUnknown))
      ensures r.Ok? <==> beginError.None? && delete.Done? && commitError.None?
      ensures r.Ok? ==> r.value == req.id && toners == old(toners) - {req.id}
      ensures r.Err? ==> toners == old(toners)
    {
      if beginError.Some? {
        return Err(DeleteUnknown);
      }
      var pending := RemoveToner(toners, req.id, delete);
      if pending.Err? {
        if Exists(pending.error) {
          return Err(NotFound(req.id));
        }
        return Err(DeleteUnknown);
      }
      if commitError.Some? {
        return Err(DeleteUnknown);
      }
      toners := pending.value.0;
      return Ok(pending.value.1);
    }

    /** `delete_toner` as evidently intended: a DELETE that touches no row
        means the toner is not there, and is answered with `NotFound`. */
    method DeleteToner(req: DeleteTonerRequest,
                       beginError: Option<SqlxError>, delete: Outcome, commitError: Option<SqlxError>)
      returns (r: Result<Uuid, DeleteTonerError>)
      requires delete.Done? ==> delete.rowsAffected == (if req.id in toners then 1 else 0)
      modifies this
      ensures beginError.None? && delete.Done? ==> (r == Err(NotFound(req.id)) <==> req.id !in old(toners))
      ensures beginError.Some? || delete.Failed? ==> r == Err(DeleteUnknown)
      ensures r.Ok? <==> beginError.None? && delete.Done? && req.id in old(toners) && commitError.None?
      ensures r.Ok? ==> r.value == req.id && toners == old(toners) - {req.id}
      ensures r.Err? ==> toners == old(toners)
    {
      if beginError.Some? {
        return Err(DeleteUnknown);
      }
      var pending := RemoveToner(toners, req.id, delete);
      if pending.Err? {
        return Err(DeleteUnknown);
      }
      if delete.rowsAffected == 0 {
        return Err(NotFound(req.id));
      }
      if commitError.Some? {
        return Err(DeleteUnknown);
      }
      toners := pending.value.0;
      return Ok(pending.value.1);
    }
  }

  /** `save_toner`: the INSERT of (id, name) inside the open transaction,
      giving the table as the transaction now sees it and the new id. */
  function SaveToner(table: map<Uuid, TonerName>, name: TonerName, freshId: Uuid, insert: Outcome)
    : (r: Result<(map<Uuid, TonerName>, Uuid), SqlxError>)
    requires insert.Done? ==> freshId !in table
    ensures r.Err? <==> insert.Failed?
    ensures r.Err? ==> r.error == insert.error
    ensures r.Ok? ==> r.value.1 == freshId && r.value.0.Keys == table.Keys + {freshId}
    ensures r.Ok? ==> r.value.0[freshId] == name && forall k :: k in table ==> r.value.0[k] == table[k]
  {
    if insert.Failed? then Err(insert.error) else Ok((table[freshId := name], freshId))
  }

  /** The private `delete_toner`: the DELETE inside the open transaction,
      answering the requested id (printed and parsed back) whatever the
      number of rows removed. */
  function RemoveToner(table: map<Uuid, TonerName>, id: Uuid, delete: Outcome)
    : (r: Result<(map<Uuid, TonerName>, Uuid), SqlxError>)
    ensures r.Err? <==> delete.Failed?
    ensures r.Err? ==> r.error == delete.error
    ensures r.Ok? ==> r.value.0.Keys == table.Keys - {id} && forall k :: k in r.value.0 ==> r.value.0[k] == table[k]
    ensures r.Ok? ==> r.value.1 == id
  {
    if delete.Failed? then Err(delete.error)
    else
      var text := id;
      assert ParseUuid(text).Some?;
      Ok((table - {id}, ParseUuid(text).value))
  }

  /** As written, deleting an id that names no toner succeeds and reports
      that id back: `NotFound` is never produced by an absent row. */
  method AbsentIdIsDeletedAsWritten() returns (r: Result<Uuid, DeleteTonerError>)
    ensures r == Ok(NIL_UUID)
  {
    var db := new Sqlite();
    r := db.DeleteTonerAsWritten(DeleteTonerRequest(NIL_UUID), None, Done(0), None);
  }

  /** With the row count checked, an absent id is `NotFound`. */
  method AbsentIdIsNotFound() returns (r: Result<Uuid, DeleteTonerError>)
    ensures r == Err(NotFound(NIL_UUID))
  {
    var db := new Sqlite();
    r := db.DeleteToner(DeleteTonerRequest(NIL_UUID), None, Done(0), None);
  }
}
